/**
 * components/Projects.tsx: the "Featured Projects" section of the home page. It
 * shows the first three stored projects, deletes by re-reading storage, and
 * shows at most three tags per card with a count of the rest.
 */
module ProjectsSection {
  import opened Wrappers
  import opened Records
  import opened Collections
  import opened Storage
  import opened ProjectData

  /** How many projects the section shows, and how many tags a card shows. */
  const FEATURED := 3
  const SHOWN_TAGS := 3

  /** The id "Manage Projects" and "Add Your First Project" navigate with: the empty string asks for the list view. */
  const MANAGE_PROJECT_ID := ""

  /** What the section renders: the empty state, or a grid of cards. */
  datatype SectionBody = EmptyState | Grid(cards: seq<Project>)

  /** `displayProjects.length > 0 ? grid : empty state`. */
  function Body(displayProjects: seq<Project>): (b: SectionBody)
    ensures b.EmptyState? <==> |displayProjects| == 0
    ensures b.Grid? ==> b.cards == displayProjects
  {
    if |displayProjects| > 0 then Grid(displayProjects) else EmptyState
  }

  /** The tag row of one card: the tags shown, and the `+k` badge when there is one. */
  datatype TagRow = TagRow(shown: seq<string>, badge: Option<nat>)

  /**
   * `tags.slice(0, 3)` and, when there are more than three tags, a badge counting
   * the rest; every tag is either shown or counted.
   */
  function Chips(tags: seq<string>): (row: TagRow)
    ensures row.shown <= tags && |row.shown| == if |tags| < SHOWN_TAGS then |tags| else SHOWN_TAGS
    ensures row.badge.Some? <==> |tags| > SHOWN_TAGS
    ensures |row.shown| + row.badge.GetOr(0) == |tags|
  {
    TagRow(Take(tags, SHOWN_TAGS), if |tags| > SHOWN_TAGS then Some(|tags| - SHOWN_TAGS) else None)
  }

  /** The state of the section. */
  class FeaturedProjects {
    var displayProjects: seq<Project>

    constructor ()
      ensures displayProjects == []
    {
      displayProjects := [];
    }

    /** `loadProjects`: the first three projects `getAllProjects()` returns, a prefix of them. */
    method LoadProjects(ls: LocalStorage)
      modifies this, ls`projects
      ensures displayProjects == Take(ProjectsLoad(old(ls.projects)).items, FEATURED)
      ensures ls.projects == old(ls.projects) || ls.projects == AfterLoad(old(ls.projects), ProjectsLoad(old(ls.projects)))
    {
      var all := GetAllProjects(ls);
      displayProjects := Take(all, FEATURED);
    }

    /**
     * `handleDelete`, `confirmed` being the answer to `window.confirm`. The
     * collection is read again from storage (not from what the section shows),
     * the id is filtered out, the rest is saved and the section reloads. After a
     * saved delete the id is neither stored nor shown; when the save is refused
     * the section shows what it would have shown before the delete, and the key
     * holds what the loads left there: its old value or the seed they wrote.
     */
    method HandleDelete(ls: LocalStorage, id: string, confirmed: bool) returns (saved: bool)
      modifies this, ls`projects
      ensures !confirmed ==> !saved && displayProjects == old(displayProjects) && ls.projects == old(ls.projects)
      ensures var remaining := RemoveId(ProjectsLoad(old(ls.projects)).items, ProjectId, id);
        saved ==> ls.projects == Written(remaining) && displayProjects == Take(remaining, FEATURED)
      ensures saved ==> (forall p :: p in displayProjects ==> p.id != id)
                        && (forall p :: p in ls.projects.parsed.items ==> p.id != id)
      ensures confirmed && !saved ==> displayProjects == Take(ProjectsLoad(old(ls.projects)).items, FEATURED)
      ensures confirmed && !saved ==>
                ls.projects == old(ls.projects) || ls.projects == AfterLoad(old(ls.projects), ProjectsLoad(old(ls.projects)))
    {
      saved := false;
      if confirmed {
        var all := GetAllProjects(ls);
        ProjectsLoadIdempotent(DEFAULT_PROJECTS, old(ls.projects));
        var updated := RemoveId(all, ProjectId, id);
        saved := SaveProjects(ls, updated);
        LoadProjects(ls);
        if saved {
          TakeIsPrefix(updated, FEATURED);
        }
      }
    }
  }

  /** What a prefix of a collection holds, the collection holds. */
  lemma TakeIsPrefix(xs: seq<Project>, n: nat)
    ensures forall p :: p in Take(xs, n) ==> p in xs
  {
    var t := Take(xs, n);
    forall p | p in t ensures p in xs {
      var k :| 0 <= k < |t| && t[k] == p;
      assert xs[k] == p;
    }
  }
}
