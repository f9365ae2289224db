/**
 * components/ProjectPage.tsx: the projects page with its list, detail and form
 * views. Saving a form prepends a new project or replaces the one being edited;
 * deleting filters the collection. Both write the collection back through
 * `saveProjects`.
 */
module ProjectPage {
  import opened Wrappers
  import opened Records
  import opened Collections
  import opened Text
  import opened Storage
  import opened ProjectData

  datatype View = List | Detail | Form

  /**
   * The form's `Partial<Project>`: every field may be absent. Tags and features
   * are edited as text (`tagsInput`, `featuresInput`), and saving never reads the
   * draft's own arrays, so they are not part of it.
   */
  datatype ProjectDraft = ProjectDraft(
    id: Option<string>,
    title: Option<string>,
    description: Option<string>,
    longDescription: Option<string>,
    imageUrl: Option<string>,
    demoUrl: Option<string>,
    repoUrl: Option<string>,
    challenges: Option<string>)

  /** The draft the form starts with, and the one "Add Project" resets it to: every text field empty, no id. */
  const BLANK_DRAFT := ProjectDraft(None, Some(""), Some(""), Some(""), Some(""), Some(""), Some(""), Some(""))

  const UNTITLED_PROJECT := "Untitled Project"
  const DEFAULT_PROJECT_IMAGE := "https://picsum.photos/1200/800"

  /** `setFormData(project)`: editing starts from the whole record. */
  function DraftOf(p: Project): (d: ProjectDraft)
    ensures d.id == Some(p.id)
  {
    ProjectDraft(Some(p.id), Some(p.title), Some(p.description), p.longDescription,
                 Some(p.imageUrl), p.demoUrl, p.repoUrl, p.challenges)
  }

  /** The text the edit form shows for a project's features. */
  function FeaturesText(p: Project): string {
    if p.features.Some? then ShowFeatures(p.features.value) else ""
  }

  /**
   * `processedData` in `handleSave`: the record built from the draft and the two
   * list inputs. A falsy id is replaced by `freshId` (the `Date.now()` string);
   * a falsy title, description, long description or image gets its default; the
   * links and challenges are taken as they are; tags and features are parsed.
   */
  function Processed(d: ProjectDraft, tagsInput: string, featuresInput: string, freshId: string): (p: Project)
    ensures p.id == (if TruthyOpt(d.id) then d.id.value else freshId)
    ensures TruthyOpt(d.title) ==> p.title == d.title.value
    ensures !TruthyOpt(d.title) ==> p.title == UNTITLED_PROJECT
    ensures p.description == (if TruthyOpt(d.description) then d.description.value else "")
    ensures p.longDescription == Some(if TruthyOpt(d.longDescription) then d.longDescription.value else "")
    ensures TruthyOpt(d.imageUrl) ==> p.imageUrl == d.imageUrl.value
    ensures !TruthyOpt(d.imageUrl) ==> p.imageUrl == DEFAULT_PROJECT_IMAGE
    ensures p.demoUrl == d.demoUrl && p.repoUrl == d.repoUrl && p.challenges == d.challenges
    ensures p.tags == ParseTags(tagsInput) && p.features == Some(ParseFeatures(featuresInput))
    ensures Truthy(p.title) && Truthy(p.imageUrl)
  {
    Project(
      id := OrElse(d.id, freshId),
      title := OrElse(d.title, UNTITLED_PROJECT),
      description := OrElse(d.description, ""),
      longDescription := Some(OrElse(d.longDescription, "")),
      tags := ParseTags(tagsInput),
      imageUrl := OrElse(d.imageUrl, DEFAULT_PROJECT_IMAGE),
      demoUrl := d.demoUrl,
      repoUrl := d.repoUrl,
      features := Some(ParseFeatures(featuresInput)),
      challenges := d.challenges)
  }

  /**
   * `updatedProjects` in `handleSave`: with a truthy draft id, every project with
   * that id is replaced by `p`; otherwise `p` is put in front.
   */
  function SavedCollection(projects: seq<Project>, d: ProjectDraft, p: Project): seq<Project> {
    if TruthyOpt(d.id) then ReplaceId(projects, ProjectId, d.id.value, _ => p)
    else [p] + projects
  }

  /** Saving a draft without an id prepends the new project: one more record, the others after it in order. */
  lemma CreatePrepends(projects: seq<Project>, d: ProjectDraft, p: Project)
    requires !TruthyOpt(d.id)
    ensures SavedCollection(projects, d, p) == [p] + projects
    ensures |SavedCollection(projects, d, p)| == |projects| + 1
  {
  }

  /**
   * Saving a draft with an id replaces each project with that id by the whole new
   * record, in its place; every other project stays where it was, and an id no
   * project has changes nothing.
   */
  lemma EditReplaces(projects: seq<Project>, d: ProjectDraft, p: Project)
    requires TruthyOpt(d.id)
    ensures var r := SavedCollection(projects, d, p);
      |r| == |projects| &&
      (forall i :: 0 <= i < |r| && projects[i].id == d.id.value ==> r[i] == p) &&
      (forall i :: 0 <= i < |r| && projects[i].id != d.id.value ==> r[i] == projects[i])
    ensures d.id.value !in Ids(projects, ProjectId) ==> SavedCollection(projects, d, p) == projects
  {
    if d.id.value !in Ids(projects, ProjectId) {
      ReplaceMissingIdIsIdentity(projects, ProjectId, d.id.value, _ => p);
    }
  }

  /**
   * Saving keeps the ids distinct: an edit keeps every id in its place, and a new
   * project gets an id (`Date.now()`) that no project has yet.
   */
  lemma SaveKeepsDistinct(projects: seq<Project>, d: ProjectDraft, tagsInput: string, featuresInput: string, freshId: string)
    requires DistinctIds(projects, ProjectId)
    requires !TruthyOpt(d.id) ==> freshId !in Ids(projects, ProjectId)
    ensures DistinctIds(SavedCollection(projects, d, Processed(d, tagsInput, featuresInput, freshId)), ProjectId)
  {
    var p := Processed(d, tagsInput, featuresInput, freshId);
    if TruthyOpt(d.id) {
      ReplaceIdKeepsIds(projects, ProjectId, d.id.value, _ => p);
    } else {
      PrependFreshKeepsDistinct(p, projects, ProjectId);
    }
  }

  /**
   * Opening a project in the form and saving it untouched gives back the same
   * record, provided its optional text fields are present and it has well-formed
   * tags and features (non-empty, trimmed, free of the separator). The record
   * keeps its place in the collection.
   */
  lemma EditSaveRoundTrip(p: Project, freshId: string)
    requires Truthy(p.id) && Truthy(p.title) && Truthy(p.imageUrl)
    requires p.longDescription.Some? && p.features.Some?
    requires forall i :: 0 <= i < |p.tags| ==> p.tags[i] != "" && IsTrimmed(p.tags[i]) && ',' !in p.tags[i]
    requires forall i :: 0 <= i < |p.features.value| ==>
               p.features.value[i] != "" && IsTrimmed(p.features.value[i]) && '\n' !in p.features.value[i]
    ensures Processed(DraftOf(p), ShowTags(p.tags), FeaturesText(p), freshId) == p
  {
    TagsRoundTrip(p.tags);
    FeaturesRoundTrip(p.features.value);
  }

  /** The state of one mounted `ProjectPage`. */
  class ProjectPageView {
    var view: View
    var projects: seq<Project>
    var currentProject: Option<Project>
    var formData: ProjectDraft
    var tagsInput: string
    var featuresInput: string

    /** The `useState` initial values. */
    constructor ()
      ensures view == List && projects == [] && currentProject == None
      ensures formData == BLANK_DRAFT && tagsInput == "" && featuresInput == ""
    {
      view := List;
      projects := [];
      currentProject := None;
      formData := BLANK_DRAFT;
      tagsInput := "";
      featuresInput := "";
    }

    /**
     * The mount effect for a `projectId` prop: the collection is loaded and shown
     * as `Show` says.
     */
    method Mount(ls: LocalStorage, projectId: Option<string>)
      modifies this`projects, this`view, this`currentProject, ls`projects
      ensures ls.projects == old(ls.projects) || ls.projects == AfterLoad(old(ls.projects), ProjectsLoad(old(ls.projects)))
      ensures Shown(ProjectsLoad(old(ls.projects)).items, projectId, old(currentProject))
    {
      var all := GetAllProjects(ls);
      Show(all, projectId);
    }

    /**
     * The view the mount effect leaves for the loaded collection `all`: an id found
     * in it opens the detail view on the first project with that id; a null, empty
     * or unknown id opens the list, leaving `currentProject` as it was.
     */
    ghost predicate Shown(all: seq<Project>, projectId: Option<string>, previous: Option<Project>)
      reads this`projects, this`view, this`currentProject
    {
      var found := FindId(all, ProjectId, projectId.GetOr(""));
      projects == all &&
      if TruthyOpt(projectId) && found.Some? then view == Detail && currentProject == found
      else view == List && currentProject == previous
    }

    /** What the mount effect does once `getAllProjects()` has returned `all`. */
    method Show(all: seq<Project>, projectId: Option<string>)
      modifies this`projects, this`view, this`currentProject
      ensures Shown(all, projectId, old(currentProject))
    {
      projects := all;
      if TruthyOpt(projectId) {
        var found := FindId(all, ProjectId, projectId.value);
        if found.Some? {
          currentProject := found;
          view := Detail;
        } else {
          view := List;
        }
      } else {
        view := List;
      }
    }

    /** A card click: the detail view on that project. */
    method Open(p: Project)
      modifies this`currentProject, this`view
      ensures currentProject == Some(p) && view == Detail
    {
      currentProject := Some(p);
      view := Detail;
    }

    /** The back and cancel buttons: the list view. */
    method BackToList()
      modifies this`view
      ensures view == List
    {
      view := List;
    }

    /** `handleCreateNew`: the form, on a blank draft with empty tag and feature inputs. */
    method CreateNew()
      modifies this`formData, this`tagsInput, this`featuresInput, this`view
      ensures formData == BLANK_DRAFT && tagsInput == "" && featuresInput == "" && view == Form
    {
      formData := BLANK_DRAFT;
      tagsInput := "";
      featuresInput := "";
      view := Form;
    }

    /** `handleEdit`: the form, on the project, with its tags joined by ", " and its features one per line. */
    method Edit(p: Project)
      modifies this`formData, this`tagsInput, this`featuresInput, this`view
      ensures formData == DraftOf(p) && view == Form
      ensures tagsInput == ShowTags(p.tags) && featuresInput == FeaturesText(p)
    {
      formData := DraftOf(p);
      tagsInput := ShowTags(p.tags);
      featuresInput := FeaturesText(p);
      view := Form;
    }

    /**
     * `handleDelete`, `confirmed` being the answer to `window.confirm`. A confirmed
     * delete drops every project with that id, keeps the rest in order, saves
     * them, and leaves the detail view when it was showing that project. `saved`
     * is false when nothing was saved (declined, or the write was refused).
     */
    method Delete(ls: LocalStorage, id: string, confirmed: bool) returns (saved: bool)
      modifies this`projects, this`view, this`currentProject, ls`projects
      ensures !confirmed ==>
                !saved && projects == old(projects) && view == old(view) &&
                currentProject == old(currentProject) && ls.projects == old(ls.projects)
      ensures confirmed ==> projects == RemoveId(old(projects), ProjectId, id)
      ensures saved ==> ls.projects == Written(projects)
      ensures !saved ==> ls.projects == old(ls.projects)
      ensures var closes := confirmed && old(view) == Detail && old(currentProject).Some? && old(currentProject).value.id == id;
        if closes then view == List && currentProject == None
        else view == old(view) && currentProject == old(currentProject)
    {
      saved := false;
      if confirmed {
        var updated := RemoveId(projects, ProjectId, id);
        projects := updated;
        saved := SaveProjects(ls, updated);
        if view == Detail && currentProject.Some? && currentProject.value.id == id {
          view := List;
          currentProject := None;
        }
      }
    }

    /**
     * `handleSave`, `freshId` being `Date.now().toString()` at that moment. The
     * collection becomes `SavedCollection` of the processed record, is saved, and
     * the detail view opens on that record.
     */
    method Save(ls: LocalStorage, freshId: string) returns (saved: bool)
      modifies this`projects, this`view, this`currentProject, ls`projects
      ensures var p := Processed(old(formData), old(tagsInput), old(featuresInput), freshId);
        projects == SavedCollection(old(projects), old(formData), p) && currentProject == Some(p)
      ensures view == Detail
      ensures saved ==> ls.projects == Written(projects)
      ensures !saved ==> ls.projects == old(ls.projects)
    {
      var p := Processed(formData, tagsInput, featuresInput, freshId);
      var updated := SavedCollection(projects, formData, p);
      projects := updated;
      saved := SaveProjects(ls, updated);
      currentProject := Some(p);
      view := Detail;
    }
  }
}
