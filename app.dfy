/**
 * App.tsx: the single-page shell. It holds the theme flag, the current page and
 * the project selected for the project page, and renders the body of the
 * current page.
 */
module App {
  import opened Wrappers
  import opened Records

  const HOME := "home"
  const ABOUT := "about"
  const BLOG := "blog"
  const PROJECT_DETAILS := "project-details"

  /** The pages that render a body. */
  const PAGES: set<string> := {HOME, ABOUT, BLOG, PROJECT_DETAILS}

  /**
   * `sectionIdOrProjectId || null`: the id when it is given and not empty, and
   * no selection otherwise. The "Manage Projects" buttons pass the empty id, so
   * they select nothing and the project page opens on its list.
   */
  function Selection(arg: Option<string>): (sel: Option<string>)
    ensures sel.Some? <==> TruthyOpt(arg)
    ensures sel.Some? ==> sel == arg
  {
    if TruthyOpt(arg) then arg else None
  }

  /** The body `main` renders: the home sections, the about page, the blog, or the project page for a selection. */
  datatype PageBody = HomeBody | AboutBody | BlogBody | ProjectBody(projectId: Option<string>)

  /**
   * The four `currentPage === …` conditionals, in order. For every page exactly
   * one of them holds when the page is one of the four, and none otherwise; the
   * project page receives the selection.
   */
  function Bodies(page: string, selected: Option<string>): (bodies: seq<PageBody>)
    ensures |bodies| <= 1
    ensures |bodies| == 1 <==> page in PAGES
    ensures page == HOME ==> bodies == [HomeBody]
    ensures page == ABOUT ==> bodies == [AboutBody]
    ensures page == BLOG ==> bodies == [BlogBody]
    ensures page == PROJECT_DETAILS ==> bodies == [ProjectBody(selected)]
  {
    (if page == HOME then [HomeBody] else [])
    + (if page == ABOUT then [AboutBody] else [])
    + (if page == BLOG then [BlogBody] else [])
    + (if page == PROJECT_DETAILS then [ProjectBody(selected)] else [])
  }

  /** The shell's state. */
  class AppShell {
    var isDark: bool
    var currentPage: string
    var selectedProjectId: Option<string>

    /** The initial state: dark theme, the home page, no selected project. */
    constructor ()
      ensures isDark && currentPage == HOME && selectedProjectId == None
    {
      isDark := true;
      currentPage := HOME;
      selectedProjectId := None;
    }

    /** `toggleTheme`. */
    method ToggleTheme()
      modifies this`isDark
      ensures isDark == !old(isDark)
    {
      isDark := !isDark;
    }

    /** Toggling the theme twice leaves it as it was. */
    method ToggleTwice()
      modifies this`isDark
      ensures isDark == old(isDark)
    {
      ToggleTheme();
      ToggleTheme();
    }

    /**
     * `handleNavigate(page, sectionIdOrProjectId)`. Every navigation sets the
     * current page; only the project page changes the selection, to the given id
     * or to none. Scrolling is not modelled.
     */
    method HandleNavigate(page: string, arg: Option<string>)
      modifies this`currentPage, this`selectedProjectId
      ensures currentPage == page
      ensures page == PROJECT_DETAILS ==> selectedProjectId == Selection(arg)
      ensures page != PROJECT_DETAILS ==> selectedProjectId == old(selectedProjectId)
    {
      if page == PROJECT_DETAILS {
        selectedProjectId := Selection(arg);
        currentPage := PROJECT_DETAILS;
        return;
      }
      currentPage := page;
    }

    /** What the shell renders now. */
    function Rendered(): (bodies: seq<PageBody>)
      reads this
      ensures |bodies| == 1 <==> currentPage in PAGES
    {
      Bodies(currentPage, selectedProjectId)
    }

    /**
     * A card click on the home page (`handleNavigate('project-details', id)`)
     * renders the project page and nothing else, for that id when it is not empty.
     */
    method OpenProject(id: string)
      modifies this`currentPage, this`selectedProjectId
      ensures Rendered() == [ProjectBody(if id == "" then None else Some(id))]
    {
      HandleNavigate(PROJECT_DETAILS, Some(id));
    }

    /** The project page's back button (`handleNavigate('home', 'projects')`): home again, the selection kept. */
    method BackFromProjects()
      modifies this`currentPage, this`selectedProjectId
      ensures Rendered() == [HomeBody]
      ensures selectedProjectId == old(selectedProjectId)
    {
      HandleNavigate(HOME, Some("projects"));
    }
  }
}
