/**
 * The top-level component (App.tsx): the preloader gate, the current view and
 * selected post with the five handlers that change them, the dispatch from the
 * view to the page, and the wiring of those handlers into the components'
 * callbacks.
 */
module App {
  import opened Types
  import CommandPalette
  import BlogPostView
  import BlogSection
  import AllBlogsView
  import Navigation

  /** `currentView` and `selectedPost`. */
  datatype AppState = AppState(currentView: ViewState, selectedPost: Option<BlogPost>)

  const Initial := AppState(HOME, None)

  /** `handleOpenPost`. */
  function OpenPost(s: AppState, post: BlogPost): AppState {
    AppState(BLOG_POST, Some(post))
  }

  /** `handleGoHome`. */
  function GoHome(s: AppState): AppState {
    AppState(HOME, None)
  }

  /** `handleViewAllProjects`. */
  function ViewAllProjects(s: AppState): AppState {
    s.(currentView := ALL_PROJECTS)
  }

  /** `handleViewAllBlogs`. */
  function ViewAllBlogs(s: AppState): AppState {
    s.(currentView := ALL_BLOGS)
  }

  /** `changeView`, the palette's generic switch: only HOME forgets the post. */
  function ViewChanged(s: AppState, view: ViewState): AppState {
    AppState(view, if view == HOME then None else s.selectedPost)
  }

  /** A call of one of the five handlers. */
  datatype Handler =
    | HandleOpenPost(post: BlogPost)
    | HandleGoHome
    | HandleViewAllProjects
    | HandleViewAllBlogs
    | HandleChangeView(view: ViewState)

  function Step(s: AppState, h: Handler): AppState {
    match h
    case HandleOpenPost(p) => OpenPost(s, p)
    case HandleGoHome => GoHome(s)
    case HandleViewAllProjects => ViewAllProjects(s)
    case HandleViewAllBlogs => ViewAllBlogs(s)
    case HandleChangeView(v) => ViewChanged(s, v)
  }

  /** The state after the handler calls `hs`, in order. */
  function Run(s: AppState, hs: seq<Handler>): AppState
    decreases |hs|
  {
    if |hs| == 0 then s else Run(Step(s, hs[0]), hs[1..])
  }

  /** Opening a post shows it, from any state. */
  lemma OpenPostShowsIt(s: AppState, post: BlogPost)
    ensures OpenPost(s, post) == AppState(BLOG_POST, Some(post))
  {
  }

  /** Going home resets to the initial state from anywhere; a second time changes nothing. */
  lemma GoHomeResets(s: AppState)
    ensures GoHome(s) == Initial
    ensures GoHome(GoHome(s)) == GoHome(s)
  {
  }

  /** The two archive handlers switch the view and keep the selected post. */
  lemma ArchivesKeepPost(s: AppState)
    ensures ViewAllProjects(s) == AppState(ALL_PROJECTS, s.selectedPost)
    ensures ViewAllBlogs(s) == AppState(ALL_BLOGS, s.selectedPost)
  {
  }

  /** `changeView(v)` shows `v`; a selected post is dropped exactly when `v` is HOME. */
  lemma ChangeViewClearsOnlyOnHome(s: AppState, view: ViewState)
    ensures ViewChanged(s, view).currentView == view
    ensures view != HOME ==> ViewChanged(s, view).selectedPost == s.selectedPost
    ensures view == HOME ==> ViewChanged(s, view).selectedPost.None?
    ensures s.selectedPost.Some? ==> (ViewChanged(s, view).selectedPost.None? <==> view == HOME)
  {
  }

  /** The single-post view always has a post to show. */
  predicate PostShown(s: AppState) {
    s.currentView == BLOG_POST ==> s.selectedPost.Some?
  }

  /** Every handler call keeps `PostShown`, except `changeView(BLOG_POST)`. */
  lemma StepKeepsPostShown(s: AppState, h: Handler)
    requires PostShown(s) && h != HandleChangeView(BLOG_POST)
    ensures PostShown(Step(s, h))
  {
  }

  /** Any sequence of handler calls without `changeView(BLOG_POST)` keeps `PostShown`. */
  lemma {:induction false} RunKeepsPostShown(s: AppState, hs: seq<Handler>)
    requires PostShown(s)
    requires forall k :: 0 <= k < |hs| ==> hs[k] != HandleChangeView(BLOG_POST)
    ensures PostShown(Run(s, hs))
    decreases |hs|
  {
    if |hs| > 0 {
      StepKeepsPostShown(s, hs[0]);
      RunKeepsPostShown(Step(s, hs[0]), hs[1..]);
    }
  }

  /** Without the exception the invariant breaks at once. */
  lemma ChangeViewToPostBreaksPostShown()
    ensures !PostShown(Step(Initial, HandleChangeView(BLOG_POST)))
  {
  }

  /**
   * The converse is not kept: with a post open, the palette's `archive`
   * command shows the project archive and leaves the post selected.
   */
  lemma SelectedPostOutlivesItsView(post: BlogPost)
    ensures CommandPalette.Commands[4].id == "archive"
    ensures var s := React(OpenPost(Initial, post), Palette(CommandPalette.Commands[4].action));
      s.selectedPost == Some(post) && s.currentView == ALL_PROJECTS
  {
  }

  /** The section ids of the home page, top to bottom (the tech-stack band has none). */
  const HomeSections: seq<string> :=
    ["hero", "about", "story", "experience", "projects", "lab", "blog", "guestbook", "contact"]

  /** What `main` holds. */
  datatype Page =
    | HomePage(sections: seq<string>)
    | PostPage(article: Option<BlogPostView.Article>)
    | ProjectArchive
    | BlogArchive

  /** The dispatch on the current view (the archive of posts is the fall-through case). */
  function PageFor(s: AppState): Page {
    if s.currentView == HOME then HomePage(HomeSections)
    else if s.currentView == BLOG_POST then PostPage(BlogPostView.View(s.selectedPost))
    else if s.currentView == ALL_PROJECTS then ProjectArchive
    else BlogArchive
  }

  /** Each view has its own page; every view but the first three gets the blog archive. */
  lemma DispatchIsExclusive(s: AppState)
    ensures PageFor(s).HomePage? <==> s.currentView == HOME
    ensures PageFor(s).PostPage? <==> s.currentView == BLOG_POST
    ensures PageFor(s).ProjectArchive? <==> s.currentView == ALL_PROJECTS
    ensures PageFor(s).BlogArchive? <==> s.currentView !in {HOME, BLOG_POST, ALL_PROJECTS}
  {
  }

  /** Under `PostShown`, the post page renders the selected post, never the empty guard. */
  lemma PostPageShowsSelected(s: AppState)
    requires PostShown(s) && s.currentView == BLOG_POST
    ensures PageFor(s).article.Some?
    ensures PageFor(s).article.value.title == s.selectedPost.value.title
    ensures PageFor(s).article.value.body == BlogPostView.Render(s.selectedPost.value.content)
  {
  }

  /** A callback as the components call it, with the handler `App` passes in for it. */
  datatype UiEvent =
    | NavBar(effect: Navigation.Effect)                  // `onViewChange`
    | Palette(action: CommandPalette.Action)             // `changeView`, for ChangeView actions
    | Section(sectionCall: BlogSection.Callback)           // `onReadPost`, `onViewAll`
    | Archive(archiveCall: AllBlogsView.Callback)          // `onBack`, `onReadPost`
    | PostBack                                           // the post page's `onBack`
    | ProjectsBack                                       // the project archive's `onBack`
    | GalleryViewAll                                     // the project gallery's `onViewAll`

  /** The wiring of App.tsx: which handler, if any, a callback reaches. */
  function Wired(ev: UiEvent): Option<Handler> {
    match ev
    case NavBar(e) => if e == Navigation.RequestHome then Some(HandleGoHome) else None
    case Palette(a) => if a.ChangeView? then Some(HandleChangeView(a.view)) else None
    case Section(c) =>
      if c.ReadPost? then Some(HandleOpenPost(c.post)) else Some(HandleViewAllBlogs)
    case Archive(c) =>
      if c.ReadPost? then Some(HandleOpenPost(c.post)) else Some(HandleGoHome)
    case PostBack => Some(HandleGoHome)
    case ProjectsBack => Some(HandleGoHome)
    case GalleryViewAll => Some(HandleViewAllProjects)
  }

  /** The state after a callback. */
  function React(s: AppState, ev: UiEvent): AppState {
    match Wired(ev)
    case None => s
    case Some(h) => Step(s, h)
  }

  /** Either archive button of the blog section, given `onViewAll`, opens the blog archive. */
  lemma ArchiveButtonShowsBlogs(s: AppState)
    ensures BlogSection.ArchiveClicked(true).Some?
    ensures React(s, Section(BlogSection.ArchiveClicked(true).value)) == AppState(ALL_BLOGS, s.selectedPost)
  {
  }

  /** No command of the palette reaches `changeView(BLOG_POST)`. */
  lemma PaletteNeverOpensPostView(k: nat)
    requires k < |CommandPalette.Commands|
    ensures Wired(Palette(CommandPalette.Commands[k].action)) != Some(HandleChangeView(BLOG_POST))
  {
    CommandPalette.CommandTargets();
  }

  /** A callback the components can make: the palette only runs its own commands' actions. */
  predicate Possible(ev: UiEvent) {
    ev.Palette? ==> exists k :: 0 <= k < |CommandPalette.Commands| && CommandPalette.Commands[k].action == ev.action
  }

  /** So, as wired, every callback of every component keeps `PostShown`. */
  lemma CallbackKeepsPostShown(s: AppState, ev: UiEvent)
    requires PostShown(s) && Possible(ev)
    ensures PostShown(React(s, ev))
  {
    if ev.Palette? {
      var k :| 0 <= k < |CommandPalette.Commands| && CommandPalette.Commands[k].action == ev.action;
      PaletteNeverOpensPostView(k);
    }
    if Wired(ev).Some? {
      StepKeepsPostShown(s, Wired(ev).value);
    }
  }

  /** The state after the callbacks `evs`, in order. */
  function ReactAll(s: AppState, evs: seq<UiEvent>): AppState
    decreases |evs|
  {
    if |evs| == 0 then s else ReactAll(React(s, evs[0]), evs[1..])
  }

  /** Any sequence of callbacks the components can make keeps `PostShown`. */
  lemma {:induction false} ReactAllKeepsPostShown(s: AppState, evs: seq<UiEvent>)
    requires PostShown(s)
    requires forall k :: 0 <= k < |evs| ==> Possible(evs[k])
    ensures PostShown(ReactAll(s, evs))
    decreases |evs|
  {
    if |evs| > 0 {
      CallbackKeepsPostShown(s, evs[0]);
      ReactAllKeepsPostShown(React(s, evs[0]), evs[1..]);
    }
  }

  /** A key press in the palette, passed on to the view state. */
  lemma PaletteKeyKeepsPostShown(s: AppState, p: CommandPalette.PaletteState, e: CommandPalette.KeyEvent)
    requires PostShown(s)
    ensures var fired := CommandPalette.OnKeyDown(p, e).1;
      fired.Some? ==> PostShown(React(s, Palette(fired.value)))
  {
    var fired := CommandPalette.OnKeyDown(p, e).1;
    if fired.Some? {
      CommandPalette.FiredActionIsCommand(p, e);
      CallbackKeepsPostShown(s, Palette(fired.value));
    }
  }

  /** A click on a palette row, passed on to the view state. */
  lemma PaletteClickKeepsPostShown(s: AppState, p: CommandPalette.PaletteState, k: nat)
    requires PostShown(s) && k < |CommandPalette.Filtered(p.query)|
    ensures PostShown(React(s, Palette(CommandPalette.OnItemClick(p, k).1.value)))
  {
    CommandPalette.ClickedActionIsCommand(p, k);
    CallbackKeepsPostShown(s, Palette(CommandPalette.OnItemClick(p, k).1.value));
  }

  /**
   * A nav click works from every view: off the home page it first goes home
   * (once), and the section it scrolls to is one the home page has.
   */
  lemma NavClickReachesSection(s: AppState, k: nat)
    requires k < |Navigation.NavTargets|
    ensures var effects := Navigation.ScrollTo(s.currentView, Navigation.NavTargets[k]);
      var after := if effects[0] == Navigation.RequestHome then React(s, NavBar(effects[0])) else s;
      PageFor(after).HomePage? && Navigation.NavTargets[k] in PageFor(after).sections
  {
  }

  /** The sections the palette's commands scroll to are all on the home page. */
  lemma PaletteSectionsExist(k: nat)
    requires k < |CommandPalette.Commands|
    requires CommandPalette.Commands[k].action.ChangeView?
    requires CommandPalette.Commands[k].action.scroll.ScrollToSection?
    ensures CommandPalette.Commands[k].action.view == HOME
    ensures CommandPalette.Commands[k].action.scroll.sectionId in HomeSections
  {
  }

  /** The component: the preloader flag and the view state. */
  class App {
    var isLoading: bool
    var currentView: ViewState
    var selectedPost: Option<BlogPost>

    function State(): AppState
      reads this
    {
      AppState(currentView, selectedPost)
    }

    /** The page in `main`, once the preloader is gone. */
    function MainContent(): (r: Option<Page>)
      reads this
      ensures r.Some? <==> !isLoading
      ensures r.Some? ==> r.value == PageFor(State())
    {
      if isLoading then None else Some(PageFor(State()))
    }

    constructor ()
      ensures isLoading && State() == Initial && PostShown(State())
    {
      isLoading, currentView, selectedPost := true, HOME, None;
    }

    /** The preloader's `onComplete`. */
    method PreloaderComplete()
      modifies this
      ensures !isLoading && State() == old(State())
    {
      isLoading := false;
    }

    method HandleOpenPost(post: BlogPost)
      modifies this
      ensures State() == OpenPost(old(State()), post) && isLoading == old(isLoading)
    {
      selectedPost := Some(post);
      currentView := BLOG_POST;
    }

    method HandleGoHome()
      modifies this
      ensures State() == GoHome(old(State())) && isLoading == old(isLoading)
    {
      currentView := HOME;
      selectedPost := None;
    }

    method HandleViewAllProjects()
      modifies this
      ensures State() == ViewAllProjects(old(State())) && isLoading == old(isLoading)
    {
      currentView := ALL_PROJECTS;
    }

    method HandleViewAllBlogs()
      modifies this
      ensures State() == ViewAllBlogs(old(State())) && isLoading == old(isLoading)
    {
      currentView := ALL_BLOGS;
    }

    method ChangeView(view: ViewState)
      modifies this
      ensures State() == ViewChanged(old(State()), view) && isLoading == old(isLoading)
    {
      currentView := view;
      if view == HOME {
        selectedPost := None;
      }
    }
  }
}
