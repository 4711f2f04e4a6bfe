/**
 * The command palette (components/CommandPalette.tsx): a fixed list of
 * commands, a case-insensitive search over their labels, a selection index
 * moved with the arrow keys modulo the number of matches, and the shortcut
 * that opens and closes it.
 */
module CommandPalette {
  import opened Types
  import opened Text
  import opened Seqs

  datatype Category = NAVIGATION | SOCIAL | SYSTEM

  /** The scroll a command schedules after switching the view. */
  datatype Scroll = NoScroll | ScrollToTop | ScrollToSection(sectionId: string)

  /** What running a command does; only `ChangeView` reaches the view controller. */
  datatype Action =
    | ChangeView(view: ViewState, scroll: Scroll)
    | OpenWindow(url: string)
    | CopyEmail(address: string)

  datatype Command = Command(
    id: string,
    labelText: string,  // `label` in the source; a reserved word here
    subLabel: Option<string>,
    category: Category,
    action: Action)

  /** The ten commands, in definition order. */
  const Commands: seq<Command> := [
    Command("home", "Go Home", Some("~/root"), NAVIGATION, ChangeView(HOME, ScrollToTop)),
    Command("story", "My Story", Some("Origin Logs"), NAVIGATION, ChangeView(HOME, ScrollToSection("story"))),
    Command("projects", "View Projects", Some("./projects"), NAVIGATION, ChangeView(HOME, ScrollToSection("projects"))),
    Command("lab", "R&D Lab", Some("Current Experiments"), NAVIGATION, ChangeView(HOME, ScrollToSection("lab"))),
    Command("archive", "Project Archive", Some("View all projects"), NAVIGATION, ChangeView(ALL_PROJECTS, NoScroll)),
    Command("blog", "Read Blog", Some("./dev_logs"), NAVIGATION, ChangeView(HOME, ScrollToSection("blog"))),
    Command("blog_archive", "Blog Archive", Some("View all posts"), NAVIGATION, ChangeView(ALL_BLOGS, NoScroll)),
    Command("contact", "Contact Me", Some("Send email"), SOCIAL, ChangeView(HOME, ScrollToSection("contact"))),
    Command("gh", "GitHub", Some("Open profile"), SOCIAL, OpenWindow("https://github.com")),
    Command("copy_email", "Copy Email", Some("aimal@example.com"), SYSTEM, CopyEmail("aimal@example.com"))
  ]

  /** The ten commands have pairwise distinct ids (they are the list's React keys). */
  lemma CommandIdsDistinct()
    ensures |Commands| == 10
    ensures forall i, j :: 0 <= i < j < |Commands| ==> Commands[i].id != Commands[j].id
  {
  }

  /** No command switches to the single-post view (which could show no post). */
  lemma CommandTargets()
    ensures forall k :: 0 <= k < |Commands| && Commands[k].action.ChangeView? ==>
      Commands[k].action.view in {HOME, ALL_PROJECTS, ALL_BLOGS}
  {
  }

  /** The lowercased label or sub-label contains the lowercased query. */
  predicate Matches(c: Command, query: string) {
    Includes(ToLower(c.labelText), ToLower(query)) ||
    (c.subLabel.Some? && Includes(ToLower(c.subLabel.value), ToLower(query)))
  }

  /** `filteredCommands`: every command for the empty query, else the matching ones. */
  function Filtered(query: string): seq<Command> {
    if query == "" then Commands else Filter(Commands, c => Matches(c, query))
  }

  /** What the search shows: all commands for the empty query, otherwise exactly the matches, in order. */
  lemma FilteredSpec(query: string, c: Command)
    ensures query == "" ==> Filtered(query) == Commands
    ensures query != "" ==> (c in Filtered(query) <==> c in Commands && Matches(c, query))
    ensures IsSubsequence(Filtered(query), Commands)
  {
    if query != "" {
      FilterMembership(Commands, c => Matches(c, query), c);
      FilterIsSubsequence(Commands, c => Matches(c, query));
    } else {
      FilterIsSubsequence(Commands, c => true);
      FilterAll(Commands, c => true);
    }
  }

  /** A JavaScript number as the selection index can hold it: an integer, or NaN after `x % 0`. */
  datatype Index = Int(v: int) | NaN

  /** `a % n` with JavaScript semantics: NaN for a zero divisor, sign of the dividend otherwise. */
  function Rem(a: Index, n: int): (r: Index)
    ensures r.Int? <==> a.Int? && n != 0
    ensures r.Int? && a.v >= 0 ==> 0 <= r.v < (if n > 0 then n else -n)
  {
    if a.NaN? || n == 0 then NaN
    else
      var m := if n > 0 then n else -n;
      if a.v >= 0 then Int(a.v % m) else Int(-((-a.v) % m))
  }

  /** `q` times `n`, a term for quantifiers over quotients to hang on. */
  function Times(q: int, n: int): int {
    q * n
  }

  /**
   * `Rem` is the truncated remainder of JavaScript: smaller than the divisor
   * in magnitude, zero or of the dividend's sign, and differing from the
   * dividend by a multiple of the divisor.
   */
  lemma RemIsTruncated(a: int, n: int)
    requires n != 0
    ensures var r := Rem(Int(a), n).v;
      (-n < r < n || n < r < -n)
      && (r == 0 || (r < 0 <==> a < 0))
      && exists q :: a - r == Times(q, n)
  {
    var m := if n > 0 then n else -n;
    var r := Rem(Int(a), n).v;
    if a >= 0 {
      assert a == Times(a / m, m) + a % m;
      assert a - r == Times(if n > 0 then a / m else -(a / m), n);
    } else {
      var b := -a;
      assert b == Times(b / m, m) + b % m;
      assert a - r == Times(if n > 0 then -(b / m) else b / m, n);
    }
  }

  function Plus(a: Index, d: int): Index {
    if a.NaN? then NaN else Int(a.v + d)
  }

  /** ArrowDown: `(prev + 1) % n`. */
  function Down(i: Index, n: nat): Index {
    Rem(Plus(i, 1), n)
  }

  /** ArrowUp: `(prev - 1 + n) % n`. */
  function Up(i: Index, n: nat): Index {
    Rem(Plus(Plus(i, -1), n), n)
  }

  /** Both arrows keep an in-range index in range, and wrap at the ends. */
  lemma ArrowsStayInRange(i: int, n: nat)
    requires 0 <= i < n
    ensures Down(Int(i), n) == Int(if i == n - 1 then 0 else i + 1)
    ensures Up(Int(i), n) == Int(if i == 0 then n - 1 else i - 1)
  {
    assert Down(Int(i), n) == Int((i + 1) % n);
    assert Up(Int(i), n) == Int((i - 1 + n) % n);
    if i < n - 1 {
      ModOfSmall(i + 1, n);
    } else {
      ModPlusDivisor(0, n);
    }
    if i > 0 {
      ModPlusDivisor(i - 1, n);
    } else {
      ModOfSmall(n - 1, n);
    }
  }

  lemma ModOfSmall(a: int, n: int)
    requires 0 <= a < n
    ensures a % n == a
  {
  }

  lemma ModPlusDivisor(r: int, n: int)
    requires 0 <= r < n
    ensures (r + n) % n == r
  {
  }

  /** ArrowDown then ArrowUp, or ArrowUp then ArrowDown, restores the selection. */
  lemma ArrowsInverse(i: int, n: nat)
    requires 0 <= i < n
    ensures Up(Down(Int(i), n), n) == Int(i)
    ensures Down(Up(Int(i), n), n) == Int(i)
  {
    ArrowsStayInRange(i, n);
    var d := if i == n - 1 then 0 else i + 1;
    var u := if i == 0 then n - 1 else i - 1;
    ArrowsStayInRange(d, n);
    ArrowsStayInRange(u, n);
  }

  /** With no match the arrows leave the index NaN, which selects nothing. */
  lemma ArrowsOnEmptyList(i: Index)
    ensures Down(i, 0) == NaN && Up(i, 0) == NaN
  {
  }

  /** The palette's three pieces of state. */
  datatype PaletteState = PaletteState(isOpen: bool, query: string, selectedIndex: Index)

  const Initial := PaletteState(false, "", Int(0))

  /** A keydown as the window listeners see it. */
  datatype KeyEvent = KeyEvent(key: string, metaKey: bool, ctrlKey: bool)

  predicate IsToggle(e: KeyEvent) {
    (e.metaKey || e.ctrlKey) && e.key == "k"
  }

  /** The index names an entry of the current matches. */
  predicate Selects(s: PaletteState) {
    s.selectedIndex.Int? && 0 <= s.selectedIndex.v < |Filtered(s.query)|
  }

  /**
   * One keydown: both window listeners run on the state of the last render.
   * The toggle listener flips the palette on Ctrl/Cmd+K (clearing query and
   * index) and closes it on Escape; while the palette was open, the navigation
   * listener moves the index on the arrows (through the updater, so from the
   * index the toggle listener left) and on Enter runs the selected command
   * and closes, when the index selects one.
   */
  function OnKeyDown(s: PaletteState, e: KeyEvent): (PaletteState, Option<Action>) {
    var toggled := if IsToggle(e) then PaletteState(!s.isOpen, "", Int(0)) else s;
    var t := if e.key == "Escape" then toggled.(isOpen := false) else toggled;
    var n := |Filtered(s.query)|;
    if !s.isOpen then (t, None)
    else if e.key == "ArrowDown" then (t.(selectedIndex := Down(t.selectedIndex, n)), None)
    else if e.key == "ArrowUp" then (t.(selectedIndex := Up(t.selectedIndex, n)), None)
    else if e.key == "Enter" then
      if Selects(s) then (t.(isOpen := false), Some(Filtered(s.query)[s.selectedIndex.v].action))
      else (t, None)
    else (t, None)
  }

  /** Typing in the search box replaces the query and selects the first match. */
  function OnQueryChange(s: PaletteState, q: string): PaletteState {
    s.(query := q, selectedIndex := Int(0))
  }

  /** Hovering the `k`-th match selects it. */
  function OnHover(s: PaletteState, k: nat): PaletteState {
    s.(selectedIndex := Int(k))
  }

  /** Clicking the `k`-th match runs it and closes the palette. */
  function OnItemClick(s: PaletteState, k: nat): (PaletteState, Option<Action>)
    requires k < |Filtered(s.query)|
  {
    (s.(isOpen := false), Some(Filtered(s.query)[k].action))
  }

  /** Clicking the backdrop closes the palette. */
  function OnBackdropClick(s: PaletteState): PaletteState {
    s.(isOpen := false)
  }

  /** Ctrl/Cmd+K flips the palette and resets query and index, whatever the state. */
  lemma ToggleResets(s: PaletteState, e: KeyEvent)
    requires IsToggle(e)
    ensures OnKeyDown(s, e) == (PaletteState(!s.isOpen, "", Int(0)), None)
  {
  }

  /** Escape always closes and leaves query and index alone. */
  lemma EscapeCloses(s: PaletteState, e: KeyEvent)
    requires e.key == "Escape"
    ensures OnKeyDown(s, e) == (s.(isOpen := false), None)
  {
  }

  /** While closed, the arrows and Enter change nothing and run nothing. */
  lemma ClosedIgnoresNavigation(s: PaletteState, e: KeyEvent)
    requires !s.isOpen
    requires e.key == "ArrowDown" || e.key == "ArrowUp" || e.key == "Enter"
    ensures OnKeyDown(s, e) == (s, None)
  {
  }

  /** Enter on an open palette runs exactly the selected command and closes, or does nothing. */
  lemma EnterRunsSelection(s: PaletteState, e: KeyEvent)
    requires s.isOpen && e.key == "Enter"
    ensures Selects(s) ==> OnKeyDown(s, e) == (s.(isOpen := false), Some(Filtered(s.query)[s.selectedIndex.v].action))
    ensures !Selects(s) ==> OnKeyDown(s, e) == (s, None)
  {
  }

  /** The selection invariant: whenever something matches, the index selects a match. */
  predicate IndexValid(s: PaletteState) {
    |Filtered(s.query)| > 0 ==> Selects(s)
  }

  /** Every key keeps the invariant, so Enter on a non-empty list always runs a command. */
  lemma KeyDownKeepsIndexValid(s: PaletteState, e: KeyEvent)
    requires IndexValid(s)
    ensures IndexValid(OnKeyDown(s, e).0)
  {
    var n := |Filtered(s.query)|;
    assert |Filtered("")| == 10;
    if s.isOpen && !IsToggle(e) && n > 0 && (e.key == "ArrowDown" || e.key == "ArrowUp") {
      ArrowsStayInRange(s.selectedIndex.v, n);
    }
  }

  /** Editing the query, hovering a match and clicking keep the invariant. */
  lemma InputKeepsIndexValid(s: PaletteState, q: string, k: nat)
    requires IndexValid(s)
    ensures IndexValid(OnQueryChange(s, q))
    ensures k < |Filtered(s.query)| ==> IndexValid(OnHover(s, k)) && IndexValid(OnItemClick(s, k).0)
    ensures IndexValid(OnBackdropClick(s))
  {
  }

  /** Whatever an open palette runs is one of the ten commands' actions. */
  lemma FiredActionIsCommand(s: PaletteState, e: KeyEvent)
    requires OnKeyDown(s, e).1.Some?
    ensures exists k :: 0 <= k < |Commands| && Commands[k].action == OnKeyDown(s, e).1.value
  {
    var q := s.query;
    var c := Filtered(q)[s.selectedIndex.v];
    FilteredSpec(q, c);
    assert c in Filtered(q);
    var k :| 0 <= k < |Commands| && Commands[k] == c;
  }

  /** Whatever a click on a row runs is one of the ten commands' actions. */
  lemma ClickedActionIsCommand(s: PaletteState, k: nat)
    requires k < |Filtered(s.query)|
    ensures exists j :: 0 <= j < |Commands| && Commands[j].action == OnItemClick(s, k).1.value
  {
    var c := Filtered(s.query)[k];
    FilteredSpec(s.query, c);
    assert c in Filtered(s.query);
    var j :| 0 <= j < |Commands| && Commands[j] == c;
  }

  /** The palette component: its state fields and the handlers that update them. */
  class Palette {
    var isOpen: bool
    var query: string
    var selectedIndex: Index

    function State(): PaletteState
      reads this
    {
      PaletteState(isOpen, query, selectedIndex)
    }

    constructor ()
      ensures State() == Initial && IndexValid(State())
    {
      isOpen, query, selectedIndex := false, "", Int(0);
      assert |Filtered("")| == 10;
    }

    /** A window keydown, handled by both listeners. */
    method KeyDown(e: KeyEvent) returns (fired: Option<Action>)
      modifies this
      ensures (State(), fired) == OnKeyDown(old(State()), e)
      ensures IndexValid(old(State())) ==> IndexValid(State())
    {
      var s := State();
      var n := |Filtered(s.query)|;
      if IsToggle(e) {
        isOpen, query, selectedIndex := !isOpen, "", Int(0);
      }
      if e.key == "Escape" {
        isOpen := false;
      }
      fired := None;
      if s.isOpen {
        if e.key == "ArrowDown" {
          selectedIndex := Down(selectedIndex, n);
        } else if e.key == "ArrowUp" {
          selectedIndex := Up(selectedIndex, n);
        } else if e.key == "Enter" && Selects(s) {
          fired := Some(Filtered(s.query)[s.selectedIndex.v].action);
          isOpen := false;
        }
      }
      assert (State(), fired) == OnKeyDown(s, e);
      if IndexValid(s) {
        KeyDownKeepsIndexValid(s, e);
      }
    }

    /** The search box's change handler; the box exists only while open. */
    method QueryChanged(q: string)
      requires isOpen
      modifies this
      ensures State() == OnQueryChange(old(State()), q)
    {
      query, selectedIndex := q, Int(0);
    }

    /** Mouse entering the `k`-th row. */
    method Hovered(k: nat)
      requires isOpen && k < |Filtered(query)|
      modifies this
      ensures State() == OnHover(old(State()), k)
    {
      selectedIndex := Int(k);
    }

    /** Clicking the `k`-th row. */
    method ItemClicked(k: nat) returns (fired: Option<Action>)
      requires isOpen && k < |Filtered(query)|
      modifies this
      ensures (State(), fired) == OnItemClick(old(State()), k)
    {
      fired := Some(Filtered(query)[k].action);
      isOpen := false;
    }

    /** Clicking outside the modal. */
    method BackdropClicked()
      requires isOpen
      modifies this
      ensures State() == OnBackdropClick(old(State()))
    {
      isOpen := false;
    }
  }
}
