/**
 * The floating navigation bar (components/Navigation.tsx): six buttons that
 * scroll to a home-page section, going back to the home view first when
 * another view is shown; a compact style once the page has scrolled; and a
 * button that opens the command palette by faking its keyboard shortcut.
 */
module Navigation {
  import opened Types
  import CommandPalette

  /** The delay, in milliseconds, between requesting the home view and scrolling. */
  const RouteDelay: nat := 100

  /** The effects of a nav click, in the order the handler causes them. */
  datatype Effect =
    | RequestHome                          // `onViewChange()`
    | ScrollNow(sectionId: string)         // `scrollIntoView` on the element, if present
    | DelayedScroll(sectionId: string, delayMs: nat)  // the same, after a timer

  /** `scrollTo(id)` as seen from the current view. */
  function ScrollTo(currentView: ViewState, id: string): (effects: seq<Effect>)
    ensures |effects| == if currentView == HOME then 1 else 2
    ensures multiset(effects)[RequestHome] == if currentView == HOME then 0 else 1
    ensures currentView != HOME ==> effects[0] == RequestHome
    ensures effects[|effects| - 1] == if currentView == HOME then ScrollNow(id) else DelayedScroll(id, RouteDelay)
  {
    if currentView != HOME then [RequestHome, DelayedScroll(id, RouteDelay)]
    else [ScrollNow(id)]
  }

  /** The section ids of the six nav buttons, left to right. */
  const NavTargets: seq<string> := ["hero", "experience", "projects", "blog", "guestbook", "contact"]

  /** The buttons scroll to six different sections. */
  lemma NavTargetsDistinct()
    ensures |NavTargets| == 6
    ensures forall i, j :: 0 <= i < j < |NavTargets| ==> NavTargets[i] != NavTargets[j]
  {
  }

  /** The scroll threshold, in CSS pixels. */
  const ScrollThreshold: real := 50.0

  /** The compact style applies exactly when the page is scrolled past the threshold. */
  predicate IsScrolled(scrollY: real) {
    scrollY > ScrollThreshold
  }

  /** The keydown the palette button dispatches: key `k` with the meta modifier. */
  const PaletteShortcut := CommandPalette.KeyEvent("k", true, false)

  /** The palette button works exactly like Cmd+K: it flips the palette and resets it. */
  lemma PaletteButtonToggles(s: CommandPalette.PaletteState)
    ensures CommandPalette.OnKeyDown(s, PaletteShortcut) == (CommandPalette.PaletteState(!s.isOpen, "", CommandPalette.Int(0)), None)
  {
    CommandPalette.ToggleResets(s, PaletteShortcut);
  }

  /** The bar's own state: whether the page is scrolled. */
  class NavBar {
    var isScrolled: bool

    constructor ()
      ensures !isScrolled
    {
      isScrolled := false;
    }

    /** The window's scroll listener. */
    method OnScroll(scrollY: real)
      modifies this
      ensures isScrolled <==> IsScrolled(scrollY)
    {
      isScrolled := scrollY > ScrollThreshold;
    }
  }
}
