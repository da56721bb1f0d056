/** The fixed top navigation bar: background and visibility driven by the
    scroll position, the mobile menu, and the highlighted item. */
module Navigation {

  /** Scrolled past this many pixels the bar gets its solid background. */
  const ScrolledThreshold := 50

  /** Scrolling down past this many pixels hides the bar. */
  const HideThreshold := 100

  datatype NavState = NavState(isScrolled: bool, isMobileMenuOpen: bool, prevScrollY: int, isNavVisible: bool)

  const InitialNav := NavState(false, false, 0, true)

  /** handleScroll for a scroll event at `currentScrollY`. */
  function OnScroll(s: NavState, currentScrollY: int): (r: NavState)
    ensures r.isMobileMenuOpen == s.isMobileMenuOpen
    ensures r.prevScrollY == currentScrollY
  {
    NavState(
      currentScrollY > ScrolledThreshold,
      s.isMobileMenuOpen,
      currentScrollY,
      !(currentScrollY > s.prevScrollY && currentScrollY > HideThreshold))
  }

  /** The bar is hidden exactly while moving down below the first 100 pixels;
      near the top, or when not moving down, it shows. */
  lemma OnScrollVisibility(s: NavState, y: int)
    ensures !OnScroll(s, y).isNavVisible <==> y > s.prevScrollY && y > HideThreshold
    ensures y <= HideThreshold ==> OnScroll(s, y).isNavVisible
    ensures y <= s.prevScrollY ==> OnScroll(s, y).isNavVisible
    ensures OnScroll(s, y).isScrolled <==> y > ScrolledThreshold
  {
  }

  /** The state after a sequence of scroll events. */
  function RunScroll(s: NavState, ys: seq<int>): NavState
    decreases |ys|
  {
    if ys == [] then s else RunScroll(OnScroll(s, ys[0]), ys[1..])
  }

  /** After any non-empty run of scroll events only the last two positions
      matter: `prevScrollY` is the last one, `isScrolled` depends on it alone,
      and the bar is hidden iff the last move went down past 100 pixels. */
  lemma {:induction false} RunScrollDependsOnLastTwo(s: NavState, ys: seq<int>)
    requires |ys| >= 1
    ensures var r := RunScroll(s, ys);
            var last := ys[|ys| - 1];
            var before := if |ys| >= 2 then ys[|ys| - 2] else s.prevScrollY;
            && r.prevScrollY == last
            && (r.isScrolled <==> last > ScrolledThreshold)
            && (r.isNavVisible <==> !(last > before && last > HideThreshold))
            && r.isMobileMenuOpen == s.isMobileMenuOpen
    decreases |ys|
  {
    if |ys| >= 2 {
      RunScrollDependsOnLastTwo(OnScroll(s, ys[0]), ys[1..]);
      assert ys[1..][|ys[1..]| - 1] == ys[|ys| - 1];
      if |ys| >= 3 {
        assert ys[1..][|ys[1..]| - 2] == ys[|ys| - 2];
      }
    }
  }

  /** toggleMobileMenu's new value. */
  function ToggledMenu(s: NavState): (r: NavState)
    ensures r.isMobileMenuOpen != s.isMobileMenuOpen
    ensures r.(isMobileMenuOpen := s.isMobileMenuOpen) == s
  {
    s.(isMobileMenuOpen := !s.isMobileMenuOpen)
  }

  lemma ToggleMenuTwiceRestores(s: NavState)
    ensures ToggledMenu(ToggledMenu(s)) == s
  {
  }

  datatype NavItem = NavItem(id: string, caption: string)

  const NavigationItems: seq<NavItem> := [
    NavItem("about", "About"),
    NavItem("projects", "Projects"),
    NavItem("experience", "Experience"),
    NavItem("contact", "Contact")
  ]

  /** The `activeSection` prop's default. */
  const DefaultActiveSection := "about"

  /** Whether item `i` is drawn as the active one. */
  predicate IsHighlighted(activeSection: string, i: nat)
    requires i < |NavigationItems|
  {
    activeSection == NavigationItems[i].id
  }

  /** With the default active section the first item, "About", is the
      highlighted one and no other is. */
  lemma DefaultHighlightsAbout(i: nat)
    requires i < |NavigationItems|
    ensures IsHighlighted(DefaultActiveSection, i) <==> i == 0
  {
  }

  /** The item ids are distinct, so at most one item is highlighted. */
  lemma AtMostOneHighlighted(activeSection: string, i: nat, j: nat)
    requires i < |NavigationItems| && j < |NavigationItems|
    requires IsHighlighted(activeSection, i) && IsHighlighted(activeSection, j)
    ensures i == j
  {
  }

  /** An active section is highlighted iff it is one of the four item ids;
      "hero", which the layout starts with, highlights none. */
  lemma HighlightedIffItem(activeSection: string)
    ensures (exists i :: 0 <= i < |NavigationItems| && IsHighlighted(activeSection, i))
            <==> activeSection in {"about", "projects", "experience", "contact"}
  {
    if activeSection in {"about", "projects", "experience", "contact"} {
      var i := if activeSection == "about" then 0
               else if activeSection == "projects" then 1
               else if activeSection == "experience" then 2
               else 3;
      assert IsHighlighted(activeSection, i);
    }
  }

  /** The navigation component's state, updated in place by its handlers. */
  class NavigationBar {
    var isScrolled: bool
    var isMobileMenuOpen: bool
    var prevScrollY: int
    var isNavVisible: bool

    function State(): NavState
      reads this
    {
      NavState(isScrolled, isMobileMenuOpen, prevScrollY, isNavVisible)
    }

    constructor ()
      ensures State() == InitialNav
    {
      isScrolled := false;
      isMobileMenuOpen := false;
      prevScrollY := 0;
      isNavVisible := true;
    }

    method HandleScroll(currentScrollY: int)
      modifies this
      ensures State() == OnScroll(old(State()), currentScrollY)
    {
      isScrolled := currentScrollY > ScrolledThreshold;
      if currentScrollY > prevScrollY && currentScrollY > HideThreshold {
        isNavVisible := false;
      } else {
        isNavVisible := true;
      }
      prevScrollY := currentScrollY;
    }

    /** handleNavClick: forwards the id to the layout and closes the menu. */
    method HandleNavClick(sectionId: string) returns (navigateTo: string)
      modifies this
      ensures navigateTo == sectionId
      ensures !isMobileMenuOpen
      ensures isScrolled == old(isScrolled) && prevScrollY == old(prevScrollY) && isNavVisible == old(isNavVisible)
    {
      navigateTo := sectionId;
      isMobileMenuOpen := false;
    }

    method ToggleMobileMenu()
      modifies this
      ensures State() == ToggledMenu(old(State()))
    {
      isMobileMenuOpen := !isMobileMenuOpen;
    }
  }
}
