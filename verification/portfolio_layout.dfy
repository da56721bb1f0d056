/** The page layout: the scroll-spy that picks the active section, the
    light/dark theme and its class on the document root. */
module PortfolioLayout {
  import opened Wrappers

  /** Section ids in page order; the scroll-spy tests them in this order. */
  const Sections: seq<string> := ["hero", "about", "projects", "experience", "contact"]

  /** Offset of the probe point below the top of the viewport, in pixels. */
  const ProbeOffset := 100

  /** A section element's vertical extent, in whole pixels. */
  datatype Box = Box(offsetTop: int, offsetHeight: int)

  /** The half-open interval [offsetTop, offsetTop + offsetHeight) holds `pos`. */
  predicate Contains(b: Box, pos: int) {
    b.offsetTop <= pos < b.offsetTop + b.offsetHeight
  }

  /** The element with id `id` exists in `dom` and holds `pos`. */
  predicate Hits(dom: map<string, Box>, id: string, pos: int) {
    id in dom && Contains(dom[id], pos)
  }

  /** Index of the first id in `ids` whose element holds `pos`. */
  function FirstHit(ids: seq<string>, dom: map<string, Box>, pos: int): (r: Option<nat>)
    ensures r.Some? ==> r.value < |ids| && Hits(dom, ids[r.value], pos)
    ensures r.Some? ==> forall j :: 0 <= j < r.value ==> !Hits(dom, ids[j], pos)
    ensures r.None? <==> forall j :: 0 <= j < |ids| ==> !Hits(dom, ids[j], pos)
  {
    if ids == [] then None
    else if Hits(dom, ids[0], pos) then Some(0)
    else
      match FirstHit(ids[1..], dom, pos)
      case None => None
      case Some(k) => Some(k + 1)
  }

  /** The section the scroll-spy makes active: the first hit, or the current
      one when no section holds the probe point. */
  function SpiedSection(active: string, scrollY: int, dom: map<string, Box>): (r: string)
    ensures r == active || r in Sections
  {
    match FirstHit(Sections, dom, scrollY + ProbeOffset)
    case Some(k) => Sections[k]
    case None => active
  }

  /** The scroll-spy either keeps the active section, when no element holds
      the probe point, or moves to a section whose element exists and holds
      it: a section without an element is never newly chosen. Of several
      holders, the first in page order wins. */
  lemma SpiedSectionChoice(active: string, scrollY: int, dom: map<string, Box>)
    ensures var r := SpiedSection(active, scrollY, dom);
            (r == active && forall j :: 0 <= j < |Sections| ==> !Hits(dom, Sections[j], scrollY + ProbeOffset))
            || (r in Sections && r in dom && Contains(dom[r], scrollY + ProbeOffset))
    ensures forall k :: 0 <= k < |Sections| && Hits(dom, Sections[k], scrollY + ProbeOffset)
                        && (forall j :: 0 <= j < k ==> !Hits(dom, Sections[j], scrollY + ProbeOffset))
                        ==> SpiedSection(active, scrollY, dom) == Sections[k]
  {
  }

  /** When the page's section elements do not overlap, the active section is
      the one holding the probe point, whichever order the search uses. */
  lemma DisjointSectionsPickTheHolder(active: string, scrollY: int, dom: map<string, Box>, k: nat)
    requires k < |Sections| && Hits(dom, Sections[k], scrollY + ProbeOffset)
    requires forall j :: 0 <= j < |Sections| && j != k ==> !Hits(dom, Sections[j], scrollY + ProbeOffset)
    ensures SpiedSection(active, scrollY, dom) == Sections[k]
  {
    var r := FirstHit(Sections, dom, scrollY + ProbeOffset);
    assert r.Some?;
  }

  datatype Theme = Light | Dark

  function ThemeClass(t: Theme): string {
    match t
    case Light => "light"
    case Dark => "dark"
  }

  /** toggleTheme's updater: the other theme. */
  function Toggled(t: Theme): (r: Theme)
    ensures r != t
  {
    if t == Light then Dark else Light
  }

  lemma ToggleTwiceRestores(t: Theme)
    ensures Toggled(Toggled(t)) == t
  {
  }

  /** `classList.remove(...)`: every occurrence of the given tokens removed. */
  function RemoveTokens(classes: seq<string>, tokens: set<string>): (r: seq<string>)
    ensures forall c :: c in r <==> c in classes && c !in tokens
    ensures |r| <= |classes|
    ensures (forall i :: 0 <= i < |classes| ==> classes[i] !in tokens) ==> r == classes
  {
    if classes == [] then []
    else if classes[0] in tokens then RemoveTokens(classes[1..], tokens)
    else [classes[0]] + RemoveTokens(classes[1..], tokens)
  }

  /** `classList.add(token)`: appended unless already present. */
  function AddToken(classes: seq<string>, token: string): (r: seq<string>)
    ensures forall c :: c in r <==> c in classes || c == token
  {
    if token in classes then classes else classes + [token]
  }

  /** The class list after the theme effect ran. */
  function ThemedClasses(classes: seq<string>, t: Theme): (r: seq<string>)
    ensures "light" in r <==> t == Light
    ensures "dark" in r <==> t == Dark
  {
    AddToken(RemoveTokens(classes, {"light", "dark"}), ThemeClass(t))
  }

  /** After the theme effect the root carries the current theme's class, not
      the other one, and every unrelated class as before. */
  lemma ThemedClassesSpec(classes: seq<string>, t: Theme)
    ensures ThemeClass(t) in ThemedClasses(classes, t)
    ensures ThemeClass(Toggled(t)) !in ThemedClasses(classes, t)
    ensures forall c :: c != "light" && c != "dark" ==> (c in ThemedClasses(classes, t) <==> c in classes)
  {
  }

  /** The layout component's state: active section, theme, and the document
      root's class list that the theme effect edits. */
  class Layout {
    var activeSection: string
    var theme: Theme
    var rootClasses: seq<string>

    constructor (initialClasses: seq<string>)
      ensures activeSection == "hero" && theme == Dark && rootClasses == initialClasses
    {
      activeSection := "hero";
      theme := Dark;
      rootClasses := initialClasses;
    }

    /** handleScroll: walk the sections in order, stop at the first whose
      element holds scrollY + 100. */
    method HandleScroll(scrollY: int, dom: map<string, Box>)
      modifies this`activeSection
      ensures activeSection == SpiedSection(old(activeSection), scrollY, dom)
    {
      var scrollPosition := scrollY + ProbeOffset;
      var i := 0;
      while i < |Sections|
        invariant 0 <= i <= |Sections|
        invariant forall j :: 0 <= j < i ==> !Hits(dom, Sections[j], scrollPosition)
        invariant activeSection == old(activeSection)
      {
        var section := Sections[i];
        if section in dom {
          var element := dom[section];
          if scrollPosition >= element.offsetTop && scrollPosition < element.offsetTop + element.offsetHeight {
            activeSection := section;
            assert FirstHit(Sections, dom, scrollPosition) == Some(i);
            break;
          }
        }
        i := i + 1;
      }
    }

    method ToggleTheme()
      modifies this`theme
      ensures theme == Toggled(old(theme))
    {
      theme := if theme == Light then Dark else Light;
    }

    /** The theme effect: remove both theme classes, add the current one. */
    method ApplyTheme()
      modifies this`rootClasses
      ensures rootClasses == ThemedClasses(old(rootClasses), theme)
      ensures ThemeClass(theme) in rootClasses && ThemeClass(Toggled(theme)) !in rootClasses
    {
      rootClasses := RemoveTokens(rootClasses, {"light", "dark"});
      rootClasses := AddToken(rootClasses, ThemeClass(theme));
    }
  }
}
