/** The sidebar: its navigation items, the active-path rule and the Home section. */
module Sidebar {
  import opened Text
  import Seqs

  /** One entry of `navigationItems`; `labelText` is the item's `label`. */
  datatype NavItem = NavItem(id: string, labelText: string, path: string, section: string)

  /** `navigationItems`, in declaration order. */
  const NavigationItems: seq<NavItem> := [
    NavItem("dashboard", "Dashboard", "/dashboard", "home"),
    NavItem("all-assistants", "All Assistants", "/assistants", "assistants"),
    NavItem("create-assistant", "Create Assistant", "/create-assistant", "assistants"),
    NavItem("create-campaign", "Create Campaign", "/create-campaign", "assistants"),
    NavItem("calls", "Calls", "/calls", "pages"),
    NavItem("members", "Members", "/members", "pages"),
    NavItem("companies", "Companies", "/companies", "home"),
    NavItem("analytics", "Analytics", "/analytics", "pages")
  ]

  /** `isActive(path)`: the current path is the item's path or lies below it. */
  predicate IsActive(pathname: string, path: string) {
    pathname == path || StartsWith(pathname, path + "/")
  }

  /** The same rule stated by what follows the item's path. */
  lemma IsActiveIff(pathname: string, path: string)
    ensures IsActive(pathname, path) <==> pathname == path || exists rest :: pathname == path + "/" + rest
  {
    if StartsWith(pathname, path + "/") {
      var rest := pathname[|path + "/"|..];
      assert pathname == path + "/" + rest;
    }
    if exists rest :: pathname == path + "/" + rest {
      var rest :| pathname == path + "/" + rest;
      assert pathname[..|path + "/"|] == path + "/";
    }
  }

  /** A sibling path that merely extends the item's name (`/dashboardx`) does not activate it. */
  lemma SiblingNotActive(path: string, c: char, rest: string)
    requires c != '/'
    ensures !IsActive(path + [c] + rest, path)
  {
    var pathname := path + [c] + rest;
    assert pathname[..|path| + 1][|path|] == c;
    assert (path + "/")[|path|] == '/';
  }

  /** A path of one segment: `/` then at least one character, and no further `/`. */
  predicate SingleSegment(p: string) {
    |p| >= 2 && p[0] == '/' && forall k | 1 <= k < |p| :: p[k] != '/'
  }

  /** When two paths are active together, the shorter one followed by `/` (or the end) begins the longer. */
  lemma ActiveTogether(pathname: string, a: string, b: string)
    requires IsActive(pathname, a) && IsActive(pathname, b) && |a| <= |b|
    ensures b[..|a|] == a
    ensures |a| < |b| ==> b[|a|] == '/'
  {
    assert pathname[..|a|] == a;
    assert pathname[..|b|] == b;
    assert b[..|a|] == pathname[..|b|][..|a|];
    if |a| < |b| {
      assert pathname[|a|] == (a + "/")[|a|];
      assert b[|a|] == pathname[..|b|][|a|];
    }
  }

  /** Two different single-segment paths are never active together. */
  lemma AtMostOneActive(pathname: string, a: string, b: string)
    requires SingleSegment(a) && SingleSegment(b) && a != b
    ensures !(IsActive(pathname, a) && IsActive(pathname, b))
  {
    if IsActive(pathname, a) && IsActive(pathname, b) {
      if |a| <= |b| {
        ActiveTogether(pathname, a, b);
      } else {
        ActiveTogether(pathname, b, a);
      }
    }
  }

  /** Every item's path is one segment and no two items share a path or an id. */
  lemma NavigationItemsDistinct()
    ensures forall i | 0 <= i < |NavigationItems| :: SingleSegment(NavigationItems[i].path)
    ensures forall i, j | 0 <= i < j < |NavigationItems| ::
      NavigationItems[i].id != NavigationItems[j].id && NavigationItems[i].path != NavigationItems[j].path
  {
    PathsAreSingleSegments();
    forall i, j | 0 <= i < j < |NavigationItems|
      ensures NavigationItems[i].id != NavigationItems[j].id && NavigationItems[i].path != NavigationItems[j].path
    {
      KeysDiffer(i, j);
    }
  }

  lemma PathsAreSingleSegments()
    ensures forall i | 0 <= i < |NavigationItems| :: SingleSegment(NavigationItems[i].path)
  {
    forall i | 0 <= i < |NavigationItems|
      ensures SingleSegment(NavigationItems[i].path)
    {
      SegmentAfterSlash(NavigationItems[i].path);
    }
  }

  /** A `/` followed by lower-case letters and dashes is a single segment. */
  lemma SegmentAfterSlash(p: string)
    requires |p| >= 2 && p[0] == '/'
    requires forall k | 1 <= k < |p| :: 'a' <= p[k] <= 'z' || p[k] == '-'
    ensures SingleSegment(p)
  {
  }

  /**
   * Two items are told apart by the length and second character of their
   * path, and by the length and first character of their id.
   */
  lemma KeysDiffer(i: nat, j: nat)
    requires i < j < |NavigationItems|
    ensures NavigationItems[i].id != NavigationItems[j].id && NavigationItems[i].path != NavigationItems[j].path
  {
    var a, b := NavigationItems[i], NavigationItems[j];
    assert |a.path| != |b.path| || a.path[1] != b.path[1];
    assert |a.id| != |b.id| || a.id[0] != b.id[0];
  }

  /** Whatever the current path, at most one navigation item is highlighted. */
  lemma AtMostOneItemActive(pathname: string, i: nat, j: nat)
    requires i < j < |NavigationItems|
    ensures !(IsActive(pathname, NavigationItems[i].path) && IsActive(pathname, NavigationItems[j].path))
  {
    NavigationItemsDistinct();
    AtMostOneActive(pathname, NavigationItems[i].path, NavigationItems[j].path);
  }

  /** `item.section === name`. */
  function SectionTest(name: string): (p: NavItem -> bool)
    ensures forall x :: p(x) <==> x.section == name
  {
    (x: NavItem) => x.section == name
  }

  /** The items of one section, in declaration order. */
  function Section(items: seq<NavItem>, name: string): (r: seq<NavItem>)
    ensures Seqs.IsSubsequence(r, items)
    ensures forall x | x in r :: x in items && x.section == name
    ensures forall i | 0 <= i < |items| && items[i].section == name :: items[i] in r
    ensures forall x | x in items :: multiset(r)[x] == if x.section == name then multiset(items)[x] else 0
  {
    Seqs.FilterIsSubsequence(items, SectionTest(name));
    Seqs.FilterMultiset(items, SectionTest(name));
    Seqs.Filter(items, SectionTest(name))
  }

  /** Filtering eight items of which only the first and seventh pass. */
  lemma FirstAndSeventh(s: seq<NavItem>, p: NavItem -> bool)
    requires |s| == 8 && p(s[0]) && p(s[6])
    requires forall k | 1 <= k < 6 :: !p(s[k])
    requires !p(s[7])
    ensures Seqs.Filter(s, p) == [s[0], s[6]]
  {
    assert s[8..] == [];
    Seqs.FilterFrom(s, 7, p);
    assert Seqs.Filter(s[7..], p) == [];
    Seqs.FilterFrom(s, 6, p);
    assert Seqs.Filter(s[6..], p) == [s[6]];
    Seqs.FilterFrom(s, 5, p);
    assert Seqs.Filter(s[5..], p) == [s[6]];
    Seqs.FilterFrom(s, 4, p);
    assert Seqs.Filter(s[4..], p) == [s[6]];
    Seqs.FilterFrom(s, 3, p);
    assert Seqs.Filter(s[3..], p) == [s[6]];
    Seqs.FilterFrom(s, 2, p);
    assert Seqs.Filter(s[2..], p) == [s[6]];
    Seqs.FilterFrom(s, 1, p);
    assert Seqs.Filter(s[1..], p) == [s[6]];
    assert Seqs.Filter(s, p) == [s[0]] + [s[6]];
  }

  /** The Home section, the only one rendered, lists Dashboard then Companies. */
  lemma HomeSection()
    ensures Section(NavigationItems, "home") == [NavigationItems[0], NavigationItems[6]]
  {
    var p := SectionTest("home");
    forall k | 0 <= k < |NavigationItems| && k != 0 && k != 6
      ensures !p(NavigationItems[k])
    {
      DifferAtFirst(NavigationItems[k].section, "home");
    }
    FirstAndSeventh(NavigationItems, p);
  }
}
