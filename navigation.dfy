/** The application sidebar (`components/navigation.tsx`): its six links, which of them is
    highlighted for the current path, which one is marked as the current page, and the
    collapse button. */
module Navigation {
  import opened Text

  datatype NavItem = NavItem(name: string, href: string)

  /** The sidebar's links, top to bottom. */
  const Items: seq<NavItem> := [
    NavItem("Dashboard", "/dashboard"),
    NavItem("Transactions", "/transactions"),
    NavItem("Time Tracker", "/time-tracker"),
    NavItem("Habits", "/habits"),
    NavItem("Community", "/community"),
    NavItem("Challenges", "/community/challenges")
  ]

  /** A link is highlighted when the path equals its target or merely starts with it, as
      plain strings (no path-segment boundary is required). */
  predicate IsActive(pathname: string, href: string)
  {
    pathname == href || StartsWith(pathname, href)
  }

  /** `aria-current="page"` goes only on an exact match. */
  predicate IsCurrentPage(pathname: string, href: string)
  {
    pathname == href
  }

  /** The equality test is subsumed by the prefix test: highlighting is exactly string-prefix
      matching, and the current page is always highlighted. */
  lemma ActiveIsPrefix(pathname: string, href: string)
    ensures IsActive(pathname, href) <==> StartsWith(pathname, href)
    ensures IsCurrentPage(pathname, href) ==> IsActive(pathname, href)
  {
    if pathname == href {
      assert pathname[..|href|] == href;
    }
  }

  /** The names of the highlighted links among `items`, in order. */
  function ActiveNames(pathname: string, items: seq<NavItem>): (r: seq<string>)
    ensures |r| <= |items|
    ensures forall i :: 0 <= i < |items| && IsActive(pathname, items[i].href) ==> items[i].name in r
    ensures forall n :: n in r ==> exists i :: 0 <= i < |items| && items[i].name == n &&
                                                IsActive(pathname, items[i].href)
    decreases |items|
  {
    if items == [] then []
    else
      var rest := ActiveNames(pathname, items[1..]);
      assert forall n :: n in rest ==> exists i :: 0 <= i < |items| && items[i].name == n &&
                                                    IsActive(pathname, items[i].href) by {
        forall n | n in rest
          ensures exists i :: 0 <= i < |items| && items[i].name == n && IsActive(pathname, items[i].href)
        {
          var i :| 0 <= i < |items[1..]| && items[1..][i].name == n && IsActive(pathname, items[1..][i].href);
          assert items[i + 1] == items[1..][i];
        }
      }
      assert forall i :: 1 <= i < |items| ==> items[i] == items[1..][i - 1];
      (if IsActive(pathname, items[0].href) then [items[0].name] else []) + rest
  }

  /** Which links the challenges page highlights, one by one. */
  lemma ChallengesPathActivity()
    ensures !IsActive("/community/challenges", "/dashboard")
    ensures !IsActive("/community/challenges", "/transactions")
    ensures !IsActive("/community/challenges", "/time-tracker")
    ensures !IsActive("/community/challenges", "/habits")
    ensures IsActive("/community/challenges", "/community")
    ensures IsActive("/community/challenges", "/community/challenges")
  {
    var p := "/community/challenges";
    assert p[1] == 'c';
    assert "/dashboard"[1] == 'd' && "/transactions"[1] == 't';
    assert "/time-tracker"[1] == 't' && "/habits"[1] == 'h';
    PrefixOfConcat("/community", "/challenges");
    assert p == "/community" + "/challenges";
  }

  /** On the challenges page both Community and Challenges are highlighted, and only
      Challenges is the current page. */
  lemma ChallengesPathHighlightsTwo()
    ensures ActiveNames("/community/challenges", Items) == ["Community", "Challenges"]
    ensures IsCurrentPage("/community/challenges", Items[5].href)
    ensures !IsCurrentPage("/community/challenges", Items[4].href)
  {
    var p := "/community/challenges";
    ChallengesPathActivity();
    assert ActiveNames(p, Items[5..]) == ["Challenges"];
    assert ActiveNames(p, Items[4..]) == ["Community", "Challenges"];
    assert ActiveNames(p, Items[3..]) == ["Community", "Challenges"];
    assert ActiveNames(p, Items[2..]) == ["Community", "Challenges"];
    assert ActiveNames(p, Items[1..]) == ["Community", "Challenges"];
    assert |"/community"| != |p|;
  }

  /** A path that only shares a string prefix with a link still highlights it. */
  lemma HabitsPrefixHighlights(rest: string)
    ensures IsActive("/habits" + rest, "/habits")
    ensures rest != "" ==> !IsCurrentPage("/habits" + rest, "/habits")
  {
    PrefixOfConcat("/habits", rest);
  }

  /** The sidebar's own state. */
  class NavigationView {
    var isCollapsed: bool

    constructor()
      ensures !isCollapsed
    {
      isCollapsed := false;
    }

    /** The brand and the link labels are shown only while expanded. */
    predicate ShowsLabels()
      reads this
    {
      !isCollapsed
    }

    /** The collapse button's accessible name. */
    function ToggleLabel(): (r: string)
      reads this
      ensures r == "Expand sidebar" <==> isCollapsed
    {
      if isCollapsed then "Expand sidebar" else "Collapse sidebar"
    }

    /** The collapse button flips the sidebar, and with it whether labels are shown. */
    method ToggleCollapse()
      modifies this`isCollapsed
      ensures isCollapsed == !old(isCollapsed)
      ensures ShowsLabels() == !old(ShowsLabels())
    {
      isCollapsed := !isCollapsed;
    }
  }
}
