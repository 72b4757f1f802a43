/** The bottom navigation bar: which item is highlighted for the current path,
    and nothing at all for a logged-out visitor. */
module NavigationBar {
  import opened Seqs

  const NavItems: seq<string> := ["/profile", "/result", "/play", "/history", "/settings"]

  /** `isActive(href)` for the current `pathname`: "/play" and "/profile" match
      any path they begin; "/result" matches itself and its sub-paths; any other
      item matches only itself. */
  predicate IsActive(pathname: string, href: string)
  {
    if href == "/play" then "/play" <= pathname
    else if href == "/profile" then "/profile" <= pathname
    else if href == "/result" then pathname == href || "/result/" <= pathname
    else pathname == href
  }

  /** The prefix rules at work: a longer word after "/play" still counts, a
      longer word after "/result" does not. */
  lemma IsActiveExamples()
    ensures IsActive("/playground", "/play")
    ensures IsActive("/play/3", "/play")
    ensures IsActive("/profile/12", "/profile")
    ensures IsActive("/result/abc", "/result") && IsActive("/result", "/result")
    ensures !IsActive("/results", "/result")
    ensures !IsActive("/history/1", "/history")
  {
    assert "/play" <= "/playground";
    assert "/play" <= "/play/3";
    assert "/profile" <= "/profile/12";
    assert "/result/" <= "/result/abc";
    assert "/results"[7] != "/result/"[7];
  }

  /** Every item is highlighted on its own path. */
  lemma EachItemActiveOnItsPath(i: int)
    requires 0 <= i < |NavItems|
    ensures IsActive(NavItems[i], NavItems[i])
  {
  }

  /** A highlighted item agrees with the path on its first three characters. */
  lemma ActiveHead(pathname: string, k: int)
    requires 0 <= k < |NavItems| && IsActive(pathname, NavItems[k])
    ensures |pathname| >= 3 && pathname[1] == NavItems[k][1] && pathname[2] == NavItems[k][2]
  {
    var h := NavItems[k];
    if h == "/result" && pathname != h {
      assert pathname[..8] == "/result/";
    } else if h == "/play" || h == "/profile" {
      assert pathname[..|h|] == h;
    }
  }

  /** No path highlights two items. */
  lemma AtMostOneActive(pathname: string, i: int, j: int)
    requires 0 <= i < j < |NavItems|
    ensures !(IsActive(pathname, NavItems[i]) && IsActive(pathname, NavItems[j]))
  {
    if IsActive(pathname, NavItems[i]) && IsActive(pathname, NavItems[j]) {
      ActiveHead(pathname, i);
      ActiveHead(pathname, j);
      assert false;
    }
  }

  /** The bar: `None` (rendering `null`) when logged out; otherwise every item
      in order, with whether it is highlighted. */
  function Render(isLoggedIn: bool, pathname: string): (r: Option<seq<(string, bool)>>)
    ensures !isLoggedIn <==> r.None?
    ensures r.Some? ==> |r.value| == |NavItems|
    ensures r.Some? ==> forall i :: 0 <= i < |NavItems| ==> r.value[i] == (NavItems[i], IsActive(pathname, NavItems[i]))
  {
    if !isLoggedIn then None
    else Some(seq(|NavItems|, i requires 0 <= i < |NavItems| => (NavItems[i], IsActive(pathname, NavItems[i]))))
  }
}
