/** The catch-all page of the routing demo: it suggests the common routes
    other than the one that was not found, at most five of them. */
module NotFound {
  import opened Seqs

  const CommonRoutes: seq<string> := ["/", "/about", "/posts", "/login", "/profile", "/dashboard"]
  const SuggestionLimit := 5

  /** The common routes other than the current path, in their listed order. */
  function Suggestions(pathname: string): seq<string> {
    Filter(CommonRoutes, (route: string) => route != pathname)
  }

  /** `suggestions.slice(0, 5)`. */
  function ShownSuggestions(pathname: string): seq<string> {
    Take(Suggestions(pathname), SuggestionLimit)
  }

  /** The current path is never suggested, and every shown link is a
      common route. */
  lemma ShownAreOtherRoutes(pathname: string)
    ensures var shown := ShownSuggestions(pathname);
            pathname !in shown && forall i :: 0 <= i < |shown| ==> shown[i] in CommonRoutes
  {
    var s := Suggestions(pathname);
    var shown := ShownSuggestions(pathname);
    assert forall i :: 0 <= i < |shown| ==> shown[i] == s[i];
  }

  /** On a common path the other five routes are all shown. */
  lemma CommonPathShowsTheOthers(pathname: string)
    requires pathname in CommonRoutes
    ensures |Suggestions(pathname)| == 5 && ShownSuggestions(pathname) == Suggestions(pathname)
  {
    var k :| 0 <= k < |CommonRoutes| && CommonRoutes[k] == pathname;
    CommonRoutesDistinct();
    OnlyOneMatch(k, pathname);
    FilterSplit(CommonRoutes, (route: string) => route != pathname, (route: string) => route == pathname);
  }

  /** On any other path the first five common routes are shown. */
  lemma OtherPathShowsFirstFive(pathname: string)
    requires pathname !in CommonRoutes
    ensures ShownSuggestions(pathname) == CommonRoutes[..SuggestionLimit]
  {
    FilterKeepsAll(CommonRoutes, (route: string) => route != pathname);
  }

  /** No common route is listed twice. */
  lemma CommonRoutesDistinct()
    ensures Distinct(CommonRoutes)
  {
  }

  /** The route at position `k` is the only one equal to itself. */
  lemma OnlyOneMatch(k: nat, pathname: string)
    requires k < |CommonRoutes| && CommonRoutes[k] == pathname && Distinct(CommonRoutes)
    ensures Filter(CommonRoutes, (route: string) => route == pathname) == [pathname]
  {
    var drop := (route: string) => route == pathname;
    var r := Filter(CommonRoutes, drop);
    FilterDistinct(CommonRoutes, drop);
    assert pathname in r;
    assert forall i :: 0 <= i < |r| ==> r[i] == pathname;
  }

  /** A link's text: "Home" for the root, the path itself otherwise. */
  function Label(route: string): (text: string)
    ensures route == "/" ==> text == "Home"
    ensures route != "/" ==> text == route
  {
    if route == "/" then "Home" else route
  }
}
