/** The navigation bar of the frontend (`Layout.tsx`): which link is shown as
    the current page, given the path of the location. */
module Layout {

  predicate StartsWith(s: string, prefix: string) {
    |prefix| <= |s| && s[..|prefix|] == prefix
  }

  /** `isActive`: the location is the link's page or a page below it. */
  function IsActive(pathname: string, path: string): (r: bool)
    ensures r <==> pathname == path
                   || (|path| < |pathname| && pathname[..|path|] == path && pathname[|path|] == '/')
  {
    pathname == path || StartsWith(pathname, path + "/")
  }

  /** The Dashboard link is highlighted when `isActive('/')` holds and the
      location is exactly `/`. */
  function DashboardHighlighted(pathname: string): (r: bool)
    ensures r <==> pathname == "/"
  {
    IsActive(pathname, "/") && pathname == "/"
  }

  // ---------------------------------------------------------------------------
  // Lemmas

  /** A page below the link's page makes the link current. */
  lemma SubPageIsActive(path: string, rest: string)
    ensures IsActive(path + "/" + rest, path)
  {
    var p := path + "/" + rest;
    assert p[..|path|] == path;
  }

  /** A location that only shares the link's text as a prefix, without a
      slash after it, does not make the link current. */
  lemma SharedPrefixIsNotActive(path: string, rest: string)
    requires rest != "" && rest[0] != '/'
    ensures !IsActive(path + rest, path)
  {
    var p := path + rest;
    assert p[|path|] == rest[0];
  }

  /** `/expensesX` does not highlight the Expenses link. */
  lemma ExpensesXIsNotExpenses()
    ensures !IsActive("/expensesX", "/expenses")
  {
    assert "/expensesX" == "/expenses" + "X";
    SharedPrefixIsNotActive("/expenses", "X");
  }

  /** Alone, `isActive('/')` holds for the locations starting with `//`
      besides `/` itself; the added test keeps the Dashboard link for `/`
      alone. No other location tells the two conditions apart. */
  lemma DashboardTestMattersOnlyForDoubleSlash(pathname: string)
    ensures IsActive(pathname, "/") != DashboardHighlighted(pathname)
            <==> |pathname| >= 2 && pathname[0] == '/' && pathname[1] == '/'
  {
    if |pathname| >= 2 && pathname[0] == '/' && pathname[1] == '/' {
      assert pathname[..1] == "/";
    }
  }
}
