/** The route guard run before every matched request. */
module Middleware {
  import opened Text

  datatype Decision = Next | Redirect(pathname: string)

  const LoginPath := "/"
  const DashboardPrefix := "/dashboard"
  const LandingPath := "/dashboard/products"

  /**
   * `middleware(request)`: `hasToken` is whether the "token" cookie is present. Dashboard paths
   * without a token go back to the login page; the login page with a token goes to the products
   * list; everything else passes through.
   */
  function Route(pathname: string, hasToken: bool): (d: Decision)
    ensures StartsWith(pathname, DashboardPrefix) && !hasToken ==> d == Redirect(LoginPath)
    ensures pathname == LoginPath && hasToken ==> d == Redirect(LandingPath)
    ensures d == Next <==>
              !(StartsWith(pathname, DashboardPrefix) && !hasToken) && !(pathname == LoginPath && hasToken)
  {
    if StartsWith(pathname, DashboardPrefix) && !hasToken then Redirect(LoginPath)
    else if pathname == LoginPath && hasToken then Redirect(LandingPath)
    else Next
  }

  /** Only the two redirect targets can ever be produced. */
  lemma RedirectTargets(pathname: string, hasToken: bool)
    ensures Route(pathname, hasToken).Redirect? ==>
              Route(pathname, hasToken).pathname in {LoginPath, LandingPath}
    ensures Route(pathname, hasToken).Redirect? && hasToken ==> Route(pathname, hasToken).pathname == LandingPath
    ensures Route(pathname, hasToken).Redirect? && !hasToken ==> Route(pathname, hasToken).pathname == LoginPath
  {
  }

  /** A signed-in user is never turned away from a dashboard page. */
  lemma TokenOpensDashboard(pathname: string)
    requires StartsWith(pathname, DashboardPrefix)
    ensures Route(pathname, true) == Next
  {
    assert pathname[..|DashboardPrefix|] == DashboardPrefix;
    assert pathname != LoginPath by {
      assert |pathname| >= |DashboardPrefix|;
    }
  }

  /** Following a redirect (with the same cookie) lands on a page that passes: no redirect loop. */
  lemma NoRedirectLoop(pathname: string, hasToken: bool)
    ensures Route(pathname, hasToken).Redirect? ==> Route(Route(pathname, hasToken).pathname, hasToken) == Next
  {
    if Route(pathname, hasToken).Redirect? {
      if hasToken {
        TokenOpensDashboard(LandingPath);
      } else {
        assert !StartsWith(LoginPath, DashboardPrefix);
      }
    }
  }
}
