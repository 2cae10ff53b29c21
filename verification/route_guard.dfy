/**
 * The request guard of src/middleware.ts. Whether the request carries a
 * signed-in user (`auth.getUser()`) is a parameter; cookie handling is not
 * modelled. Requests without a user go to the login page unless they are on
 * an auth route or the home page; signed-in users are sent away from auth
 * routes to the dashboard.
 */
module RouteGuard {

  import opened Text

  datatype Decision = Pass | Redirect(pathname: string)

  const LoginPath: string := "/auth/login"
  const DashboardPath: string := "/dashboard"

  /** `pathname.startsWith('/auth')`: a plain prefix test. */
  predicate IsAuthRoute(pathname: string) {
    StartsWith(pathname, "/auth")
  }

  /** The landing page '/'. */
  predicate IsPublicRoute(pathname: string) {
    pathname == "/"
  }

  /** `middleware`: pass the request on, or redirect it to another path. */
  function Guard(hasUser: bool, pathname: string): (d: Decision)
    ensures d == Redirect(LoginPath) <==> !hasUser && !IsAuthRoute(pathname) && pathname != "/"
    ensures d == Redirect(DashboardPath) <==> hasUser && IsAuthRoute(pathname)
    ensures d.Redirect? ==> d.pathname == LoginPath || d.pathname == DashboardPath
  {
    var isAuthRoute := IsAuthRoute(pathname);
    var isPublicRoute := IsPublicRoute(pathname);
    if !hasUser && !isAuthRoute && !isPublicRoute then Redirect(LoginPath)
    else if hasUser && isAuthRoute then Redirect(DashboardPath)
    else Pass
  }

  /* ------------------------------- properties ------------------------------ */

  /** The home page is reachable with or without a user. */
  lemma HomeAlwaysPasses(hasUser: bool)
    ensures Guard(hasUser, "/") == Pass
  {
  }

  /** No redirect loop: the target of a redirect passes for the same user state. */
  lemma RedirectTargetPasses(hasUser: bool, pathname: string)
    requires Guard(hasUser, pathname).Redirect?
    ensures Guard(hasUser, Guard(hasUser, pathname).pathname) == Pass
  {
    if hasUser {
      assert !StartsWith(DashboardPath, "/auth") by {
        assert DashboardPath[1] != "/auth"[1];
      }
    } else {
      assert LoginPath[..5] == "/auth";
    }
  }

  /** The auth-route test is a prefix test, so '/authors' counts as an auth route. */
  lemma PrefixClassification()
    ensures IsAuthRoute("/authors")
    ensures Guard(true, "/authors") == Redirect(DashboardPath)
    ensures Guard(false, "/authors") == Pass
  {
    assert "/authors"[..5] == "/auth";
  }

  /** A protected page without a user goes to login; the same page with a user passes. */
  lemma ProtectedPage()
    ensures Guard(false, "/dashboard/rechnungen") == Redirect(LoginPath)
    ensures Guard(true, "/dashboard/rechnungen") == Pass
  {
    assert "/dashboard/rechnungen"[1] != "/auth"[1];
  }
}
