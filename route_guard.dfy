/**
 * The request middleware guarding the admin area: it looks only at whether an
 * `auth` cookie is present and at the request path, and either lets the request
 * through or redirects it.
 */
module RouteGuard {

  import opened Wrappers

  const AdminPath: string := "/admin"
  const LoginPath: string := "/admin/login"
  const SignupPath: string := "/admin/signup"

  datatype Decision = Redirect(location: string) | Next

  /** `pathname.startsWith(prefix)` */
  predicate StartsWith(path: string, prefix: string)
  {
    prefix <= path
  }

  /**
   * `middleware`: `authCookie` is the `auth` cookie's value when the request carries
   * one. A present cookie counts as signed in whatever its value, even "".
   */
  function Middleware(authCookie: Option<string>, path: string): (d: Decision)
    ensures d == Redirect(LoginPath) <==>
      StartsWith(path, AdminPath) && authCookie.None? && path != LoginPath && path != SignupPath
    ensures d == Redirect(AdminPath) <==> path == LoginPath && authCookie.Some?
    ensures d.Next? <==> !(d == Redirect(LoginPath) || d == Redirect(AdminPath))
  {
    var isAdminRoute := StartsWith(path, AdminPath);
    var isLoginPage := path == LoginPath;
    var isSignupPage := path == SignupPath;
    if isAdminRoute && authCookie.None? && !isLoginPage && !isSignupPage then
      Redirect(LoginPath)
    else if isLoginPage && authCookie.Some? then
      Redirect(AdminPath)
    else
      Next
  }

  /** The matcher `/admin/:path*`: the dashboard itself or anything below it. */
  predicate MatcherApplies(path: string): (r: bool)
    ensures r ==> StartsWith(path, AdminPath)
  {
    path == AdminPath || StartsWith(path, AdminPath + "/")
  }

  /** What a request meets: the middleware where the matcher applies, otherwise nothing. */
  function Guard(authCookie: Option<string>, path: string): (d: Decision)
    ensures !StartsWith(path, AdminPath) ==> d == Next
    ensures MatcherApplies(path) ==> d == Middleware(authCookie, path)
  {
    if MatcherApplies(path) then Middleware(authCookie, path) else Next
  }

  /** The login page without a cookie is let through: the guard never sends the login page to itself. */
  lemma LoginPageWithoutCookiePasses()
    ensures Middleware(None, LoginPath) == Next
  {
  }

  /** The sign-up page is always let through. */
  lemma SignupAlwaysPasses(authCookie: Option<string>)
    ensures Middleware(authCookie, SignupPath) == Next
  {
  }

  /** Only whether the cookie is present matters, not its value. */
  lemma CookieValueIrrelevant(v1: string, v2: string, path: string)
    ensures Middleware(Some(v1), path) == Middleware(Some(v2), path)
  {
  }

  /** Following a redirect, with the same cookie, is let through: no redirect loop. */
  lemma NoRedirectLoop(authCookie: Option<string>, path: string)
    requires Middleware(authCookie, path).Redirect?
    ensures Middleware(authCookie, Middleware(authCookie, path).location) == Next
  {
  }

  /**
   * "/administrator" starts with "/admin", so the middleware alone would send it to
   * the login page, but the matcher does not apply to it and it is let through.
   */
  lemma MatcherNarrowerThanPrefix()
    ensures Middleware(None, "/administrator") == Redirect(LoginPath)
    ensures Guard(None, "/administrator") == Next
  {
    assert !MatcherApplies("/administrator") by {
      assert "/administrator"[6] != "/admin/"[6];
    }
  }

}
