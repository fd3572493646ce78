/**
 * The route guard (`src/middleware.ts`): requests to the dashboard and the
 * admin area need a session cookie. The guard's own test is a raw prefix
 * test; the `config.matcher` decides which requests reach it at all.
 */
module Middleware {
  import opened Options
  import opened Strings

  datatype Outcome = RedirectToLogin | Next

  /** `pathname.startsWith('/dashboard') || pathname.startsWith('/admin')`. */
  predicate IsProtected(pathname: string) {
    StartsWith(pathname, "/dashboard") || StartsWith(pathname, "/admin")
  }

  /**
   * `middleware`: a protected path without a non-empty `sb-auth-token`
   * cookie is sent to `/login`; everything else goes through. The cookie's
   * value is not checked.
   */
  function Guard(pathname: string, session: Option<string>): (o: Outcome)
    ensures o == RedirectToLogin <==> IsProtected(pathname) && (session.None? || session.value == "")
  {
    if IsProtected(pathname) && (session.None? || session.value == "") then RedirectToLogin else Next
  }

  /** `/dashboard/:path*` and `/admin/:path*`: the section itself or anything below it. */
  predicate Matched(pathname: string) {
    pathname == "/dashboard" || StartsWith(pathname, "/dashboard/") ||
    pathname == "/admin" || StartsWith(pathname, "/admin/")
  }

  /** A request as the framework routes it: only matched paths run the guard. */
  function Route(pathname: string, session: Option<string>): (o: Outcome)
    ensures !Matched(pathname) ==> o == Next
  {
    if Matched(pathname) then Guard(pathname, session) else Next
  }

  /** Every path the matcher sends to the guard is one the guard protects. */
  lemma MatchedIsProtected(pathname: string)
    requires Matched(pathname)
    ensures IsProtected(pathname)
  {
    if StartsWith(pathname, "/dashboard/") {
      assert pathname[..10] == "/dashboard/"[..10];
    } else if StartsWith(pathname, "/admin/") {
      assert pathname[..6] == "/admin/"[..6];
    }
  }

  /** On a matched path, no session means the login page and any non-empty value is let through. */
  lemma MatchedPathNeedsCookie(pathname: string, session: Option<string>)
    requires Matched(pathname)
    ensures Route(pathname, session) == RedirectToLogin <==> session.None? || session.value == ""
  {
    MatchedIsProtected(pathname);
  }

  /** The guard's prefix test also covers `/administrator`, but the matcher never sends it there. */
  lemma AdministratorIsGuardedButNotMatched()
    ensures IsProtected("/administrator")
    ensures Guard("/administrator", None) == RedirectToLogin
    ensures !Matched("/administrator") && Route("/administrator", None) == Next
  {
    assert "/administrator"[..6] == "/admin";
    assert "/administrator"[6] != '/';
  }

  /** A path outside both areas is never redirected, whatever the cookie. */
  lemma UnprotectedPasses(pathname: string, session: Option<string>)
    requires !IsProtected(pathname)
    ensures Guard(pathname, session) == Next && Route(pathname, session) == Next
  {
  }
}
