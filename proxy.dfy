/**
 * The request gate in front of the pages: which paths need a session,
 * which are the login pages, and whether a request is redirected or
 * passed on.  The session check (a `fetch` of the session endpoint) is an
 * input: its answer was ok, not ok, or the call threw.
 */
module Proxy {
  import opened Js
  import opened Text

  /** Paths that need a signed-in user. */
  const ProtectedRoutes: seq<string> :=
    ["/dashboard", "/donors", "/campaigns", "/donations", "/segments", "/workflows", "/tasks"]

  /** Paths a signed-in user is sent away from. */
  const AuthRoutes: seq<string> := ["/login", "/register"]

  /** `routes.some((route) => pathname.startsWith(route))` */
  predicate AnyPrefix(pathname: string, routes: seq<string>)
    ensures AnyPrefix(pathname, routes) <==> exists i :: 0 <= i < |routes| && StartsWith(pathname, routes[i])
  {
    if routes == [] then false
    else StartsWith(pathname, routes[0]) || AnyPrefix(pathname, routes[1..])
  }

  predicate IsProtectedRoute(pathname: string) {
    AnyPrefix(pathname, ProtectedRoutes)
  }

  predicate IsAuthRoute(pathname: string) {
    AnyPrefix(pathname, AuthRoutes)
  }

  /** The outcome of the session check. */
  datatype SessionCheck = Accepted | Rejected | Threw

  datatype Decision =
    | RedirectToLogin(from: string)   // `/login?from=<pathname>`
    | RedirectToDashboard
    | Pass                            // `NextResponse.next()`

  /**
   * The second character of a path decides its group: the protected
   * prefixes continue with `d`, `c`, `s`, `w` or `t`, the login pages with
   * `l` or `r`, so no path is both.
   */
  lemma RoutesDisjoint(pathname: string)
    ensures !(IsProtectedRoute(pathname) && IsAuthRoute(pathname))
  {
    if IsProtectedRoute(pathname) {
      var i :| 0 <= i < |ProtectedRoutes| && StartsWith(pathname, ProtectedRoutes[i]);
      assert pathname[1] == ProtectedRoutes[i][1];
      forall j | 0 <= j < |AuthRoutes|
        ensures !StartsWith(pathname, AuthRoutes[j])
      {
        assert AuthRoutes[j][1] != ProtectedRoutes[i][1];
      }
    }
  }

  /** `proxy(request)`; `check` is consulted only for a protected path with a token. */
  function Decide(pathname: string, sessionToken: Option<string>, check: SessionCheck): (d: Decision)
    ensures d.RedirectToLogin? <==>
      IsProtectedRoute(pathname) && (!TruthyText(sessionToken) || check == Rejected)
    ensures d.RedirectToLogin? ==> d.from == pathname
    ensures d == RedirectToDashboard <==> IsAuthRoute(pathname) && TruthyText(sessionToken)
    ensures IsProtectedRoute(pathname) && TruthyText(sessionToken) && check == Threw ==> d == Pass
  {
    RoutesDisjoint(pathname);
    var protected := IsProtectedRoute(pathname);
    var auth := IsAuthRoute(pathname);
    if protected && !TruthyText(sessionToken) then RedirectToLogin(pathname)
    else if protected && TruthyText(sessionToken) && check == Rejected then RedirectToLogin(pathname)
    else if auth && TruthyText(sessionToken) then RedirectToDashboard
    else Pass
  }

  /** A path in neither group is never redirected, whatever the session. */
  lemma PublicPathsPass(pathname: string, sessionToken: Option<string>, check: SessionCheck)
    requires !IsProtectedRoute(pathname) && !IsAuthRoute(pathname)
    ensures Decide(pathname, sessionToken, check) == Pass
  {
  }

  /** Every listed protected prefix, and every path under it, is protected. */
  lemma ProtectedPrefixes(pathname: string, suffix: string)
    requires pathname in ProtectedRoutes
    ensures IsProtectedRoute(pathname + suffix)
  {
    var i :| 0 <= i < |ProtectedRoutes| && ProtectedRoutes[i] == pathname;
    assert (pathname + suffix)[..|pathname|] == pathname;
  }
}
