/**
 * The request middleware (src/middleware.ts): the protected-route test and
 * the redirect decision taken after the session lookup. The session lookup
 * itself is not modelled: its outcome (a session or none, or an exception)
 * is a parameter. The cookie plumbing is left out.
 */
module Middleware {

  /** The parts of `request.nextUrl` the decision reads or copies. */
  datatype Url = Url(origin: string, pathname: string, search: string, hash: string)

  /** The outcome of `supabase.auth.getSession()`. */
  datatype SessionLookup = Found(present: bool) | LookupThrew

  /** What the middleware returns: the request passes through (with the
      refreshed cookies, not modelled) or is redirected to a URL. */
  datatype Response = PassThrough | Redirect(to: Url)

  const ProtectedRoutes: seq<string> := ["/dashboard", "/whiteboard", "/profile", "/api-test", "/debug"]
  const AuthPath := "/auth"
  const DashboardPath := "/dashboard"
  const RootPath := "/"

  /** `routes.some(route => path.startsWith(route))`. */
  function AnyPrefixOf(routes: seq<string>, path: string): (found: bool)
    ensures found <==> exists i :: 0 <= i < |routes| && routes[i] <= path
  {
    if routes == [] then false
    else routes[0] <= path || AnyPrefixOf(routes[1..], path)
  }

  predicate IsProtectedRoute(path: string) {
    AnyPrefixOf(ProtectedRoutes, path)
  }

  /** The prefix test is plain: any path that merely begins with a protected
      route's text is protected too. */
  lemma PlainPrefixTest(route: string, rest: string)
    requires route in ProtectedRoutes
    ensures IsProtectedRoute(route + rest)
  {
    var i :| 0 <= i < |ProtectedRoutes| && ProtectedRoutes[i] == route;
    assert ProtectedRoutes[i] <= route + rest;
  }

  /** Paths shorter than every protected route are not protected; the root
      and '/auth' are such paths. */
  lemma ShortPathsOpen(path: string)
    requires |path| < 6
    ensures !IsProtectedRoute(path)
  {
  }

  /** The decision of lines 38 to 58: with no session a protected path is
      sent to '/auth'; with a session the root is sent to '/dashboard'; a
      thrown lookup and every other case pass through. A redirect copies the
      request's URL and changes its path only. */
  function Decide(url: Url, session: SessionLookup): (response: Response)
    ensures response.Redirect? ==> response.to == url.(pathname := response.to.pathname)
    ensures response == Redirect(url.(pathname := AuthPath)) <==>
      session == Found(false) && IsProtectedRoute(url.pathname)
    ensures response == Redirect(url.(pathname := DashboardPath)) <==>
      session == Found(true) && url.pathname == RootPath
    ensures response.PassThrough? <==>
      session.LookupThrew?
      || (!session.present && !IsProtectedRoute(url.pathname))
      || (session.present && url.pathname != RootPath)
  {
    match session
    case LookupThrew => PassThrough
    case Found(present) =>
      if !present && IsProtectedRoute(url.pathname) then Redirect(url.(pathname := AuthPath))
      else if present && url.pathname == RootPath then Redirect(url.(pathname := DashboardPath))
      else PassThrough
  }

  /** No redirect loop: the URL a redirect leads to passes through when the
      session lookup gives the same answer there. */
  lemma RedirectTargetPasses(url: Url, session: SessionLookup)
    requires Decide(url, session).Redirect?
    ensures Decide(Decide(url, session).to, session).PassThrough?
  {
    if session == Found(false) {
      ShortPathsOpen(AuthPath);
    }
  }

  /** Signing out never traps a user on the sign-in page, and the root page
      is open to visitors without a session. */
  lemma OpenPages(url: Url, session: SessionLookup)
    requires url.pathname == AuthPath || (url.pathname == RootPath && session != Found(true))
    ensures Decide(url, session).PassThrough?
  {
    ShortPathsOpen(url.pathname);
  }
}
