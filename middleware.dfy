/**
 * The route gate (src/middleware.ts): for each request, from whether it carries a session and
 * its path, either let it through or redirect it to the sign-in endpoint.
 */
module Middleware {

  datatype Decision = PassThrough | Redirect(target: string)

  const AuthPrefix: string := "/api/auth"
  const PublicPrefix: string := "/public"
  const LoginPath: string := "/login"
  const SignInPath: string := "/api/auth/signin"

  /** `pathname.startsWith('/api/auth')`: the path's first characters are the prefix. */
  predicate IsAuthRoute(path: string): (b: bool)
    ensures b <==> |AuthPrefix| <= |path| && path[..|AuthPrefix|] == AuthPrefix
  {
    AuthPrefix <= path
  }

  /** `pathname.startsWith('/public') || pathname === '/login'` */
  predicate IsPublicRoute(path: string): (b: bool)
    ensures b <==> (|PublicPrefix| <= |path| && path[..|PublicPrefix|] == PublicPrefix) || path == LoginPath
  {
    PublicPrefix <= path || path == LoginPath
  }

  /** No path is both an auth route and a public route. */
  lemma RoutesDisjoint(path: string)
    ensures !(IsAuthRoute(path) && IsPublicRoute(path))
  {
    if IsAuthRoute(path) {
      assert path[1] == AuthPrefix[1] == 'a';
      assert PublicPrefix[1] == 'p' && LoginPath[1] == 'l';
    }
  }

  /** The callback handed to `auth`: returning nothing lets the request through. */
  function Gate(loggedIn: bool, path: string): (d: Decision)
    ensures d.Redirect? ==> d.target == SignInPath
  {
    if IsAuthRoute(path) || IsPublicRoute(path) then PassThrough
    else if !loggedIn then Redirect(SignInPath)
    else PassThrough
  }

  /** A request is redirected exactly when it has no session and its path is neither an auth nor a public route. */
  lemma RedirectedIff(loggedIn: bool, path: string)
    ensures Gate(loggedIn, path).Redirect? <==> !loggedIn && !IsAuthRoute(path) && !IsPublicRoute(path)
  {
  }

  /** Every path under `/api/auth` passes, with or without a session. */
  lemma AuthRoutesPass(loggedIn: bool, rest: string)
    ensures Gate(loggedIn, AuthPrefix + rest) == PassThrough
  {
    assert AuthPrefix <= AuthPrefix + rest;
  }

  /** Every path under `/public`, and `/login` itself, passes, with or without a session. */
  lemma PublicRoutesPass(loggedIn: bool, rest: string)
    ensures Gate(loggedIn, PublicPrefix + rest) == PassThrough
    ensures Gate(loggedIn, LoginPath) == PassThrough
  {
    assert PublicPrefix <= PublicPrefix + rest;
  }

  /** A request with a session is never redirected. */
  lemma LoggedInNeverRedirected(path: string)
    ensures Gate(true, path) == PassThrough
  {
  }

  /** The sign-in endpoint is an auth route, so following the redirect is never redirected again. */
  lemma RedirectTargetPasses(loggedIn: bool, path: string)
    ensures Gate(loggedIn, path).Redirect? ==> Gate(false, Gate(loggedIn, path).target) == PassThrough
  {
    assert SignInPath == AuthPrefix + "/signin";
    AuthRoutesPass(false, "/signin");
  }

  /** `/login` is the only public route outside `/public`: `/login/…` is not public. */
  lemma LoginIsExact(rest: string)
    requires rest != []
    ensures !IsPublicRoute(LoginPath + rest)
  {
    assert (LoginPath + rest)[1] == 'l';
    assert |LoginPath + rest| != |LoginPath|;
  }
}
