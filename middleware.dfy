/**
 * The route guard run before every request to /dashboard, /editor, /login
 * and /register. The session cookie's decoding (base64 and JSON) and the
 * clock are inputs: `Session` says what decoding produced and `now` is the
 * current time in milliseconds.
 */
module Middleware {
  import opened Wrappers

  const ProtectedRoutes: seq<string> := ["/dashboard", "/editor"]
  const PublicRoutes: seq<string> := ["/login", "/register"]

  /** What the `session` cookie yields: no cookie (or an empty one), a value
      whose payload cannot be decoded, or a decoded payload whose `exp`
      (seconds) may be missing. */
  datatype Session = NoCookie | Undecodable | Decoded(exp: Option<int>)

  datatype Response = Next | Redirect(location: string)

  /** `path === route || path.startsWith(route + "/")`. */
  predicate UnderRoute(path: string, route: string) {
    path == route || route + "/" <= path
  }

  predicate IsProtectedRoute(path: string) {
    exists r :: r in ProtectedRoutes && UnderRoute(path, r)
  }

  predicate IsPublicRoute(path: string) {
    path in PublicRoutes
  }

  /** `exp * 1000 < Date.now()`; without a cookie, or when decoding throws,
      the session counts as expired. A payload without `exp` compares NaN,
      which is never less than anything, so it never expires. */
  predicate IsExpired(session: Session, now: int) {
    match session
    case NoCookie => true
    case Undecodable => true
    case Decoded(exp) => exp.Some? && exp.value * 1000 < now
  }

  function Middleware(path: string, session: Session, now: int): (r: Response)
    ensures r == Redirect("/login") <==> IsProtectedRoute(path) && IsExpired(session, now)
    ensures r == Redirect("/dashboard") <==> IsPublicRoute(path) && !IsExpired(session, now)
    ensures r == Next <==> !(IsProtectedRoute(path) && IsExpired(session, now)) && !(IsPublicRoute(path) && !IsExpired(session, now))
  {
    if IsProtectedRoute(path) && IsExpired(session, now) then Redirect("/login")
    else if IsPublicRoute(path) && !IsExpired(session, now) then Redirect("/dashboard")
    else Next
  }

  /** The protected routes are exactly /dashboard, /editor and the paths
      below them; a longer name such as /dashboardx is not protected. */
  lemma ProtectedRouteIff(path: string)
    ensures IsProtectedRoute(path) <==>
      (path == "/dashboard" || path == "/editor" || "/dashboard/" <= path || "/editor/" <= path)
    ensures !IsProtectedRoute("/dashboardx")
  {
    assert "/dashboard" in ProtectedRoutes && "/editor" in ProtectedRoutes;
    assert "/dashboard" + "/" == "/dashboard/";
    assert "/editor" + "/" == "/editor/";
    assert !("/dashboard/" <= "/dashboardx") by {
      assert "/dashboardx"[10] != "/dashboard/"[10];
    }
    assert !("/editor/" <= "/dashboardx") by {
      assert "/dashboardx"[1] != "/editor/"[1];
    }
    assert "/dashboardx" != "/dashboard" && "/dashboardx" != "/editor";
  }

  /** No path is both protected and public, so at most one redirect applies. */
  lemma RoutesDisjoint(path: string)
    ensures !(IsProtectedRoute(path) && IsPublicRoute(path))
  {
    if IsPublicRoute(path) {
      ProtectedRouteIff(path);
      assert !("/dashboard/" <= "/login") && !("/editor/" <= "/login");
      assert !("/dashboard/" <= "/register");
      assert !("/editor/" <= "/register") by { assert "/register"[1] != "/editor/"[1]; }
    }
  }

  /** A redirect never leads to a page that redirects again under the same
      session at the same moment. */
  lemma NoRedirectLoop(path: string, session: Session, now: int)
    requires Middleware(path, session, now).Redirect?
    ensures Middleware(Middleware(path, session, now).location, session, now) == Next
  {
    ProtectedRouteIff("/login");
    ProtectedRouteIff("/dashboard");
    assert !("/dashboard/" <= "/login") && !("/editor/" <= "/login");
    assert IsPublicRoute("/login") && !IsPublicRoute("/dashboard");
  }

  /** A token is still valid in the very millisecond `exp * 1000` equals the clock. */
  lemma ExpiryBoundary(exp: int)
    ensures !IsExpired(Decoded(Some(exp)), exp * 1000)
    ensures IsExpired(Decoded(Some(exp)), exp * 1000 + 1)
  {
  }

  /** Without a usable session every protected path sends the visitor to /login. */
  lemma NoSessionGoesToLogin(path: string, session: Session, now: int)
    requires session == NoCookie || session == Undecodable
    requires IsProtectedRoute(path)
    ensures Middleware(path, session, now) == Redirect("/login")
  {
  }
}
