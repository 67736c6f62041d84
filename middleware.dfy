/**
 * The edge middleware that runs before every page: it classifies the path
 * as public, protected or admin by prefix, reads the `access_token` cookie
 * and decides whether to let the request through, redirect it, delete the
 * token cookies, or pass the verified claims on as headers. The signature
 * check is an oracle: its verdict on the request's token is a parameter.
 */
module Middleware {
  import opened Wrappers
  import opened Text
  import opened Cookies

  const PublicRoutes: seq<string> := ["/auth/login", "/auth/register"]
  const ProtectedRoutes: seq<string> := ["/dashboard", "/profile", "/orders", "/payments", "/broadcast"]
  const AdminRoutes: seq<string> := ["/admin"]

  const DashboardPath: string := "/dashboard/dashboard"
  const LoginPath: string := "/auth/login"

  /** The claims of a verified token that the middleware reads; a claim may be absent. */
  datatype Claims = Claims(sub: Option<string>, email: Option<string>, role: Option<string>)

  /** What `jwtVerify` makes of the token: its payload, or a thrown error. */
  datatype Verdict = Verified(claims: Claims) | Rejected

  datatype Action = Continue | Redirect(location: string)

  /** The response: go on or redirect, the cookies it deletes and the headers it sets, in order. */
  datatype Response = Response(action: Action, deleted: seq<string>, headers: seq<(string, string)>)

  const Next: Response := Response(Continue, [], [])

  /** `routes.some(route => pathname.startsWith(route))`. */
  function SomePrefix(routes: seq<string>, pathname: string): (b: bool)
    ensures b <==> exists i :: 0 <= i < |routes| && StartsWith(pathname, routes[i])
  {
    if |routes| == 0 then false
    else StartsWith(pathname, routes[0]) || SomePrefix(routes[1..], pathname)
  }

  predicate IsPublicRoute(pathname: string)
  {
    SomePrefix(PublicRoutes, pathname)
  }

  predicate IsProtectedRoute(pathname: string)
  {
    SomePrefix(ProtectedRoutes, pathname)
  }

  predicate IsAdminRoute(pathname: string)
  {
    SomePrefix(AdminRoutes, pathname)
  }

  /** A path the middleware guards: protected or admin. */
  predicate IsGuarded(pathname: string)
  {
    IsProtectedRoute(pathname) || IsAdminRoute(pathname)
  }

  /** `headers.set(name, value as string)` stores `String(value)`: an absent claim becomes `undefined`. */
  function HeaderValue(v: Option<string>): string
  {
    match v
    case Some(s) => s
    case None => "undefined"
  }

  function ClaimHeaders(c: Claims): seq<(string, string)>
  {
    [("x-user-id", HeaderValue(c.sub)), ("x-user-email", HeaderValue(c.email)), ("x-user-role", HeaderValue(c.role))]
  }

  /** `middleware(request)`, for the request's path, its `access_token` cookie and the verdict on that cookie. */
  function Decide(pathname: string, token: Option<string>, verdict: Verdict): (r: Response)
    ensures r.action.Redirect? ==> r.action.location == DashboardPath || r.action.location == LoginPath
    ensures r.deleted != [] ==> r.deleted == [AccessTokenName, RefreshTokenName] && Truthy(token) && verdict.Rejected?
    ensures r.headers != [] ==> r.action == Continue && verdict.Verified? && r.headers == ClaimHeaders(verdict.claims)
  {
    var isPublic := IsPublicRoute(pathname);
    var isProtected := IsProtectedRoute(pathname);
    var isAdmin := IsAdminRoute(pathname);
    if isPublic && Truthy(token) then
      if verdict.Verified? then Response(Redirect(DashboardPath), [], [])
      else Response(Continue, [AccessTokenName, RefreshTokenName], [])
    else if (isProtected || isAdmin) && !Truthy(token) then
      Response(Redirect(LoginPath), [], [])
    else if Truthy(token) && (isProtected || isAdmin) then
      match verdict
      case Verified(claims) =>
        if isAdmin && claims.role != Some("admin") then Response(Redirect(DashboardPath), [], [])
        else Response(Continue, [], ClaimHeaders(claims))
      case Rejected =>
        Response(Redirect(LoginPath), [AccessTokenName, RefreshTokenName], [])
    else if pathname == "/" then
      if Truthy(token) then Response(Redirect(DashboardPath), [], []) else Response(Redirect(LoginPath), [], [])
    else Next
  }

  // ---------------------------------------------------------------------------
  // Route classes
  // ---------------------------------------------------------------------------

  lemma PrefixChar(pathname: string, prefix: string, k: nat)
    requires StartsWith(pathname, prefix) && k < |prefix|
    ensures pathname[k] == prefix[k]
  {
    assert pathname[..|prefix|][k] == pathname[k];
  }

  /** A public path starts with `/au`; it is the only class whose third character is `u`. */
  lemma PublicShape(pathname: string)
    requires IsPublicRoute(pathname)
    ensures |pathname| > 2 && pathname[1] == 'a' && pathname[2] == 'u'
  {
    var i :| 0 <= i < |PublicRoutes| && StartsWith(pathname, PublicRoutes[i]);
    PrefixChar(pathname, PublicRoutes[i], 1);
    PrefixChar(pathname, PublicRoutes[i], 2);
  }

  lemma AdminShape(pathname: string)
    requires IsAdminRoute(pathname)
    ensures |pathname| > 2 && pathname[1] == 'a' && pathname[2] == 'd'
  {
    assert StartsWith(pathname, AdminRoutes[0]);
    PrefixChar(pathname, AdminRoutes[0], 1);
    PrefixChar(pathname, AdminRoutes[0], 2);
  }

  lemma ProtectedShape(pathname: string)
    requires IsProtectedRoute(pathname)
    ensures |pathname| > 2 && pathname[1] != 'a'
  {
    var i :| 0 <= i < |ProtectedRoutes| && StartsWith(pathname, ProtectedRoutes[i]);
    PrefixChar(pathname, ProtectedRoutes[i], 1);
    PrefixChar(pathname, ProtectedRoutes[i], 2);
  }

  /** No path is in two classes, so the order of the checks never hides a class. */
  lemma RoutesDisjoint(pathname: string)
    ensures !(IsPublicRoute(pathname) && IsProtectedRoute(pathname))
    ensures !(IsPublicRoute(pathname) && IsAdminRoute(pathname))
    ensures !(IsProtectedRoute(pathname) && IsAdminRoute(pathname))
  {
    if IsPublicRoute(pathname) {
      PublicShape(pathname);
      if IsProtectedRoute(pathname) {
        ProtectedShape(pathname);
      }
      if IsAdminRoute(pathname) {
        AdminShape(pathname);
      }
    }
    if IsProtectedRoute(pathname) && IsAdminRoute(pathname) {
      ProtectedShape(pathname);
      AdminShape(pathname);
    }
  }

  /** The root is in no class: the prefixes are all longer than `/`. */
  lemma RootUnclassified()
    ensures !IsPublicRoute("/") && !IsGuarded("/")
  {
    if IsPublicRoute("/") {
      PublicShape("/");
    }
    if IsProtectedRoute("/") {
      ProtectedShape("/");
    }
    if IsAdminRoute("/") {
      AdminShape("/");
    }
  }

  // ---------------------------------------------------------------------------
  // The decision, case by case
  // ---------------------------------------------------------------------------

  /** A public path with a token: a valid one sends the user to the dashboard, an invalid one is deleted. */
  lemma PublicWithToken(pathname: string, token: Option<string>, verdict: Verdict)
    requires IsPublicRoute(pathname) && Truthy(token)
    ensures verdict.Verified? ==> Decide(pathname, token, verdict) == Response(Redirect(DashboardPath), [], [])
    ensures verdict.Rejected? ==> Decide(pathname, token, verdict) == Response(Continue, [AccessTokenName, RefreshTokenName], [])
  {
  }

  /** A guarded path without a token goes to the login page. */
  lemma GuardedWithoutToken(pathname: string, token: Option<string>, verdict: Verdict)
    requires IsGuarded(pathname) && !Truthy(token)
    ensures Decide(pathname, token, verdict) == Response(Redirect(LoginPath), [], [])
  {
  }

  /** A guarded path with a valid token continues with the claims as headers, unless a non-admin asks for an admin path. */
  lemma GuardedVerified(pathname: string, token: Option<string>, claims: Claims)
    requires IsGuarded(pathname) && Truthy(token)
    ensures IsAdminRoute(pathname) && claims.role != Some("admin") ==>
      Decide(pathname, token, Verified(claims)) == Response(Redirect(DashboardPath), [], [])
    ensures !(IsAdminRoute(pathname) && claims.role != Some("admin")) ==>
      Decide(pathname, token, Verified(claims)) == Response(Continue, [], ClaimHeaders(claims))
  {
    RoutesDisjoint(pathname);
  }

  /** A guarded path with an invalid token goes to the login page and loses both token cookies. */
  lemma GuardedRejected(pathname: string, token: Option<string>)
    requires IsGuarded(pathname) && Truthy(token)
    ensures Decide(pathname, token, Rejected) == Response(Redirect(LoginPath), [AccessTokenName, RefreshTokenName], [])
  {
    RoutesDisjoint(pathname);
  }

  /** The root redirects on the mere presence of a token, which it does not verify. */
  lemma Root(token: Option<string>, verdict: Verdict)
    ensures Decide("/", token, verdict) == Response(Redirect(if Truthy(token) then DashboardPath else LoginPath), [], [])
  {
    RootUnclassified();
  }

  /** Every other path passes unchanged. */
  lemma Unclassified(pathname: string, token: Option<string>, verdict: Verdict)
    requires !IsPublicRoute(pathname) && !IsGuarded(pathname) && pathname != "/"
    ensures Decide(pathname, token, verdict) == Next
  {
  }

  // ---------------------------------------------------------------------------
  // What the decision guarantees
  // ---------------------------------------------------------------------------

  /**
   * A guarded page is served only with a token that verified, and an admin
   * page only to the admin role; the headers carry that token's claims.
   */
  lemma GuardedAccess(pathname: string, token: Option<string>, verdict: Verdict)
    requires IsGuarded(pathname) && Decide(pathname, token, verdict).action == Continue
    ensures Truthy(token) && verdict.Verified?
    ensures IsAdminRoute(pathname) ==> verdict.claims.role == Some("admin")
    ensures Decide(pathname, token, verdict).headers == ClaimHeaders(verdict.claims)
  {
    RoutesDisjoint(pathname);
  }

  /** The verdict matters only when a token is present on a public or guarded path. */
  lemma VerdictConsulted(pathname: string, token: Option<string>, v1: Verdict, v2: Verdict)
    requires !(Truthy(token) && (IsPublicRoute(pathname) || IsGuarded(pathname)))
    ensures Decide(pathname, token, v1) == Decide(pathname, token, v2)
  {
  }

  /** The token the browser sends after following a response: gone once the response deleted it. */
  function TokenAfter(r: Response, token: Option<string>): Option<string>
  {
    if AccessTokenName in r.deleted then None else token
  }

  lemma DashboardGuarded()
    ensures IsProtectedRoute(DashboardPath) && !IsAdminRoute(DashboardPath) && !IsPublicRoute(DashboardPath)
  {
    assert StartsWith(DashboardPath, ProtectedRoutes[0]);
    RoutesDisjoint(DashboardPath);
  }

  lemma LoginPublic()
    ensures IsPublicRoute(LoginPath) && !IsGuarded(LoginPath)
  {
    assert StartsWith(LoginPath, PublicRoutes[0]);
    RoutesDisjoint(LoginPath);
  }

  /** The login page lets through any request that carries no token. */
  lemma LoginWithoutToken(token: Option<string>, verdict: Verdict)
    requires !Truthy(token)
    ensures Decide(LoginPath, token, verdict) == Next
  {
    LoginPublic();
    assert LoginPath != "/" by {
      assert |LoginPath| != |"/"|;
    }
  }

  /** The dashboard serves a token that verifies, and sends one that does not to the login page without it. */
  lemma DashboardWithToken(token: Option<string>, verdict: Verdict)
    requires Truthy(token)
    ensures verdict.Verified? ==> Decide(DashboardPath, token, verdict).action == Continue
    ensures verdict.Rejected? ==> Decide(DashboardPath, token, verdict) == Response(Redirect(LoginPath), [AccessTokenName, RefreshTokenName], [])
  {
    DashboardGuarded();
    if verdict.Rejected? {
      GuardedRejected(DashboardPath, token);
    }
  }

  /** Where a first redirect leads, and with which token. */
  lemma RedirectTarget(pathname: string, token: Option<string>, verdict: Verdict)
    requires Decide(pathname, token, verdict).action.Redirect?
    ensures var r := Decide(pathname, token, verdict);
            r.action.location == LoginPath ==> !Truthy(TokenAfter(r, token))
    ensures var r := Decide(pathname, token, verdict);
            r.action.location == DashboardPath ==> TokenAfter(r, token) == token && Truthy(token)
  {
  }

  /**
   * No redirect loop: for a browser that follows redirects and drops the
   * cookies a response deletes, and for a token whose verdict does not
   * change, at most two redirects happen before a page is served.
   */
  lemma RedirectsSettle(pathname: string, token: Option<string>, verdict: Verdict)
    ensures var r1 := Decide(pathname, token, verdict);
            var t1 := TokenAfter(r1, token);
            r1.action.Redirect? ==>
              var r2 := Decide(r1.action.location, t1, verdict);
              r2.action.Redirect? ==>
                Decide(r2.action.location, TokenAfter(r2, t1), verdict).action == Continue
  {
    var r1 := Decide(pathname, token, verdict);
    var t1 := TokenAfter(r1, token);
    if r1.action.Redirect? {
      RedirectTarget(pathname, token, verdict);
      if r1.action.location == LoginPath {
        LoginWithoutToken(t1, verdict);
      } else {
        DashboardWithToken(t1, verdict);
        if verdict.Rejected? {
          var r2 := Decide(DashboardPath, t1, verdict);
          assert TokenAfter(r2, t1) == None;
          LoginWithoutToken(None, verdict);
        }
      }
    }
  }
}
