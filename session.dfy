/**
 * The session coordinator of the `useAuth` hook: the authentication state, the
 * refresh-attempt counter, the single-flight refresh guard, and the response
 * interceptor's retry policy.
 *
 * The hook's async functions are split at their `await` points. A start method
 * does the work before the first `await` and records the request it sends; a
 * continuation method takes the server's answer as a parameter and does the
 * work after the `await`. The environment may run continuations in any order,
 * which is how the model stands for the browser's event loop. The refresh
 * promises the hook creates are kept, in creation order, in `promises`;
 * `refreshPromise` is an index into it.
 */
module Session {
  import opened Wrappers
  import opened Text
  import opened Cookies

  const MaxRefreshAttempts: nat := 3
  const DashboardRoute: string := "/dashboard/dashboard"
  const LoginRoute: string := "/auth/login"
  const RefreshUrl: string := "/auth/refresh"
  const LoginFallback: string := "Ошибка входа"
  const RegisterFallback: string := "Ошибка регистрации"

  datatype Role = UserRole | AdminRole | ManagerRole

  /** `UserData`: the profile the server returns. */
  datatype User = User(id: string, email: string, role: Role, name: Option<string>, surname: Option<string>)

  datatype AuthState = AuthState(user: Option<User>, isLoading: bool, isAuthenticated: bool)

  /** `{ user: null, isLoading: false, isAuthenticated: false }`. */
  const SignedOut: AuthState := AuthState(None, false, false)

  datatype Credentials = Credentials(email: string, password: string)

  datatype Body = NoBody | CredentialsBody(credentials: Credentials) | RefreshBody(refreshToken: string)

  /** An axios request config as far as the hook reads or writes it. */
  datatype ApiRequest = ApiRequest(url: Option<string>, body: Body, retry: bool, authorization: Option<string>)

  /** A refresh promise: still waiting for the server, or settled with its boolean. */
  datatype Promise = Pending | Resolved(value: bool)

  /** The server's answer to a login or register request; `Refused` carries `response.data.message`, if any. */
  datatype AuthReply = Granted(tokens: TokenPair, user: User) | Refused(message: Option<string>)

  datatype RefreshReply = Refreshed(tokens: TokenPair) | RefreshFailed

  datatype ProfileReply = Profile(user: User) | ProfileFailed

  /** What `login` and `register` resolve to. */
  datatype AuthResult = AuthResult(success: bool, error: Option<string>)

  /** Where a run of `checkAuth` stands after a step. */
  datatype CheckStep = CheckDone | AwaitProfile | AwaitRefresh(promise: nat)

  /** Where the response interceptor's error handler stands after a step. */
  datatype ErrorStep =
    | Rejected
    | AwaitRefreshThenRetry(request: ApiRequest, promise: nat)
    | Resent(request: ApiRequest)

  function Request(url: string, body: Body): ApiRequest
  {
    ApiRequest(Some(url), body, false, None)
  }

  /**
   * The request interceptor: with a truthy access token the request carries
   * `Authorization: Bearer <token>`; otherwise its headers are left alone.
   */
  function Authorize(req: ApiRequest, token: Option<string>): (r: ApiRequest)
    ensures r.url == req.url && r.body == req.body && r.retry == req.retry
    ensures Truthy(token) ==> r.authorization == Some("Bearer " + token.value)
    ensures !Truthy(token) ==> r == req
  {
    if Truthy(token) then req.(authorization := Some("Bearer " + token.value)) else req
  }

  /** Authorizing twice with the same token is authorizing once. */
  lemma AuthorizeIdempotent(req: ApiRequest, token: Option<string>)
    ensures Authorize(Authorize(req, token), token) == Authorize(req, token)
  {
  }

  /** `errorMessage || fallback`, where `errorMessage` is the server's message when there is one. */
  function FailureMessage(message: Option<string>, fallback: string): (m: string)
    ensures Truthy(message) ==> m == message.value
    ensures !Truthy(message) ==> m == fallback
  {
    if Truthy(message) then message.value else fallback
  }

  /** A failed login or register always reports a non-empty error. */
  lemma FailureMessageNonEmpty(message: Option<string>)
    ensures FailureMessage(message, LoginFallback) != ""
    ensures FailureMessage(message, RegisterFallback) != ""
  {
  }

  /** `originalRequest.url?.includes("/auth/refresh")`: an absent URL does not count as the refresh endpoint. */
  predicate IsRefreshRequest(req: ApiRequest)
  {
    req.url.Some? && Contains(req.url.value, RefreshUrl)
  }

  /** None of the other auth endpoints is taken for the refresh endpoint. */
  lemma AuthUrlsNotRefresh()
    ensures !Contains("/auth/login", RefreshUrl)
    ensures !Contains("/auth/register", RefreshUrl)
    ensures !Contains("/auth/logout", RefreshUrl)
  {
    ShorterNotContained("/auth/login", RefreshUrl);
    ShorterNotContained("/auth/logout", RefreshUrl);
    RegisterNotRefresh();
  }

  lemma RegisterNotRefresh()
    ensures !Contains("/auth/register", RefreshUrl)
  {
    var r := "/auth/register";
    ShorterNotContained(r[2..], RefreshUrl);
    assert !StartsWith(r, RefreshUrl) by { assert r[8] != RefreshUrl[8]; }
    assert !StartsWith(r[1..], RefreshUrl) by { assert r[1] != RefreshUrl[0]; }
    assert r[1..][1..] == r[2..];
  }

  /** Every pending refresh promise is the one the guard holds, and the guard is up. */
  ghost predicate OnlyGuardedPending(promises: seq<Promise>, isRefreshing: bool, refreshPromise: Option<nat>)
  {
    forall i :: 0 <= i < |promises| && promises[i] == Pending ==> isRefreshing && refreshPromise == Some(i)
  }

  class AuthSession {
    /** The browser's cookies, which `clientTokens` reads and writes. */
    const jar: CookieJar
    var authState: AuthState
    /** `refreshAttempts.current`. */
    var refreshAttempts: nat
    /** `isRefreshing.current`. */
    var isRefreshing: bool
    /** `refreshPromise.current`: an index into `promises`, or null. */
    var refreshPromise: Option<nat>
    /** Every refresh promise the hook has created, in creation order. */
    var promises: seq<Promise>
    /** Every request handed to the server, after the request interceptor, in order. */
    var requests: seq<ApiRequest>
    /** The route of the last `router.push`, if any. */
    var route: Option<string>

    ghost predicate Valid()
      reads this, jar
    {
      && jar.Valid() && jar.hasDocument
      && refreshAttempts <= MaxRefreshAttempts
      && (authState.isAuthenticated <==> authState.user.Some?)
      && (refreshPromise.Some? ==> refreshPromise.value < |promises|)
      && (isRefreshing ==> refreshPromise.Some? && promises[refreshPromise.value] == Pending)
    }

    /**
     * At most one refresh is in flight, and it is the one the guard points to.
     * Every step but `LogoutFinish` keeps this; `LogoutFinish` keeps it only
     * when no refresh is in flight.
     */
    ghost predicate SingleFlight()
      reads this
    {
      OnlyGuardedPending(promises, isRefreshing, refreshPromise)
    }

    /** The hook's state on mount, before the mount effect's `checkAuth` runs. */
    constructor (jar: CookieJar)
      requires jar.Valid() && jar.hasDocument
      ensures Valid() && SingleFlight()
      ensures this.jar == jar
      ensures authState == AuthState(None, true, false)
      ensures refreshAttempts == 0 && !isRefreshing && refreshPromise == None
      ensures promises == [] && requests == [] && route == None
    {
      this.jar := jar;
      authState := AuthState(None, true, false);
      refreshAttempts := 0;
      isRefreshing := false;
      refreshPromise := None;
      promises := [];
      requests := [];
      route := None;
    }

    /** `apiClient.*(...)`: the request, as the request interceptor hands it on. */
    method Send(req: ApiRequest)
      requires jar.Valid()
      modifies this`requests
      ensures requests == old(requests) + [Authorize(req, jar.AccessToken())]
      ensures Valid() <==> old(Valid())
      ensures SingleFlight() <==> old(SingleFlight())
    {
      var token := jar.GetAccessToken();
      requests := requests + [Authorize(req, token)];
    }

    /**
     * `refreshToken()` up to its first `await`: the promise the caller awaits.
     * A refresh in flight is joined without a new request. Otherwise, with no
     * refresh token, the new promise is already settled to false (its `finally`
     * has run before the promise is stored in the guard); with one, the refresh
     * request is sent and the guard holds the new, pending promise.
     */
    method RefreshToken() returns (p: nat)
      requires Valid()
      modifies this
      ensures Valid() && p < |promises|
      ensures old(SingleFlight()) ==> SingleFlight()
      ensures route == old(route) && authState == old(authState) && refreshAttempts == old(refreshAttempts)
      ensures old(isRefreshing) ==>
                p == old(refreshPromise.value) && promises == old(promises) && requests == old(requests)
                && isRefreshing && refreshPromise == old(refreshPromise)
      ensures !old(isRefreshing) && !Truthy(jar.RefreshToken()) ==>
                promises == old(promises) + [Resolved(false)] && p == |old(promises)|
                && requests == old(requests) && !isRefreshing && refreshPromise == Some(p)
      ensures !old(isRefreshing) && Truthy(jar.RefreshToken()) ==>
                promises == old(promises) + [Pending] && p == |old(promises)|
                && requests == old(requests) + [Authorize(Request(RefreshUrl, RefreshBody(jar.RefreshToken().value)), jar.AccessToken())]
                && isRefreshing && refreshPromise == Some(p)
    {
      if isRefreshing && refreshPromise.Some? {
        return refreshPromise.value;
      }
      isRefreshing := true;
      var refresh := jar.GetRefreshToken();
      p := |promises|;
      if !Truthy(refresh) {
        promises := promises + [Resolved(false)];
        isRefreshing := false;
        refreshPromise := None;
      } else {
        Send(Request(RefreshUrl, RefreshBody(refresh.value)));
        promises := promises + [Pending];
      }
      refreshPromise := Some(p);
    }

    /**
     * The server answers refresh request `p`: on success both tokens are
     * replaced and `p` settles to true, otherwise `p` settles to false with no
     * token written; either way the guard is cleared, even if it now points to
     * a later refresh.
     */
    method RefreshSettle(p: nat, reply: RefreshReply)
      requires Valid() && p < |promises| && promises[p] == Pending
      modifies this, jar
      ensures Valid()
      ensures old(SingleFlight()) ==> SingleFlight()
      ensures promises == old(promises)[p := Resolved(reply.Refreshed?)]
      ensures !isRefreshing && refreshPromise == None
      ensures requests == old(requests) && route == old(route)
      ensures authState == old(authState) && refreshAttempts == old(refreshAttempts)
      ensures reply.Refreshed? ==>
                jar.entries == ApplyAll(old(jar.entries), TokenWrites(reply.tokens, jar.production))
                && jar.AccessToken() == Some(Before(StoredValue(reply.tokens.accessToken), '='))
                && jar.RefreshToken() == Some(Before(StoredValue(reply.tokens.refreshToken), '='))
      ensures reply.RefreshFailed? ==> jar.entries == old(jar.entries) && jar.writes == old(jar.writes)
    {
      if reply.Refreshed? {
        jar.SetTokens(reply.tokens);
      }
      promises := promises[p := Resolved(reply.Refreshed?)];
      isRefreshing := false;
      refreshPromise := None;
    }

    /**
     * `checkAuth()` up to its first `await`, in a run after the interceptors
     * are installed (the run `checkAuth` starts again after a refresh): with
     * no access token the state becomes signed out and no request is made;
     * otherwise the profile is requested through the request interceptor.
     */
    method CheckAuth() returns (step: CheckStep)
      requires Valid()
      modifies this
      ensures Valid()
      ensures step == CheckDone || step == AwaitProfile
      ensures step == CheckDone <==> !Truthy(jar.AccessToken())
      ensures step == CheckDone ==> authState == SignedOut && requests == old(requests)
      ensures step == AwaitProfile ==>
                authState == old(authState)
                && requests == old(requests) + [Authorize(Request("/auth/profile", NoBody), jar.AccessToken())]
      ensures promises == old(promises) && isRefreshing == old(isRefreshing) && refreshPromise == old(refreshPromise)
      ensures refreshAttempts == old(refreshAttempts) && route == old(route)
    {
      var token := jar.GetAccessToken();
      if !Truthy(token) {
        authState := SignedOut;
        return CheckDone;
      }
      Send(Request("/auth/profile", NoBody));
      step := AwaitProfile;
    }

    /**
     * The mount effect's `checkAuth()` up to its first `await`. That effect is
     * declared before the one that installs the interceptors, and React runs a
     * component's effects in declaration order, so this profile request is
     * sent with neither interceptor in place: it carries no `Authorization`
     * header whatever the cookie holds, and its failure reaches `checkAuth`'s
     * `catch` (`CheckAuthProfile`) without the response interceptor, so
     * neither the retry flag nor the attempt counter is touched.
     */
    method Mount() returns (step: CheckStep)
      requires Valid()
      modifies this
      ensures Valid() && (old(SingleFlight()) ==> SingleFlight())
      ensures step == CheckDone || step == AwaitProfile
      ensures step == CheckDone <==> !Truthy(jar.AccessToken())
      ensures step == CheckDone ==> authState == SignedOut && requests == old(requests)
      ensures step == AwaitProfile ==>
                authState == old(authState) && requests == old(requests) + [Request("/auth/profile", NoBody)]
      ensures promises == old(promises) && isRefreshing == old(isRefreshing) && refreshPromise == old(refreshPromise)
      ensures refreshAttempts == old(refreshAttempts) && route == old(route)
    {
      var token := jar.GetAccessToken();
      if !Truthy(token) {
        authState := SignedOut;
        return CheckDone;
      }
      requests := requests + [Request("/auth/profile", NoBody)];
      step := AwaitProfile;
    }

    /**
     * A page load with an access token whose profile request the server
     * refuses: the request went out without a bearer header, and the refusal
     * goes straight to a refresh, with the attempt counter left as it was.
     */
    method MountProfileRefused() returns (step: CheckStep)
      requires Valid() && !isRefreshing && Truthy(jar.AccessToken())
      modifies this
      ensures Valid()
      ensures step.AwaitRefresh? && step.promise == |old(promises)|
      ensures refreshAttempts == old(refreshAttempts) && authState == old(authState) && route == old(route)
      ensures !Truthy(jar.RefreshToken()) ==>
                requests == old(requests) + [Request("/auth/profile", NoBody)]
                && promises == old(promises) + [Resolved(false)]
      ensures Truthy(jar.RefreshToken()) ==>
                requests == old(requests) + [Request("/auth/profile", NoBody),
                                             Authorize(Request(RefreshUrl, RefreshBody(jar.RefreshToken().value)), jar.AccessToken())]
                && promises == old(promises) + [Pending]
    {
      var sent := Mount();
      step := CheckAuthProfile(ProfileFailed);
    }

    /** The profile request settles: the user is signed in, or a refresh is tried. */
    method CheckAuthProfile(reply: ProfileReply) returns (step: CheckStep)
      requires Valid()
      modifies this
      ensures Valid()
      ensures old(SingleFlight()) ==> SingleFlight()
      ensures reply.Profile? ==>
                step == CheckDone && authState == AuthState(Some(reply.user), false, true)
                && requests == old(requests) && promises == old(promises)
      ensures reply.ProfileFailed? ==>
                step.AwaitRefresh? && step.promise < |promises| && authState == old(authState)
      ensures reply.ProfileFailed? && old(isRefreshing) ==>
                step.promise == old(refreshPromise.value) && promises == old(promises) && requests == old(requests)
      ensures reply.ProfileFailed? && !old(isRefreshing) && !Truthy(jar.RefreshToken()) ==>
                promises == old(promises) + [Resolved(false)] && step.promise == |old(promises)| && requests == old(requests)
      ensures reply.ProfileFailed? && !old(isRefreshing) && Truthy(jar.RefreshToken()) ==>
                promises == old(promises) + [Pending] && step.promise == |old(promises)|
                && requests == old(requests) + [Authorize(Request(RefreshUrl, RefreshBody(jar.RefreshToken().value)), jar.AccessToken())]
      ensures refreshAttempts == old(refreshAttempts) && route == old(route)
    {
      if reply.Profile? {
        authState := AuthState(Some(reply.user), false, true);
        return CheckDone;
      }
      var p := RefreshToken();
      step := AwaitRefresh(p);
    }

    /** `checkAuth` resumes after the refresh it awaited: a success starts `checkAuth` over. */
    method CheckAuthResume(p: nat) returns (step: CheckStep)
      requires Valid() && p < |promises| && promises[p].Resolved?
      modifies this
      ensures Valid()
      ensures !old(promises)[p].value ==> step == CheckDone && authState == SignedOut && requests == old(requests)
      ensures old(promises)[p].value ==> (step == CheckDone || step == AwaitProfile)
      ensures step == CheckDone ==> authState == SignedOut
      ensures promises == old(promises) && isRefreshing == old(isRefreshing) && refreshPromise == old(refreshPromise)
      ensures refreshAttempts == old(refreshAttempts) && route == old(route)
    {
      if promises[p].value {
        step := CheckAuth();
      } else {
        authState := SignedOut;
        step := CheckDone;
      }
    }

    /** `login(c)` up to its `await`. */
    method LoginStart(c: Credentials)
      requires Valid()
      modifies this`requests
      ensures Valid() && (SingleFlight() <==> old(SingleFlight()))
      ensures requests == old(requests) + [Authorize(Request("/auth/login", CredentialsBody(c)), jar.AccessToken())]
    {
      Send(Request("/auth/login", CredentialsBody(c)));
    }

    /** `login` after the server's answer. */
    method LoginFinish(reply: AuthReply) returns (result: AuthResult)
      requires Valid()
      modifies this, jar
      ensures Valid()
      ensures result.success <==> reply.Granted?
      ensures reply.Granted? ==> SignedIn(reply.tokens, reply.user) && result.error == None
      ensures reply.Refused? ==>
                result.error == Some(FailureMessage(reply.message, LoginFallback))
                && route == old(route) && authState == old(authState)
                && jar.entries == old(jar.entries) && jar.writes == old(jar.writes)
      ensures refreshAttempts == old(refreshAttempts) && requests == old(requests)
      ensures isRefreshing == old(isRefreshing) && refreshPromise == old(refreshPromise) && promises == old(promises)
    {
      result := FinishAuth(reply, LoginFallback);
    }

    /** `register(c)` up to its `await`. */
    method RegisterStart(c: Credentials)
      requires Valid()
      modifies this`requests
      ensures Valid() && (SingleFlight() <==> old(SingleFlight()))
      ensures requests == old(requests) + [Authorize(Request("/auth/register", CredentialsBody(c)), jar.AccessToken())]
    {
      Send(Request("/auth/register", CredentialsBody(c)));
    }

    /** `register` after the server's answer. */
    method RegisterFinish(reply: AuthReply) returns (result: AuthResult)
      requires Valid()
      modifies this, jar
      ensures Valid()
      ensures result.success <==> reply.Granted?
      ensures reply.Granted? ==> SignedIn(reply.tokens, reply.user) && result.error == None
      ensures reply.Refused? ==>
                result.error == Some(FailureMessage(reply.message, RegisterFallback))
                && route == old(route) && authState == old(authState)
                && jar.entries == old(jar.entries) && jar.writes == old(jar.writes)
      ensures refreshAttempts == old(refreshAttempts) && requests == old(requests)
      ensures isRefreshing == old(isRefreshing) && refreshPromise == old(refreshPromise) && promises == old(promises)
    {
      result := FinishAuth(reply, RegisterFallback);
    }

    /**
     * The state a successful login or register leaves: the returned pair
     * stored through `setTokens`, the returned user signed in, and the
     * dashboard as the route.
     */
    twostate predicate SignedIn(tokens: TokenPair, user: User)
      reads this, jar
    {
      && jar.entries == ApplyAll(old(jar.entries), TokenWrites(tokens, jar.production))
      && jar.writes == old(jar.writes) + TokenWrites(tokens, jar.production)
      && authState == AuthState(Some(user), false, true)
      && route == Some(DashboardRoute)
    }

    /** The part `login` and `register` share after the server's answer. */
    method FinishAuth(reply: AuthReply, fallback: string) returns (result: AuthResult)
      requires Valid()
      modifies this, jar
      ensures Valid()
      ensures result.success <==> reply.Granted?
      ensures reply.Granted? ==> SignedIn(reply.tokens, reply.user) && result.error == None
      ensures reply.Refused? ==>
                result.error == Some(FailureMessage(reply.message, fallback))
                && route == old(route) && authState == old(authState)
                && jar.entries == old(jar.entries) && jar.writes == old(jar.writes)
      ensures refreshAttempts == old(refreshAttempts) && requests == old(requests)
      ensures isRefreshing == old(isRefreshing) && refreshPromise == old(refreshPromise) && promises == old(promises)
    {
      match reply
      case Granted(tokens, user) =>
        jar.SetTokens(tokens);
        authState := AuthState(Some(user), false, true);
        route := Some(DashboardRoute);
        result := AuthResult(true, None);
      case Refused(message) =>
        result := AuthResult(false, Some(FailureMessage(message, fallback)));
    }

    /** `logout()` up to its `await`: the server is told. */
    method LogoutStart()
      requires Valid()
      modifies this`requests
      ensures Valid() && (SingleFlight() <==> old(SingleFlight()))
      ensures requests == old(requests) + [Authorize(Request("/auth/logout", NoBody), jar.AccessToken())]
    {
      Send(Request("/auth/logout", NoBody));
    }

    /**
     * `logout`'s `finally`, run once the server call settles, whether it
     * succeeded or failed: counter and guard reset, both cookies removed,
     * signed out, and the login page as the route.
     */
    method LogoutFinish()
      requires Valid()
      modifies this, jar
      ensures Valid()
      ensures refreshAttempts == 0 && !isRefreshing && refreshPromise == None
      ensures authState == SignedOut && route == Some(LoginRoute)
      ensures jar.entries == ApplyAll(old(jar.entries), ClearWrites())
      ensures jar.writes == old(jar.writes) + ClearWrites()
      ensures jar.AccessToken() == None && jar.RefreshToken() == None
      ensures promises == old(promises) && requests == old(requests)
      ensures SingleFlight() <==> forall i :: 0 <= i < |promises| ==> promises[i] != Pending
    {
      refreshAttempts := 0;
      isRefreshing := false;
      refreshPromise := None;
      jar.RemoveTokens();
      authState := SignedOut;
      route := Some(LoginRoute);
    }

    /** The response interceptor's success handler. */
    method OnResponseSuccess()
      requires Valid()
      modifies this
      ensures Valid()
      ensures refreshAttempts == 0
      ensures authState == old(authState) && requests == old(requests) && route == old(route)
      ensures isRefreshing == old(isRefreshing) && refreshPromise == old(refreshPromise) && promises == old(promises)
    {
      refreshAttempts := 0;
    }

    /**
     * The response interceptor's error handler up to its `await`, for a
     * failed request `req` with HTTP status `status` (none without a
     * response). Only a 401 on a request not yet retried is acted on.
     */
    method OnResponseError(req: ApiRequest, status: Option<int>) returns (step: ErrorStep)
      requires Valid()
      modifies this
      ensures Valid()
      ensures old(SingleFlight()) ==> SingleFlight()
      ensures authState == old(authState) && route == old(route)
      ensures !(status == Some(401) && !req.retry) ==> step == Rejected && unchanged(this)
      ensures status == Some(401) && !req.retry && old(refreshAttempts) >= MaxRefreshAttempts ==>
                step == Rejected && refreshAttempts == 0 && LoggingOut()
      ensures status == Some(401) && !req.retry && old(refreshAttempts) < MaxRefreshAttempts && IsRefreshRequest(req) ==>
                step == Rejected && refreshAttempts == 0 && LoggingOut()
      ensures status == Some(401) && !req.retry && old(refreshAttempts) < MaxRefreshAttempts && !IsRefreshRequest(req) ==>
                step.AwaitRefreshThenRetry? && step.request == req.(retry := true)
                && step.promise < |promises| && refreshAttempts == old(refreshAttempts) + 1
                && (old(isRefreshing) ==> step.promise == old(refreshPromise.value) && promises == old(promises) && requests == old(requests))
                && (!old(isRefreshing) && !Truthy(jar.RefreshToken()) ==>
                      promises == old(promises) + [Resolved(false)] && step.promise == |old(promises)|
                      && requests == old(requests) && !isRefreshing)
                && (!old(isRefreshing) && Truthy(jar.RefreshToken()) ==>
                      promises == old(promises) + [Pending] && step.promise == |old(promises)|
                      && requests == old(requests) + [Authorize(Request(RefreshUrl, RefreshBody(jar.RefreshToken().value)), jar.AccessToken())]
                      && isRefreshing)
    {
      if status == Some(401) && !req.retry {
        if refreshAttempts >= MaxRefreshAttempts {
          refreshAttempts := 0;
          LogoutStart();
          return Rejected;
        }
        var retried := req.(retry := true);
        refreshAttempts := refreshAttempts + 1;
        if !IsRefreshRequest(retried) {
          var p := RefreshToken();
          return AwaitRefreshThenRetry(retried, p);
        }
        refreshAttempts := 0;
        LogoutStart();
      }
      step := Rejected;
    }

    /** `logout()` was called and has sent its request; nothing else of the guard or the promises changed. */
    twostate predicate LoggingOut()
      reads this, jar
    {
      && requests == old(requests) + [Authorize(Request("/auth/logout", NoBody), jar.AccessToken())]
      && isRefreshing == old(isRefreshing) && refreshPromise == old(refreshPromise) && promises == old(promises)
    }

    /**
     * The error handler resumes after the refresh it awaited: the request is
     * resent, once marked as retried and with the new token, only when the
     * refresh succeeded and an access token is present; otherwise the counter
     * is reset and `logout()` is called.
     */
    method RetryAfterRefresh(req: ApiRequest, p: nat) returns (step: ErrorStep)
      requires Valid() && p < |promises| && promises[p].Resolved? && req.retry
      modifies this
      ensures Valid()
      ensures authState == old(authState) && route == old(route)
      ensures old(promises)[p].value && Truthy(jar.AccessToken()) ==>
                && step == Resent(Authorize(req, jar.AccessToken()))
                && step.request.retry
                && requests == old(requests) + [step.request]
                && refreshAttempts == old(refreshAttempts)
                && isRefreshing == old(isRefreshing) && refreshPromise == old(refreshPromise) && promises == old(promises)
      ensures !(old(promises)[p].value && Truthy(jar.AccessToken())) ==>
                step == Rejected && refreshAttempts == 0 && LoggingOut()
    {
      if promises[p].value {
        var token := jar.GetAccessToken();
        if Truthy(token) {
          var resent := Authorize(req, token);
          Send(resent);
          AuthorizeIdempotent(req, token);
          return Resent(resent);
        }
      }
      refreshAttempts := 0;
      LogoutStart();
      step := Rejected;
    }

    /**
     * The error handler's whole run on a 401 when the browser holds no refresh
     * token: the refresh settles to false at once, so the request is not
     * resent, and `logout()` is called instead. Afterwards the counter is back
     * at zero and no refresh is in flight, so the same holds for the next 401.
     */
    method UnauthorizedWithoutRefreshToken(req: ApiRequest) returns (step: ErrorStep)
      requires Valid() && !isRefreshing && refreshAttempts < MaxRefreshAttempts
      requires !req.retry && !IsRefreshRequest(req) && !Truthy(jar.RefreshToken())
      modifies this
      ensures Valid() && old(SingleFlight()) ==> SingleFlight()
      ensures Valid() && step == Rejected
      ensures refreshAttempts == 0 && !isRefreshing
      ensures authState == old(authState) && route == old(route)
      ensures promises == old(promises) + [Resolved(false)]
      ensures requests == old(requests) + [Authorize(Request("/auth/logout", NoBody), jar.AccessToken())]
    {
      var waiting := OnResponseError(req, Some(401));
      step := RetryAfterRefresh(waiting.request, waiting.promise);
    }

    /**
     * `apiClient` sends `req`, the server answers 401, and there is no refresh
     * token: the request is followed by a logout request, and the counter is
     * back at zero.
     */
    method SendUnauthorizedWithoutRefreshToken(req: ApiRequest)
      requires Valid() && !isRefreshing && refreshAttempts < MaxRefreshAttempts && !Truthy(jar.RefreshToken())
      requires !req.retry && !IsRefreshRequest(req)
      modifies this
      ensures Valid() && !isRefreshing && refreshAttempts == 0
      ensures authState == old(authState) && route == old(route)
      ensures requests == old(requests) + [Authorize(req, jar.AccessToken()), Authorize(Request("/auth/logout", NoBody), jar.AccessToken())]
    {
      var sent := Authorize(req, jar.AccessToken());
      Send(req);
      var step := UnauthorizedWithoutRefreshToken(sent);
    }

    /**
     * A login the server refuses with 401, with no refresh token in the
     * browser: the interceptor runs before `login`'s `catch`, so besides the
     * error `login` reports, the session is logged out once the logout call
     * settles: both cookies removed, signed out, on the login page.
     */
    method RefusedLoginWithoutRefreshToken(c: Credentials, message: Option<string>) returns (result: AuthResult)
      requires Valid() && !isRefreshing && refreshAttempts < MaxRefreshAttempts && !Truthy(jar.RefreshToken())
      modifies this, jar
      ensures Valid()
      ensures !result.success && result.error == Some(FailureMessage(message, LoginFallback))
      ensures requests == old(requests) + [Authorize(Request("/auth/login", CredentialsBody(c)), old(jar.AccessToken())),
                                           Authorize(Request("/auth/logout", NoBody), old(jar.AccessToken()))]
      ensures authState == SignedOut && route == Some(LoginRoute) && refreshAttempts == 0
      ensures jar.AccessToken() == None && jar.RefreshToken() == None
    {
      AuthUrlsNotRefresh();
      SendUnauthorizedWithoutRefreshToken(Request("/auth/login", CredentialsBody(c)));
      result := LoginFinish(Refused(message));
      LogoutFinish();
    }

    /** The same for a register request the server refuses with 401. */
    method RefusedRegisterWithoutRefreshToken(c: Credentials, message: Option<string>) returns (result: AuthResult)
      requires Valid() && !isRefreshing && refreshAttempts < MaxRefreshAttempts && !Truthy(jar.RefreshToken())
      modifies this, jar
      ensures Valid()
      ensures !result.success && result.error == Some(FailureMessage(message, RegisterFallback))
      ensures requests == old(requests) + [Authorize(Request("/auth/register", CredentialsBody(c)), old(jar.AccessToken())),
                                           Authorize(Request("/auth/logout", NoBody), old(jar.AccessToken()))]
      ensures authState == SignedOut && route == Some(LoginRoute) && refreshAttempts == 0
      ensures jar.AccessToken() == None && jar.RefreshToken() == None
    {
      AuthUrlsNotRefresh();
      SendUnauthorizedWithoutRefreshToken(Request("/auth/register", CredentialsBody(c)));
      result := RegisterFinish(Refused(message));
      LogoutFinish();
    }

    /**
     * The logout request goes through the same interceptor: when the server
     * answers it with 401 and there is no refresh token, another logout is
     * sent, and the state afterwards meets this method's precondition again,
     * so nothing bounds the chain.
     */
    method RefusedLogoutWithoutRefreshToken()
      requires Valid() && !isRefreshing && refreshAttempts < MaxRefreshAttempts && !Truthy(jar.RefreshToken())
      modifies this
      ensures Valid() && !isRefreshing && refreshAttempts < MaxRefreshAttempts && !Truthy(jar.RefreshToken())
      ensures requests == old(requests) + [Authorize(Request("/auth/logout", NoBody), jar.AccessToken()),
                                           Authorize(Request("/auth/logout", NoBody), jar.AccessToken())]
    {
      AuthUrlsNotRefresh();
      SendUnauthorizedWithoutRefreshToken(Request("/auth/logout", NoBody));
    }
  }
}
