# Gamechanger front end: session, route guard, forms and payments

This project models the logic core of the Gamechanger dashboard front end, a Next.js client of a CRM back end:

- the session coordinator of the `useAuth` hook:
  - login, register and logout;
  - the profile check;
  - the single-flight token refresh;
  - the response interceptor's 401 retry policy with its attempt counter;
- the client cookie store of the two credential cookies `access_token` and `refresh_token`;
- the edge middleware that classifies a path as public, protected or admin and redirects, deletes cookies or passes the request on;
- the form validators, and the registration form that uses them;
- the URL builder and endpoint paths of the deals service;
- the payments list: its stage-to-status table, the "pending" test and the mark-as-paid flow;
- the greeting name of the dashboard's welcome section.

Each module proves the properties of its part:

| module | what it holds and proves |
|---|---|
| `Session` | An event-driven class. Every async function is split at its `await` points into a start method and continuation methods, and the server's replies are parameters, so continuations may run in any order. `Valid()` holds the attempt counter within 0..3 and the refresh guard pointing at a pending promise. `SingleFlight()` says at most one refresh is in flight. |
| `Cookies` | The browser's cookie jar, plus a proof that the getters' text parsing of `document.cookie` finds exactly what the jar holds. |
| `Middleware` | The decision as a pure function of the path, the cookie and the verdict of `jwtVerify`. It proves that a guarded page is served only with a token that verified, and that redirects settle after at most two steps. |
| `Validators` | The two regular expressions, each as the language it denotes and as a direct check, proved equal. |
| `RegisterForm` | Proves that submit accepts a form exactly when its data is in those languages. It also exhibits the stale-confirmation behaviour. |
| `Deals` | Proves that the list URL's query reads back, through `URLSearchParams`, as the parameters that were truthy. |
| `Payments` | The status table and the pending test, proved to agree. |
| `Greeting` | The greeting fallback chain, one lemma per step. |

## Model

| member | source | states |
|---|---|---|
| Text.Trim | src/lib/validation/validators.ts:2 | `trim()` leaves no white space at either end, is empty exactly for a blank string, and keeps only characters of its input |
| Text.Split | src/lib/auth/token.ts:30 | `split` gives at least one part, the first being the text before the first separator; there are two or more parts exactly when the separator occurs; no part contains it |
| Text.IndexOf | src/lib/validation/validators.ts:8 | the first position of a character, or the length when it does not occur |
| Text.IntToStringRoundTrip | src/lib/api/services/deals.ts:83 | `toString()` of an integer parses back to the same integer |
| Text.IntToStringInjective | src/lib/api/services/deals.ts:101 | distinct ids give distinct decimal texts |
| Text.Utf16Length | src/lib/validation/validators.ts:16 | `length` counts UTF-16 code units: between one and two per character |
| Text.ToLowerIdempotent | src/components/dashboard/payments/PaymentsList.tsx:118 | lower-casing twice is lower-casing once |
| Text.ToLower | src/components/dashboard/payments/PaymentsList.tsx:118 | `toLowerCase` keeps the length and maps each character on its own, ASCII capitals and the KELVIN SIGN to their lower case |
| Text.IntToString | src/lib/api/services/deals.ts:83 | `String(n)` of an integer of magnitude below 10^21: an optional `-` and the decimal digits; it reads back by `Text.IntToStringRoundTrip` and is one-to-one by `Text.IntToStringInjective` |
| Text.ShorterNotContained | src/lib/auth/useAuth.ts:83 | `includes` never finds a text longer than the string searched |
| Cookies.TokenWriteTexts | src/lib/auth/token.ts:18-24 | `setTokens` assigns `access_token` with max-age 900 and `refresh_token` with max-age 604800, both `path=/` and `samesite=lax`, with `secure;` exactly in production |
| Cookies.ClearWriteTexts | src/lib/auth/token.ts:52-53 | `removeTokens` assigns both names with an empty value and `max-age=0; path=/` |
| Cookies.Lifetimes | src/lib/auth/token.ts:18-22 | `15 * 60` renders as 900 and `7 * 24 * 60 * 60` as 604800 |
| Cookies.StoredValue | src/lib/auth/token.ts:18 | the browser keeps no `;` of an assigned value: what follows the first `;` is read as attributes |
| Cookies.StoredSafeValue | src/lib/auth/token.ts:18 | a token without `;`, `=` or edge white space is stored unchanged |
| Cookies.Apply | src/lib/auth/token.ts:18-24 | one assignment to `document.cookie`: a positive max-age stores the name with the value before its first `;`, WSP-trimmed; max-age 0 or an expiring write deletes the name (`Cookies.Put`, `Cookies.Remove` state what each keeps) |
| Cookies.CookieString | src/lib/auth/token.ts:30 | `document.cookie` as read: the `name=value` pair of every stored cookie in creation order, joined by `; `; its `;`-segments are the pairs by `Cookies.CookieStringSplit` |
| Cookies.ReadCookie | src/lib/auth/token.ts:30-35 | the getters' parse: split on `;`, take the first segment whose trim starts with `name=`, and of it the text between its first and second `=`; what it finds in a jar is stated by `Cookies.ReadCookieOfJar` |
| Cookies.Put | src/lib/auth/token.ts:18-24 | storing a cookie sets its name and leaves every other name as it was |
| Cookies.Remove | src/lib/auth/token.ts:52-53 | deleting a cookie removes its name and leaves every other name as it was |
| Cookies.PutWellFormed | src/lib/auth/token.ts:18-24 | storing keeps the jar one-cookie-per-name and adds exactly the name |
| Cookies.RemoveWellFormed | src/lib/auth/token.ts:52-53 | deleting keeps the jar one-cookie-per-name and drops exactly the name |
| Cookies.ReadCookieOfJar | src/lib/auth/token.ts:30-35 | the getter's parse of `document.cookie`, the first segment whose trim starts with `name=` and its text after the first `=`, reports the value the jar holds under that name up to its first `=`, and nothing when the jar has no such cookie |
| Cookies.AbsentNotRead | src/lib/auth/token.ts:31-35 | a name the jar does not hold is never reported |
| Cookies.OtherNameNotRead | src/lib/auth/token.ts:31-35 | a cookie with any other name, even one ending in `access_token`, is not read as the access token |
| Cookies.LongerName | src/lib/auth/token.ts:32 | `my_access_token` is such another name |
| Cookies.SetTokensRoundTrip | src/lib/auth/token.ts:18-46 | after `setTokens(p)` the getters read back, for each token, its text before the first `;` (trimmed) and then before the first `=`; exactly `p`'s tokens when these contain no `;` or `=` and no edge white space. Text after a `;` in a token is not interpreted (see Left out) |
| Cookies.RemoveTokensClears | src/lib/auth/token.ts:49-54 | after `removeTokens` neither getter finds its cookie and every other cookie is untouched |
| Cookies.CookieJar.GetAccessToken | src/lib/auth/token.ts:27-36 | no token without a document; otherwise the parse of the cookie string, which equals the jar's access cookie up to its first `=` |
| Cookies.CookieJar.GetRefreshToken | src/lib/auth/token.ts:38-47 | the same for `refresh_token`, unaffected by the access cookie |
| Cookies.CookieJar.Assign | src/lib/auth/token.ts:18-24 | one assignment: the jar becomes `Cookies.Apply` of the write, stays one-cookie-per-name, and the write is recorded |
| Cookies.CookieJar.SetTokens | src/lib/auth/token.ts:16-25 | the jar after the two writes, the writes recorded in order, and the getters then reading each token's text before its first `;` and `=`; text after a `;` is not interpreted (see Left out) |
| Cookies.CookieJar.RemoveTokens | src/lib/auth/token.ts:49-54 | without a document nothing changes; otherwise both writes are made and both getters find nothing |
| Session.Authorize | src/lib/auth/useAuth.ts:47-54 | a truthy access token sets `Authorization: Bearer <token>`; otherwise the request is unchanged; nothing else of the request changes |
| Session.AuthorizeIdempotent | src/lib/auth/useAuth.ts:87-90 | setting the header again with the same token changes nothing |
| Session.FailureMessage | src/lib/auth/useAuth.ts:160-168 | the server's message when truthy, otherwise the fallback |
| Session.FailureMessageNonEmpty | src/lib/auth/useAuth.ts:167 | a failed login or register always reports a non-empty error |
| Session.IsRefreshRequest | src/lib/auth/useAuth.ts:83 | `originalRequest.url?.includes("/auth/refresh")`: a request without a URL is not taken for the refresh endpoint |
| Session.AuthUrlsNotRefresh | src/lib/auth/useAuth.ts:83 | none of `/auth/login`, `/auth/register` and `/auth/logout` includes `/auth/refresh`, so a 401 on any of them leads to a refresh attempt |
| Session.AuthSession.constructor | src/lib/auth/useAuth.ts:26-38 | loading, signed out, counter 0, no refresh in flight |
| Session.AuthSession.Send | src/lib/auth/useAuth.ts:47-54 | the request is sent as the request interceptor authorizes it with the current cookie |
| Session.AuthSession.RefreshToken | src/lib/auth/useAuth.ts:206-249 | a refresh in flight is joined without a new request; with no refresh token the new promise is already settled to false and no request is made; otherwise one refresh request is sent and the guard holds the new pending promise; single flight is kept |
| Session.AuthSession.RefreshSettle | src/lib/auth/useAuth.ts:224-245 | success replaces both tokens and settles the promise to true; failure settles it to false and writes nothing; either way the guard is cleared |
| Session.AuthSession.Mount | src/lib/auth/useAuth.ts:41-43 | the mount effect's `checkAuth`, which runs before the interceptor effect: with no access token signed out and no request; otherwise the profile request goes out without an `Authorization` header, and nothing else changes |
| Session.AuthSession.MountProfileRefused | src/lib/auth/useAuth.ts:41-128 | a page load whose bare profile request is refused goes straight to a refresh (a new refresh request when a refresh token is stored, a promise already false otherwise), with the attempt counter untouched |
| Session.AuthSession.CheckAuth | src/lib/auth/useAuth.ts:110-119 | a later run of `checkAuth`, with the interceptors in place: with no access token signed out, not loading, and no request; otherwise only the profile request, authorized from the cookie |
| Session.AuthSession.CheckAuthProfile | src/lib/auth/useAuth.ts:119-128 | a profile signs the user in with loading over; a failure joins the refresh in flight, or awaits one already false when no refresh token is stored, or sends a new refresh request |
| Session.AuthSession.CheckAuthResume | src/lib/auth/useAuth.ts:128-134 | a failed refresh signs out; a successful one starts `checkAuth` over; every finished run is not loading |
| Session.AuthSession.LoginStart | src/lib/auth/useAuth.ts:140 | the login request with the credentials |
| Session.AuthSession.LoginFinish | src/lib/auth/useAuth.ts:140-169 | the continuation of `login` once its request has settled, after the response interceptor: success stores exactly the returned pair, signs the user in, routes to the dashboard and reports success; in a refusal the `catch` reports the message or `Ошибка входа` and itself changes neither cookies nor state (what the interceptor did before it is in `Session.AuthSession.RefusedLoginWithoutRefreshToken`) |
| Session.AuthSession.RegisterStart | src/lib/auth/useAuth.ts:174 | the register request with the credentials |
| Session.AuthSession.RegisterFinish | src/lib/auth/useAuth.ts:174-203 | the continuation of `register`, as for login, with the fallback `Ошибка регистрации`; the interceptor's part is in `Session.AuthSession.RefusedRegisterWithoutRefreshToken` |
| Session.AuthSession.FinishAuth | src/lib/auth/useAuth.ts:142-168 | the part after the `await` that the two share: success stores the pair and signs in; the `catch` reports the message and changes nothing itself |
| Session.AuthSession.LogoutStart | src/lib/auth/useAuth.ts:254 | the logout request |
| Session.AuthSession.LogoutFinish | src/lib/auth/useAuth.ts:257-275 | whatever the server answered: counter 0, guard cleared, both cookies removed, signed out, not loading, routed to login; single flight holds afterwards exactly when no refresh is pending |
| Session.AuthSession.OnResponseSuccess | src/lib/auth/useAuth.ts:59-63 | a success resets the counter and changes nothing else |
| Session.AuthSession.OnResponseError | src/lib/auth/useAuth.ts:64-100 | non-401 or retried errors are rejected with nothing changed; at three attempts the counter resets and logout starts; a 401 on the refresh endpoint resets and logs out; otherwise the request is marked retried, the counter incremented and a refresh awaited: the one in flight, or one already settled to false when no refresh token is stored, or a new one whose request is sent |
| Session.AuthSession.RetryAfterRefresh | src/lib/auth/useAuth.ts:84-97 | the request is resent, marked retried and with the new bearer token, only when the refresh succeeded and a token exists; otherwise the counter resets and logout starts |
| Session.AuthSession.UnauthorizedWithoutRefreshToken | src/lib/auth/useAuth.ts:64-100 | the error handler's whole run on a 401 while no refresh token is stored: the request is not resent, the refresh promise settles to false, the counter is back at 0 and `logout()` sends its request |
| Session.AuthSession.SendUnauthorizedWithoutRefreshToken | src/lib/auth/useAuth.ts:47-100 | a request sent through `apiClient` and answered 401 with no refresh token is followed by exactly one logout request |
| Session.AuthSession.RefusedLoginWithoutRefreshToken | src/lib/auth/useAuth.ts:138-169 | a login refused with 401 while no refresh token is stored reports the error, and the interceptor's `logout()` leaves both cookies removed, the user signed out and the route `/auth/login` |
| Session.AuthSession.RefusedRegisterWithoutRefreshToken | src/lib/auth/useAuth.ts:172-203 | the same for a register request refused with 401 |
| Session.AuthSession.RefusedLogoutWithoutRefreshToken | src/lib/auth/useAuth.ts:251-254 | a logout request answered 401 with no refresh token sends another logout request, and leaves a state in which the same can happen again |
| Middleware.SomePrefix | src/middleware.ts:17-23 | `routes.some(r => pathname.startsWith(r))`: true exactly when some listed prefix starts the path |
| Middleware.IsPublicRoute | src/middleware.ts:17 | the path starts with `/auth/login` or `/auth/register` |
| Middleware.IsProtectedRoute | src/middleware.ts:20 | the path starts with `/dashboard`, `/profile`, `/orders`, `/payments` or `/broadcast` |
| Middleware.IsAdminRoute | src/middleware.ts:23 | the path starts with `/admin` |
| Middleware.IsGuarded | src/middleware.ts:49 | protected or admin, as the two guarded tests read; disjoint from the public class by `Middleware.RoutesDisjoint` |
| Middleware.RoutesDisjoint | src/middleware.ts:5-23 | no path is in two of the public, protected and admin classes |
| Middleware.RootUnclassified | src/middleware.ts:84 | `/` is in no class |
| Middleware.Decide | src/middleware.ts:13-93 | every redirect goes to the dashboard or the login page; cookies are deleted only for a present token that failed verification, and then exactly both token cookies; headers are set only when a verified token continues, and then they are its claims |
| Middleware.PublicWithToken | src/middleware.ts:29-46 | a public path with a token: a verified token redirects to `/dashboard/dashboard`; a rejected one continues with both cookies deleted |
| Middleware.GuardedWithoutToken | src/middleware.ts:49-51 | a protected or admin path without a token redirects to `/auth/login` |
| Middleware.GuardedVerified | src/middleware.ts:60-73 | a verified token on an admin path without role `admin` redirects to the dashboard; otherwise the request continues with `x-user-id`, `x-user-email` and `x-user-role` from the claims |
| Middleware.GuardedRejected | src/middleware.ts:74-80 | a token failing verification on a guarded path redirects to login and deletes both cookies |
| Middleware.Root | src/middleware.ts:84-90 | `/` redirects to the dashboard on the mere presence of a token, without verifying it, and to login otherwise |
| Middleware.Unclassified | src/middleware.ts:92 | every other path continues unchanged |
| Middleware.GuardedAccess | src/middleware.ts:49-81 | a guarded path is served only with a token that verified, an admin path only to role `admin`, and the headers carry that token's claims |
| Middleware.VerdictConsulted | src/middleware.ts:29-54 | the verdict matters only when a token is present on a public or guarded path |
| Middleware.DashboardGuarded | src/middleware.ts:8 | `/dashboard/dashboard` is protected and nothing else |
| Middleware.LoginPublic | src/middleware.ts:5 | `/auth/login` is public and not guarded |
| Middleware.LoginWithoutToken | src/middleware.ts:29-92 | the login page passes every request without a token |
| Middleware.DashboardWithToken | src/middleware.ts:54-80 | the dashboard serves a verified token and sends a rejected one to login without its cookies |
| Middleware.RedirectTarget | src/middleware.ts:29-90 | a redirect to login is followed without a token; a redirect to the dashboard keeps the present token |
| Middleware.RedirectsSettle | src/middleware.ts:13-93 | following redirects with the cookies a response deletes dropped, at most two redirects happen before a page is served |
| Validators.ValidateRequired | src/lib/validation/validators.ts:1-3 | empty exactly when the trimmed value is not empty |
| Validators.EmailPatternIff | src/lib/validation/validators.ts:8 | the language of `^[^\s@]+@[^\s@]+\.[^\s@]+$` is exactly the strings with one `@`, not first, no white space, and a `.` after the `@` that is neither the domain's first nor its last character |
| Validators.ValidateEmail | src/lib/validation/validators.ts:5-11 | `validateEmail`: the required message for a blank value, the format message outside the address pattern, else empty; its meaning is `Validators.EmailAccepted` |
| Validators.EmailAccepted | src/lib/validation/validators.ts:5-11 | `validateEmail` returns empty exactly for non-blank values in that language |
| Validators.EmailHasNoSpace | src/lib/validation/validators.ts:8 | a value with a white-space character is rejected |
| Validators.EmailSingleAt | src/lib/validation/validators.ts:8 | a value with a second `@` is rejected |
| Validators.ValidateLogin | src/lib/validation/validators.ts:13-17 | empty exactly when non-blank and at least three UTF-16 code units long |
| Validators.PasswordPatternIff | src/lib/validation/validators.ts:25 | the language of `^(?=.*[A-Z])(?=.*\d).+$` is exactly the strings without a line terminator with an ASCII capital and an ASCII digit |
| Validators.ValidatePassword | src/lib/validation/validators.ts:19-29 | `validatePassword`: required, then the length message below six code units, then the composition message; its meaning is `Validators.PasswordAccepted` |
| Validators.PasswordAccepted | src/lib/validation/validators.ts:19-29 | `validatePassword` returns empty exactly for non-blank values of six or more code units in that language |
| Validators.PasswordTooShort | src/lib/validation/validators.ts:22-24 | a non-blank value shorter than six code units gets the length message |
| Validators.PasswordTooWeak | src/lib/validation/validators.ts:25-27 | a long enough value outside the language gets the composition message |
| Validators.ValidateConfirmPassword | src/lib/validation/validators.ts:31-35 | empty exactly when the confirmation is non-blank and equals the password |
| Validators.RequiredFirst | src/lib/validation/validators.ts:6-7 | every validator answers a blank value with the required message |
| Validators.OwnMessages | src/lib/validation/validators.ts:1-35 | every validator answers the empty string or one of its own messages |
| RegisterForm.FieldName | src/components/auth/RegisterForm.tsx:16-20 | the three input names |
| RegisterForm.Fields.With | src/components/auth/RegisterForm.tsx:47 | `{...prev, [name]: value}` sets that field and keeps the other two |
| RegisterForm.FieldOf | src/components/auth/RegisterForm.tsx:33-41 | a name the switch lists selects that field |
| RegisterForm.FieldOfName | src/components/auth/RegisterForm.tsx:33-39 | each field's own name selects it |
| RegisterForm.ValidateInput | src/components/auth/RegisterForm.tsx:34-39 | the three listed cases of the switch: the e-mail and password validators, and the confirmation against the current password |
| RegisterForm.ValidateField | src/components/auth/RegisterForm.tsx:32-43 | a listed name dispatches to its validator, with the confirmation checked against the held password; any other name is only required; a blank value always gets the required message |
| RegisterForm.ValidateAll | src/components/auth/RegisterForm.tsx:58-62 | each new error is the field's validator on its current value, against the current password |
| RegisterForm.ValidateAllFields | src/components/auth/RegisterForm.tsx:58-62 | each entry is what `validateField` gives for that input's name |
| RegisterForm.SubmitDisabled | src/components/auth/RegisterForm.tsx:83-85 | the button is enabled exactly when nothing is loading, every shown error is empty and no field is blank |
| RegisterForm.SubmitAccepts | src/components/auth/RegisterForm.tsx:58-70 | submit calls `register` exactly when the e-mail and password are non-blank and in their languages, the password has six code units or more, and the confirmation equals it |
| RegisterForm.AcceptedDataEnablesSubmit | src/components/auth/RegisterForm.tsx:83-85 | data that submit accepts also leaves the button enabled when nothing is loading |
| RegisterForm.StrongSample | src/lib/validation/validators.ts:19-29 | `Xyz789` is an acceptable password |
| RegisterForm.MismatchSample | src/lib/validation/validators.ts:31-35 | the confirmation `Abc123` of password `Xyz789` gets the mismatch message |
| RegisterForm.StaleConfirmation | src/components/auth/RegisterForm.tsx:45-52 | editing the password does not re-validate the confirmation: the button stays enabled with every shown error empty, yet submit finds the mismatch |
| RegisterForm.RegisterFormState.constructor | src/components/auth/RegisterForm.tsx:16-30 | all fields, errors and the submit error empty |
| RegisterForm.RegisterFormState.HandleInputChange | src/components/auth/RegisterForm.tsx:45-52 | only the edited field and its own error change, the error validated against the password held before the edit |
| RegisterForm.RegisterFormState.HandleSubmit | src/components/auth/RegisterForm.tsx:54-74 | all errors recomputed, the submit error cleared, and only e-mail and password handed on exactly when no error remains |
| RegisterForm.RegisterFormState.HandleRegisterResult | src/components/auth/RegisterForm.tsx:76-78 | a failed registration shows its error, or `Ошибка регистрации` when that is empty |
| Deals.QueryText | src/lib/api/services/deals.ts:90 | the query string is empty exactly when no parameter was appended |
| Deals.DealsUrl | src/lib/api/services/deals.ts:80-91 | the list URL: the path, then `?` and the `start` and `limit` pairs that were truthy, with no `?` when neither was; read back by `Deals.DealsUrlRoundTrip` |
| Deals.SearchParam | src/lib/api/services/deals.ts:91 | what `URLSearchParams.get(name)` gives on a URL: the value of the first query segment named `name`, nothing without a query; the reference `Deals.DealsUrlRoundTrip` reads the list URL with |
| Deals.GetDealsUrl | src/lib/api/services/deals.ts:80-91 | the URL built step by step is the list URL; with no truthy parameter it is exactly `/bitrix24/deals`; with both it is `/bitrix24/deals?start=S&limit=L` |
| Deals.DealsUrlRoundTrip | src/lib/api/services/deals.ts:82-91 | reading `start` or `limit` back from the list URL gives the parameter's decimal text when it was truthy, so 0 is omitted, and nothing otherwise |
| Deals.SplitQuery | src/lib/api/services/deals.ts:90 | the `&`-segments of the query are the appended pairs |
| Deals.FirstParamSegments | src/lib/api/services/deals.ts:82-88 | the first segment named `name` gives the first appended value of that name |
| Deals.NoQuery | src/lib/api/services/deals.ts:91 | without a query the URL carries no parameter |
| Deals.SearchParamOfQuery | src/lib/api/services/deals.ts:91 | with a query the URL's parameters are those of the query |
| Deals.StartLimitDiffer | src/lib/api/services/deals.ts:83-87 | the two names differ, so neither hides the other |
| Deals.QueryPairsPlain | src/lib/api/services/deals.ts:82-88 | the appended names and values need no percent-encoding |
| Deals.DealPathRoundTrip | src/lib/api/services/deals.ts:101 | the per-deal path gives back its id |
| Deals.RepeatPathNotDealPath | src/lib/api/services/deals.ts:117 | the repeat path names no deal id |
| Deals.RepeatPathRoundTrip | src/lib/api/services/deals.ts:117 | the repeat path gives back its id |
| Deals.Route | src/lib/api/services/deals.ts:91-133 | the method and path of each service call; no two calls collide by `Deals.RoutesDistinct` |
| Deals.DealsUrlNotDealPath | src/lib/api/services/deals.ts:91-101 | the list URL is never a per-deal path |
| Deals.RoutesDistinct | src/lib/api/services/deals.ts:91-133 | two calls other than two list calls send the same method and path only when they are the same call: `getById`, `update` and `delete` share `/bitrix24/deals/{id}` under different methods, `repeat` uses `/bitrix24/deals/repeat/{id}` and `create` uses `/bitrix24/deals` |
| Payments.StatusIgnoresCase | src/components/dashboard/payments/PaymentsList.tsx:118 | a stage and its lower case get the same status and the same pending answer |
| Payments.SameStageSameStatus | src/components/dashboard/payments/PaymentsList.tsx:118-139 | spellings that differ only in case get the same status |
| Payments.WonIsPaid | src/components/dashboard/payments/PaymentsList.tsx:83-120 | `WON` as the update writes it shows `Оплачено` and is not pending |
| Payments.KnownStageReached | src/components/dashboard/payments/PaymentsList.tsx:119-132 | each of the seven known stages reaches its own case, not the default, and is pending exactly when it is neither won nor lose |
| Payments.UnknownStage | src/components/dashboard/payments/PaymentsList.tsx:133-134 | any other stage shows `В обработке` in gray and is pending |
| Payments.OpenLabels | src/components/dashboard/payments/PaymentsList.tsx:120-134 | no label other than the two settled ones reads paid or rejected |
| Payments.PendingIffOpenLabel | src/components/dashboard/payments/PaymentsList.tsx:117-140 | a stage is pending exactly when its label is neither `Оплачено` nor `Отклонено` |
| Payments.PaymentStatus | src/components/dashboard/payments/PaymentsList.tsx:117-136 | `getPaymentStatus`: the seven known stages in any case get their own label and colour, every other stage `В обработке` in gray (`Payments.KnownStageReached`, `Payments.UnknownStage`) |
| Payments.IsPaymentPending | src/components/dashboard/payments/PaymentsList.tsx:138-140 | every stage but `won` and `lose`, in any case; agrees with the label by `Payments.PendingIffOpenLabel` |
| Payments.UpdateErrorMessage | src/components/dashboard/payments/PaymentsList.tsx:91-94 | the server's message when the error has a response with a truthy one, otherwise `Ошибка обновления платежа`; never empty |
| Payments.PaymentsPanel.constructor | src/components/dashboard/payments/PaymentsList.tsx:15-22 | no payments, loading, no messages, nothing updating |
| Payments.PaymentsPanel.PayButtonEnabled | src/components/dashboard/payments/PaymentsList.tsx:251-254 | the button is shown for a pending row and enabled unless that row is being updated |
| Payments.PaymentsPanel.SettledRowNoButton | src/components/dashboard/payments/PaymentsList.tsx:251 | a row whose label reads paid or rejected never offers the pay button |
| Payments.PaymentsPanel.FetchStart | src/components/dashboard/payments/PaymentsList.tsx:34-38 | loading with the error cleared, and the list request sent to `/bitrix24/deals` |
| Payments.PaymentsPanel.FetchFinish | src/components/dashboard/payments/PaymentsList.tsx:38-47 | the items, or the load error with the list kept, and loading over either way |
| Payments.PaymentsPanel.MarkAsPaidStart | src/components/dashboard/payments/PaymentsList.tsx:75-85 | the row is marked updating, so its button is disabled, both messages are cleared, and `PUT /bitrix24/deals/{id}` with stage `WON` and comment `Платеж получен`, a stage that is not pending, is sent |
| Payments.PaymentsPanel.MarkAsPaidUpdated | src/components/dashboard/payments/PaymentsList.tsx:87-96 | success shows `Платеж отмечен как оплаченный` and starts the reload; failure shows the update error and ends the update |
| Payments.PaymentsPanel.MarkAsPaidReloaded | src/components/dashboard/payments/PaymentsList.tsx:88-97 | the reload's outcome as in `fetchPayments`, and the update ended |
| Greeting.LocalPart | src/components/dashboard/overview/WelcomeSection.tsx:18 | `email.split('@')[0]` is the text before the first `@`, a prefix of the address without `@` |
| Greeting.GreetingName | src/components/dashboard/overview/WelcomeSection.tsx:16-18 | the greeting is empty only in the profile branch, and there it has no white space at either end |
| Greeting.FullNameGreeting | src/components/dashboard/overview/WelcomeSection.tsx:16-17 | name and surname joined by one space |
| Greeting.NameOnlyGreeting | src/components/dashboard/overview/WelcomeSection.tsx:17 | a name without a surname, without the trailing space |
| Greeting.SurnameOnlyGreeting | src/components/dashboard/overview/WelcomeSection.tsx:17 | a surname without a name, without the leading space |
| Greeting.BlankProfileGreeting | src/components/dashboard/overview/WelcomeSection.tsx:16-17 | a profile name of white space only selects the profile branch and greets with the empty string |
| Greeting.UserNameGreeting | src/components/dashboard/overview/WelcomeSection.tsx:18 | otherwise the session user's name when truthy |
| Greeting.EmailGreeting | src/components/dashboard/overview/WelcomeSection.tsx:18 | otherwise the e-mail's non-empty part before the first `@` |
| Greeting.DefaultGreeting | src/components/dashboard/overview/WelcomeSection.tsx:18 | otherwise `Пользователь` |
| Greeting.LeadingAtGreeting | src/components/dashboard/overview/WelcomeSection.tsx:18 | an address starting with `@` falls through to `Пользователь` |

## Where the code and its description differ

The model follows the code in each case:

- `checkAuth` with no access token signs out at once and never tries a refresh, even when a refresh token exists (src/lib/auth/useAuth.ts:112-116).
- `refreshToken` without a refresh token runs its inner `finally` before the outer assignment `refreshPromise.current = …` completes. The guard is therefore left holding an already settled promise, with `isRefreshing` false (src/lib/auth/useAuth.ts:213-248).
- The resent request goes through the request interceptor again, which sets the same bearer token (src/lib/auth/useAuth.ts:90).
- A login or register the server refuses with 401 passes through the response interceptor before the `catch` of `login` or `register` runs, since `AuthService` posts through `apiClient` (src/lib/api/services/auth.ts:32-43). With a refresh token stored, the interceptor refreshes, writing new tokens, and resends the credentials. Without one, it resets the counter and calls `logout()`, which removes both cookies, signs out and routes to `/auth/login` (`Session.AuthSession.RefusedLoginWithoutRefreshToken`, src/lib/auth/useAuth.ts:64-100).
- The logout request goes through the same interceptor. A 401 on `/auth/logout` with no refresh token calls `logout()` again, and nothing bounds that chain (`Session.AuthSession.RefusedLogoutWithoutRefreshToken`).
- The mount effect's `checkAuth` (src/lib/auth/useAuth.ts:41-43) runs before the effect that installs the interceptors (src/lib/auth/useAuth.ts:46-108). On a page load with a stored access token, the first `GET /auth/profile` therefore carries no bearer header, and a refusal of it skips the response interceptor: no retry flag, no attempt counter, no `logout()`. It reaches `checkAuth`'s `catch`, which refreshes (`Session.AuthSession.Mount`, `Session.AuthSession.MountProfileRefused`).
- Each interceptor continuation whose refresh failed calls `logout()` itself, so N concurrent 401s on one failed refresh give N logout calls (src/lib/auth/useAuth.ts:96-97).
- `logout` clears the guard while a refresh may still be in flight, so a second refresh can then start. `LogoutFinish` keeps `SingleFlight()` only when no refresh is pending. A later settle then clears a guard that may point to the newer refresh (src/lib/auth/useAuth.ts:241-245, 259-261).
- `logout` clears the state in its `finally`, after the server call settles, not before it.
- The middleware sets the `x-user-*` values as response headers, not as request headers for the page (src/middleware.ts:68-71).
- A profile name of white space only greets with an empty name (`Greeting.BlankProfileGreeting`).

## Left out

- Rendering, styling, modals, icons and the other presentational code of the components.
- Logging (`console.*`) has no effect on the model.
- The browser's event loop is modelled only as the freedom to call continuations in any order. Promise objects are reduced to the `Pending`/`Resolved` markers in `Session.AuthSession.promises`.
- React's scheduling of the two mount effects is not modelled; their declaration order is: `Session.AuthSession.Mount` is the mount effect's `checkAuth`, sent before the interceptors exist, and every later step assumes them installed.
- Interceptor ejection on unmount (src/lib/auth/useAuth.ts:104-107) is not modelled; the model has one mounted hook.
- `checkAuth`'s recursion (src/lib/auth/useAuth.ts:131) is not a recursive call. `CheckAuthResume` starts a fresh `CheckAuth` step, so an unbounded chain of runs is a sequence of calls the environment makes.
- `jwtVerify`, the signing secret and its fallback (src/middleware.ts:31-35, 56-60) are cryptography in a foreign library. The verdict is a parameter of `Middleware.Decide`.
- The middleware's `config.matcher` (src/middleware.ts:95-107) is left out: the model decides for every path the function is called on.
- Middleware.HeaderValue: a missing claim becomes the text `undefined`. The model does not capture a runtime failure of `headers.set` on unusual values.
- Deals.DealsUrl: parameters are integers. Floating-point and `NaN` values of `start`/`limit` are not modelled.
- Deals.DealsUrl: no percent-encoding is modelled; the names and decimal values need none.
- Deals.Route: the request bodies, and the axios calls and responses in src/lib/api/services/deals.ts:93-134, are thin HTTP wrappers.
- Text.ToLower: `toLowerCase` is modelled for ASCII capitals and the KELVIN SIGN, the only characters whose lower case is ASCII. Other characters are kept unchanged. This decides the same cases of `getPaymentStatus` and `isPaymentPending`, but is weaker than full Unicode case mapping.
- RegisterForm.ValidateField: the `default` branch is modelled, but it is unreachable from the form, whose three inputs carry the three listed names.
- Session: the HTTP wrappers of src/lib/api/services/auth.ts are left out; each server reply is a parameter of the continuation that receives it.
- Cookies.CookieJar: the environment facts `typeof document` and `NODE_ENV` are constructor parameters.
- Payments: the date and currency formatting of src/components/dashboard/payments/PaymentsList.tsx:100-115 are locale and floating-point formatting.
- Payments: `handleEditSuccess` (src/components/dashboard/payments/PaymentsList.tsx:70-73) and the details and edit modals are left out.
- ProfileForm is left out. It imports a `validateName` that src/lib/validation/validators.ts does not define, and its submit only composes the validators modelled here.
- LoginFinish: states only what `login`'s own continuation does after the server's reply. The effects of the response interceptor, which runs first on a 401, are stated by `Session.AuthSession.RefusedLoginWithoutRefreshToken` for the case without a refresh token; the case with one (refresh, then resending the credentials) is a sequence of the modelled steps and has no lemma of its own.
- RegisterFinish: the same as `LoginFinish`, for `register`.
- FinishAuth: the same; it is the shared part of the two continuations.
- SetTokensRoundTrip: a token containing `;` is modelled as stored up to that `;`. The browser would read what follows as cookie attributes, and some of them (`HttpOnly`, a foreign `domain`, a past `expires`) make it ignore or expire the write. Those attributes are not interpreted, so for such tokens the first two clauses do not describe the browser; the clause about tokens without `;` or `=` does.
- Cookies.StoredValue: the same attribute interpretation is left out.
- Cookies.CookieJar.SetTokens: the same attribute interpretation is left out.
- Text.IntToString: JavaScript writes integers of magnitude 10^21 or more in exponent form (`1e+21`); the model always writes all the digits.
