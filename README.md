# Session and authentication core of the TubeBox admin panel, in Dafny

This project models the part of the TubeBox admin dashboard that holds the
user's session: the two tokens kept in `localStorage`, the authentication
service that writes them, the HTTP client's interceptors that sign requests
and refresh an expired access token, the session store with its
`login`/`register`/`logout`/`checkAuth` actions and its persisted snapshot,
the admin-only gate of the login form, the two route guards, the login,
registration and video-metadata form schemas, and the sidebar's
expand/collapse menu list.

Every asynchronous call is a sequential step. What the backend answers is a
parameter: `Remote.Outcome` is either a response envelope (`Returned`) or a
thrown value (`Threw`); for the HTTP client, `Api.Transport` is the
transport's answer and `Api.RefreshOutcome` the refresh call's.

Modules, one per source file:

- `Wrappers` (wrappers.dfy): `Option`.
- `AuthSchema` (auth_schema.dfy): `User`, `Role`, the `ApiResponse` envelope, and the login and registration schemas as issue lists.
- `VideoSchema` (video_schema.dfy): the video metadata schema and the two video enumerations.
- `Storage` (storage.dfy): `localStorage` reduced to the two token keys (`LocalStorage`), and `Truthy`, which is how `if (token)` reads a slot.
- `Remote` (remote.dfy): thrown values and remote outcomes.
- `Service` (auth_service.dfy): the `AuthService` class, plus `TokensAfter`, a function giving the token slots after each call.
- `Api` (api.dfy): the request and response interceptors.
- `Store` (auth_store.dfy): the session store. Each action is a function to a `Step`, and the `AuthStore` class is proved to perform exactly those steps.
- `UseLogin` (use_login.dfy): the login form's submit handler.
- `Routes` (routes.dfy): `ProtectedRoute` and `PublicRoute`.
- `Sidebar` (sidebar.dfy): `toggleMenu`, the initial expanded list and the collapsed-mode link target.

What the code does that a reader might not expect:

- Registration authenticates the session and stores the issued tokens, just as login does.
- `logout` resets the session whether or not the remote logout call rejects, and rethrows the rejection after the reset. The store and the service clear the tokens only when that call resolved. A rejection caused by a failed refresh inside the call has already cleared them in the HTTP client (`Api.ExpiredSessionClearsTokens`).
- A failed `checkAuth` lowers `isAuthenticated` but keeps `user`, and the store does not touch the tokens. The HTTP client may have cleared them, as above. So "authenticated exactly when a user is present" is not an invariant. Only "authenticated implies a user" is (`Store.RunKeepsConsistent`, `Store.FailedCheckKeepsStaleUser`).
- Nothing coordinates token refreshes. Each request that meets a 401 refreshes on its own, guarded only by its own `_retry` flag (`Api.TwoUnauthorized`).

The unit tests disagree with the code in two places, and the model follows the code:

- The test at src/tests/unit/auth.store.spec.ts:66-80 expects registration not to authenticate.
- The test at src/tests/unit/auth.store.spec.ts:82-101 expects the store to rethrow the failed envelope. The code throws a new `Error` carrying the envelope's message.

## Model

| member | source | states |
|---|---|---|
| `AuthSchema.Delivers` | src/domain/auth/auth.schema.ts:39-41 | the `success && data` test always yields a payload, and on an envelope of the declared union type it holds exactly when `success` does |
| `AuthSchema.LoginIssues` | src/domain/auth/auth.schema.ts:3-6 | login input passes exactly when the email check passes and the password has at least 6 characters; each failing field contributes its own message on its own path |
| `AuthSchema.RegisterIssues` | src/domain/auth/auth.schema.ts:8-17 | registration passes exactly when both names have at least 2 characters, the email passes, the password has at least 6 and equals the confirmation; a mismatch, and only a mismatch, yields "Passwords don't match" on `confirmPassword` |
| `AuthSchema.RegisterValidImpliesLoginValid` | src/domain/auth/auth.schema.ts:3-17 | an email and password accepted by the registration form are accepted by the login form |
| `VideoSchema.SourceTypeName` | src/domain/video/video.schema.ts:6 | every source type's name parses back to it |
| `VideoSchema.ParseSourceType` | src/domain/video/video.schema.ts:6 | only `OWN` and `YOUTUBE` are accepted |
| `VideoSchema.VideoStatusName` | src/domain/video/video.schema.ts:20 | every status's name parses back to it |
| `VideoSchema.ParseVideoStatus` | src/domain/video/video.schema.ts:20 | only `CREATED`, `PROCESSING`, `READY` and `FAILED` are statuses |
| `VideoSchema.VideoIssues` | src/domain/video/video.schema.ts:3-10 | metadata passes exactly when title has at least 3 characters, description at least 10, the source type is one of the two, the thumbnail is absent, empty or a URL, and the duration is at least 1; the duration and thumbnail messages appear exactly when those checks fail |
| `VideoSchema.UploadFormDefaultsRejected` | src/features/dashboard/pages/VideoUploadPage.tsx:22-31 | the upload form's initial values are rejected on title, description and duration, and on nothing else |
| `VideoSchema.DurationAloneDecides` | src/domain/video/video.schema.ts:8 | for otherwise valid metadata, acceptance depends on the duration being at least 1 |
| `Service.IssuedTokens` | src/services/auth.service.ts:45-48 | the pair written on success fills both slots |
| `Service.TokensAfter` | src/services/auth.service.ts:11-53 | login, register and refresh store the issued pair on `success && data` and otherwise leave both slots; logout clears both once the repository call resolves (whatever its envelope) and leaves them when it rejects; `getMe` never changes them; every call keeps the slots paired |
| `Service.RunKeepsPaired` | src/services/auth.service.ts:45-53 | from "both present" or "both absent", any sequence of service calls ends in one of the two |
| `Service.RunTokensOrigin` | src/services/auth.service.ts:11-53 | after any sequence of calls the slots hold their initial contents, nothing, or a pair that one of the calls issued |
| `Service.AuthService.constructor` | src/services/auth.service.ts:7-9 | the service uses the given storage |
| `Service.AuthService.SetTokens` | src/services/auth.service.ts:45-48 | both slots hold the given pair |
| `Service.AuthService.ClearTokens` | src/services/auth.service.ts:50-53 | both slots are empty |
| `Service.AuthService.Login` | src/services/auth.service.ts:11-17 | returns the repository's outcome unchanged; the slots become `TokensAfter` of a login call |
| `Service.AuthService.Register` | src/services/auth.service.ts:19-25 | returns the outcome unchanged; the slots follow the same rule as login |
| `Service.AuthService.Logout` | src/services/auth.service.ts:27-31 | returns the outcome unchanged; tokens are cleared only after the repository call resolves, and kept when it rejects |
| `Service.AuthService.GetMe` | src/services/auth.service.ts:33-35 | returns the repository's outcome and changes no state |
| `Service.AuthService.RefreshToken` | src/services/auth.service.ts:37-43 | returns the outcome unchanged; overwrites both tokens on success and keeps the old ones otherwise |
| `Api.IncludesIff` | src/lib/axios.ts:29-30 | the substring test used for paths holds exactly when the part occurs at some position |
| `Api.IsAuthPath` | src/lib/axios.ts:29-30 | a request without URL is not exempt from refresh; the login and registration paths are |
| `Api.IsAuthPathIff` | src/lib/axios.ts:29-30 | a URL is exempt from refresh exactly when `/auth/login` or `/auth/register` occurs somewhere in it |
| `Api.MeAndLogoutNotExempt` | src/lib/axios.ts:29-32 | `/auth/me` and `/auth/logout` are not exempt, so a 401 on them triggers a refresh |
| `Api.SignedHeaders` | src/lib/axios.ts:12-15 | with a truthy stored access token `Authorization` becomes `Bearer <token>` and all other headers stay; otherwise the headers are unchanged; on headers without `Authorization`, it is added exactly when a token is stored |
| `Api.ShouldRefresh` | src/lib/axios.ts:32 | a refresh needs a 401 status, a request not yet retried, and a path that is not exempt |
| `Api.PlainRejection` | src/lib/axios.ts:60 | a failure that is not refreshed rejects with exactly the response body when there is one, otherwise with the original error's message |
| `Api.OnRequest` | src/lib/axios.ts:10-17 | the request's headers become `SignedHeaders` of the stored access token; URL and `_retry` are untouched |
| `Api.Request` | src/lib/axios.ts:23-62 | a delivered response resolves to its body, with storage unchanged; the first request on the wire carries the signed headers; a failure that does not qualify rejects plainly and leaves storage and `_retry` alone; a qualifying one has the refresh effect; pairing is kept; at most one refresh call goes out |
| `Api.OnResponseError` | src/lib/axios.ts:25-61 | a qualifying failure marks the request retried first. With no refresh token: both tokens cleared, no refresh call, rejection "No refresh token". On refresh failure: both cleared, rejection with the refresh error. On success: both slots hold the new pair and the request is replayed once, to its original URL, with `Bearer <new access token>`, its result passed through. Anything else rejects plainly without touching storage |
| `Api.ExpiredSessionClearsTokens` | src/repositories/auth.repository.ts:21-27 | a 401 on `/auth/me` or `/auth/logout` whose refresh fails rejects with an error, and both token slots are empty before the service sees the outcome |
| `Api.TwoUnauthorized` | src/lib/axios.ts:32-49 | two requests that both meet a 401 each refresh: two refresh calls go out, the second with the pair the first stored |
| `Store.OrDefault` | src/infrastructure/store/useAuthStore.ts:42 | an empty message gives exactly the fallback, any other message is kept, and a non-empty fallback makes the result non-empty |
| `Store.SetUserStep` | src/infrastructure/store/useAuthStore.ts:28 | `user` becomes the argument and `isAuthenticated` its presence; loading, error and tokens are unchanged; the result is consistent |
| `Store.SetErrorStep` | src/infrastructure/store/useAuthStore.ts:29 | only `error` changes |
| `Store.AuthenticateStep` | src/infrastructure/store/useAuthStore.ts:31-67 | first publishes loading with the error cleared. On success: user from the response, authenticated, not loading, no error, nothing thrown. On failure: user and flag unchanged, not loading, `error` is the thrown value's message. It throws a new `Error` with the envelope message, or with exactly "Login failed" / "Registration failed" (also the stored `error`) when that is empty,, or the service's rejection itself. Tokens follow `TokensAfter` |
| `Store.LogoutStep` | src/infrastructure/store/useAuthStore.ts:69-76 | always ends with no user, not authenticated, not loading, and the error untouched; rethrows a rejection of the service call; tokens are cleared only when that call resolved |
| `Store.CheckAuthStep` | src/infrastructure/store/useAuthStore.ts:78-100 | without a stored token, only lowers the two flags. With one: authenticated exactly when `getMe` delivers, and then the user is replaced; otherwise the user is kept. The store never touches the tokens, and nothing is thrown |
| `Store.CheckAuthWithoutTokenIgnoresServer` | src/infrastructure/store/useAuthStore.ts:79-83 | with no stored token the server's answer plays no part |
| `Store.ApplyKeepsConsistent` | src/infrastructure/store/useAuthStore.ts:28-100 | every action keeps the tokens paired and an authenticated session with a user |
| `Store.RunKeepsConsistent` | src/infrastructure/store/useAuthStore.ts:28-100 | any sequence of actions keeps that consistency |
| `Store.FailedCheckKeepsStaleUser` | src/infrastructure/store/useAuthStore.ts:94-99 | a failed `checkAuth` leaves a user with `isAuthenticated` false, and the store leaves the token slots as the call left them |
| `Store.RejectedLogoutThenCheckAuth` | src/infrastructure/store/useAuthStore.ts:69-100 | after a logout whose remote call rejects without a failed refresh, the tokens remain and a later `checkAuth` authenticates again |
| `Store.Partialize` | src/infrastructure/store/useAuthStore.ts:104-107 | the persisted snapshot holds exactly `user` and `isAuthenticated` |
| `Store.PartializeIgnoresTransient` | src/infrastructure/store/useAuthStore.ts:104-107 | `isLoading` and `error` never reach storage |
| `Store.Rehydrate` | src/infrastructure/store/useAuthStore.ts:102-108 | rehydration restores the persisted fields and keeps the transient ones |
| `Store.ReloadRestores` | src/infrastructure/store/useAuthStore.ts:22-26 | reloading gives the persisted user and flag over a fresh, idle store without error |
| `Store.AuthStore.constructor` | src/infrastructure/store/useAuthStore.ts:22-26 | the store starts with no user, not authenticated, not loading, no error |
| `Store.AuthStore.Publish` | src/infrastructure/store/useAuthStore.ts:22 | a `set(...)` makes the new state current and published |
| `Store.AuthStore.SetUser` | src/infrastructure/store/useAuthStore.ts:28 | performs `SetUserStep` |
| `Store.AuthStore.SetError` | src/infrastructure/store/useAuthStore.ts:29 | performs `SetErrorStep` |
| `Store.AuthStore.Login` | src/infrastructure/store/useAuthStore.ts:31-48 | performs `AuthenticateStep` of a login call: final state, published states, tokens and thrown value |
| `Store.AuthStore.Register` | src/infrastructure/store/useAuthStore.ts:50-67 | performs `AuthenticateStep` of a registration call |
| `Store.AuthStore.Logout` | src/infrastructure/store/useAuthStore.ts:69-76 | performs `LogoutStep` |
| `Store.AuthStore.CheckAuth` | src/infrastructure/store/useAuthStore.ts:78-100 | performs `CheckAuthStep`, and asks the server exactly when a truthy access token is stored |
| `UseLogin.ReportedMessage` | src/features/auth/hooks/useLogin.ts:34 | an `Error`'s own message, otherwise "Authentication failed" |
| `UseLogin.OnSubmit` | src/features/auth/hooks/useLogin.ts:20-39 | performs `Submitted`: login completes before the role is read. An admin is sent to `/` and stays authenticated. Anyone else is logged out (no user, not authenticated), is not navigated, and sees the admin-required message. A thrown login or logout is reported, clears the password and never navigates. The email is never touched |
| `UseLogin.HandleSubmit` | src/features/auth/hooks/useLogin.ts:12-43 | the login schema is checked first; with any issue nothing happens, and with none `onSubmit` runs with every effect of `Submitted` |
| `Routes.ProtectedRoute` | src/infrastructure/routes/ProtectedRoute.tsx:4-8 | renders the outlet exactly when authenticated, otherwise redirects to `/login`, replacing history |
| `Routes.PublicRoute` | src/infrastructure/routes/PublicRoute.tsx:4-8 | renders the outlet exactly when not authenticated, otherwise redirects to `/`, replacing history |
| `Routes.ExactlyOneOutlet` | src/infrastructure/routes/PublicRoute.tsx:7 | for every session exactly one guard renders its outlet |
| `Routes.GuardsIgnoreUser` | src/infrastructure/routes/ProtectedRoute.tsx:5-7 | the user record plays no part in either guard |
| `Routes.PersistedFlagAdmits` | src/infrastructure/store/useAuthStore.ts:104-107 | a persisted `isAuthenticated` admits a reloaded page to protected routes, whatever user was persisted |
| `Sidebar.RemoveAll` | src/components/layout/Sidebar.tsx:56 | the filtered list lacks the name, and keeps every other name exactly when it was there |
| `Sidebar.RemoveAllKeepsNoDuplicates` | src/components/layout/Sidebar.tsx:56 | filtering keeps a list free of duplicates |
| `Sidebar.RemoveAbsent` | src/components/layout/Sidebar.tsx:56 | filtering out an absent name changes nothing |
| `Sidebar.RemoveAllAppend` | src/components/layout/Sidebar.tsx:56 | filtering distributes over concatenation, so the other entries keep their relative order |
| `Sidebar.RemoveAllMultiset` | src/components/layout/Sidebar.tsx:56 | every occurrence of the name goes, and every other name keeps its count |
| `Sidebar.ToggleMenu` | src/components/layout/Sidebar.tsx:54-58 | after toggling, the name is present exactly when it was absent before, and every other name's membership is unchanged |
| `Sidebar.ToggleKeepsNoDuplicates` | src/components/layout/Sidebar.tsx:54-58 | toggling keeps the list free of duplicates |
| `Sidebar.ToggleAbsentAppends` | src/components/layout/Sidebar.tsx:55-57 | toggling an absent name appends it at the end, after the earlier entries in their order |
| `Sidebar.TogglePresentRemovesAll` | src/components/layout/Sidebar.tsx:56 | toggling a present name removes every occurrence, keeps every other name's count, and keeps the others' relative order across any split of the list |
| `Sidebar.ToggleTwiceRestores` | src/components/layout/Sidebar.tsx:54-58 | toggling an absent name twice restores the original list exactly |
| `Sidebar.ToggleTwicePresent` | src/components/layout/Sidebar.tsx:54-58 | toggling a present name twice moves it to the end, after the others in their order |
| `Sidebar.InitialExpandedWellFormed` | src/components/layout/Sidebar.tsx:21-52 | the initial expanded list is `['Content']`, has no duplicates, and names an entry with sub-items |
| `Sidebar.CollapsedTargetAsWritten` | src/components/layout/Sidebar.tsx:92 | as written: no sub-item list gives the entry's own `href`; a non-empty one gives its first sub-item's `href`; an empty one fails |
| `Sidebar.EmptySubItemsFail` | src/components/layout/Sidebar.tsx:92 | an entry with an empty sub-item list makes the collapsed target fail |
| `Sidebar.CollapsedTarget` | src/components/layout/Sidebar.tsx:86-92 | corrected: the first sub-item's `href` when the entry has sub-items, its own `href` otherwise; agrees with the code wherever the code does not fail |
| `Sidebar.ShippedLinksUnaffected` | src/components/layout/Sidebar.tsx:23-92 | for the four entries the sidebar ships, the code as written and the corrected target agree |

## Left out

- Network transport and repositories. src/repositories/auth.repository.ts, src/repositories/video.repository.ts and src/services/user.service.ts are thin wrappers over the HTTP client. Their outcomes are parameters. The base URL and environment configuration (src/lib/axios.ts:3-8) are not modelled, nor is the default `Content-Type` header.
- Service.TokensAfter: each repository call is one atomic step that leaves the token slots as they were. The HTTP client's refresh, which replaces or clears both slots while a repository call is in flight (src/lib/axios.ts:45-46, 51-52), is modelled in `Api` (`Api.ExpiredSessionClearsTokens`) but not composed into `Service` or `Store`. So their contracts speak of the slots as the repository call left them.
- Interleaving. Each asynchronous action runs to completion before the next one starts. The model shows that nothing coordinates refreshes (`Api.TwoUnauthorized`). It does not enumerate interleavings, such as two refreshes that both read the old refresh token.
- Api.OnResponseError: the `TypeError` raised when the refresh envelope has no `data` is represented by a fixed message (`MissingRefreshDataMessage`). Its real text depends on the JavaScript engine.
- Api.OnRequest: the request interceptor's error handler (src/lib/axios.ts:18-20) is left out. It only passes on a rejection from an earlier interceptor, and there is none.
- Values a JavaScript runtime could store but the declared types exclude are not modelled. Examples: `setItem` of `undefined`, a non-object `user` from `/auth/me` (typed `any`, modelled as `User`), a `message` missing from an envelope.
- Falsy response bodies (`""`, `0`, `null`) are modelled as an absent body (`Api.HttpResponse.body`). This is what `error.response?.data || error` does with them.
- The schema library's email and URL parsers are parameters (`AuthSchema.FormatChecks`).
- Message text. The enumeration check on `sourceType` has no message in the schema, so the library's issue code stands in.
- String lengths are counted in characters. The source counts UTF-16 code units.
- `durationSeconds` is a `real`. There is no NaN and no infinity.
- Persistence mechanics: the storage key `auth-storage`, JSON serialisation, and when rehydration runs. Rehydration is the library's shallow merge (`Store.Rehydrate`).
- Subscribers and re-rendering are not modelled. `AuthStore.published` records what each `set(...)` published.
- Video upload orchestration (src/services/video.service.ts) is left out: it is network I/O, and its progress percentage uses floating-point division and rounding.
- UI and rendering are left out: HomePage.tsx, VideoUploadPage.tsx (apart from its default form values), ProfilePage.tsx, Header.tsx, LoginForm.tsx, AuthLayout.tsx, loader.tsx, DashboardLayout.tsx and App.tsx.
  - This includes toast rendering and navigation beyond what `UseLogin.Effects` records.
  - The sidebar's icons, CSS classes, active-link styling, mobile overlay and `onClose` are left out too.
- useRegister.ts is left out: it is form glue around the store's `register`.
- Names that the shown code uses but never defines are not invented: `isCheckingAuth`, `updateUser`, `userProfileSchema`, `User.uuid`, `User.profileUrl`.

## Findings

| source | as written | input that shows it | evidently intended | confidence | as-written member | corrected member |
|---|---|---|---|---|---|---|
| src/components/layout/Sidebar.tsx:92 | the collapsed-mode link target tests `link.subItems` for truthiness, and an empty array is truthy, so it reads `.href` of `link.subItems[0]`, which is `undefined` | a navigation entry with `subItems: []` while the sidebar is collapsed | use the non-empty test of line 86 (`hasSubItems`) and fall back to the entry's own `href` | not executed; latent, since none of the four shipped entries has an empty list (`Sidebar.ShippedLinksUnaffected`) | `Sidebar.CollapsedTargetAsWritten`, `Sidebar.EmptySubItemsFail` | `Sidebar.CollapsedTarget` |
