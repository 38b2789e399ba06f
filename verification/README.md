# Session and access control of the store-management client

This project models, in Dafny, the client-side authentication layer of a
business-management web application (inventory, sales, customers and so on).
The layer has five parts:

- **Credential store** (`CredentialStore`, from `tokenManager`). It keeps the
  access token, the refresh token and the cached user profile in browser
  storage under `access_token`, `refresh_token` and `auth_user`. A legacy key
  `jwt_token` is only ever removed.
  - The storage is a `map<string, string>`.
  - The getters and `isAuthenticated` are functions of that map.
  - The three writers are methods of the `TokenStore` class, which owns the
    map. Each method is specified by a function that gives the new map in
    terms of the old one.
- **Profile text** (`Profile`). `Encode` and `Decode` stand in for
  `JSON.stringify` and `JSON.parse` on the stored profile. Their round trip is
  proved.
- **Auth transport** (`AuthTransport`, from `authRequest` and `authApi`). It
  covers:
  - the request each remote operation sends: method, path, headers, and
    whether it has a body (not the body's content);
  - the message of the `Error` thrown for a failed response;
  - the rule that turns any failure into an `Error`.

  The exchange with the server is a parameter.
- **Session manager** (`SessionManager.Session`, from `useAuth`). This is the
  in-memory session: `user`, `isAuthenticated` and `loading`. It has four
  operations: `checkAuth`, `login`, `logout` and `refreshSession`. The login
  and refresh calls are parameters: the completion (value or thrown `Error`)
  that `authApi` would produce. The remote logout call's outcome is ignored,
  so it appears only as an output, the token it is sent (`notified`). Each
  operation runs to completion before the next one starts.
- **Route guards and login page** (`RouteGuard`, `LoginPage`).
  - `ProtectedRoute`, `PublicRoute` and the application's route table decide
    what a navigation renders for a given store.
  - The login form's `handleSubmit` checks that neither field is blank after
    trimming, calls `login`, navigates home on success and resets
    `isLoading`.

Where the intended design and the code differ, the model follows the code:

- `getUser` has no `catch`. A stored profile that does not parse makes it
  throw instead of reading as absent. `checkAuth` reads the profile first, so
  it throws too, and in that case it sets nothing, `loading` included
  (`Session.CheckAuth`).
- `login` returns only `{success: true}`. It does not return the profile.
- The guards test only for a non-empty access token. `checkAuth` requires both
  the token and a readable profile. `GuardAdmitsWhatCheckAuthRejects` shows
  that they disagree on every store with a token and no profile (the
  `auth_user` key absent or empty).

## Model

| member | source | states |
|---|---|---|
| `Profile.DecodeEncode` | src/services/authApi.ts:146-158 | reading back the text `setUser` stores gives the same profile, and that text is never empty |
| `CredentialStore.GetAccessToken` | src/services/authApi.ts:144 | the stored access token when the key exists, null otherwise |
| `CredentialStore.GetRefreshToken` | src/services/authApi.ts:145 | the stored refresh token when the key exists, null otherwise |
| `CredentialStore.GetUser` | src/services/authApi.ts:146-149 | null when `auth_user` is absent or empty; the parsed profile when it parses; an `Error` is thrown otherwise |
| `CredentialStore.IsAuthenticated` | src/services/authApi.ts:167-169 | true iff `access_token` is stored and non-empty |
| `CredentialStore.IsAuthenticatedReadsOnlyAccessToken` | src/services/authApi.ts:167-169 | two storages with the same access token give the same answer, whatever their refresh token or profile |
| `CredentialStore.WithTokens` | src/services/authApi.ts:151-154 | after `setTokens(a, r)` the access token is `a` and the refresh token is `r`; every other key is unchanged; the two tokens are stored together |
| `CredentialStore.WithUser` | src/services/authApi.ts:156-158 | after `setUser(u)`, `getUser()` returns `u`; every other key is unchanged |
| `CredentialStore.Cleared` | src/services/authApi.ts:160-165 | the four keys are absent and every other key is unchanged; afterwards the store is not authenticated and holds no profile |
| `CredentialStore.ClearedIdempotent` | src/services/authApi.ts:160-165 | clearing twice is the same as clearing once |
| `CredentialStore.TokenStore.SetTokens` | src/services/authApi.ts:151-154 | the storage becomes `WithTokens` of the old storage |
| `CredentialStore.TokenStore.SetUser` | src/services/authApi.ts:156-158 | the storage becomes `WithUser` of the old storage |
| `CredentialStore.TokenStore.ClearAll` | src/services/authApi.ts:160-165 | the storage becomes `Cleared` of the old storage |
| `AuthTransport.RequestFor` | src/services/authApi.ts:55-66 | the URL is the base URL followed by the operation's path. After the spread, the authorised operations send only `Authorization: Bearer <token>` and the others only the JSON content type. Only the profile read is a GET and only the profile update a PUT; the rest are POSTs. Logout and the profile read carry no body |
| `AuthTransport.EndpointTable` | src/services/authApi.ts:85-140 | login, register and refresh-token are POSTs with only the JSON content type. logout and change-password are POSTs, profile is a GET and profile update is a PUT; these four send only `Authorization: Bearer <token>`. Each row also gives the path and whether a body is sent |
| `AuthTransport.RoutesDistinct` | src/services/authApi.ts:85-140 | no two operations share both method and path |
| `AuthTransport.BearerExactlyWhenAuthorised` | src/services/authApi.ts:104-139 | the bearer header is sent iff the operation is logout, get-profile, update-profile or change-password; the content type is sent iff it is not |
| `AuthTransport.JsonBodyWithoutContentType` | src/services/authApi.ts:60-66 | as written, update-profile and change-password send a body without the JSON content type |
| `AuthTransport.MergedHeadersComplete` | src/services/authApi.ts:61-64 | the merged header object always carries the JSON content type, and carries the bearer header exactly on the authorised operations |
| `AuthTransport.FailureMessage` | src/services/authApi.ts:71-73 | the thrown message is the body's `error` if truthy, else its `message` if truthy, else the status message; it is never empty |
| `AuthTransport.StatusMessageNamesStatus` | src/services/authApi.ts:72 | the fallback message is the fixed prefix followed by the status in decimal, which reads back as the status |
| `AuthTransport.AuthRequest` | src/services/authApi.ts:59-82 | a 2xx response returns its body unchanged. A non-2xx response throws an `Error` with `FailureMessage`. A thrown `Error` is rethrown as it is, and any other thrown value becomes "Network request failed". Every failure is an `Error` |
| `SessionManager.CaughtMessage` | src/hooks/useAuth.tsx:48 | the caught `Error`'s message, or "Login failed" for any other thrown value |
| `SessionManager.LoginFailureMessage` | src/hooks/useAuth.tsx:47-54 | a failed login reports the transport's message, never the generic one: the response's message for a failed response, a thrown `Error`'s own message (such as the one `fetch` fails with), or "Network request failed" for a thrown value that is not an `Error` |
| `SessionManager.RejectedLoginMessage` | src/services/authApi.ts:71-72 | a 401 whose body has `error: "Invalid credentials"` is reported as "Invalid credentials" |
| `SessionManager.Hydrate` | src/hooks/useAuth.tsx:12-22 | signed in with the stored profile iff a non-empty access token and a stored profile both exist, signed out otherwise; it throws iff the profile cannot be read, and then throws `getUser`'s error; signed in iff a user is held |
| `SessionManager.HydrateAfterLogin` | src/hooks/useAuth.tsx:35-39 | what a successful login stores re-derives the same signed-in session (same user), given a non-empty access token |
| `SessionManager.HydrateAfterClear` | src/hooks/useAuth.tsx:68-71 | what logout leaves in the store re-derives a signed-out session |
| `SessionManager.Session.constructor` | src/hooks/useAuth.tsx:7-9 | initially no user, not authenticated, loading |
| `SessionManager.Session.CheckAuth` | src/hooks/useAuth.tsx:12-24 | the session becomes `Hydrate` of the store and loading ends; storage is not written; if the profile cannot be read, the error escapes and nothing changes |
| `SessionManager.Session.Login` | src/hooks/useAuth.tsx:30-58 | on success it stores both tokens and the profile, sets the user and the authenticated flag, and returns `{success: true}`; the store then re-derives the same session. On failure the store, user and flag are unchanged and it returns `{success: false, error}`. `loading` is false on return on both paths |
| `SessionManager.Session.Logout` | src/hooks/useAuth.tsx:60-77 | the remote logout is called iff a non-empty access token is stored, and its outcome is ignored. Afterwards the store is `Cleared` of the old store, with no user and not authenticated |
| `SessionManager.Session.RefreshSession` | src/hooks/useAuth.tsx:79-94 | with no refresh token: no remote call, then a logout, and it returns false. On remote success only the access token is replaced and the session is unchanged; it returns true. On remote failure: a logout, and it returns false. The tokens stay paired on every path |
| `RouteGuard.PageForAddressOf` | src/App.tsx:91-110 | each of the 20 listed pages is reached at its own path |
| `RouteGuard.AddressOfPageFor` | src/App.tsx:91-111 | a path reaches a listed page only if it is that page's path |
| `RouteGuard.PageTableRoundTrip` | src/App.tsx:90-112 | a path falls through to NotFound iff no listed page has it |
| `RouteGuard.DecisionTable` | src/App.tsx:55-116 | authenticated at `/login`: redirect to `/` with replace. Unauthenticated at `/login`: the login screen. Authenticated elsewhere: the page for the path. Unauthenticated elsewhere: redirect to `/login` with replace, carrying the location as `from` |
| `RouteGuard.NoRedirectLoop` | src/App.tsx:55-63 | for a fixed store, the target of a redirect renders without a further redirect |
| `RouteGuard.RoutingReadsOnlyAccessToken` | src/components/ProtectedRoute.tsx:9-18 | two stores with the same access token route every location the same way |
| `RouteGuard.GuardAdmitsWhatCheckAuthRejects` | src/components/ProtectedRoute.tsx:11 | on any store with a non-empty access token and no profile (the `auth_user` key absent or empty), every path but `/login` renders its page, while `checkAuth` derives a signed-out session |
| `LoginPage.Trim` | src/pages/Login.tsx:21-27 | the input is leading white space, then the result, then trailing white space; the result neither starts nor ends with white space; it is empty iff the input is all white space |
| `LoginPage.SubmitDisabledMatchesGuard` | src/pages/Login.tsx:142 | the button is disabled iff loading or a field is all white space; when not loading, it is disabled iff the submit guard would return early |
| `LoginPage.LoginForm.constructor` | src/pages/Login.tsx:11-14 | the fields start empty and `isLoading` starts false |
| `LoginPage.LoginForm.HandleSubmit` | src/pages/Login.tsx:18-34 | with a blank field, no login call and no state change. Otherwise `login` gets the trimmed username and the password as typed, and it navigates to `/` with replace iff the login succeeds. `isLoading` is false afterwards, and the session follows `Login`'s contract |

## Left out

- `fetch`, `response.json()` and `console` logging are not modelled. The exchange behind `authRequest` is a parameter (`Exchange`), and so are the completions of the login and refresh calls (`Completion`). The remote logout call appears only as the token it is sent.
- The auth base URL (`getAuthBaseUrl`, `apiConfig`) is a parameter of `RequestFor`. URL parsing and the API configuration are not part of this model.
- `Profile.Decode`: it accepts only the layout `Encode` writes. Other valid JSON in `auth_user` reads as a parse failure here, though `JSON.parse` would return a value. Examples: `null`, other key orders, extra fields, `\n` or `\uXXXX` escapes.
- `Profile.DecodeEncode`: the numeric fields of `AuthUser` (`id`, `role_id`, `is_verified`, `must_change_password`) are unbounded integers here, while the source has JavaScript numbers. `JSON.stringify` writes NaN and ±Infinity as `null` and -0 as `0`, so for such values `setUser` followed by `getUser` does not give back the same profile. Fractions and integers beyond 2^53 are not modelled either. The round trip is proved for integer fields only.
- `Profile.Encode`: control characters are not escaped as `JSON.stringify` does. This does not affect the round trip.
- `AuthTransport.FailureMessage`: the body's `error` and `message` are modelled as optional strings. Not modelled: a truthy non-string value, which `new Error` would convert to its string form; and a `null` body, whose `data.error` throws a `TypeError` that `authRequest` rethrows as it is.
- `CredentialStore.GetUser`: the text of the thrown `SyntaxError` is the engine's; a fixed placeholder stands in for it.
- Storage failures are not modelled: a full quota or disabled storage would make `setItem` throw.
- Toasts, rendering, the layout and provider tree, animations, the random particle layout and the icons are presentational.
- `SessionManager.Session.Logout`: `logout` awaits the remote call inside `try` and clears the store in `finally`, so the store and session are cleared only once that call settles. A call that never settles leaves them as they were. The model clears at once, as if the call always settled.
- Each operation is atomic and sequential. Not modelled: `refreshSession` does not await its `logout()`; overlapping `login` calls; React state batching; the `useEffect` that runs `checkAuth` at mount.
- The intermediate `loading = true` in `login` and `isLoading = true` in `handleSubmit` are set before the call. They are visible only while the call is awaited, which this sequential model does not show.
- `login`'s `catch` also catches a throw from the storage writes or the toast. Here those writes never throw.
- Every component calling `useAuth` gets its own copy of the state. The model has one `Session`.
- `RouteGuard.App`: paths are compared exactly. React Router's case-insensitive matching and trailing-slash tolerance are not modelled.
- Business pages are opaque `Page` values.
- The generic API client and server-side token handling are not part of this model.

## Findings

| source | as written | input that shows it | evidently intended | confidence | as-written member | corrected member |
|---|---|---|---|---|---|---|
| src/services/authApi.ts:60-66 | `{ headers: {'Content-Type': ..., ...options.headers}, ...options }`: the later spread replaces the merged headers whenever the options carry their own | `updateProfile(token, data)` or `changePassword(token, data)`: a JSON body is sent with only `Authorization`, without `Content-Type: application/json` | the merged object, with the JSON content type and the bearer header both sent | high (not executed) | `AuthTransport.JsonBodyWithoutContentType` | `AuthTransport.MergedHeadersComplete` |
