# SSA Alumnae client: session, API client and registration form

A model of the client-side logic of the SSA Alumnae mobile app, an Expo /
React Native front end for an alumni network. Three pieces are modelled:

- **The API client** (`services/api.js`, module `Api`). The axios instance
  is the class `Client`. Its request interceptor reads the stored session
  token and, when the token is truthy, sets `Authorization: Bearer <token>`
  on the request's headers in place. Its response interceptor passes
  successes through, removes the stored token when a rejection has status
  401, and re-raises every rejection. The `apiService` table is the pure
  function `RouteOf`: method, path and body per call, with ids and search
  text spliced into the path unencoded. `Send` is one round trip through
  both interceptors. The transport is an oracle: a function from the
  request that leaves the client to the reply. A ghost log `sent` records
  every request that left the client.
- **The authentication provider** (`context/AuthContext.js`, module
  `AuthContext`). The class `AuthProvider` has the fields `user`, `token`
  and `loading`, and shares a `Store` (AsyncStorage as a map, key
  `"auth_token"`) with the client. `CheckAuthStatus` is the restore on
  mount. `Login`, `Register` and `Logout` are the provider's operations.
  `IsAuthenticated` gives `!!user && !!token`. Each method is proved to
  perform one transition function on a `Session` value: `Restored`,
  `SignedIn` (shared by login and register) or `LoggedOut`. `Run` folds
  any sequence of operations, including other screens' calls
  (`Requested`), and the lemmas about `Run` hold for every sequence.
- **The registration form** (`app/register.js`, module `Register`).
  `Validate` is the guard chain: empty field, then password shorter than
  6, then mismatch. `RegisterScreen.HandleRegister` raises `loading` only
  when every guard passes. `TimerFired` is the one-second timer callback
  that lowers it and reports success.

`JsValues` holds the JavaScript notions the code depends on: null as
`Option`, a settled promise as `Result`, string truthiness (`""` is
falsy), and `String.length`, which counts UTF-16 code units.
`Storage` models AsyncStorage: reads can be made to fail, writes always
succeed.

Three behaviours of the code depart from what one would expect of a
session that keeps memory and storage in step. The model follows the code
and proves each departure:

- One might expect a failed login or register to leave storage alone.
  The call goes through the response interceptor, so a 401 answer removes
  the stored token. A user who is signed in and whose second login is
  refused with 401 stays authenticated in memory with nothing stored
  (`RefusedLoginWhileSignedIn`).
- One might expect a rejected restore to end with no token. The code
  removes the stored token but keeps the in-memory `token` at the stored
  value. `user` stays null, so `isAuthenticated` is false, but memory and
  storage no longer agree (`RestoreRejectedKeepsToken`).
- The response interceptor's comment (services/api.js:40) says the
  redirect to login after a 401 is "handled in AuthContext". No such code
  exists there: on a 401 from any other endpoint only the stored token is
  removed, and the provider's state does not change (`Requested`).

## Model

| member | source | states |
|---|---|---|
| `JsValues.JsLength` | app/register.js:20 | `password.length` counts UTF-16 code units: between the number of characters and twice that, and zero only for the empty string |
| `JsValues.Truthy` | services/api.js:20 | `if (token)` on a string or null holds exactly for a non-null, non-empty string |
| `JsValues.JsLengthOfBmp` | app/register.js:20 | with no character outside the Basic Multilingual Plane, the length is the number of characters |
| `Register.Validate` | app/register.js:15-28 | the form passes exactly when all four fields are non-empty, the password is at least 6 long and the confirmation equals it; otherwise the result is one of the three fixed messages |
| `Register.EmptyFieldWins` | app/register.js:15-18 | any empty field gives "Please fill in all fields", whatever the password's length or match |
| `Register.LengthGuard` | app/register.js:20-23 | with all fields filled, "Password must be at least 6 characters" comes exactly when the length is below 6; length 6 passes this guard |
| `Register.MismatchGuard` | app/register.js:25-28 | "Passwords do not match" comes exactly when the fields are filled, the length guard passes and the two passwords differ |
| `Register.ThreeAstralCharactersAreLongEnough` | app/register.js:20-23 | three characters outside the Basic Multilingual Plane count as length 6 and pass validation |
| `Register.RegisterScreen.constructor` | app/register.js:8-12 | all four fields start empty and `loading` starts false |
| `Register.RegisterScreen.HandleRegister` | app/register.js:14-31 | a failing guard gives an "Error" alert with its message and leaves `loading` unchanged; passing all guards gives no alert, sets `loading` and schedules one timer callback |
| `Register.RegisterScreen.TimerFired` | app/register.js:33-38 | the timer callback clears `loading` and shows "Account created successfully!", whose OK button goes to `/(tabs)/home` |
| `Register.SubmitValidForm` | app/register.js:30-38 | a valid submission followed by its timer ends with `loading` false and the success alert |
| `Storage.ReadToken` | services/api.js:19 | reading the auth key rejects exactly when the read fails; otherwise it gives the stored value, or null when the key is absent |
| `Storage.Store.GetItem` | context/AuthContext.js:18 | `getItem` rejects when the read fails, and otherwise resolves to the stored value or to null for a missing key |
| `Storage.Store.SetItem` | context/AuthContext.js:46 | `setItem` stores the value under the key and changes nothing else |
| `Storage.Store.RemoveItem` | context/AuthContext.js:28 | `removeItem` removes the key and changes nothing else |
| `Api.RouteOf` | services/api.js:47-67 | exactly login, register, logout and createEvent are POST; exactly login, register and createEvent carry their argument as the body; every path starts with `/` |
| `Api.ParameterRoundTrip` | services/api.js:57-63 | the id of `getAlumna` and `getEvent`, and the query of the grouped search, are recovered character for character after the fixed path prefix |
| `Api.PathBuildersInjective` | services/api.js:57-63 | different ids or queries give different paths |
| `Api.UnencodedIdsReachOtherEndpoints` | services/api.js:56-58 | because ids are not encoded, `getAlumna("grouped")` is the grouped listing and `getAlumna("grouped?search=" + q)` is the grouped search for `q` |
| `Api.Authorize` | services/api.js:19-23 | only `Authorization` may change; after a successful read of a truthy token it is `"Bearer " + token`; after a failed read or a null or empty token the headers are unchanged |
| `Api.BearerRoundTrip` | services/api.js:19-23 | on headers without a credential, the token read back out of the header is exactly the stored truthy token and nothing otherwise; a bare `"Bearer "` is never produced |
| `Api.Prepared` | services/api.js:7-27 | the request that leaves the client has the call's route and carries as bearer credential exactly the truthy token the interceptor read |
| `Api.AfterReply` | services/api.js:34-44 | the response interceptor never writes to storage and touches no key but the auth key, which remains exactly when it was there and the reply is not a 401 rejection |
| `Api.RequestConfig.constructor` | services/api.js:10-12 | a request starts with the instance's default `Content-Type: application/json` header |
| `Api.Client.constructor` | services/api.js:7-13 | the instance uses the given storage and has sent nothing |
| `Api.Client.InterceptRequest` | services/api.js:16-27 | the same config object is returned with its headers as `Authorize` gives them; storage is not in its frame, so it is never written |
| `Api.Client.InterceptResponse` | services/api.js:34-44 | the reply, success or rejection, is passed on unchanged; storage becomes `AfterReply` of it |
| `Api.Client.Send` | services/api.js:16-44 | the reply is the backend's answer to `Prepared` for the call; that request is appended to the log; storage changes only by the response interceptor |
| `AuthContext.Authenticated` | context/AuthContext.js:92 | `!!user && !!token`: holds exactly when `user` is non-null and `token` is a non-empty string, and then a user record comes with a token |
| `AuthContext.LoginBody` | context/AuthContext.js:39 | the login body has exactly the fields `login` and `password`, holding the arguments |
| `AuthContext.RegisterBody` | context/AuthContext.js:57 | the register body has exactly the fields `username`, `email` and `password`, holding the arguments |
| `AuthContext.Start` | context/AuthContext.js:10-12 | on mount `user` and `token` are null and `loading` is true |
| `AuthContext.Restored` | context/AuthContext.js:16-32 | the restore always ends with `loading` false, keeps a user record only with a token, and touches no storage key but the auth key |
| `AuthContext.SignedIn` | context/AuthContext.js:37-71 | login and register leave `loading` alone, keep a user record only with a token, and touch no storage key but the auth key |
| `AuthContext.LoggedOut` | context/AuthContext.js:73-83 | logout ends with `user` and `token` null and storage without the auth key and otherwise unchanged, and leaves `loading` alone |
| `AuthContext.Requested` | services/api.js:36-43 | another screen's call leaves `user`, `token` and `loading` unchanged and can only remove the auth key from storage |
| `AuthContext.RestoreWithoutToken` | context/AuthContext.js:18-31 | with no truthy token stored, the restore only clears `loading`, whatever `/auth/me` would answer |
| `AuthContext.RestoreAccepted` | context/AuthContext.js:18-31 | an accepted stored token ends with that `token`, `user` set to `response.data.data`, `loading` false and storage unchanged |
| `AuthContext.RestoreRejectedKeepsToken` | context/AuthContext.js:18-31 | a rejected stored token is removed from storage, `user` stays null and `loading` ends false, but `token` keeps the stored value, so the state is not authenticated and memory and storage disagree |
| `AuthContext.RestoreReadFailure` | context/AuthContext.js:17-31 | a failed storage read at start-up ends signed out, `loading` false, with the key removed |
| `AuthContext.SignInSuccess` | context/AuthContext.js:39-48 | success sets `token` and `user` from the response and stores the same token; the state is authenticated exactly when the response has a user record and the token is non-empty |
| `AuthContext.SignInFailure` | context/AuthContext.js:37-53 | failure leaves `user`, `token` and `loading` unchanged; storage is unchanged unless the rejection is a 401, which removes the auth key |
| `AuthContext.RefusedLoginWhileSignedIn` | context/AuthContext.js:37-53 | a signed-in user whose login is refused with 401 stays authenticated while the stored token is gone |
| `AuthContext.LogoutAlwaysSignsOut` | context/AuthContext.js:73-83 | whatever the backend answers, logout ends with `user` and `token` null and only the auth key removed from storage |
| `AuthContext.RunKeepsUserWithToken` | context/AuthContext.js:10-83 | in every run of operations, a non-null `user` comes with a non-null `token` |
| `AuthContext.RunOnlyTouchesTokenKey` | context/AuthContext.js:16-83 | no run of operations changes any storage key but the auth key |
| `AuthContext.Step` | context/AuthContext.js:16-83 | only the restore touches `loading`, and it always clears it; every operation keeps a user record only with a token and touches no storage key but the auth key |
| `AuthContext.Run` | context/AuthContext.js:29-31 | in a run of operations, once `loading` is false no later operation raises it |
| `AuthContext.RunEndingInLogout` | context/AuthContext.js:73-83 | whatever came before, a run ending in logout is signed out, with no stored token, memory and storage agreeing |
| `AuthContext.NextRequestCarriesToken` | context/AuthContext.js:42-46 | after a successful sign-in with a non-empty token, the next request's bearer credential is that token |
| `AuthContext.NoCredentialAfterLogout` | context/AuthContext.js:79-81 | after logout, the next request has no `Authorization` header |
| `AuthContext.AuthProvider.constructor` | context/AuthContext.js:9-12 | the provider starts in `Start` over the client's storage |
| `AuthContext.AuthProvider.IsAuthenticated` | context/AuthContext.js:92 | `Authenticated` of the provider's state: true exactly when `user` and `token` are non-null and the token is non-empty |
| `AuthContext.AuthProvider.CheckAuthStatus` | context/AuthContext.js:16-32 | the new state is `Restored` of the old one and the `/auth/me` answer; `/auth/me` is sent exactly when a truthy token was read |
| `AuthContext.AuthProvider.SignIn` | context/AuthContext.js:37-71 | the result is the backend's answer; the new state is `SignedIn` of it; exactly one request is sent |
| `AuthContext.AuthProvider.Login` | context/AuthContext.js:37-53 | posts `{login, password}` to `/auth/login`, resolves to `response.data` or rejects with the same error, and the new state is `SignedIn` of that |
| `AuthContext.AuthProvider.Register` | context/AuthContext.js:55-71 | posts `{username, email, password}` to `/auth/register`, otherwise as `Login` |
| `AuthContext.AuthProvider.Logout` | context/AuthContext.js:73-83 | posts to `/auth/logout`, returns nothing whatever the answer, and the new state is `LoggedOut` |

## Left out

- Rendering, styles, `Alert` dialogs and expo-router navigation. Alert text is returned as a value. The OK button's route is recorded but never followed.
- `app/index.js`, the splash screen with a 2-second redirect, and `app.config.js`, static build configuration.
- The axios transport, the base URL and the 10000 ms timeout. They are a foreign library and I/O. A timeout is an error with no status.
- AsyncStorage persistence. Storage is a map that survives in memory. Write failures are not modelled. A rejected `setItem` in login would rethrow after `token` and `user` were already set. A rejected `removeItem` in the response interceptor would replace the original error.
- The request interceptor's error handler (services/api.js:28-30). It only forwards an error from an earlier interceptor, and there is none.
- Response bodies without their `data` envelope. Destructuring such a body throws a TypeError into the same `catch`, which is not modelled separately. Login and register responses always carry a string token.
- Asynchrony. Each operation runs to completion before the next begins. Interleavings between the awaits of concurrent calls are not modelled.
- `console.log` and `console.error`.
- React mechanics. `useState` setters are field assignments. Nothing enforces that `useEffect` runs `CheckAuthStatus` exactly once after mount. The `useAuth` guard (context/AuthContext.js:102-108) is not modelled.
- Text input handlers (`onChangeText`). They assign the screen's fields directly.
- Lone UTF-16 surrogates. Dafny's `char` cannot hold one, while a JavaScript string from a text input can; `password.length` would count it as one code unit.
- Path ids are modelled as strings. A numeric id would be converted by the template literal first.
- `USER_DATA_KEY` and the other constants of `utils/constants.js`. Only `AUTH_TOKEN_KEY` is used.
