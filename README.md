# Client-side authentication session of the account-management front end

This project models, in Dafny, the part of the web front end that keeps the user signed in:

- **the session store** (`AuthProvider`): the signed-in `user`, the `loading` and `error`
  flags, the copy of the user kept in durable storage under the key `user`, and the
  default `Authorization` header of the HTTP client. Its operations are `login`,
  `register`, `logout`, `updateProfile`, the start-up effect that restores a stored user,
  and `configureAxios`;
- **the three forms that drive it**: the profile form (password checks, the
  "changed fields only" payload, the success and "no changes" notices, Cancel), the
  registration form and the sign-in form (required fields, navigation after success,
  per-field error flags, the disabled button);
- **the route guard** (`ProtectedRoute`) and the route table that says which pages it wraps.

Every remote call is replaced by its answer, given as a parameter
(`Outcome = Ok(data) | Err(optional server message)`). Each operation returns the request
it would send (`None` when nothing reaches the network) and how its promise settles
(`Resolved` or `Rejected(reason)`).

Layout:

- `js_values.dfy`: module `JsValues` (optional values, string-valued JSON objects as
  `map<string, string>`, truthiness, `||`, template interpolation) and module `Forms` (the
  password rule and the required-field flag shared by the forms).
- `auth_context.dfy`: module `AuthContext`. The store is a `class AuthProvider` whose
  methods update its fields step by step. Each method is proved equal to a declarative
  function over a `Session` value (`Rehydrated`, `LoginResult`, `RegisterResult`,
  `LoggedOut`, `ProfileUpdateResult`). The lemmas state the properties of those functions,
  and of runs of operations (`Step`, `Run`, `Sent`).
- `profile_page.dfy`, `register_page.dfy`, `login_page.dfy`: one module per page. A class
  holds the page's `useState` fields, and its `HandleSubmit` calls into the
  `AuthProvider`. Each method is proved equal to a function (`Submitted`, `Cancelled`)
  over a value of the form's state, and lemmas state what a submit does.
- `app_routes.dfy`: module `AppRoutes`, the guard, the route table and how a path resolves.

Where the intended design and the code differ, the model follows the code:

- A failed `login` or `register` does not clear `user`. A session held before the
  attempt survives it (`AuthContext.tsx:76-80`).
- Without a user or a token, `updateProfile` throws "You must be logged in to update your
  profile". Its own catch then replaces that text: `error` becomes the generic
  "An error occurred while updating profile", and the promise rejects with
  "Profile update failed" (`AuthContext.tsx:120-121, 134-136`).
- Start-up restores the stored user without asking the server. It does not install the
  default `Authorization` header (`AuthContext.tsx:41-47`). `updateProfile` still sends
  the token, because it builds its own header with `configureAxios(user.token)`.
- `Bearer ${data.token}` with no `token` in the response yields the header
  `"Bearer undefined"`. `Interpolate` models this.
- A successful `updateProfile` replaces the stored user, token included when the response
  carries one. It never touches the default header.
- A profile save that reaches the network unmounts the profile form while it waits, so
  its success notice is never shown (see "## Findings").

`login`, `register` and `updateProfile` each pass through a visible in-flight state before
their answer arrives: `loading` is true and the error is cleared (`InFlight`). The guard
shows its placeholder for that state, so the dashboard and the profile form are unmounted
while the request is outstanding and mount afresh when it settles. The sign-in and
registration pages are not guarded; they stay mounted, with their buttons disabled.

## Model

| member | source | states |
|---|---|---|
| `AuthContext.AxiosConfig` | frontend/src/context/AuthContext.tsx:50-62 | the request headers always carry `Content-Type: application/json`, and carry `Authorization: Bearer <token>` if and only if the token is non-empty; no other header |
| `AuthContext.ConfigureAxios` | frontend/src/context/AuthContext.tsx:50-62 | building the header object and adding the credential in place yields exactly `AxiosConfig(token)` |
| `AuthContext.AuthProvider.constructor` | frontend/src/context/AuthContext.tsx:36-38 | the store starts with no user, `loading` true, no error, no default header, and the storage slot as found |
| `AuthContext.AuthProvider.Rehydrate` | frontend/src/context/AuthContext.tsx:40-47 | the mount effect takes the stored user when there is one and always ends loading (`Rehydrated`) |
| `AuthContext.AuthProvider.SignIn` | frontend/src/context/AuthContext.tsx:64-82 | the shared body of `login` and `register`: sends the request; on success stores the record, makes it the user and sets the default header; on failure sets `error` from the server message or the default and rejects; `loading` ends false on both paths |
| `AuthContext.AuthProvider.Login` | frontend/src/context/AuthContext.tsx:64-82 | posts `{email, password}` to `/api/auth/login` with no credential and leaves exactly the state, request and completion `LoginResult` gives |
| `AuthContext.AuthProvider.Register` | frontend/src/context/AuthContext.tsx:84-106 | posts `{name, email, password}` to `/api/auth/register` and leaves exactly what `RegisterResult` gives |
| `AuthContext.AuthProvider.Logout` | frontend/src/context/AuthContext.tsx:108-113 | clears the storage slot, the user and the default header, nothing else (`LoggedOut`) |
| `AuthContext.AuthProvider.UpdateProfile` | frontend/src/context/AuthContext.tsx:115-140 | leaves exactly what `ProfileUpdateResult` gives: nothing sent without a credential; otherwise a `PUT` with the user's token, and on success the merged user, stored |
| `AuthContext.StartupTrustsStorage` | frontend/src/context/AuthContext.tsx:36-47 | after start-up the user is exactly what storage held, with no server check: loading has ended, there is no error and no default header, and the store is consistent |
| `AuthContext.AttemptStartsClean` | frontend/src/context/AuthContext.tsx:64-140 | `login`, `register` and `updateProfile` reset `error` and `loading` first: their result does not depend on the earlier values, and each ends with `loading` false |
| `AuthContext.SignInSucceeds` | frontend/src/context/AuthContext.tsx:68-75 | after a successful `login` or `register`, storage holds exactly the response record, `user` equals it, the default header is `"Bearer " + token`, and the error is cleared; the request's own `configureAxios()` headers carry no `Authorization` |
| `AuthContext.SignInFailsKeepingSession` | frontend/src/context/AuthContext.tsx:76-102 | a failed `login` or `register` sets `error` to the server message or the operation's default and rejects with the server message or "Login failed" / "Registration failed"; user, storage and header stay as they were |
| `AuthContext.LogoutEndsSession` | frontend/src/context/AuthContext.tsx:108-113 | `logout` clears the storage slot, the user and the default header; it leaves `loading` and `error` alone, sends nothing and cannot fail |
| `AuthContext.UpdateWithoutCredential` | frontend/src/context/AuthContext.tsx:115-140 | `updateProfile` with no user or an empty token sends nothing and sets the generic message; it rejects with "Profile update failed" and changes nothing else |
| `AuthContext.UpdateMergesResponse` | frontend/src/context/AuthContext.tsx:124-133 | a successful update sends the payload with the held token as bearer; the new user has the old user's keys plus the response's, takes every response field, keeps every other old field (token included), and is stored; the header is unchanged |
| `AuthContext.FailedUpdateKeepsSession` | frontend/src/context/AuthContext.tsx:134-139 | a failed update leaves the user, the storage slot and the header as they were: it does not sign the user out; only `error` and `loading` change |
| `AuthContext.InFlightExactlyWhileSending` | frontend/src/context/AuthContext.tsx:64-140 | a call waits exactly when it sends a request; while it waits the store is loading, has no error and still holds the earlier user, storage and header; the answer then settles it exactly as the call from the settled store does |
| `AuthContext.StepKeepsConsistent` | frontend/src/context/AuthContext.tsx:64-140 | every operation keeps storage equal to the user, ends not loading, and never leaves a default header without a user |
| `AuthContext.RunKeepsConsistent` | frontend/src/context/AuthContext.tsx:64-140 | the same holds after any sequence of operations, however each remote call is answered |
| `AuthContext.StorageFollowsUser` | frontend/src/context/AuthContext.tsx:40-140 | from page load on, after start-up and any sequence of operations, storage holds exactly the user and nothing is loading |
| `AuthContext.NoSessionNoRequest` | frontend/src/context/AuthContext.tsx:115-128 | without a user, any run of profile edits and logouts sends no request and creates no session |
| `AuthContext.LogoutThenNoRequest` | frontend/src/context/AuthContext.tsx:108-128 | after `logout`, any run of profile edits and logouts reaches no network |
| `AuthContext.WrongThenRightPassword` | frontend/src/context/AuthContext.tsx:64-82 | a rejected attempt leaves its message and no session; the next, successful attempt clears the message and signs in |
| `Forms.RequiredField` | frontend/src/pages/Register.tsx:84-85 | a required field is flagged exactly when the form was submitted with it empty, and shows its helper text exactly then |
| `ProfilePage.PasswordProblem` | frontend/src/pages/Profile.tsx:32-42 | a non-empty password that differs from its confirmation is reported as a mismatch, before the length check; a matching non-empty password shorter than 6 is reported as too short; an empty password passes both |
| `ProfilePage.ChangedFields` | frontend/src/pages/Profile.tsx:46-50 | the payload has `name` exactly when it differs from the user's name, `email` exactly when it differs from the user's email, and `password` exactly when one was typed, each with the typed value, and no other key |
| `ProfilePage.NoChangesExactly` | frontend/src/pages/Profile.tsx:46-53 | the payload is empty exactly when name and email equal the user's and the password is empty |
| `ProfilePage.ProfileForm.constructor` | frontend/src/pages/Profile.tsx:19-25 | the form starts from the user's name and email, with empty passwords and messages, not editing |
| `ProfilePage.ProfileForm.Edit` | frontend/src/pages/Profile.tsx:123 | the edit button only enters editing |
| `ProfilePage.ProfileForm.Cancel` | frontend/src/pages/Profile.tsx:181-188 | Cancel resets name and email to the user's, clears both passwords and the password message, and leaves editing |
| `ProfilePage.ProfileForm.HandleSubmit` | frontend/src/pages/Profile.tsx:27-65 | the handler's writes to the form instance it runs on, and the session, payload and request, are exactly as `Submitted` gives; whether that instance is still on screen is `Rendered` |
| `ProfilePage.Rendered` | frontend/src/pages/Profile.tsx:17-58 | the page after a submit: when the submit sent a request, a fresh form mounted from the user the store then holds; otherwise the form as the handler left it |
| `ProfilePage.RenderedSettled` | frontend/src/pages/Profile.tsx:54-58 | behind a guard that keeps a held user's page mounted, the page after any submit is exactly the form as the handler left it |
| `ProfilePage.ProfileRoute.constructor` | frontend/src/App.tsx:30-34 | the `/profile` route mounts a form from the store's user |
| `ProfilePage.ProfileRoute.Submit` | frontend/src/App.tsx:30-34 | a submit on the mounted form leaves the session, payload and request `Submitted` gives, and the route's form is `Rendered`: replaced by a fresh one when a request was sent |
| `ProfilePage.SubmitClearsMessagesFirst` | frontend/src/pages/Profile.tsx:29-30 | every submit starts by clearing the success and password messages: earlier values never survive it |
| `ProfilePage.PasswordProblemStopsSubmit` | frontend/src/pages/Profile.tsx:33-42 | a password problem sets its message and returns: `updateProfile` is not called and the rest of the form and the session are untouched |
| `ProfilePage.UpdateCalledOnChangesOnly` | frontend/src/pages/Profile.tsx:46-54 | with valid passwords, `updateProfile` is called if and only if something changed, and then with exactly the changed fields |
| `ProfilePage.NoChangesNotice` | frontend/src/pages/Profile.tsx:53-61 | with nothing changed, "No changes detected" is shown, nothing is called, and editing and the password fields are unchanged |
| `ProfilePage.SavedChangeLeavesEditing` | frontend/src/pages/Profile.tsx:54-58 | after a successful update the handler writes "Profile updated successfully", clears both passwords and leaves editing; the session holds the merged user and the request body is the payload; the page shown is a fresh form from the merged user, with no notice |
| `ProfilePage.FailedChangeDiscardsEdits` | frontend/src/pages/Profile.tsx:53-64 | after a failed update the handler leaves editing and the passwords as typed, and the session keeps its user and storage and carries an error; the page shown is a fresh form from that user, out of editing, with the typed values discarded |
| `ProfilePage.SaveNoticeIsLost` | frontend/src/pages/Profile.tsx:54-58 | for a concrete saved rename, the handler writes the success notice but the page shown has none and is out of editing |
| `ProfilePage.SettledGuardShowsSaveNotice` | frontend/src/pages/Profile.tsx:54-58 | behind the corrected guard, a saved change shows "Profile updated successfully" out of editing with the passwords cleared, and a rejected one stays in editing as typed |
| `ProfilePage.BlockedSubmitIsExplained` | frontend/src/pages/Profile.tsx:27-61 | a submit that does not call `updateProfile` always shows a password message or the "no changes" notice |
| `RegisterPage.RegisterCheck` | frontend/src/pages/Register.tsx:31-44 | the form stops at any empty field first, then at a mismatch, then at a password shorter than 6; it is accepted exactly when all four fields are filled, the passwords match and are long enough |
| `RegisterPage.RegisterForm.constructor` | frontend/src/pages/Register.tsx:19-24 | the form starts empty, not submitted, with no message |
| `RegisterPage.RegisterForm.HandleSubmit` | frontend/src/pages/Register.tsx:26-52 | the submit leaves the form, the session, the request and the navigation exactly as `Submitted` gives |
| `RegisterPage.RegisterCalledOnlyWhenValid` | frontend/src/pages/Register.tsx:28-47 | `register` is called if and only if the checks accept the form; every submit marks the form submitted and leaves the typed values alone |
| `RegisterPage.IncompleteFormIsSilent` | frontend/src/pages/Register.tsx:29-44 | a stopped submit sends nothing, does not navigate and leaves the session as it was; when a field is empty, no password message is shown |
| `RegisterPage.NavigatesOnlyAfterSuccess` | frontend/src/pages/Register.tsx:46-51 | navigation to `/` happens if and only if `register` was called and succeeded, and then the response record is the user; a failure stays on the page with the session's error and its previous user |
| `RegisterPage.BlockedSubmitIsExplained` | frontend/src/pages/Register.tsx:28-125 | after a submit that does not call `register`, a field is flagged or the password alert shows |
| `RegisterPage.ButtonDisabledWhileRegistering` | frontend/src/pages/Register.tsx:26-134 | while `register` is outstanding the button is disabled and no error alert shows |
| `RegisterPage.FieldFlags` | frontend/src/pages/Register.tsx:84-134 | each field's error flag is `submitted` and the field empty; the button is disabled exactly while loading |
| `LoginPage.LoginForm.constructor` | frontend/src/pages/Login.tsx:19-21 | the form starts empty and not submitted |
| `LoginPage.LoginForm.HandleSubmit` | frontend/src/pages/Login.tsx:23-36 | the submit leaves the form, the session, the request and the navigation exactly as `Submitted` gives |
| `LoginPage.LoginCalledOnlyWhenFilled` | frontend/src/pages/Login.tsx:25-28 | every submit marks the form submitted; `login` is called if and only if both fields are filled, and otherwise the session is untouched and there is no navigation |
| `LoginPage.NavigatesOnlyAfterSuccess` | frontend/src/pages/Login.tsx:30-35 | navigation to `/` happens if and only if `login` was called and succeeded; a failure is swallowed, stays on the page, and leaves the session's error and previous user |
| `LoginPage.FieldFlags` | frontend/src/pages/Login.tsx:67-90 | the email and password error flags and helper texts show if and only if the form was submitted with that field empty; the button is disabled exactly while loading |
| `LoginPage.BlockedSubmitIsExplained` | frontend/src/pages/Login.tsx:28-82 | after a submit that does not call `login`, at least one field is flagged |
| `LoginPage.ButtonDisabledWhileSigningIn` | frontend/src/pages/Login.tsx:23-90 | while `login` is outstanding the button is disabled and no error alert shows |
| `AppRoutes.Guard` | frontend/src/App.tsx:11-19 | the guard renders the placeholder exactly while loading, whatever the user; once loaded it redirects to `/login` exactly when there is no user, and renders its child exactly when there is one |
| `AppRoutes.Match` | frontend/src/App.tsx:23-39 | a path selects the first route declared with that path when there is one, and the catch-all otherwise |
| `AppRoutes.SettledGuard` | frontend/src/App.tsx:11-19 | the corrected guard: the placeholder exactly while loading without a user, the redirect exactly when loaded without one, and the page exactly when there is a user |
| `AppRoutes.SettledGuardDiffersOnlyInFlight` | frontend/src/App.tsx:14 | the corrected guard differs from `ProtectedRoute` exactly while loading with a user, where it shows the page instead of the placeholder |
| `AppRoutes.RequestUnmountsGuardedPages` | frontend/src/App.tsx:14-36 | while any request is outstanding, `/` and `/profile` show the placeholder, and `/login` and `/register` still show their pages |
| `AppRoutes.OnlyIndexAndProfileGuarded` | frontend/src/App.tsx:25-37 | exactly the index route and `profile` are wrapped by the guard |
| `AppRoutes.PublicPagesNeedNoSession` | frontend/src/App.tsx:35-37 | `/login`, `/register` and every unknown path render their page with or without a session, even while loading |
| `AppRoutes.GuardedPagesNeedSession` | frontend/src/App.tsx:25-34 | the dashboard and the profile page render if and only if loading has ended and there is a user |
| `AppRoutes.RedirectLandsOnLogin` | frontend/src/App.tsx:16 | a redirect's target is the sign-in page, which always renders: no redirect loop |
| `AppRoutes.StartupDecidesFromStorage` | frontend/src/App.tsx:14-18 | before the start-up effect a guarded page shows the placeholder; after it, the page renders exactly when storage held a user and redirects otherwise |
| `AppRoutes.LogoutClosesGuardedPages` | frontend/src/App.tsx:16 | after `logout` from a settled store, both guarded pages redirect to `/login` |

## Findings

| source | as written | input that shows it | evidently intended | confidence | as-written member | corrected member |
|---|---|---|---|---|---|---|
| frontend/src/pages/Profile.tsx:54-58 | the notice, the password reset and leaving editing are written after `await updateProfile`, to the form instance that `ProtectedRoute` (App.tsx:14) unmounted when `updateProfile` set `loading`; the form that mounts when loading ends has no notice, and a rejected save discards what was typed | user `{name: "Ann", email: "ann@example.com", token: "t"}` changes the name to "Bea" and the server answers `{name: "Bea"}` | "Profile updated successfully" is shown after a save, and a rejected save stays in editing | medium, not executed | `ProfilePage.SaveNoticeIsLost` | `ProfilePage.SettledGuardShowsSaveNotice` |

The corrected half is `AppRoutes.SettledGuard`, which waits only while the session is
still unknown. It agrees with `ProtectedRoute` on every store except one that is loading
with a user (`SettledGuardDiffersOnlyInFlight`), and behind it the profile form survives
its own request (`RenderedSettled`). The route table and `ProfileRoute` keep the guard as
written, because that is what the application renders.

## Left out

- Network I/O: each call to the login, registration and profile endpoints becomes an
  `Outcome` parameter. The model records the request's verb, URL, body and per-request
  headers. It does not merge in the HTTP client's default headers, and it models no HTTP.
- Concurrency: each operation is applied atomically, one after the other. The state
  rendered while its request is outstanding is given by `InFlight`, and its effects on
  the screen are stated: the guard's placeholder unmounts the guarded pages, and the
  buttons are disabled. What atomicity does not capture is another operation that starts
  while a request is outstanding. For example, the layout's logout stays on screen during
  a profile save; the save's answer is then merged into the user captured before the
  logout, and that user is stored and set again. Overlapping `login` or `updateProfile`
  calls, and the order in which React applies their state updates, are not modelled.
- JSON serialisation and storage internals: the storage slot is an optional record.
  `JSON.parse` of a corrupted value is not modelled. Record values are strings, so
  non-string JSON values in server responses are not modelled.
- String length: a JavaScript `length` counts UTF-16 code units. The model counts
  characters of Dafny's `string`.
- Route matching: React Router's case-insensitive matching, trailing slashes and nested
  paths are not modelled. A path is matched by exact string equality.
- Rendering: the page layouts, animations, the `Layout` wrapper, the dashboard's health
  check, the not-found page, the profile page's alerts and its disabled Save button, and
  its "please confirm your password" helper on the confirmation field.
- `useAuth` outside a provider (throws) is not modelled: every page is given its
  `AuthProvider`.
- The back end (token signing and verification, the profile route, the seeding,
  packaging and reporting scripts) is not part of this model. Its token logic is a
  wrapper over a library whose code is not available, so tokens are opaque strings.
