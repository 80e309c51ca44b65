# ReelApps shared auth store and app configuration, in Dafny

This project models two parts of the `reelapps-shared` packages of the ReelApps platform.

**The session store** (`reelapps-shared/auth/src/index.ts`) is a zustand store with six fields: `user`, `profile`, `isAuthenticated`, `isLoading`, `isInitializing` and `error`. It also has a module-level Supabase client that `getSupabaseClient` guards.
- Its operations `initialize`, `login`, `signup`, `logout`, `sendPasswordResetEmail` and `clearError` write the fields through successive `set` calls.
- The listener installed by `initializeAuthListener` calls `initialize` for the events `SIGNED_IN`, `SIGNED_OUT` and `TOKEN_REFRESHED`.

In `auth.dfy` (module `Auth`):
- Each `set` call is a step function on a `Snapshot` value (`StartInitialize`, `SettleInitialize`, `StartRequest`, `SettleLogin`, `SettleRequest`, `SettleLogout`, `ErrorCleared`).
- Each operation is its start step followed by its settle step (`AfterInitialize`, `AfterLogin`, ...). Their contracts state what the operation promises.
- The class `AuthStore` holds the six fields and `clientInitialized`. Its methods update the fields in place. Each method's postcondition ties the new state to the matching `After…` function.
- What the provider or the `profiles` query would answer is a parameter. A `Reply<T>` is either a value or a thrown `Thrown`, which is an `Error` with a message or some other value. A `ProfileReply` is either a row or an error code.
- `WithClient` models the client guard. With no client, the guard's own `Error` takes the place of the provider's answer.
- The `Write` datatype lists every single `set` call. `Replay` applies any sequence of writes, so the invariant lemmas also cover every interleaving of concurrent operations' steps.

**The app configuration** (`reelapps-shared/config/src/index.ts`) is a table of five apps. It provides `getAppConfig`, a lookup by key, and `getCurrentAppConfig`, which finds the first app whose domain or `localhost:<port>` occurs in the page's host name.

In `config.dfy` (module `AppConfig`):
- The table is a sequence in declaration order.
- `includes` is the predicate `Includes`.
- The port is rendered in decimal by `DecimalText`.
- The search is a `while` loop over the table that takes the host name as a parameter.

`wrappers.dfy` holds the `Option` type used for the source's nullable values.

### Behaviour of the code worth knowing (the model follows it)
- `initialize` sets `isInitializing` to true at its start (line 65). The listener calls `initialize` on `SIGNED_IN`, `SIGNED_OUT` and `TOKEN_REFRESHED`, so each of these events raises the flag again until the call settles (lemma `ListenerEventReraisesInitializing`).
- On `SIGNED_OUT` the listener runs `initialize`, which asks the provider for the session again (line 224). If that call fails, the previous user, profile and flag stay.
- A failing `initialize` records the error and keeps `user`, `profile` and `isAuthenticated`.
- `signup` passes its user data to the provider as metadata and writes no profile.
- The operations take no lock. Concurrent operations write the store in whatever order their `set` calls run.
- A profile query error never fails `initialize` or `login`. The code `PGRST116` only decides whether a warning is logged. In both cases the profile is set to null.
- A `login` with no error and no user never clears `isLoading` (lines 119-137 have no else branch).

## Model

| member | source | states |
|---|---|---|
| `Auth.WithClient` | reelapps-shared/auth/src/index.ts:47-52 | with a client, the provider's answer passes through unchanged; without one, the answer is the guard's `Error('Supabase client not initialized. …')` |
| `Auth.AfterInitialize` | reelapps-shared/auth/src/index.ts:63-105 | `isInitializing` ends false on every path and `isLoading` is untouched; on a provider error or a missing client, identity is kept and `error` gets the `Error`'s message or 'Authentication initialization failed'; with a session user, user, profile (null on any profile error, whatever the code) and `isAuthenticated` are set together and `error` is null; with no session, all three are cleared |
| `Auth.AfterLogin` | reelapps-shared/auth/src/index.ts:107-145 | rejects exactly when the sign-in fails, with the same value; on failure identity is kept, `isLoading` is false and `error` gets the message or 'Login failed'; on a returned user, user, profile and `isAuthenticated` are set, `isLoading` is false and `error` is null; with no error and no user, identity is kept and `isLoading` stays true; `isInitializing` is untouched; the coupling is kept |
| `Auth.AfterSignup` | reelapps-shared/auth/src/index.ts:147-170 | never changes user, profile, `isAuthenticated` or `isInitializing`; always ends with `isLoading` false; `error` is null on success, or the message / 'Signup failed'; rejects exactly on failure, with the same value |
| `Auth.AfterLogout` | reelapps-shared/auth/src/index.ts:172-193 | never rejects; on success user and profile are null, `isAuthenticated` is false and `error` is null; on failure identity is kept and `error` gets the message or 'Logout failed'; `isLoading` always ends false; `isInitializing` is untouched |
| `Auth.AfterPasswordReset` | reelapps-shared/auth/src/index.ts:195-212 | never changes user, profile, `isAuthenticated` or `isInitializing`; always ends with `isLoading` false; `error` is null on success, or the message / 'Password reset failed'; rejects exactly on failure, with the same value |
| `Auth.StartInitialize` | reelapps-shared/auth/src/index.ts:65 | initialize's start step raises `isInitializing`, clears `error` and changes nothing else |
| `Auth.SettleInitialize` | reelapps-shared/auth/src/index.ts:84-103 | initialize's second `set` clears `isInitializing`; on an error it writes only `error` (the message or 'Authentication initialization failed'); with a session it writes only user, profile and `isAuthenticated`, all set for a session user and all cleared otherwise, so a concurrent operation's `error` and `isLoading` survive |
| `Auth.StartRequest` | reelapps-shared/auth/src/index.ts:109 | the start step of login, signup, logout and password reset (lines 109, 149, 174, 197) raises `isLoading`, clears `error` and changes nothing else |
| `Auth.SettleLogin` | reelapps-shared/auth/src/index.ts:119-142 | on failure only `error` ('Login failed' fallback) and `isLoading` change; on a returned user only user, profile, `isAuthenticated` and `isLoading` change; with no error and no user nothing is written |
| `Auth.SettleRequest` | reelapps-shared/auth/src/index.ts:162-167 | the second `set` of signup and of password reset (lines 162-167, 204-209) clears `isLoading`; on failure it also writes `error` with the given fallback; nothing else changes |
| `Auth.SettleLogout` | reelapps-shared/auth/src/index.ts:181-191 | clears `isLoading`; on success also clears user, profile and `isAuthenticated`; on failure also writes `error` ('Logout failed' fallback); nothing else changes |
| `Auth.ErrorCleared` | reelapps-shared/auth/src/index.ts:214 | `error` becomes null and every other field is unchanged |
| `Auth.AfterAuthEvent` | reelapps-shared/auth/src/index.ts:221-227 | `SIGNED_IN`, `SIGNED_OUT` and `TOKEN_REFRESHED` give exactly the state after `initialize`; every other event leaves the state unchanged |
| `Auth.ApplyKeepsCoupling` | reelapps-shared/auth/src/index.ts:63-214 | every single `set` call of the store keeps `isAuthenticated` true exactly when a user is held |
| `Auth.ReplayKeepsCoupling` | reelapps-shared/auth/src/index.ts:63-214 | any sequence of `set` calls (any interleaving of operations' steps) keeps `isAuthenticated` true exactly when a user is held |
| `Auth.CoupledFromInitial` | reelapps-shared/auth/src/index.ts:55-61 | from the store's initial state, the coupling holds after any sequence of writes |
| `Auth.InitializingRaisedOnlyByInitialize` | reelapps-shared/auth/src/index.ts:63-214 | once `isInitializing` is false, only initialize's start step (line 65) sets it true again |
| `Auth.ListenerEventReraisesInitializing` | reelapps-shared/auth/src/index.ts:221-227 | for `SIGNED_IN`, `SIGNED_OUT` and `TOKEN_REFRESHED` the listener's effect is exactly the two writes of `initialize`, the first of which (line 65) raises `isInitializing`; a `SIGNED_OUT` whose session check fails keeps the previous user, profile and flag |
| `Auth.AuthStore.constructor` | reelapps-shared/auth/src/index.ts:41-61 | the store starts with no user or profile, not authenticated, not loading, initializing, no error, no client and no listener |
| `Auth.AuthStore.InitializeSupabase` | reelapps-shared/auth/src/index.ts:43-45 | the client becomes available and the store fields are unchanged |
| `Auth.AuthStore.Initialize` | reelapps-shared/auth/src/index.ts:63-105 | the fields become `AfterInitialize` of the old fields, given the guarded provider answer; the coupling invariant is kept |
| `Auth.AuthStore.Login` | reelapps-shared/auth/src/index.ts:107-145 | the fields and the completion become `AfterLogin` of the old fields; the coupling invariant is kept |
| `Auth.AuthStore.Signup` | reelapps-shared/auth/src/index.ts:147-170 | the fields and the completion become `AfterSignup` of the old fields; the coupling invariant is kept |
| `Auth.AuthStore.Logout` | reelapps-shared/auth/src/index.ts:172-193 | the fields become `AfterLogout` of the old fields; the coupling invariant is kept |
| `Auth.AuthStore.SendPasswordResetEmail` | reelapps-shared/auth/src/index.ts:195-212 | the fields and the completion become `AfterPasswordReset` of the old fields; the coupling invariant is kept |
| `Auth.AuthStore.ClearError` | reelapps-shared/auth/src/index.ts:214 | the fields become `ErrorCleared` of the old fields |
| `Auth.AuthStore.InitializeAuthListener` | reelapps-shared/auth/src/index.ts:218-221 | subscribing succeeds, and the callback becomes subscribed, exactly when the client exists; otherwise it throws the guard's `Error` and subscribes nothing; the store fields are unchanged |
| `Auth.AuthStore.HandleAuthEvent` | reelapps-shared/auth/src/index.ts:221-227 | runs only once subscribed; the fields become `AfterAuthEvent` of the old fields; an event other than the three leaves the object unchanged |
| `AppConfig.GetAppConfig` | reelapps-shared/config/src/index.ts:37-39 | the result is the record stored under the given key in the table |
| `AppConfig.KeysDistinct` | reelapps-shared/config/src/index.ts:3-34 | no key occurs twice in the table |
| `AppConfig.PortsDistinct` | reelapps-shared/config/src/index.ts:7-32 | the five ports are pairwise distinct |
| `AppConfig.DomainUnderMainDomain` | reelapps-shared/config/src/index.ts:2-33 | every app's domain ends with "." followed by `MAIN_DOMAIN` |
| `AppConfig.DecimalText` | reelapps-shared/config/src/index.ts:45 | the rendering of a port in `localhost:${port}` is a non-empty string of decimal digits |
| `AppConfig.DecimalRoundTrip` | reelapps-shared/config/src/index.ts:45 | reading the rendered digits back gives the port, so distinct ports give distinct `localhost:` texts |
| `AppConfig.GetCurrentAppConfig` | reelapps-shared/config/src/index.ts:44-50 | null exactly when no entry's domain and no entry's `localhost:<port>` occurs in the host name; when entry `i` is the first match in declaration order, the result is that entry's key with its name, domain, port and description |
| `AppConfig.HostnameOf` | reelapps-shared/config/src/index.ts:42 | the host name searched is the window's `location.hostname`, or the empty string when there is no window |
| `AppConfig.NoWindowNoApp` | reelapps-shared/config/src/index.ts:42 | with no window the host name is empty and no entry matches, so the result is null |
| `AppConfig.DevServerHostnameMatchesNothing` | reelapps-shared/config/src/index.ts:42-45 | on a development server at `localhost:<port of any app>`, the host name as read matches no entry |
| `AppConfig.DevServerHostSelectsApp` | reelapps-shared/config/src/index.ts:42-46 | searching `location.host` instead, the development server of an app has that app as its first match |

## Findings

| source | as written | input that shows it | evidently intended | confidence | as-written member | corrected member |
|---|---|---|---|---|---|---|
| reelapps-shared/config/src/index.ts:42 | the search reads `window.location.hostname`, which never includes the port, yet line 45 looks for `localhost:${port}` in it | a page served at `http://localhost:5176`: the host name is `localhost`, no entry matches, and the result is null | read `window.location.host` (`localhost:5176`), so the ReelCV entry is found | high; not executed | `AppConfig.DevServerHostnameMatchesNothing` (over `AppConfig.HostnameOf`) | `AppConfig.DevServerHostSelectsApp` (over `AppConfig.HostOf`) |

## Left out
- Supabase calls are not made: `createClient`, `getSession`, `signInWithPassword`, `signUp`, `signOut`, `resetPasswordForEmail`, the `profiles` query and `onAuthStateChange`. They are external services; their answers are parameters of the operations.
- The email, password and user-data arguments of the operations, and the URL and key of `initializeSupabase`, are not modelled. They only go to the provider.
- The session that `onAuthStateChange` passes to the callback is not modelled, because the callback ignores it.
- zustand's subscription and re-render machinery is not modelled. A `set` call is a shallow update of the store's fields.
- The timing of concurrent operations is not modelled. The code has no mechanism that orders them. The `Write`/`Replay` lemmas cover every order of their steps instead.
- `console.warn` and `console.error` logging is not modelled. This includes the `PGRST116` test, which only decides whether to log.
- The `[key: string]: any` extra fields of `User` and `Profile` are not modelled. The `status` field of `AuthError` is always absent, because the store never sets it.
- Reading `window.location` is browser I/O. The host name is a parameter, and `HostnameOf` gives the string line 42 computes.
- The React components (`AppWrapper`, `ErrorBoundary`, `Card`) and the type declarations package have no store or lookup logic and are not part of this model.
