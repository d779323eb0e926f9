# Auth and protected-data stores, modelled in Dafny

This project models the store layer of a browser demo application that tries out two sign-in flows against mock data:

- **AuthStore** holds the current user (or none) and a loading flag. It offers credential login, login through an external provider, logout and session restore (`checkAuth`). It persists one opaque session token in the browser's local storage under the key `auth_token`.
- **DataStore** holds one slot for the last fetched protected payload, an error message and a loading flag. It offers `fetchProtectedData(userId, roles)` and `clearData()`.

Both stores are classes whose methods update their fields in place, so each is a Dafny `class` with the same fields (`auth_store.dfy`, `data_store.dfy`). Each asynchronous method is modelled as one atomic step from its start to its `finally` block. Its contract states the new value of every field it may change, on every path.

The code's failure paths are reached only when a browser API throws. Each operation therefore takes the failure point as a parameter, so both branches can be specified:
- An AuthStore operation takes a `Fault`. `RequestFails` means the awaited request rejects before any field is set. `StorageFails` means the local-storage call throws: after `setUser` in the logins and logout, and at `getItem` in `checkAuth`.
- `fetchProtectedData` takes `fail: bool`.

The awaited promises in the code (`new Promise(resolve => setTimeout(resolve, …))` at AuthStore.ts:38, :74, :109, :137 and DataStore.ts:45) never reject. So `RequestFails`, and `fail` in the fetch, cannot happen in the demo as written. They stand for the real request that replaces each simulated delay.

Clocks and randomness are parameters too. `Date.now()` is `now: nat`, in milliseconds. `Date.now() - Math.random() * 3600000` is `now - offset` with an integer `offset` in `[0, 3600000]`. The upper bound is inclusive because the `Date` constructor truncates the fractional millisecond.

The pure parts are functions with lemmas (`text.dfy`):
- The display name `email.split('@')[0]` is `Text.LocalPart`. Its contract characterises it completely: it is a prefix of the address, it contains no `@`, and it is either the whole address or is followed by an `@`. `Text.LocalPartUnique` shows no other string has these three properties.
- A token is the prefix `mock_token_` or `external_token_` followed by the decimal digits of `Date.now()`. `Auth.ParseToken` reads a token back, and the round-trip lemmas show that a stored token records both which login wrote it and when.

`scenarios.dfy` is client code that states what a caller observes across several operations. The authentication scenarios follow how the application drives that store: `checkAuth` on mount (App.tsx:13), credential login through the login modal, `loginWithExternalProvider` (App.tsx:22) and `logout` (App.tsx:30). Nothing in the application calls the protected-data store, so `Scenarios.FetchFailClear` and `Scenarios.FetchWithDefaultRoles` are call sequences a caller could make.

Behaviour a caller may not expect:
- A credential or external login whose token write throws rejects with its fixed message, but the new user is already set (AuthStore.ts:49 runs before :53).
- A failed `checkAuth` removes the token and leaves the user as it was.
- `logout` swallows its failure. The promise resolves, and the user is cleared or not depending on where the failure happened.
- `checkAuth` tests the stored token for JavaScript truthiness, so an empty stored string counts as no token (`Auth.IsTruthy`).

## Model

| member | source | states |
|---|---|---|
| `Text.LocalPart` | src/stores/AuthStore.ts:44 | the name is the prefix of the e-mail before its first '@': a prefix, free of '@', and either the whole address or followed by '@' ("" when the address starts with '@') |
| `Text.LocalPartUnique` | src/stores/AuthStore.ts:44 | any prefix with those three properties is the local part, so the contract pins `split('@')[0]` down exactly |
| `Text.LocalPartWithoutAt` | src/stores/AuthStore.ts:44 | an address without '@' is its own name |
| `Text.LocalPartIdempotent` | src/stores/AuthStore.ts:44 | taking the local part of a name changes nothing |
| `Text.Decimal` | src/stores/AuthStore.ts:53 | the timestamp appended to a token is a non-empty string of decimal digits with no leading zero |
| `Text.ParseDecimalOfDecimal` | src/stores/AuthStore.ts:53 | the digits appended to a token read back as the timestamp they render |
| `Auth.LocalUser` | src/stores/AuthStore.ts:41-46 | a credential login's user has id "123", the given e-mail, roles exactly ["user"], and as name the e-mail's local part (a prefix with no '@'); the password is not an input |
| `Auth.ExternalUser` | src/stores/AuthStore.ts:77-82 | the external user has roles exactly ["user", "external"] and an id different from the credential-login id "123" |
| `Auth.ExternalUserIsNoLocalUser` | src/stores/AuthStore.ts:77-82 | no credential login, for any e-mail, yields the external identity |
| `Auth.RestoredUserIsLocalTestUser` | src/stores/AuthStore.ts:140-145 | the placeholder restored from a token is exactly the user a credential login as test@example.com builds |
| `Auth.RestoredUser` | src/stores/AuthStore.ts:140-145 | the placeholder user of session restore has id "123", e-mail test@example.com, name "test" and roles ["user"] |
| `Auth.IsTruthy` | src/stores/AuthStore.ts:135 | a stored token passes `if (token)` exactly when the entry exists and is not the empty string |
| `Auth.LocalToken` | src/stores/AuthStore.ts:53 | a credential login's token starts with `mock_token_` and not with `external_token_` |
| `Auth.ExternalToken` | src/stores/AuthStore.ts:89 | an external login's token starts with `external_token_` and not with `mock_token_` |
| `Auth.LocalTokenParses` | src/stores/AuthStore.ts:53 | a credential-login token reads back as (credential login, the login time) |
| `Auth.ExternalTokenParses` | src/stores/AuthStore.ts:89 | an external-login token reads back as (external login, the login time) |
| `Auth.StoredTokensAreTruthy` | src/stores/AuthStore.ts:134-135 | every token either login stores passes the `if (token)` test of session restore |
| `Auth.AuthStore.constructor` | src/stores/AuthStore.ts:11-16 | a new store has no user and is not loading; local storage keeps what an earlier page stored |
| `Auth.AuthStore.IsAuthenticated` | src/stores/AuthStore.ts:18-20 | authenticated exactly when a user is present; it is computed from `user` on every read, so the two cannot diverge |
| `Auth.AuthStore.SetLoading` | src/stores/AuthStore.ts:22-24 | sets the loading flag and nothing else |
| `Auth.AuthStore.SetUser` | src/stores/AuthStore.ts:26-28 | sets the user and nothing else |
| `Auth.AuthStore.Login` | src/stores/AuthStore.ts:30-63 | ends not loading. If the request fails, the user and token are unchanged. Otherwise the user becomes `LocalUser(email)`. The token becomes `mock_token_<now>` only when nothing fails. Any failure rejects with "Login failed. Please check your credentials." |
| `Auth.AuthStore.LoginWithExternalProvider` | src/stores/AuthStore.ts:65-99 | the same shape with the fixed external user, an `external_token_<now>` token, and the message "External authentication failed. Please try again." |
| `Auth.AuthStore.Logout` | src/stores/AuthStore.ts:101-124 | ends not loading. On success the user is cleared and the token removed, whatever came before. A storage failure still clears the user but keeps the token. A request failure changes neither. No failure is reported |
| `Auth.AuthStore.CheckAuth` | src/stores/AuthStore.ts:126-159 | ends not loading. With no truthy token the user is unchanged. With one it becomes the placeholder user. A failure removes the token and leaves the user unchanged |
| `Data.MockSession` | src/stores/DataStore.ts:53-56 | the session expires exactly one hour after `now`, and the login time lies within the hour up to `now` (loginTime <= now < expiresAt) |
| `Data.MockPayload` | src/stores/DataStore.ts:48-57 | the payload echoes the caller's user id and exactly the roles given, carries the fixed secure-data text, is stamped `now`, has the session record `MockSession(now, offset)` (expiry exactly one hour after `now`), and its login time <= timestamp < expiry |
| `Data.DataStore.constructor` | src/stores/DataStore.ts:15-21 | a new store has no payload, no error and is not loading |
| `Data.DataStore.SetLoading` | src/stores/DataStore.ts:23-25 | sets the loading flag and nothing else |
| `Data.DataStore.SetError` | src/stores/DataStore.ts:27-29 | sets the error message and nothing else |
| `Data.DataStore.SetProtectedData` | src/stores/DataStore.ts:31-33 | sets the payload slot and nothing else |
| `Data.DataStore.FetchProtectedData` | src/stores/DataStore.ts:35-72 | ends not loading. On success the payload is `MockPayload(userId, userRoles, now, offset)` with roles defaulting to [], and the error is "". On failure the earlier payload stays and the error is "Failed to fetch protected data. Please try again." |
| `Data.DataStore.ClearData` | src/stores/DataStore.ts:74-77 | the payload becomes absent and the error empty. The loading flag is unchanged and so is every other field, so clearing twice equals clearing once |
| `Scenarios.LoginThenLogout` | src/stores/AuthStore.ts:30-124 | after either login, the store is signed in unless the request failed; a successful logout then leaves it signed out with no token |
| `Scenarios.RestoreAfterReload` | src/stores/AuthStore.ts:30-159 | after a credential login and a reload, session restore signs in the placeholder user, which equals the logged-in user exactly when the e-mail was test@example.com |
| `Scenarios.FreshStart` | src/stores/AuthStore.ts:126-159 | with no stored token, session restore leaves the store signed out with no token, whatever fails |
| `Scenarios.LoginAsAAtB` | src/stores/AuthStore.ts:41-46 | logging in as a@b.com, with any password, gives the name "a" and roles ["user"] |
| `Scenarios.FetchFailClear` | src/stores/DataStore.ts:35-77 | a fetch with the signed-in user's id and roles echoes them; a later failed fetch keeps that payload and reports the fixed message; clearing empties payload and error and leaves the authentication state alone |
| `Scenarios.FetchWithDefaultRoles` | src/stores/DataStore.ts:35 | a fetch without roles stores an empty permission list |

## Left out

- Concurrency: the `setTimeout` delays and any interleaving of overlapping operations are not modelled. Each operation is one atomic step, so the loading flag's `true` phase and the error cleared on entry to a fetch are visible only as their effect on the end state.
- MobX reactivity (`makeAutoObservable`, `runInAction`) and the `console.error` diagnostics, which change no state the model has.
- `localStorage` as a browser API: only the `auth_token` entry is kept, as the `token` field of the authentication store. A new store receives the entry left by an earlier page.
- Auth.AuthStore.CheckAuth: the `removeItem` call in the catch handler is assumed not to throw. If it threw, the promise would reject after the `finally` block, and that path is not modelled.
- Data.MockPayload: timestamps are integer milliseconds, not ISO-8601 strings. One `now` stands for the separate clock reads at DataStore.ts:50, :54 and :55, which may differ by a millisecond. So the ordering loginTime <= timestamp holds only in the model: in the code `loginTime` can be 1 ms later than `timestamp` when `Math.random()` is close to 0. The ordering the code always guarantees is loginTime < expiresAt.
- Reference sharing: `userPermissions: userRoles` (DataStore.ts:52) keeps a reference to the caller's array, and `setUser` keeps the record object itself. The model uses sequences and datatype values, so this aliasing is not captured. No caller mutates either object afterwards, so no observable state depends on it.
- Data.MockSession: the floating-point `Math.random()` is replaced by an arbitrary integer offset in [0, 3600000].
- Text.Decimal: `Date.now()` is taken as a non-negative integer below 10^21, where JavaScript renders a number as plain decimal digits.
- src/App.tsx and src/components/ProtectedData.tsx are presentation code. ProtectedData.tsx runs its own copy of the fetch on React state, and its check that a user is signed in (ProtectedData.tsx:15-18) guards that copy, not `DataStore.fetchProtectedData`; neither is part of this model.
- src/stores/RootStore.ts, src/stores/StoreContext.tsx and src/stores/index.ts are singleton construction, React context plumbing and re-exports, and are not part of this model.
