# auther: in-memory store and authentication protocol, in Dafny

This project models the core of `auther`, a small Go authentication library. It covers
two parts:

- **The in-memory store** (`inMemoryAuthDatabase`). It keeps a user-ID counter, a list of
  user rows and a list of sessions. Every operation except `CreateUserSession`, which is a
  plain append, is a linear scan with an early return.
- **The authenticator** (`authenticator`). Its four operations, `Signup`, `Signin`,
  `Signout` and `Authenticate`, are short sequences of store calls that return early on
  the first error.

Every part has two layers:

- **Value layer.** `StoreSpec` and `AuthSpec` model the store's contents as a `Store`
  value and write each operation as a function. The function returns a `Step`: the new
  contents together with the operation's result.
- **Object layer.** `Database.InMemoryAuthDatabase` and `Auther.Authenticator` are
  classes whose methods update `seq` fields in place, as the Go code does. Each method is
  proved to have exactly the effect and result of its value-layer function.

The session lifecycle is stated as lemmas over the value layer: a session is created at
signup or signin, refreshed by authenticate, rejected once older than 14 days since login,
and removed by signout.

Modelling choices:

- The password hash is `hash: (string, string) -> string`, a fixed field of the
  authenticator. It is deterministic, and nothing else about it is assumed.
- The random salt, the random session token and the wall-clock reading `now` are
  parameters. `now` is in nanoseconds, and `SessionExpiry` is `14 * 24` hours in
  nanoseconds.
- Errors are kinds, not message strings. `DbError` holds the store's errors. `AuthError`
  has one case for each place where the authenticator returns an error; it keeps the
  store error it wraps. `Signout` passes the store's error through unchanged, as the Go
  code does.
- Store invariant `StoreSpec.Valid`: usernames are pairwise distinct, IDs are pairwise
  distinct, and every ID lies in `[0, nextId)`.
- Two protocol-level invariants:
  - `StoreSpec.UniqueTokens`: no two sessions share a token.
  - `StoreSpec.SessionsOwned`: every session's user ID belongs to a stored user.

  The four `AuthSpec` functions preserve both invariants; `Signup` and `Signin` keep
  `UniqueTokens` only when the token is fresh. `StoreSpec.CreateUserSession` on its own
  keeps neither, since it accepts any token and any user ID.
- Files:
  - `auth_types.dfy`: shared types.
  - `store_spec.dfy`: the store as values.
  - `database.dfy`: the store class.
  - `auth_spec.dfy`: the protocol as values, with the lifecycle lemmas.
  - `authenticator.dfy`: the authenticator class, plus a client `Scenario` that states
    several of the library's test cases as verified assertions about the object: an
    unregistered signin, signout of an unknown token, signup, a duplicate signup, signin,
    authenticate with either token or the empty token, and authenticate after signout.
    The wrong-password test depends on the hash telling two passwords apart, so it is the
    lemma `AuthSpec.SigninWrongPasswordAfterSignup` instead.

## Model

| member | source | states |
|---|---|---|
| StoreSpec.IndexOfUsername | database.go:57-64 | finds no index exactly when no row has the username; otherwise the index of the first row that has it |
| StoreSpec.IndexOfUserId | database.go:67-74 | finds no index exactly when no row has the ID; otherwise the index of the first row with that ID |
| StoreSpec.IndexOfToken | database.go:90-97 | finds no index exactly when no session has the token; otherwise the index of the first session with it |
| StoreSpec.AddUser | database.go:33-55 | fails with UsernameInUse, leaving the store unchanged, exactly when some row already has the username; otherwise appends one row with ID = old counter and the given fields, increments the counter and leaves earlier rows and sessions alone; preserves Valid (unique usernames, unique IDs, IDs below the counter) |
| StoreSpec.GetUser | database.go:57-65 | fails with UserNotFound exactly when no row has the username; otherwise returns the first row that has it |
| StoreSpec.GetUserByID | database.go:67-75 | fails with UserNotFound exactly when no row has the ID; otherwise returns the first row with that ID |
| StoreSpec.CreateUserSession | database.go:77-88 | always succeeds and appends exactly one session with the given token, user ID and times; earlier sessions are a prefix of the new list; users and counter unchanged; preserves Valid |
| StoreSpec.GetUserSession | database.go:90-98 | fails with SessionNotFound exactly when no session has the token; otherwise returns the first session that has it |
| StoreSpec.UpdateUserSessionLastSeenTime | database.go:100-109 | fails with SessionNotFound, leaving the store unchanged, exactly when no session has the token; otherwise changes only the last-seen time of the first matching session, keeping length, order and every other field |
| StoreSpec.RemoveUserSession | database.go:111-120 | fails with SessionNotFound, leaving the store unchanged, exactly when no session has the token; otherwise splices out exactly the first matching session, so the list shrinks by one and the rest keep their relative order |
| StoreSpec.IndexOfTokenAppend | database.go:77-88 | appending sessions does not change which session a token already present finds |
| StoreSpec.IndexOfTokenAppendFresh | database.go:77-88 | a session appended under a token no earlier session has is the one that token finds |
| StoreSpec.IndexOfTokenSameKeys | database.go:100-109 | lookups by token do not depend on last-seen times |
| StoreSpec.IndexOfUserIdAppend | database.go:40-54 | appending a row does not change which row an existing ID finds |
| StoreSpec.GetUserByIDFindsAdded | database.go:40-54 | in a valid store, the new row's ID (the old counter) finds exactly the row AddUser returned |
| StoreSpec.GetUserFindsUnique | database.go:57-65 | when usernames are unique, a row's username finds that row |
| StoreSpec.RemoveKeepsUniqueTokens | database.go:111-120 | removing a session keeps tokens pairwise distinct |
| StoreSpec.RemovedTokenNotFound | database.go:111-120 | when tokens are unique, after removing the session with a token, looking that token up fails with SessionNotFound |
| StoreSpec.RemoveKeepsSessionsOwned | database.go:111-120 | removing a session keeps every remaining session owned by a stored user |
| StoreSpec.AddUserKeepsSessionsOwned | database.go:40-54 | adding a user keeps every session owned, and the new ID then belongs to a stored user |
| Database.InMemoryAuthDatabase.constructor | database.go:25-31 | a new store has counter 0, no users and no sessions, and is valid |
| Database.InMemoryAuthDatabase.AddUser | database.go:33-55 | the scan-then-append method has exactly StoreSpec.AddUser's effect and result, and keeps Valid |
| Database.InMemoryAuthDatabase.GetUser | database.go:57-65 | the scan returns exactly StoreSpec.GetUser's result, the first row with the username or UserNotFound |
| Database.InMemoryAuthDatabase.GetUserByID | database.go:67-75 | the scan returns exactly StoreSpec.GetUserByID's result |
| Database.InMemoryAuthDatabase.CreateUserSession | database.go:77-88 | the append has exactly StoreSpec.CreateUserSession's effect |
| Database.InMemoryAuthDatabase.GetUserSession | database.go:90-98 | the scan returns exactly StoreSpec.GetUserSession's result |
| Database.InMemoryAuthDatabase.UpdateUserSessionLastSeenTime | database.go:100-109 | the in-place field write has exactly StoreSpec.UpdateUserSessionLastSeenTime's effect and result |
| Database.InMemoryAuthDatabase.RemoveUserSession | database.go:111-120 | the splice has exactly StoreSpec.RemoveUserSession's effect and result |
| AuthSpec.Signup | auther.go:87-116 | fails with UsernameTaken, adding no user and no session, exactly when the username is registered; otherwise stores a row with the next ID, hash(password, salt), the salt and disabled = false, adds one session for that ID with login and last-seen time = now, and returns the token; preserves Valid, SessionsOwned, and UniqueTokens when the token is fresh |
| AuthSpec.Signin | auther.go:118-141 | fails with UsernameLookupFailed(UserNotFound), store unchanged, when the username is not registered; fails with InvalidPassword, creating no session, when hash(password, stored salt) differs from the stored hash; otherwise appends one session for the user's ID and returns the token; preserves the invariants |
| AuthSpec.Signout | auther.go:143-145 | fails with SessionNotFound, store unchanged, exactly when no session has the token; otherwise splices out exactly the first session with the token, so the list shrinks by one and the rest keep their order; preserves Valid, SessionsOwned and UniqueTokens |
| AuthSpec.Authenticate | auther.go:147-168 | fails with SessionLookupFailed(SessionNotFound), store unchanged, when no session has the token; fails with SessionExpired, store unchanged, when now - login time of the first session with the token exceeds 14 days (the predicate Expired, a strict comparison that ignores the last-seen time); otherwise sets that session's last-seen time to now and returns the public part of the owner; tokens, owners and login times never change; with every session owned, the only failures are a missing or expired session |
| AuthSpec.SignupThenAuthenticate | auther_test.go:90-105 | after a successful signup with a fresh token, authenticating with it within 14 days returns the new user's ID, username and full name |
| AuthSpec.SigninAfterSignup | auther_test.go:44-59 | because the hash is deterministic, signing in with the signup password succeeds and opens a session for the new user's ID |
| AuthSpec.SigninWrongPasswordAfterSignup | auther_test.go:73-88 | after signup, a password whose hash under the stored salt differs fails with InvalidPassword and leaves the store unchanged |
| AuthSpec.SigninKeepsEarlierTokens | auther_test.go:107-127 | signin removes no session: every token already in the store authenticates with the same result as before |
| AuthSpec.SignoutThenAuthenticateFails | auther_test.go:175-195 | with unique tokens, after a successful signout, authenticating with the token and signing out again both fail with SessionNotFound |
| AuthSpec.EmptyTokenRejected | auther_test.go:129-144 | when no session has the empty token, Authenticate("") and Signout("") both fail with SessionNotFound and change nothing |
| AuthSpec.ExpiryBoundary | auther.go:153-155 | authenticate fails with SessionExpired exactly when now - login time > 14 days; at exactly 14 days a session whose owner exists is accepted |
| AuthSpec.AuthenticateIgnoresLastSeen | auther.go:147-168 | authenticate's result does not depend on any session's last-seen time |
| AuthSpec.SignoutLeavesNoLiveSession | auther.go:143-145 | with unique tokens, a signed-out token has no session left |
| AuthSpec.ExpiredLeavesNoLiveSession | auther.go:153-155 | with unique tokens, a token rejected as expired has no unexpired session |
| AuthSpec.ApplyKeepsNoLiveSession | auther.go:87-168 | a signup, signin, signout or authenticate that does not issue the token never revives a live session for it |
| AuthSpec.DeadTokenStaysDead | auther.go:143-168 | once a token is revoked or expired, no sequence of later calls that does not issue it again makes it authenticate at any later time |
| AuthSpec.SignoutUndoesSignin | auther.go:130-145 | signing in under a fresh token, authenticating with it and signing out leaves the store exactly as it was before the signin |
| AuthSpec.AuthenticateFreshSession | auther.go:147-168 | a session just appended under a fresh token for a stored user authenticates as that user for 14 days |
| AuthSpec.ExampleTrace | auther.go:87-168 | sign up (T1), sign in (T2), authenticate T2 returns the user, sign out T2 succeeds; T2 then fails with SessionNotFound while T1 still authenticates |
| Auther.Authenticator.constructor | auther.go:79-85 | a new authenticator runs on a new, empty, valid in-memory store |
| Auther.Authenticator.Signup | auther.go:87-116 | the method's calls on the store have exactly AuthSpec.Signup's effect and result |
| Auther.Authenticator.Signin | auther.go:118-141 | the method's calls on the store have exactly AuthSpec.Signin's effect and result |
| Auther.Authenticator.Signout | auther.go:143-145 | the method has exactly AuthSpec.Signout's effect and result |
| Auther.Authenticator.Authenticate | auther.go:147-168 | the method's calls on the store have exactly AuthSpec.Authenticate's effect and result |
| Auther.Scenario | auther_test.go:15-195 | on a new authenticator: signin of an unregistered user fails with UserNotFound and signout of the empty token with SessionNotFound; the duplicate signup is refused with UsernameTaken, signin with the signup password succeeds, both tokens authenticate user 0, the empty token fails with SessionNotFound, and after signout its token fails with SessionNotFound while the signup token still returns user 0 (the final two results are the ensures; the rest are verified assertions) |

## Left out

- The PostgreSQL store is not modelled: `psqlAuthDatabase`, `NewPSQLAuthDatabase` and `NewPSQLAuthenticator` (database.go:122-236, auther.go:68-77). They do SQL I/O and have no local logic to verify.
- The authenticator runs on the in-memory store only. The `AuthDatabase` interface (database.go:9-17) is not modelled as an abstraction.
- `hash` (auther.go:170-173): PBKDF2 with SHA-1, 4096 iterations and a 32-byte key is a foreign crypto library. It is modelled as an arbitrary deterministic function of password and salt.
- `generateToken` and `generateSalt` (auther.go:175-191) read OS randomness and base64-encode it. The salt and token are parameters, so their error returns (auther.go:94-96, 106-108, 131-133) are not modelled.
- Freshness of tokens is not modelled. The operations do not require a fresh token, because the Go code does not check for one. The lemmas that need unique tokens assume them.
- `subtle.ConstantTimeCompare` (auther.go:125) becomes plain string equality. Its timing guarantee is a side-channel property with no counterpart here.
- `time.Now` and `time.Since` are replaced by one integer reading `now` per call:
  - Signup and Signin read the clock twice for the two session times (auther.go:110, 135).
  - Authenticate reads it at auther.go:153 and again at 157.
  - Go's monotonic-clock readings are not modelled.
  - The saturation of `time.Since` at the 64-bit `Duration` range is not modelled.
- The error checks after `CreateUserSession` (auther.go:111-113, 136-138) are not modelled. The in-memory `CreateUserSession` always returns nil (database.go:87), so the model's `CreateUserSession` has no error result.
- Error message text (`fmt.Errorf`) is not modelled. Only error kinds are kept.
- `IsDisabled` is stored and never read. No operation enforces it.
- Concurrent calls and the check-then-insert race in `Signup` are not modelled. The Go code has no synchronisation.
- Go's `int` for `nextID` and `UserID` is 64 bits wide. Its overflow after 2^63 users is not modelled: IDs are unbounded integers.
- Go's `append` and slice splice may share backing arrays. Lookups return copies of the structs, so no caller can observe this sharing. The fields are modelled as `seq` values that the methods reassign.
- Auther.Scenario: does not state the wrong-password test (auther_test.go:73-88), because with an arbitrary hash the two passwords may hash alike; `AuthSpec.SigninWrongPasswordAfterSignup` states it under that premise.
