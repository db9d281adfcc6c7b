/** The shared types of the authentication library: the public user record,
    the stored user row with its credential material, the session record,
    the session expiry window and the error kinds. */
module AuthTypes {

  /** Users are identified by an integer; the in-memory store numbers them 0, 1, 2, ... */
  type UserId = int

  /** Wall-clock instants, in nanoseconds since a fixed epoch. */
  type Time = int

  /** One hour, in nanoseconds. */
  const Hour: int := 3_600_000_000_000

  /** A session is rejected once its age since login exceeds fourteen days. */
  const SessionExpiry: int := 14 * 24 * Hour

  /** The public part of a user: never carries credential material. */
  datatype User = User(id: UserId, username: string, fullName: string)

  /** A stored user: the public part plus password hash, salt and the (unused) disabled flag. */
  datatype UserRow = UserRow(user: User, passwordHash: string, passwordSalt: string, isDisabled: bool)

  /** A logged-in session, keyed by its bearer token. */
  datatype UserSession = UserSession(sessionKey: string, userId: UserId, loginTime: Time, lastSeenTime: Time)

  datatype Option<T> = None | Some(value: T)

  datatype Result<T, E> = Success(value: T) | Failure(error: E)

  /** The result of an operation that returns nothing but may fail. */
  datatype Outcome<E> = Pass | Fail(error: E)

  /** The errors the in-memory store reports. */
  datatype DbError =
    | UsernameInUse     // AddUser: some row already has the username
    | UserNotFound      // GetUser, GetUserByID: no row matches
    | SessionNotFound   // GetUserSession, UpdateUserSessionLastSeenTime, RemoveUserSession

  /** The errors the authenticator reports; a store error it wraps is kept as the cause. */
  datatype AuthError =
    | UsernameTaken                          // Signup: the username is already registered
    | AddUserFailed(cause: DbError)          // Signup: the store refused the new user
    | UsernameLookupFailed(cause: DbError)   // Signin: the username is not registered
    | InvalidPassword                        // Signin: the password does not match
    | SessionLookupFailed(cause: DbError)    // Authenticate: no session has the token
    | SessionExpired                         // Authenticate: the session is older than SessionExpiry
    | LastSeenUpdateFailed(cause: DbError)   // Authenticate: the last-seen time could not be stored
    | UserRetrievalFailed(cause: DbError)    // Authenticate: the session's owner is not in the store

  /** The state of the store after an operation, together with what the operation returned. */
  datatype Step<R> = Step(next: Store, result: R)

  /** The contents of the in-memory store: the next user ID to hand out, the user rows and the sessions. */
  datatype Store = Store(nextId: int, users: seq<UserRow>, sessions: seq<UserSession>)
}
