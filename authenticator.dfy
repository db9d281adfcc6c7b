/** The authenticator: an object holding the store it runs on, whose four operations are
    short sequences of store calls with an early return on every error. Each method is
    proved against the function of the same name in AuthSpec. The salt, the session token
    and the clock reading are inputs; the password hash is the object's fixed,
    deterministic `hash`. */
module Auther {
  import opened AuthTypes
  import StoreSpec
  import AuthSpec
  import opened Database

  class Authenticator {
    const db: InMemoryAuthDatabase
    const hash: AuthSpec.Hasher

    ghost predicate Valid()
      reads this, db
    {
      db.Valid()
    }

    /** An authenticator over a new, empty in-memory store. */
    constructor (hash: AuthSpec.Hasher)
      ensures Valid() && fresh(db)
      ensures db.Abs() == StoreSpec.Empty && this.hash == hash
    {
      this.hash := hash;
      db := new InMemoryAuthDatabase();
    }

    /** Registers a user and returns the token of its first session. */
    method Signup(fullName: string, username: string, password: string, salt: string,
                  token: string, now: Time) returns (r: Result<string, AuthError>)
      requires Valid()
      modifies db
      ensures Valid()
      ensures Step(db.Abs(), r) == AuthSpec.Signup(old(db.Abs()), hash, fullName, username, password, salt, token, now)
    {
      var existing := db.GetUser(username);
      if existing.Success? {
        return Failure(UsernameTaken);
      }
      var passwordHash := hash(password, salt);
      var added := db.AddUser(username, fullName, passwordHash, salt, false);
      match added {
        case Failure(e) =>
          return Failure(AddUserFailed(e));
        case Success(row) =>
          db.CreateUserSession(token, row.user.id, now, now);
          return Success(token);
      }
    }

    /** Checks the password against the stored hash and returns the token of a new session. */
    method Signin(username: string, password: string, token: string, now: Time)
      returns (r: Result<string, AuthError>)
      requires Valid()
      modifies db
      ensures Valid()
      ensures Step(db.Abs(), r) == AuthSpec.Signin(old(db.Abs()), hash, username, password, token, now)
    {
      var found := db.GetUser(username);
      match found {
        case Failure(e) =>
          return Failure(UsernameLookupFailed(e));
        case Success(row) =>
          var h := hash(password, row.passwordSalt);
          if h != row.passwordHash {
            return Failure(InvalidPassword);
          }
          db.CreateUserSession(token, row.user.id, now, now);
          return Success(token);
      }
    }

    /** Ends the session with the given token. */
    method Signout(token: string) returns (r: Outcome<DbError>)
      requires Valid()
      modifies db
      ensures Valid()
      ensures Step(db.Abs(), r) == AuthSpec.Signout(old(db.Abs()), token)
    {
      r := db.RemoveUserSession(token);
    }

    /** Checks a token: rejects an unknown or expired session, refreshes the last-seen time
        and returns the public part of the session's owner. */
    method Authenticate(token: string, now: Time) returns (r: Result<User, AuthError>)
      requires Valid()
      modifies db
      ensures Valid()
      ensures Step(db.Abs(), r) == AuthSpec.Authenticate(old(db.Abs()), token, now)
    {
      var found := db.GetUserSession(token);
      match found {
        case Failure(e) =>
          return Failure(SessionLookupFailed(e));
        case Success(session) =>
          if AuthSpec.Expired(session, now) {
            return Failure(SessionExpired);
          }
          var touched := db.UpdateUserSessionLastSeenTime(token, now);
          match touched {
            case Fail(e) =>
              return Failure(LastSeenUpdateFailed(e));
            case Pass =>
              var owner := db.GetUserByID(session.userId);
              match owner {
                case Failure(e) =>
                  return Failure(UserRetrievalFailed(e));
                case Success(row) =>
                  return Success(row.user);
              }
          }
      }
    }
  }

  /** Several scenarios of the library's own tests, stated as verified assertions about a new
      authenticator: signin of an unregistered user and signout of an unknown token fail,
      a duplicate signup is refused, signin with the signup password works,
      both tokens authenticate, the empty token does not, and a signed-out token is rejected
      while the signup token still authenticates the first user. */
  method Scenario(hash: AuthSpec.Hasher, now: Time)
    returns (gone: Result<User, AuthError>, still: Result<User, AuthError>)
    ensures gone == Failure(SessionLookupFailed(SessionNotFound))
    ensures still == Success(User(0, "foo", "John Smith"))
  {
    var a := new Authenticator(hash);
    var unknown := a.Signin("foo", "bar", "T0", now);
    assert unknown == Failure(UsernameLookupFailed(UserNotFound));
    var nobody := a.Signout("");
    assert nobody == Fail(SessionNotFound);
    var first := a.Signup("John Smith", "foo", "bar", "salt1", "T1", now);
    assert first == Success("T1");
    var duplicate := a.Signup("John Smith", "foo", "baz", "salt2", "T3", now);
    assert duplicate == Failure(UsernameTaken);
    var second := a.Signin("foo", "bar", "T2", now);
    assert second == Success("T2");
    var user := a.Authenticate("T2", now);
    assert user == Success(User(0, "foo", "John Smith"));
    var empty := a.Authenticate("", now);
    assert empty == Failure(SessionLookupFailed(SessionNotFound));
    var out := a.Signout("T2");
    assert out == Pass;
    gone := a.Authenticate("T2", now);
    still := a.Authenticate("T1", now);
  }
}
