/** The in-memory store as an object: a counter and two lists that its methods update
    in place; every operation but CreateUserSession, a plain append, is a loop over a
    list with an early return. Every method is
    proved against the function of the same name in StoreSpec. */
module Database {
  import opened AuthTypes
  import StoreSpec

  class InMemoryAuthDatabase {
    var nextId: int
    var users: seq<UserRow>
    var userSessions: seq<UserSession>

    /** The store's contents as a value. */
    function Abs(): Store
      reads this
    {
      Store(nextId, users, userSessions)
    }

    ghost predicate Valid()
      reads this
    {
      StoreSpec.Valid(Abs())
    }

    /** A new, empty store: IDs start at zero. */
    constructor ()
      ensures Valid()
      ensures Abs() == StoreSpec.Empty
    {
      nextId := 0;
      users := [];
      userSessions := [];
    }

    /** Rejects a username that some row already has; otherwise appends a row
        under the next ID and advances the counter. */
    method AddUser(username: string, fullName: string, passwordHash: string,
                   passwordSalt: string, isDisabled: bool) returns (r: Result<UserRow, DbError>)
      requires Valid()
      modifies this
      ensures Valid()
      ensures Step(Abs(), r) == StoreSpec.AddUser(old(Abs()), username, fullName, passwordHash, passwordSalt, isDisabled)
    {
      var i := 0;
      while i < |users|
        invariant 0 <= i <= |users|
        invariant forall k :: 0 <= k < i ==> users[k].user.username != username
      {
        if users[i].user.username == username {
          return Failure(UsernameInUse);
        }
        i := i + 1;
      }
      var row := UserRow(User(nextId, username, fullName), passwordHash, passwordSalt, isDisabled);
      users := users + [row];
      nextId := nextId + 1;
      return Success(row);
    }

    /** The first row with the given username. */
    method GetUser(username: string) returns (r: Result<UserRow, DbError>)
      ensures r == StoreSpec.GetUser(Abs(), username)
    {
      var i := 0;
      while i < |users|
        invariant 0 <= i <= |users|
        invariant forall k :: 0 <= k < i ==> users[k].user.username != username
      {
        if users[i].user.username == username {
          return Success(users[i]);
        }
        i := i + 1;
      }
      return Failure(UserNotFound);
    }

    /** The first row with the given ID. */
    method GetUserByID(id: UserId) returns (r: Result<UserRow, DbError>)
      ensures r == StoreSpec.GetUserByID(Abs(), id)
    {
      var i := 0;
      while i < |users|
        invariant 0 <= i <= |users|
        invariant forall k :: 0 <= k < i ==> users[k].user.id != id
      {
        if users[i].user.id == id {
          return Success(users[i]);
        }
        i := i + 1;
      }
      return Failure(UserNotFound);
    }

    /** Appends a session without looking at the sessions already stored. */
    method CreateUserSession(token: string, userId: UserId, loginTime: Time, lastSeenTime: Time)
      requires Valid()
      modifies this
      ensures Valid()
      ensures Abs() == StoreSpec.CreateUserSession(old(Abs()), token, userId, loginTime, lastSeenTime)
    {
      userSessions := userSessions + [UserSession(token, userId, loginTime, lastSeenTime)];
    }

    /** The first session with the given token. */
    method GetUserSession(token: string) returns (r: Result<UserSession, DbError>)
      ensures r == StoreSpec.GetUserSession(Abs(), token)
    {
      var i := 0;
      while i < |userSessions|
        invariant 0 <= i <= |userSessions|
        invariant forall k :: 0 <= k < i ==> userSessions[k].sessionKey != token
      {
        if userSessions[i].sessionKey == token {
          return Success(userSessions[i]);
        }
        i := i + 1;
      }
      return Failure(SessionNotFound);
    }

    /** Writes the last-seen time of the first session with the given token. */
    method UpdateUserSessionLastSeenTime(token: string, lastSeenTime: Time) returns (r: Outcome<DbError>)
      requires Valid()
      modifies this
      ensures Valid()
      ensures Step(Abs(), r) == StoreSpec.UpdateUserSessionLastSeenTime(old(Abs()), token, lastSeenTime)
    {
      var i := 0;
      while i < |userSessions|
        invariant 0 <= i <= |userSessions|
        invariant forall k :: 0 <= k < i ==> userSessions[k].sessionKey != token
      {
        if userSessions[i].sessionKey == token {
          userSessions := userSessions[i := userSessions[i].(lastSeenTime := lastSeenTime)];
          return Pass;
        }
        i := i + 1;
      }
      return Fail(SessionNotFound);
    }

    /** Splices the first session with the given token out of the list. */
    method RemoveUserSession(token: string) returns (r: Outcome<DbError>)
      requires Valid()
      modifies this
      ensures Valid()
      ensures Step(Abs(), r) == StoreSpec.RemoveUserSession(old(Abs()), token)
    {
      var i := 0;
      while i < |userSessions|
        invariant 0 <= i <= |userSessions|
        invariant forall k :: 0 <= k < i ==> userSessions[k].sessionKey != token
      {
        if userSessions[i].sessionKey == token {
          userSessions := userSessions[..i] + userSessions[i + 1..];
          return Pass;
        }
        i := i + 1;
      }
      return Fail(SessionNotFound);
    }
  }
}
