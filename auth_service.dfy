/** Accounts and sessions (road-trip-backend/src/services/auth_service.rs,
    with the password helpers of road-trip-backend/src/utils/password.rs).
    Argon2 is replaced by a reversible stand-in that keeps the one fact the
    code relies on: a hash verifies against its own password and no other.
    The session token, ids and the clock are parameters. */
module AuthService {
  import opened Wrappers
  import opened Text
  import opened BackendTables

  const EmailTaken: string := "User with this email already exists"
  const InvalidCredentials: string := "Invalid email or password"
  const InvalidSession: string := "Invalid or expired session"
  const UserNotFound: string := "User not found"
  const BadHashFormat: string := "Invalid password hash format"

  /** Seven days, in seconds. */
  const SessionLifetime: nat := 7 * 86400

  /** The start of every stored hash. */
  const HashPrefix: string := "$argon2id$"

  /** `hash_password`, up to the salt. */
  function Hash(password: string): (h: string)
    ensures StartsWith(h, HashPrefix) && h != password
  {
    assert |HashPrefix + password| != |password|;
    HashPrefix + password
  }

  /** `verify_password`: a string that is not a hash is an error; otherwise
      whether the hash was made from `password`. */
  function VerifyPassword(password: string, hash: string): (r: Result<bool, string>)
    ensures r.Err? <==> !StartsWith(hash, HashPrefix)
    ensures r.Err? ==> r.error == BadHashFormat
  {
    if !StartsWith(hash, HashPrefix) then Err(BadHashFormat) else Ok(hash == Hash(password))
  }

  /** The fact the code relies on: the right password verifies, any other
      does not. */
  lemma HashVerifies(p: string, q: string)
    ensures VerifyPassword(p, Hash(p)) == Ok(true)
    ensures p != q ==> VerifyPassword(q, Hash(p)) == Ok(false)
  {
    if p != q {
      assert Hash(p)[|HashPrefix|..] == p;
      assert Hash(q)[|HashPrefix|..] == q;
    }
  }

  function UserEmail(u: UserRow): string {
    u.email
  }

  /** The row `register` inserts: the hash, not the password, and no avatar. */
  function NewUser(id: Uuid, name: string, email: string, password: string, now: int): UserRow {
    UserRow(id, name, email, Hash(password), None, now, now)
  }

  /** `register`: the user table afterwards and the new user. */
  function Registered(users: seq<UserRow>, name: string, email: string, password: string, freshId: Uuid, now: int)
    : (r: Result<(seq<UserRow>, UserRow), string>)
    ensures !KeyFree(users, UserEmail, email) ==> r == Err(EmailTaken)
    ensures KeyFree(users, UserEmail, email) && !KeyFree(users, UserId, freshId) ==> r == Err(DbError)
    ensures r.Ok? <==> KeyFree(users, UserEmail, email) && KeyFree(users, UserId, freshId)
    ensures r.Ok? ==> (
      && r.value.1 == NewUser(freshId, name, email, password, now)
      && r.value.0 == users + [r.value.1]
      && r.value.1.passwordHash != password && r.value.1.avatar.None?)
  {
    if !KeyFree(users, UserEmail, email) then Err(EmailTaken)
    else
      var user := NewUser(freshId, name, email, password, now);
      var inserted := InsertRow(users, user, UserId);
      if inserted.Err? then Err(inserted.error) else Ok((inserted.value, user))
  }

  /** The row `login` inserts. */
  function NewSession(id: Uuid, token: string, userId: Uuid, now: int): SessionRow {
    SessionRow(id, token, userId, now + SessionLifetime, now)
  }

  /** `login`: the session table afterwards, the user and the token. The
      first user with the e-mail is the one checked; an unknown e-mail and
      a wrong password give the same error. */
  function LoggedIn(users: seq<UserRow>, sessions: seq<SessionRow>, email: string, password: string,
                    freshId: Uuid, token: string, now: int)
    : (r: Result<(seq<SessionRow>, UserRow, string), string>)
    ensures KeyFree(users, UserEmail, email) ==> r == Err(InvalidCredentials)
    ensures r.Ok? ==> (
      && var user := users[IndexOf(users, UserEmail, email)];
      && VerifyPassword(password, user.passwordHash) == Ok(true)
      && r.value == (sessions + [NewSession(freshId, token, user.id, now)], user, token))
    ensures r.Err? && !KeyFree(users, UserEmail, email) ==>
      var user := users[IndexOf(users, UserEmail, email)];
      || VerifyPassword(password, user.passwordHash) != Ok(true)
      || !KeyFree(sessions, SessionId, freshId) || !KeyFree(sessions, SessionToken, token)
  {
    var i := IndexOf(users, UserEmail, email);
    if i == |users| then Err(InvalidCredentials)
    else
      var user := users[i];
      var valid := VerifyPassword(password, user.passwordHash);
      if valid.Err? then Err(valid.error)
      else if !valid.value then Err(InvalidCredentials)
      else if !KeyFree(sessions, SessionId, freshId) || !KeyFree(sessions, SessionToken, token) then Err(DbError)
      else Ok((sessions + [NewSession(freshId, token, user.id, now)], user, token))
  }

  /** `get_user_by_id`. */
  function FindUser(users: seq<UserRow>, userId: Uuid): (r: Result<UserRow, string>)
    ensures r.Ok? <==> !KeyFree(users, UserId, userId)
    ensures r.Ok? ==> r.value in users && r.value.id == userId
    ensures r.Err? ==> r.error == UserNotFound
  {
    var i := IndexOf(users, UserId, userId);
    if i == |users| then Err(UserNotFound) else Ok(users[i])
  }

  /** `validate_session`: the session with the token must not have expired
      (`expires_at > now`), and its user must exist. Tokens are unique, so
      the session with the token is the first one. */
  function SessionUser(users: seq<UserRow>, sessions: seq<SessionRow>, token: string, now: int)
    : (r: Result<UserRow, string>)
    ensures KeyFree(sessions, SessionToken, token) ==> r == Err(InvalidSession)
    ensures !KeyFree(sessions, SessionToken, token) ==>
      var s := sessions[IndexOf(sessions, SessionToken, token)];
      r == if s.expiresAt <= now then Err(InvalidSession) else FindUser(users, s.userId)
  {
    var i := IndexOf(sessions, SessionToken, token);
    if i == |sessions| || sessions[i].expiresAt <= now then Err(InvalidSession)
    else FindUser(users, sessions[i].userId)
  }

  /** `logout`: the session with the token is deleted, if there is one. */
  function AfterLogout(sessions: seq<SessionRow>, token: string): (r: seq<SessionRow>)
    ensures KeyFree(sessions, SessionToken, token) ==> r == sessions
    ensures !KeyFree(sessions, SessionToken, token) ==>
      r == DeleteWhere(sessions, (s: SessionRow) => s.id == sessions[IndexOf(sessions, SessionToken, token)].id)
  {
    var i := IndexOf(sessions, SessionToken, token);
    if i == |sessions| then sessions
    else
      var id := sessions[i].id;
      DeleteWhere(sessions, (s: SessionRow) => s.id == id)
  }

  /** Register then log in: the same e-mail and password succeed and give
      back the new user; any other password is refused. */
  lemma RegisterThenLogin(users: seq<UserRow>, sessions: seq<SessionRow>, name: string, email: string, password: string,
                          other: string, userId: Uuid, sessionId: Uuid, token: string, now: int, later: int)
    requires Registered(users, name, email, password, userId, now).Ok?
    requires KeyFree(sessions, SessionId, sessionId) && KeyFree(sessions, SessionToken, token)
    requires other != password
    ensures var (after, user) := Registered(users, name, email, password, userId, now).value;
      && LoggedIn(after, sessions, email, password, sessionId, token, later).Ok?
      && LoggedIn(after, sessions, email, password, sessionId, token, later).value.1 == user
      && LoggedIn(after, sessions, email, other, sessionId, token, later) == Err(InvalidCredentials)
  {
    var (after, user) := Registered(users, name, email, password, userId, now).value;
    assert after[|users|] == user;
    assert IndexOf(after, UserEmail, email) == |users| by {
      assert forall k :: 0 <= k < |users| ==> after[k] == users[k];
    }
    HashVerifies(password, other);
  }

  /** A session made by `login` validates exactly until it expires, seven
      days after the login. */
  lemma LoginSessionLifetime(users: seq<UserRow>, sessions: seq<SessionRow>, email: string, password: string,
                             sessionId: Uuid, token: string, now: int, t: int)
    requires UniqueBy(users, UserId)
    requires LoggedIn(users, sessions, email, password, sessionId, token, now).Ok?
    ensures var (after, user, _) := LoggedIn(users, sessions, email, password, sessionId, token, now).value;
      && (t < now + SessionLifetime ==> SessionUser(users, after, token, t) == Ok(user))
      && (t >= now + SessionLifetime ==> SessionUser(users, after, token, t) == Err(InvalidSession))
  {
    var (after, user, _) := LoggedIn(users, sessions, email, password, sessionId, token, now).value;
    assert after[|sessions|] == NewSession(sessionId, token, user.id, now);
    assert IndexOf(after, SessionToken, token) == |sessions| by {
      assert forall k :: 0 <= k < |sessions| ==> after[k] == sessions[k];
    }
    var i := IndexOf(users, UserEmail, email);
    IndexOfUnique(users, UserId, user.id, i);
  }

  /** After logging out, the token no longer validates. */
  lemma LogoutEndsSession(users: seq<UserRow>, sessions: seq<SessionRow>, token: string, now: int)
    requires UniqueBy(sessions, SessionToken)
    ensures SessionUser(users, AfterLogout(sessions, token), token, now) == Err(InvalidSession)
  {
    var after := AfterLogout(sessions, token);
    if !KeyFree(sessions, SessionToken, token) {
      var i := IndexOf(sessions, SessionToken, token);
      forall k | 0 <= k < |after| ensures after[k].sessionToken != token {
        var j :| 0 <= j < |sessions| && sessions[j] == after[k];
        assert sessions[j].id != sessions[i].id;
      }
    }
  }

  class AuthService {
    const db: Database

    constructor (db: Database)
      ensures this.db == db
    {
      this.db := db;
    }

    /** `register`, with `freshId` for the new user. */
    method Register(name: string, email: string, password: string, freshId: Uuid, now: int) returns (r: Result<UserRow, string>)
      requires db.Valid()
      modifies db
      ensures db.Valid()
      ensures var after := Registered(old(db.users), name, email, password, freshId, now);
        && (after.Err? ==> r == Err(after.error) && db.Snapshot() == old(db.Snapshot()))
        && (after.Ok? ==> r == Ok(after.value.1) && db.Snapshot() == old(db.Snapshot()).(users := after.value.0))
    {
      var after := Registered(db.users, name, email, password, freshId, now);
      if after.Err? {
        return Err(after.error);
      }
      db.users := after.value.0;
      r := Ok(after.value.1);
    }

    /** `login`, with `freshId` and `token` for the new session. */
    method Login(email: string, password: string, freshId: Uuid, token: string, now: int)
      returns (r: Result<(UserRow, string), string>)
      requires db.Valid()
      modifies db
      ensures db.Valid()
      ensures var after := LoggedIn(old(db.users), old(db.sessions), email, password, freshId, token, now);
        && (after.Err? ==> r == Err(after.error) && db.Snapshot() == old(db.Snapshot()))
        && (after.Ok? ==> r == Ok((after.value.1, after.value.2)) && db.Snapshot() == old(db.Snapshot()).(sessions := after.value.0))
    {
      var after := LoggedIn(db.users, db.sessions, email, password, freshId, token, now);
      if after.Err? {
        return Err(after.error);
      }
      var row := NewSession(freshId, token, after.value.1.id, now);
      AppendKeepsUnique(db.sessions, row, SessionId);
      AppendKeepsUnique(db.sessions, row, SessionToken);
      db.sessions := after.value.0;
      r := Ok((after.value.1, after.value.2));
    }

    /** `validate_session`. */
    method ValidateSession(token: string, now: int) returns (r: Result<UserRow, string>)
      ensures r == SessionUser(db.users, db.sessions, token, now)
    {
      r := SessionUser(db.users, db.sessions, token, now);
    }

    /** `logout`: succeeds whether or not the token had a session. */
    method Logout(token: string)
      requires db.Valid()
      modifies db
      ensures db.Valid()
      ensures db.Snapshot() == old(db.Snapshot()).(sessions := AfterLogout(old(db.sessions), token))
    {
      var i := IndexOf(db.sessions, SessionToken, token);
      if i < |db.sessions| {
        var id := db.sessions[i].id;
        DeleteKeepsUnique(db.sessions, (s: SessionRow) => s.id == id, SessionId);
        DeleteKeepsUnique(db.sessions, (s: SessionRow) => s.id == id, SessionToken);
      }
      db.sessions := AfterLogout(db.sessions, token);
    }

    /** `get_user_by_id`. */
    method GetUserById(userId: Uuid) returns (r: Result<UserRow, string>)
      ensures r == FindUser(db.users, userId)
    {
      r := FindUser(db.users, userId);
    }
  }
}
