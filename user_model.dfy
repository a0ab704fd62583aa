/** The `users` table and the layered authentication logic of `UserModel`:
    lookup, password check, login audit, token issue and registration. */
module UserModel {
  import opened Js

  /** One row of `users`. `password` holds the bcrypt digest. */
  datatype UserRow = UserRow(
    id: nat,
    username: string,
    password: string,
    role: string,
    lastLogin: Option<int>,
    lastIp: Option<string>)

  /** The users table, keyed by its unique `username` column. */
  type Table = map<string, UserRow>

  /** bcrypt as this code uses it: `hash(p)` and `compare(p, digest)`. Salt and cost are not modelled. */
  datatype Hasher = Hasher(hash: string -> string, compare: (string, string) -> bool)

  /** The one guarantee of bcrypt relied on: a password matches its own digest. */
  ghost predicate Sound(h: Hasher)
  {
    forall p :: h.compare(p, h.hash(p))
  }

  /** A collision-free hasher: a digest matches no password but its own. */
  ghost predicate Exact(h: Hasher)
  {
    Sound(h) && forall p, q :: h.compare(p, h.hash(q)) ==> p == q
  }

  /** The claims of the signed JWT: `{id, role}` plus the `iat`/`exp` that `expiresIn: "1h"` adds. */
  datatype Token = Token(id: nat, role: string, iat: int, exp: int)

  const TokenLifetime: int := 3600

  /** What is handed back about a user after login: no password field. */
  datatype UserView = UserView(id: nat, username: string, role: string)

  /** The result of `authenticateUser`. */
  datatype AuthResult = AuthResult(token: Token, role: string, user: UserView)

  /** The result of `createUser`. */
  datatype Created = Created(id: nat, username: string, role: string, message: string)

  /** One row of `SELECT id, username, role, last_login, last_ip FROM users`. */
  datatype LogEntry = LogEntry(id: nat, username: string, role: string, lastLogin: Option<int>, lastIp: Option<string>)

  const UserNotFound := "User tidak ditemukan"
  const WrongPassword := "Password salah"
  const MissingUserFields := "Missing required fields: username, password, role"
  const UserCreated := "User berhasil dibuat"
  /** The driver's error code when the unique key on `username` rejects an insert. */
  const DuplicateEntry := "ER_DUP_ENTRY"

  /** The table's integrity: rows sit under their own username, and ids are unique and
      below the auto-increment counter. */
  ghost predicate WellFormed(rows: Table, nextId: nat)
  {
    && (forall u :: u in rows ==> rows[u].username == u && rows[u].id < nextId)
    && (forall u, v :: u in rows && v in rows && rows[u].id == rows[v].id ==> u == v)
  }

  /** `UPDATE users SET last_login=NOW(), last_ip=? WHERE id=?` applied to a table value. */
  function Stamped(rows: Table, userId: nat, now: int, ip: string): (r: Table)
    ensures r.Keys == rows.Keys
    ensures forall u :: u in r ==>
      && r[u].id == rows[u].id && r[u].username == rows[u].username
      && r[u].password == rows[u].password && r[u].role == rows[u].role
    ensures forall u :: u in r && rows[u].id != userId ==> r[u] == rows[u]
    ensures forall u :: u in r && rows[u].id == userId ==> r[u].lastLogin == Some(now) && r[u].lastIp == Some(ip)
  {
    map u | u in rows :: if rows[u].id == userId then rows[u].(lastLogin := Some(now), lastIp := Some(ip)) else rows[u]
  }

  /** Stamping a user's id touches that user's audit fields and nothing else of the table. */
  lemma StampedTouchesOnlyThatUser(rows: Table, nextId: nat, name: string, now: int, ip: string)
    requires WellFormed(rows, nextId) && name in rows
    ensures WellFormed(Stamped(rows, rows[name].id, now, ip), nextId)
    ensures Stamped(rows, rows[name].id, now, ip) == rows[name := rows[name].(lastLogin := Some(now), lastIp := Some(ip))]
  {
    var r := Stamped(rows, rows[name].id, now, ip);
    var expected := rows[name := rows[name].(lastLogin := Some(now), lastIp := Some(ip))];
    assert forall u :: u in r ==> r[u] == expected[u] by {
      forall u | u in r ensures r[u] == expected[u] {
        if u != name {
          assert rows[u].id != rows[name].id;
        }
      }
    }
    assert r == expected;
  }

  /** `generateToken`: signs the user's id and role, valid for one hour from `now`. */
  function GenerateToken(user: UserRow, now: int): (t: Token)
    ensures t.id == user.id && t.role == user.role
    ensures t.iat == now && t.exp - t.iat == TokenLifetime
  {
    Token(user.id, user.role, now, now + TokenLifetime)
  }

  /** `extractIpAddress`: `x-forwarded-for || socket.remoteAddress || "unknown"`. */
  function ExtractIpAddress(forwardedFor: Option<string>, remoteAddress: Option<string>): (ip: string)
    ensures ip != ""
    ensures !Blank(forwardedFor) ==> ip == forwardedFor.value
    ensures Blank(forwardedFor) && !Blank(remoteAddress) ==> ip == remoteAddress.value
    ensures Blank(forwardedFor) && Blank(remoteAddress) ==> ip == "unknown"
  {
    match OrElse(forwardedFor, remoteAddress)
    case Some(a) => if a == "" then "unknown" else a
    case None => "unknown"
  }

  /** The audit projection of one row: every column but `password`. */
  function LogOf(row: UserRow): (e: LogEntry)
    ensures e.id == row.id && e.username == row.username && e.role == row.role
    ensures e.lastLogin == row.lastLogin && e.lastIp == row.lastIp
  {
    LogEntry(row.id, row.username, row.role, row.lastLogin, row.lastIp)
  }

  /** The user view returned on login: id, username and role only. */
  function ViewOf(row: UserRow): (v: UserView)
    ensures v.id == row.id && v.username == row.username && v.role == row.role
  {
    UserView(row.id, row.username, row.role)
  }

  /** The `users` table behind the shared database handle. */
  class UserStore {
    var rows: Table
    /** The AUTO_INCREMENT counter: the id the next insert receives. */
    var nextId: nat

    ghost predicate Valid()
      reads this
    {
      WellFormed(rows, nextId)
    }

    constructor Load(rows0: Table, nextId0: nat)
      requires WellFormed(rows0, nextId0)
      ensures Valid() && rows == rows0 && nextId == nextId0
    {
      rows := rows0;
      nextId := nextId0;
    }

    /** `findByUsername`: null exactly when no row carries that username. */
    function FindByUsername(username: string): (r: Option<UserRow>)
      reads this
      requires Valid()
      ensures r.None? <==> forall u :: u in rows ==> rows[u].username != username
      ensures r.Some? ==> r.value.username == username && r.value in rows.Values
    {
      if username in rows then Some(rows[username]) else None
    }

    /** `updateLoginInfo`: sets last_login and last_ip of the row with that id. */
    method UpdateLoginInfo(userId: nat, ipAddress: string, now: int, dbError: Option<string>) returns (o: Outcome<()>)
      requires Valid()
      modifies this
      ensures Valid() && nextId == old(nextId)
      ensures dbError.Some? ==> o == Thrown(dbError.value) && rows == old(rows)
      ensures dbError.None? ==> o == Done(()) && rows == Stamped(old(rows), userId, now, ipAddress)
    {
      if dbError.Some? {
        return Thrown(dbError.value);
      }
      rows := Stamped(rows, userId, now, ipAddress);
      o := Done(());
    }

    /** `createUser`: validates, hashes, then inserts. The insert fails with the driver's error
        (`insertError`), or with ER_DUP_ENTRY when the unique key refuses a taken username. */
    method CreateUser(username: Option<string>, password: Option<string>, role: Option<string>, h: Hasher,
                      insertError: Option<string>)
      returns (o: Outcome<Created>)
      requires Valid()
      modifies this
      ensures Valid()
      ensures Blank(username) || Blank(password) || Blank(role) ==>
        o == Thrown(MissingUserFields) && rows == old(rows) && nextId == old(nextId)
      ensures !Blank(username) && !Blank(password) && !Blank(role) && insertError.Some? ==>
        o == Thrown(insertError.value) && rows == old(rows) && nextId == old(nextId)
      ensures !Blank(username) && !Blank(password) && !Blank(role) && insertError.None? && username.value in old(rows) ==>
        o == Thrown(DuplicateEntry) && rows == old(rows) && nextId == old(nextId)
      ensures o.Done? <==>
        !Blank(username) && !Blank(password) && !Blank(role) && insertError.None? && username.value !in old(rows)
      ensures o.Done? ==>
        && o.value == Created(old(nextId), username.value, role.value, UserCreated)
        && rows == old(rows)[username.value := UserRow(old(nextId), username.value, h.hash(password.value), role.value, None, None)]
        && nextId == old(nextId) + 1
    {
      if Blank(username) || Blank(password) || Blank(role) {
        return Thrown(MissingUserFields);
      }
      var digest := h.hash(password.value);
      if insertError.Some? {
        return Thrown(insertError.value);
      }
      if username.value in rows {
        return Thrown(DuplicateEntry);
      }
      var id := nextId;
      rows := rows[username.value := UserRow(id, username.value, digest, role.value, None, None)];
      nextId := nextId + 1;
      o := Done(Created(id, username.value, role.value, UserCreated));
    }

    /** `getAllUserLogs`: one entry per user, without the password column. */
    function GetAllUserLogs(): (logs: map<string, LogEntry>)
      reads this
      requires Valid()
      ensures logs.Keys == rows.Keys
      ensures forall u :: u in logs ==> logs[u] == LogOf(rows[u]) && logs[u].username == u
    {
      map u | u in rows :: LogOf(rows[u])
    }

    /** `authenticateUser`: lookup, then password check, then audit write, then token. */
    method AuthenticateUser(username: string, password: string, ipAddress: string, now: int, h: Hasher,
                            lookupError: Option<string>, auditError: Option<string>)
      returns (o: Outcome<AuthResult>)
      requires Valid()
      modifies this
      ensures Valid() && nextId == old(nextId)
      ensures lookupError.Some? ==> o == Thrown(lookupError.value) && rows == old(rows)
      ensures lookupError.None? && username !in old(rows) ==> o == Thrown(UserNotFound) && rows == old(rows)
      ensures lookupError.None? && username in old(rows) && !h.compare(password, old(rows)[username].password) ==>
        o == Thrown(WrongPassword) && rows == old(rows)
      ensures lookupError.None? && username in old(rows) && h.compare(password, old(rows)[username].password) ==>
        var user := old(rows)[username];
        && (auditError.Some? ==> o == Thrown(auditError.value) && rows == old(rows))
        && (auditError.None? ==>
              && rows == old(rows)[username := user.(lastLogin := Some(now), lastIp := Some(ipAddress))]
              && o == Done(AuthResult(GenerateToken(user, now), user.role, ViewOf(user))))
    {
      if lookupError.Some? {
        return Thrown(lookupError.value);
      }
      var found := FindByUsername(username);
      if found.None? {
        return Thrown(UserNotFound);
      }
      var user := found.value;
      if !h.compare(password, user.password) {
        return Thrown(WrongPassword);
      }
      StampedTouchesOnlyThatUser(rows, nextId, username, now, ipAddress);
      var audit := UpdateLoginInfo(user.id, ipAddress, now, auditError);
      if audit.Thrown? {
        return Thrown(audit.message);
      }
      var token := GenerateToken(user, now);
      o := Done(AuthResult(token, user.role, ViewOf(user)));
    }
  }
}
