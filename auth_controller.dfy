/** The routed auth handlers: an older copy of the login and registration logic that
    queries the `users` table directly instead of going through `UserModel`. */
module AuthController {
  import opened Js
  import opened Http
  import opened UserModel

  /** The login reply `{token, role}`. */
  datatype LoginBody = LoginBody(token: Token, role: string)

  /** The registration reply `{message, id}`. */
  datatype Registered = Registered(message: string, id: nat)

  const IncompleteData := "Data tidak lengkap"

  /** `login`: lookup, password check, an audit write it does not wait for, then the token. */
  method Login(store: UserStore, username: Option<string>, password: Option<string>,
               forwardedFor: Option<string>, remoteAddress: Option<string>, now: int, h: Hasher,
               lookupError: Option<string>, auditError: Option<string>)
    returns (resp: Response<LoginBody>)
    requires store.Valid()
    modifies store
    ensures store.Valid() && store.nextId == old(store.nextId)
    ensures lookupError.Some? ==> resp == RawError(500, lookupError.value) && store.rows == old(store.rows)
    ensures lookupError.None? && (username.None? || username.value !in old(store.rows)) ==>
      resp == Message(401, UserNotFound) && store.rows == old(store.rows)
    ensures lookupError.None? && username.Some? && username.value in old(store.rows) ==>
      var user := old(store.rows)[username.value];
      && (password.None? ==> resp == NoResponse && store.rows == old(store.rows))
      && (password.Some? && !h.compare(password.value, user.password) ==>
            resp == Message(401, WrongPassword) && store.rows == old(store.rows))
      && (password.Some? && h.compare(password.value, user.password) ==>
            && resp == Json(200, LoginBody(GenerateToken(user, now), user.role))
            && (auditError.Some? ==> store.rows == old(store.rows))
            && (auditError.None? ==>
                  var ip := ExtractIpAddress(forwardedFor, remoteAddress);
                  store.rows == old(store.rows)[username.value := user.(lastLogin := Some(now), lastIp := Some(ip))]))
  {
    if lookupError.Some? {
      return RawError(500, lookupError.value);
    }
    // `WHERE username = NULL` matches no row when the field is missing.
    if username.None? || username.value !in store.rows {
      return Message(401, UserNotFound);
    }
    var user := store.rows[username.value];
    if password.None? {
      // bcrypt.compare rejects inside the query callback and nothing answers the request; the
      // rejection is unhandled, which by default ends the process on Node 15 and later.
      return NoResponse;
    }
    if !h.compare(password.value, user.password) {
      return Message(401, WrongPassword);
    }
    var ip := ExtractIpAddress(forwardedFor, remoteAddress);
    if auditError.None? {
      StampedTouchesOnlyThatUser(store.rows, store.nextId, username.value, now, ip);
      store.rows := Stamped(store.rows, user.id, now, ip);
    }
    var token := GenerateToken(user, now);
    resp := Json(200, LoginBody(token, user.role));
  }

  /** `register`: field check, hash, insert; any insert error, a duplicate included, is answered with 500. */
  method Register(store: UserStore, username: Option<string>, password: Option<string>, role: Option<string>, h: Hasher,
                  insertError: Option<string>)
    returns (resp: Response<Registered>)
    requires store.Valid()
    modifies store
    ensures store.Valid()
    ensures Blank(username) || Blank(password) || Blank(role) ==>
      resp == Message(400, IncompleteData) && store.rows == old(store.rows) && store.nextId == old(store.nextId)
    ensures !Blank(username) && !Blank(password) && !Blank(role) && insertError.Some? ==>
      resp == RawError(500, insertError.value) && store.rows == old(store.rows) && store.nextId == old(store.nextId)
    ensures !Blank(username) && !Blank(password) && !Blank(role) && insertError.None? && username.value in old(store.rows) ==>
      resp == RawError(500, DuplicateEntry) && store.rows == old(store.rows) && store.nextId == old(store.nextId)
    ensures !Blank(username) && !Blank(password) && !Blank(role) && insertError.None? && username.value !in old(store.rows) ==>
      && resp == Json(200, Registered(UserCreated, old(store.nextId)))
      && store.rows == old(store.rows)[username.value :=
           UserRow(old(store.nextId), username.value, h.hash(password.value), role.value, None, None)]
      && store.nextId == old(store.nextId) + 1
  {
    if Blank(username) || Blank(password) || Blank(role) {
      return Message(400, IncompleteData);
    }
    var digest := h.hash(password.value);
    if insertError.Some? {
      return RawError(500, insertError.value);
    }
    if username.value in store.rows {
      return RawError(500, DuplicateEntry);
    }
    var id := store.nextId;
    store.rows := store.rows[username.value := UserRow(id, username.value, digest, role.value, None, None)];
    store.nextId := store.nextId + 1;
    resp := Json(200, Registered(UserCreated, id));
  }

  /** `getLogs`: the audit projection, or the driver's error with 500. */
  function GetLogs(store: UserStore, queryError: Option<string>): (resp: Response<map<string, LogEntry>>)
    reads store
    requires store.Valid()
    ensures queryError.Some? ==> resp == RawError(500, queryError.value)
    ensures queryError.None? ==> resp.Json? && resp.status == 200 && resp.body == store.GetAllUserLogs()
  {
    if queryError.Some? then RawError(500, queryError.value) else Json(200, store.GetAllUserLogs())
  }

  /** Without faults the two copies of login agree: the same table afterwards, and each model
      outcome maps to one reply (a throw to a 401 with its message, a result to `{token, role}`). */
  method LoginCopiesAgree(rows: Table, nextId: nat, username: string, password: string,
                          forwardedFor: Option<string>, remoteAddress: Option<string>, now: int, h: Hasher)
    returns (modelOutcome: Outcome<AuthResult>, reply: Response<LoginBody>, modelRows: Table, routedRows: Table)
    requires WellFormed(rows, nextId)
    ensures modelRows == routedRows
    ensures modelOutcome.Thrown? <==> reply.Message?
    ensures modelOutcome.Thrown? ==>
      && reply == Message(401, modelOutcome.message)
      && modelOutcome.message in {UserNotFound, WrongPassword}
      && modelRows == rows
    ensures modelOutcome.Done? ==> reply == Json(200, LoginBody(modelOutcome.value.token, modelOutcome.value.role))
  {
    var ip := ExtractIpAddress(forwardedFor, remoteAddress);
    var layered := new UserStore.Load(rows, nextId);
    modelOutcome := layered.AuthenticateUser(username, password, ip, now, h, None, None);
    var routed := new UserStore.Load(rows, nextId);
    reply := Login(routed, Some(username), Some(password), forwardedFor, remoteAddress, now, h, None, None);
    modelRows, routedRows := layered.rows, routed.rows;
  }

  /** Where the copies part: when the audit write fails the model (which awaits it) rejects the
      login, while the routed handler (which never waits for it) still answers 200 with a token. */
  method AuditFailureSplitsCopies(rows: Table, nextId: nat, username: string, password: string,
                                  forwardedFor: Option<string>, remoteAddress: Option<string>, now: int, h: Hasher,
                                  auditFailure: string)
    returns (modelOutcome: Outcome<AuthResult>, reply: Response<LoginBody>)
    requires WellFormed(rows, nextId)
    requires username in rows && h.compare(password, rows[username].password)
    ensures modelOutcome == Thrown(auditFailure)
    ensures reply == Json(200, LoginBody(GenerateToken(rows[username], now), rows[username].role))
  {
    var ip := ExtractIpAddress(forwardedFor, remoteAddress);
    var layered := new UserStore.Load(rows, nextId);
    modelOutcome := layered.AuthenticateUser(username, password, ip, now, h, None, Some(auditFailure));
    var routed := new UserStore.Load(rows, nextId);
    reply := Login(routed, Some(username), Some(password), forwardedFor, remoteAddress, now, h, None, Some(auditFailure));
  }

  /** The two copies of registration: the same insert, but the routed handler answers
      `{message, id}` with 200, "Data tidak lengkap" with 400, and every insert error, a
      duplicate included, with 500 and the driver's error. */
  method RegisterCopiesDiffer(rows: Table, nextId: nat, username: Option<string>, password: Option<string>,
                              role: Option<string>, h: Hasher, insertError: Option<string>)
    returns (modelOutcome: Outcome<Created>, reply: Response<Registered>, modelRows: Table, routedRows: Table)
    requires WellFormed(rows, nextId)
    ensures modelRows == routedRows
    ensures reply == Message(400, IncompleteData) <==> Blank(username) || Blank(password) || Blank(role)
    ensures reply == Message(400, IncompleteData) ==> modelOutcome == Thrown(MissingUserFields)
    ensures modelOutcome.Thrown? ==> reply == Message(400, IncompleteData) || reply == RawError(500, modelOutcome.message)
    ensures reply.RawError? ==> modelOutcome == Thrown(reply.driverError) && modelRows == rows
    ensures modelOutcome.Done? <==> reply.Json?
    ensures modelOutcome.Done? ==> reply == Json(200, Registered(modelOutcome.value.message, modelOutcome.value.id))
  {
    var layered := new UserStore.Load(rows, nextId);
    modelOutcome := layered.CreateUser(username, password, role, h, insertError);
    var routed := new UserStore.Load(rows, nextId);
    reply := Register(routed, username, password, role, h, insertError);
    modelRows, routedRows := layered.rows, routed.rows;
  }

  /** Without driver errors, registration followed by login with the same password succeeds
      with the registered role, a fresh id and a one-hour token; the audit fields of the new row
      are set. */
  method RegisterThenLogin(rows: Table, nextId: nat, username: string, password: string, role: string,
                           forwardedFor: Option<string>, remoteAddress: Option<string>, now: int, h: Hasher)
    returns (registered: Response<Registered>, reply: Response<LoginBody>, after: Table)
    requires WellFormed(rows, nextId) && Sound(h)
    requires username != "" && password != "" && role != "" && username !in rows
    ensures registered == Json(200, Registered(UserCreated, nextId))
    ensures reply == Json(200, LoginBody(Token(nextId, role, now, now + TokenLifetime), role))
    ensures username in after && after[username].lastLogin == Some(now)
    ensures after[username].lastIp == Some(ExtractIpAddress(forwardedFor, remoteAddress))
  {
    var store := new UserStore.Load(rows, nextId);
    registered := Register(store, Some(username), Some(password), Some(role), h, None);
    reply := Login(store, Some(username), Some(password), forwardedFor, remoteAddress, now, h, None, None);
    after := store.rows;
  }

  /** Without driver errors and with a collision-free hasher, a registered user cannot log in
      with any other password, and the table is left as registration made it. */
  method RegisterThenWrongPassword(rows: Table, nextId: nat, username: string, password: string, other: string,
                                   role: string, forwardedFor: Option<string>, remoteAddress: Option<string>,
                                   now: int, h: Hasher)
    returns (reply: Response<LoginBody>, after: Table)
    requires WellFormed(rows, nextId) && Exact(h)
    requires username != "" && password != "" && role != "" && username !in rows && other != password
    ensures reply == Message(401, WrongPassword)
    ensures after == rows[username := UserRow(nextId, username, h.hash(password), role, None, None)]
  {
    var store := new UserStore.Load(rows, nextId);
    var _ := Register(store, Some(username), Some(password), Some(role), h, None);
    reply := Login(store, Some(username), Some(other), forwardedFor, remoteAddress, now, h, None, None);
    after := store.rows;
  }
}
