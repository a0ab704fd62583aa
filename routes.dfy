/** The access policy as the three routers declare it: for each verb and path, the handler and
    either no gate or the list of roles `verifyToken` lets through. The middleware itself is not
    part of this model; a gate is read as "the token's role is in the list". */
module Routes {
  import opened Js
  import opened UserModel
  import AuthController

  datatype Verb = Get | Post

  /** No middleware, or `verifyToken(roles)`. */
  datatype Gate = Open | AllowOnly(roles: seq<string>)

  /** The controller function a route hands the request to. */
  datatype Handler =
    | Login | Register | GetLogs
    | GetDistance1 | GetDistance2 | GetAllDistances | PostDistance1 | PostDistance2
    | GetControlStatus | UpdateControlStatus

  datatype Route = Route(verb: Verb, path: string, gate: Gate, handler: Handler)

  const SuperAdmin := "super-admin"
  const AdminDistance1 := "admin-distance1"
  const AdminDistance2 := "admin-distance2"

  /** Where `server.js` mounts each router. */
  const AuthMount := "/api/auth"
  const DistanceMount := "/api/distance"
  const ControlMount := "/api/control"

  const AuthRouter: seq<Route> := [
    Route(Post, "/login", Open, Login),
    Route(Post, "/register", Open, Register),
    Route(Get, "/logs", AllowOnly([SuperAdmin]), GetLogs)
  ]

  const DistanceRouter: seq<Route> := [
    Route(Get, "/1", AllowOnly([AdminDistance1, SuperAdmin]), GetDistance1),
    Route(Get, "/2", AllowOnly([AdminDistance2, SuperAdmin]), GetDistance2),
    Route(Get, "/all", AllowOnly([SuperAdmin]), GetAllDistances),
    Route(Post, "/1", Open, PostDistance1),
    Route(Post, "/2", Open, PostDistance2)
  ]

  const ControlRouter: seq<Route> := [
    Route(Get, "/", Open, GetControlStatus),
    Route(Post, "/", AllowOnly([SuperAdmin]), UpdateControlStatus)
  ]

  /** The router mounted at a prefix; any other prefix reaches none of them. */
  function RouterAt(mount: string): (r: seq<Route>)
    ensures mount == AuthMount ==> r == AuthRouter
    ensures mount == DistanceMount ==> r == DistanceRouter
    ensures mount == ControlMount ==> r == ControlRouter
    ensures mount !in {AuthMount, DistanceMount, ControlMount} ==> r == []
  {
    if mount == AuthMount then AuthRouter
    else if mount == DistanceMount then DistanceRouter
    else if mount == ControlMount then ControlRouter
    else []
  }

  /** Express's dispatch within a router: the first route registered for the verb and path. */
  function Match(router: seq<Route>, verb: Verb, path: string): (m: Option<Route>)
    ensures m.None? <==> forall i :: 0 <= i < |router| ==> router[i].verb != verb || router[i].path != path
    ensures m.Some? ==> m.value in router && m.value.verb == verb && m.value.path == path
    ensures m.Some? ==> exists i :: 0 <= i < |router| && router[i] == m.value
                         && forall j :: 0 <= j < i ==> router[j].verb != verb || router[j].path != path
  {
    if router == [] then None
    else if router[0].verb == verb && router[0].path == path then Some(router[0])
    else
      var rest := Match(router[1..], verb, path);
      if rest.Some? then
        ghost var i :| 0 <= i < |router[1..]| && router[1..][i] == rest.value
          && forall j :: 0 <= j < i ==> router[1..][j].verb != verb || router[1..][j].path != path;
        assert router[i + 1] == rest.value;
        rest
      else rest
  }

  /** A route with no earlier route for the same verb and path is the one dispatched. */
  lemma {:induction false} MatchIsFirst(router: seq<Route>, verb: Verb, path: string, i: nat)
    requires i < |router| && router[i].verb == verb && router[i].path == path
    requires forall j :: 0 <= j < i ==> router[j].verb != verb || router[j].path != path
    ensures Match(router, verb, path) == Some(router[i])
  {
    if i > 0 {
      MatchIsFirst(router[1..], verb, path, i - 1);
    }
  }

  /** The middleware's decision, assuming `verifyToken` only checks that the token's role is in
      the list; `None` is a request without a valid token. */
  predicate Admits(gate: Gate, role: Option<string>)
  {
    gate.Open? || (role.Some? && role.value in gate.roles)
  }

  /** Whether a request for `mount + path` reaches a handler. */
  predicate Reaches(mount: string, verb: Verb, path: string, role: Option<string>)
  {
    var m := Match(RouterAt(mount), verb, path);
    m.Some? && Admits(m.value.gate, role)
  }

  /** Login and registration are anonymous. */
  lemma AuthEntryIsOpen(role: Option<string>)
    ensures Reaches(AuthMount, Post, "/login", role) && Match(AuthRouter, Post, "/login").value.handler == Login
    ensures Reaches(AuthMount, Post, "/register", role) && Match(AuthRouter, Post, "/register").value.handler == Register
  {
    MatchIsFirst(AuthRouter, Post, "/login", 0);
    assert "/login" != "/register";
    MatchIsFirst(AuthRouter, Post, "/register", 1);
  }

  /** `/logs` is the auth router's only gated route, and it admits super-admin alone. */
  lemma LogsPolicy(role: Option<string>)
    ensures Reaches(AuthMount, Get, "/logs", role) <==> role == Some(SuperAdmin)
    ensures forall r :: r in AuthRouter && r.gate.AllowOnly? ==> r.path == "/logs"
  {
    MatchIsFirst(AuthRouter, Get, "/logs", 2);
  }

  /** `GET /api/distance/1` admits exactly admin-distance1 and super-admin. */
  lemma DistanceOnePolicy(role: Option<string>)
    ensures Reaches(DistanceMount, Get, "/1", role) <==> role == Some(AdminDistance1) || role == Some(SuperAdmin)
  {
    MatchIsFirst(DistanceRouter, Get, "/1", 0);
  }

  /** `GET /api/distance/2` admits exactly admin-distance2 and super-admin. */
  lemma DistanceTwoPolicy(role: Option<string>)
    ensures Reaches(DistanceMount, Get, "/2", role) <==> role == Some(AdminDistance2) || role == Some(SuperAdmin)
  {
    assert "/1" != "/2";
    MatchIsFirst(DistanceRouter, Get, "/2", 1);
  }

  /** `GET /api/distance/all` admits super-admin alone. */
  lemma DistanceAllPolicy(role: Option<string>)
    ensures Reaches(DistanceMount, Get, "/all", role) <==> role == Some(SuperAdmin)
  {
    assert "/1" != "/all" && "/2" != "/all";
    MatchIsFirst(DistanceRouter, Get, "/all", 2);
  }

  /** Devices post readings without a token, to either table. */
  lemma DistanceIngestionIsAnonymous(role: Option<string>)
    ensures Reaches(DistanceMount, Post, "/1", role)
    ensures Reaches(DistanceMount, Post, "/2", role)
    ensures Match(DistanceRouter, Post, "/1").value.handler == PostDistance1
    ensures Match(DistanceRouter, Post, "/2").value.handler == PostDistance2
  {
    assert "/1" != "/2";
    MatchIsFirst(DistanceRouter, Post, "/1", 3);
    MatchIsFirst(DistanceRouter, Post, "/2", 4);
  }

  /** Super-admin passes every gate of the distance router. */
  lemma SuperAdminPassesDistanceGates()
    ensures forall r :: r in DistanceRouter ==> Admits(r.gate, Some(SuperAdmin))
  {
  }

  /** The control router: devices read the switch anonymously, only super-admin updates it, and
      every route is either open or super-admin only. */
  lemma ControlPolicy(role: Option<string>)
    ensures Reaches(ControlMount, Get, "/", role)
    ensures Reaches(ControlMount, Post, "/", role) <==> role == Some(SuperAdmin)
    ensures !Reaches(ControlMount, Post, "/", Some(AdminDistance1)) && !Reaches(ControlMount, Post, "/", Some(AdminDistance2))
    ensures forall r :: r in ControlRouter ==> r.gate == Open || r.gate == AllowOnly([SuperAdmin])
  {
    MatchIsFirst(ControlRouter, Get, "/", 0);
    MatchIsFirst(ControlRouter, Post, "/", 1);
  }

  /** Any role outside the three the routes name reaches no gated route. */
  lemma UnknownRoleRefused(mount: string, verb: Verb, path: string, role: string)
    requires role !in {SuperAdmin, AdminDistance1, AdminDistance2}
    requires Reaches(mount, verb, path, Some(role))
    ensures Match(RouterAt(mount), verb, path).value.gate == Open
  {
    var r := Match(RouterAt(mount), verb, path).value;
    assert r in RouterAt(mount);
  }

  /** Registration is anonymous and takes any role, so anyone can create a super-admin account
      whose login token opens every gated route of the three routers. */
  method SelfRegisteredSuperAdmin(rows: Table, nextId: nat, username: string, password: string,
                                  forwardedFor: Option<string>, remoteAddress: Option<string>, now: int, h: Hasher)
    returns (token: Token)
    requires WellFormed(rows, nextId) && Sound(h)
    requires username != "" && password != "" && username !in rows
    ensures Reaches(AuthMount, Post, "/register", None)
    ensures token.role == SuperAdmin
    ensures forall mount, r :: mount in {AuthMount, DistanceMount, ControlMount} && r in RouterAt(mount) ==>
      Reaches(mount, r.verb, r.path, Some(token.role))
  {
    AuthEntryIsOpen(None);
    var registered, reply, after := AuthController.RegisterThenLogin(rows, nextId, username, password, SuperAdmin,
                                                                     forwardedFor, remoteAddress, now, h);
    token := reply.body.token;
    forall mount, r | mount in {AuthMount, DistanceMount, ControlMount} && r in RouterAt(mount)
      ensures Reaches(mount, r.verb, r.path, Some(token.role))
    {
      SuperAdminReachesListedRoutes(mount, r);
    }
  }

  /** Every route of a mounted router is matched by its own verb and path and admits super-admin. */
  lemma SuperAdminReachesListedRoutes(mount: string, r: Route)
    requires mount in {AuthMount, DistanceMount, ControlMount} && r in RouterAt(mount)
    ensures Reaches(mount, r.verb, r.path, Some(SuperAdmin))
  {
    var m := Match(RouterAt(mount), r.verb, r.path);
    assert m.Some?;
    assert m.value in RouterAt(mount);
  }
}
