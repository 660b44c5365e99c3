/** `Bind` keeps users and roles in step. */
module RefCountBind {
  import opened Wrappers
  import opened Utils
  import opened Models
  import opened Records
  import opened Names
  import opened Catalog
  import opened SqlServers
  import opened Broker
  import opened RunRecords
  import opened RefCount

  // ---- Bind ----------------------------------------------------------------

  /** No user on the server has that name. */
  ghost predicate NameFree(cfg: Config, rows: Rows, sid: ServerId, name: string) {
    forall v :: UserAt(cfg, rows, v, sid) ==> rows.users[v].username != name
  }

  /** A name that `CreateUsername` makes and that no user of the instance has yet. */
  ghost predicate NameMade(cfg: Config, rows: Rows, i: Instance, kind: EngineKind, name: string) {
    && Kind(cfg, i.row) == Some(kind) && UserNamed(i.users, name).None?
    && (kind == Postgres ==> name == PostgresRole(i.row.instanceID))
    && (kind == MySQL ==> FreshName(rows, name))
  }

  lemma MadeNameIsFree(cfg: Config, ids: set<string>, rows: Rows, i: Instance, kind: EngineKind, name: string, sid: ServerId)
    requires RolesApart(ids) && RowsFit(cfg, ids, rows) && Loads(rows, i) && At(cfg, rows, i.id, sid) && NameMade(cfg, rows, i, kind, name)
    ensures NameFree(cfg, rows, sid, name)
  {
    forall v | UserAt(cfg, rows, v, sid)
      ensures rows.users[v].username != name
    {
      var r := rows.users[v].instance;
      if r == i.id {
        assert HasUser(i.users, v);
      } else if kind == Postgres {
        OneKind(cfg, ids, rows, r, i.id, sid);
        assert UserFits(cfg, ids, rows, rows.users[v]);
        assert InstanceFits(cfg, ids, rows.instances[r]) && InstanceFits(cfg, ids, i.row);
      }
    }
  }

  /** Nothing but a user u0 with a binding is new. */
  ghost predicate NewUserRows(rows: Rows, rows': Rows, u0: nat, user: UserRow, b0: nat, bindingID: string) {
    && u0 !in rows.users && b0 !in rows.bindings && user.kind == Standard && user.instance in rows.instances
    && rows'.instances == rows.instances && rows'.users == rows.users[u0 := user]
    && rows'.bindings == rows.bindings[b0 := BindingRow(u0, bindingID)]
  }

  lemma OldUsersBesideNew(cfg: Config, rows: Rows, rows': Rows, u0: nat, user: UserRow, b0: nat, bindingID: string, sid: ServerId)
    requires NewUserRows(rows, rows', u0, user, b0, bindingID)
    ensures forall u :: UserAt(cfg, rows', u, sid) <==> UserAt(cfg, rows, u, sid) || (u == u0 && At(cfg, rows, user.instance, sid))
    ensures forall u :: u in rows.users ==> u in rows'.users && rows'.users[u] == rows.users[u]
  {
  }

  lemma NewUserUsersFit(cfg: Config, ids: set<string>, rows: Rows, rows': Rows, u0: nat, user: UserRow, b0: nat, bindingID: string)
    requires Integrity(rows) && UsersFit(cfg, ids, rows) && NewUserRows(rows, rows', u0, user, b0, bindingID)
    requires UserFits(cfg, ids, rows, user)
    ensures UsersFit(cfg, ids, rows')
  {
    forall u | u in rows'.users
      ensures UserFits(cfg, ids, rows', rows'.users[u])
    {
      if u != u0 {
        assert UserFits(cfg, ids, rows, rows.users[u]);
      }
    }
  }

  lemma NewUserNamesApart(cfg: Config, rows: Rows, rows': Rows, u0: nat, user: UserRow, b0: nat, bindingID: string, sid: ServerId)
    requires NamesApart(cfg, rows) && NewUserRows(rows, rows', u0, user, b0, bindingID)
    requires At(cfg, rows, user.instance, sid) && NameFree(cfg, rows, sid, user.username)
    ensures NamesApart(cfg, rows')
  {
    forall u, v, at | UserAt(cfg, rows', u, at) && UserAt(cfg, rows', v, at) && rows'.users[u].username == rows'.users[v].username
      ensures u == v
    {
      OldUsersBesideNew(cfg, rows, rows', u0, user, b0, bindingID, at);
    }
  }

  lemma NewUserOthersFit(cfg: Config, ids: set<string>, rows: Rows, rows': Rows, u0: nat, user: UserRow, b0: nat, bindingID: string)
    requires InstancesFit(cfg, ids, rows) && BindingsFit(rows) && NewUserRows(rows, rows', u0, user, b0, bindingID)
    ensures InstancesFit(cfg, ids, rows') && BindingsFit(rows')
  {
  }

  lemma NewUserRowsFit(cfg: Config, ids: set<string>, rows: Rows, rows': Rows, u0: nat, user: UserRow, b0: nat, bindingID: string, sid: ServerId)
    requires RowsFit(cfg, ids, rows) && RecordsOk(rows', {}) && NewUserRows(rows, rows', u0, user, b0, bindingID)
    requires UserFits(cfg, ids, rows, user) && At(cfg, rows, user.instance, sid) && NameFree(cfg, rows, sid, user.username)
    ensures RowsFit(cfg, ids, rows')
  {
    NewUserUsersFit(cfg, ids, rows, rows', u0, user, b0, bindingID);
    NewUserNamesApart(cfg, rows, rows', u0, user, b0, bindingID, sid);
    NewUserOthersFit(cfg, ids, rows, rows', u0, user, b0, bindingID);
  }

  /** The server with the new role, able to log in, and its grant. */
  function Enabled(s: Server, dbName: string, name: string, password: string): Server {
    s.(roles := s.roles[name := Role(true, password)], grants := s.grants + {(dbName, name)})
  }

  lemma NewUserNames(cfg: Config, rows: Rows, rows': Rows, u0: nat, user: UserRow, b0: nat, bindingID: string, sid: ServerId, name: string)
    requires NewUserRows(rows, rows', u0, user, b0, bindingID) && At(cfg, rows, user.instance, sid)
    requires LiveName(cfg, rows, sid, name) || name == user.username
    ensures LiveName(cfg, rows', sid, name)
  {
    if name == user.username {
      assert StandardAt(cfg, rows', u0, sid);
    } else {
      var u :| StandardAt(cfg, rows, u, sid) && rows.users[u].username == name;
      assert StandardAt(cfg, rows', u, sid);
    }
  }

  lemma NewUserGrants(cfg: Config, rows: Rows, rows': Rows, u0: nat, user: UserRow, b0: nat, bindingID: string, sid: ServerId, g: (string, string))
    requires NewUserRows(rows, rows', u0, user, b0, bindingID) && At(cfg, rows, user.instance, sid)
    requires LiveGrant(cfg, rows, sid, g) || g == (rows.instances[user.instance].dbName, user.username)
    ensures LiveGrant(cfg, rows', sid, g)
  {
    if g == (rows.instances[user.instance].dbName, user.username) {
      assert StandardAt(cfg, rows', u0, sid);
    } else {
      var u :| StandardAt(cfg, rows, u, sid) && rows.users[u].username == g.1 && rows.instances[rows.users[u].instance].dbName == g.0;
      assert StandardAt(cfg, rows', u, sid);
    }
  }

  lemma EnabledServes(cfg: Config, rows: Rows, rows': Rows, u0: nat, user: UserRow, b0: nat, bindingID: string, sid: ServerId,
                      s: Server, password: string)
    requires NewUserRows(rows, rows', u0, user, b0, bindingID) && At(cfg, rows, user.instance, sid)
    requires NameFree(cfg, rows, sid, user.username) && AllServed(cfg, rows, sid, s) && Password(user, cfg.key) == Some(password)
    ensures AllServed(cfg, rows', sid, Enabled(s, rows.instances[user.instance].dbName, user.username, password))
  {
    var s' := Enabled(s, rows.instances[user.instance].dbName, user.username, password);
    forall u | StandardAt(cfg, rows', u, sid)
      ensures UserServed(cfg, rows', u, s')
    {
      if u != u0 {
        assert StandardAt(cfg, rows, u, sid);
        assert UserServed(cfg, rows, u, s);
      }
    }
  }

  lemma EnabledLive(cfg: Config, rows: Rows, rows': Rows, u0: nat, user: UserRow, b0: nat, bindingID: string, sid: ServerId,
                    s: Server, password: string, kind: EngineKind)
    requires NewUserRows(rows, rows', u0, user, b0, bindingID) && At(cfg, rows, user.instance, sid)
    requires RolesLive(cfg, rows, sid, s, kind) && GrantsLive(cfg, rows, sid, s)
    ensures var s' := Enabled(s, rows.instances[user.instance].dbName, user.username, password);
            RolesLive(cfg, rows', sid, s', kind) && GrantsLive(cfg, rows', sid, s')
  {
    var s' := Enabled(s, rows.instances[user.instance].dbName, user.username, password);
    forall name | kind == MySQL && name in s'.roles
      ensures s'.roles[name].login && LiveName(cfg, rows', sid, name)
    {
      NewUserNames(cfg, rows, rows', u0, user, b0, bindingID, sid, name);
    }
    forall g | g in s'.grants
      ensures LiveGrant(cfg, rows', sid, g)
    {
      NewUserGrants(cfg, rows, rows', u0, user, b0, bindingID, sid, g);
    }
  }

  lemma EnabledFits(cfg: Config, rows: Rows, rows': Rows, u0: nat, user: UserRow, b0: nat, bindingID: string, sid: ServerId,
                    s: Server, password: string, kind: EngineKind)
    requires NewUserRows(rows, rows', u0, user, b0, bindingID) && At(cfg, rows, user.instance, sid)
    requires NameFree(cfg, rows, sid, user.username) && ServerFits(cfg, rows, sid, s, kind)
    requires Password(user, cfg.key) == Some(password)
    ensures ServerFits(cfg, rows', sid, Enabled(s, rows.instances[user.instance].dbName, user.username, password), kind)
  {
    EnabledServes(cfg, rows, rows', u0, user, b0, bindingID, sid, s, password);
    EnabledLive(cfg, rows, rows', u0, user, b0, bindingID, sid, s, password, kind);
    assert forall r :: At(cfg, rows', r, sid) ==> At(cfg, rows, r, sid);
  }

  lemma ElsewhereFits(cfg: Config, rows: Rows, rows': Rows, u0: nat, user: UserRow, b0: nat, bindingID: string, sid: ServerId,
                      s: Server, kind: EngineKind)
    requires NewUserRows(rows, rows', u0, user, b0, bindingID) && !At(cfg, rows, user.instance, sid)
    requires ServerFits(cfg, rows, sid, s, kind)
    ensures ServerFits(cfg, rows', sid, s, kind)
  {
    OldUsersBesideNew(cfg, rows, rows', u0, user, b0, bindingID, sid);
    assert AgreeAt(cfg, rows, rows', sid) by {
      assert forall u :: StandardAt(cfg, rows', u, sid) <==> StandardAt(cfg, rows, u, sid);
    }
    AgreeingFits(cfg, rows, rows', sid, s, kind);
  }

  lemma NewUserServersFit(cfg: Config, w: World, w': World, u0: nat, user: UserRow, b0: nat, bindingID: string, sid: ServerId, password: string)
    requires ServersFit(cfg, w) && NewUserRows(w.rows, w'.rows, u0, user, b0, bindingID)
    requires At(cfg, w.rows, user.instance, sid) && sid in w.servers && NameFree(cfg, w.rows, sid, user.username)
    requires Password(user, cfg.key) == Some(password)
    requires w'.servers == w.servers[sid := Enabled(w.servers[sid], w.rows.instances[user.instance].dbName, user.username, password)]
    ensures ServersFit(cfg, w')
  {
    forall at, kind | at in w'.servers && Serves(cfg, w'.rows, at, kind)
      ensures ServerFits(cfg, w'.rows, at, w'.servers[at], kind)
    {
      SameInstancesServe(cfg, w.rows, w'.rows, at, kind);
      if at == sid {
        EnabledFits(cfg, w.rows, w'.rows, u0, user, b0, bindingID, sid, w.servers[sid], password, kind);
      } else {
        ElsewhereFits(cfg, w.rows, w'.rows, u0, user, b0, bindingID, at, w.servers[at], kind);
      }
    }
  }

  lemma NewUserBound(cfg: Config, w: World, w': World, u0: nat, user: UserRow, b0: nat, bindingID: string)
    requires UsersBound(cfg, w) && NewUserRows(w.rows, w'.rows, u0, user, b0, bindingID) && w'.servers.Keys == w.servers.Keys
    ensures UsersBound(cfg, w')
  {
    forall u, sid | StandardAt(cfg, w'.rows, u, sid) && sid in w'.servers
      ensures HasBinding(w'.rows, u)
    {
      if u == u0 {
        assert w'.rows.bindings[b0].user == u0;
      } else {
        assert StandardAt(cfg, w.rows, u, sid);
        var b :| b in w.rows.bindings && w.rows.bindings[b].user == u;
        assert w'.rows.bindings[b].user == u;
      }
    }
  }

  // ---- The handler ---------------------------------------------------------

  /** The calls of a `Bind` that have to succeed, and what a random name has to miss. */
  predicate CarefulBind(rows: Rows, o: BindCalls) {
    o.createUser && o.grant && (o.name.Some? ==> FreshName(rows, RandUsername(o.name.value)))
  }

  /** What `Bind` does once it has an engine and a username. */
  ghost predicate BindDoes(cfg: Config, w: World, w': World, i: Instance, plan: Plan, kind: EngineKind, name: string, bindingID: string,
                           o: BindCalls) {
    var (rows, r) := BindRows(w.rows, i, bindingID, name, Standard, cfg.key, o.entropy, o.save);
    if r.NotBound? then w' == w
    else if !r.isNew then w' == w.(rows := rows)
    else
      var home := HomeOf(cfg, i.row, plan);
      home in w.servers && Password(r.user.row, cfg.key).Some?
      && w' == World(rows, w.servers[home := EnableUser(kind, w.servers[home], i.row.dbName, r.user.row.username,
                                                        Password(r.user.row, cfg.key).value, o.createUser, o.grant).0], w.log)
  }

  /** Either `Bind` gives up before it touches anything, or it does that. */
  lemma BindGets(cfg: Config, w: World, req: BindRequest, o: BindCalls) returns (ok: bool, i: Instance, plan: Plan, kind: EngineKind, name: string)
    requires SharedUp(w.servers)
    ensures !ok ==> Bind(cfg, w, req, o).0 == w
    ensures ok ==> Loads(w.rows, i) && RecordedPlan(cfg, i.row) == Some(plan) && EngineOf(plan) == Some(kind)
                   && HomeOf(cfg, i.row, plan) in w.servers && CreateUsername(kind, i.row.instanceID, o.name) == Some(name)
                   && BindDoes(cfg, w, Bind(cfg, w, req, o).0, i, plan, kind, name, req.bindingID, o)
  {
    ok, i, plan, kind, name := false, NO_INSTANCE, Plan("", "", "", "", "", false), Postgres, "";
    FoundLoads(cfg, w.rows, req.instanceID, o.find);
    var found := FindObjects(cfg, w.rows, req.instanceID, o.find);
    if found.Ok? && found.value.1.bindable {
      i, plan := found.value.0, found.value.2;
      var engine := OpenEngine(cfg, w.servers, i, plan, o.describe, o.open);
      if engine.Ok? {
        kind := engine.value;
        var made := CreateUsername(kind, i.row.instanceID, o.name);
        if made.Some? {
          ok, name := true, made.value;
          BindFoundDoes(cfg, w, req, o, i, plan, kind, name);
        }
      }
    }
  }

  lemma BindFoundDoes(cfg: Config, w: World, req: BindRequest, o: BindCalls, i: Instance, plan: Plan, kind: EngineKind, name: string)
    requires SharedUp(w.servers) && FindObjects(cfg, w.rows, req.instanceID, o.find).Ok?
    requires var found := FindObjects(cfg, w.rows, req.instanceID, o.find).value; found.0 == i && found.1.bindable && found.2 == plan
    requires OpenEngine(cfg, w.servers, i, plan, o.describe, o.open) == Ok(kind)
    requires CreateUsername(kind, i.row.instanceID, o.name) == Some(name)
    ensures HomeOf(cfg, i.row, plan) in w.servers
    ensures BindDoes(cfg, w, Bind(cfg, w, req, o).0, i, plan, kind, name, req.bindingID, o)
  {
  }

  /** A user found under the name is a standard one, on Postgres. */
  lemma FoundIsStandard(cfg: Config, ids: set<string>, rows: Rows, i: Instance, kind: EngineKind, name: string, o: BindCalls)
    requires RowsFit(cfg, ids, rows) && Loads(rows, i) && CarefulBind(rows, o)
    requires CreateUsername(kind, i.row.instanceID, o.name) == Some(name) && UserNamed(i.users, name).Some?
    ensures var user := UserNamed(i.users, name).value; LoadsUser(rows, user) && user.row.kind == Standard
  {
    var user := UserNamed(i.users, name).value;
    assert LoadsUser(rows, user) && user.row.instance == i.id;
    assert UserFits(cfg, ids, rows, user.row) && InstanceFits(cfg, ids, i.row);
    assert kind == Postgres;
    assert IsRoleOf(ids, name);
  }

  lemma BindingsOnlyGrow(cfg: Config, w: World, user: User, bindingID: string)
    requires UsersBound(cfg, w) && KeysUsed(w.rows) && LoadsUser(w.rows, user)
    ensures UsersBound(cfg, w.(rows := AddBinding(w.rows, user, bindingID)))
  {
    var rows' := AddBinding(w.rows, user, bindingID);
    forall u, sid | StandardAt(cfg, rows', u, sid) && sid in w.servers
      ensures HasBinding(rows', u)
    {
      assert StandardAt(cfg, w.rows, u, sid);
      var b :| b in w.rows.bindings && w.rows.bindings[b].user == u;
      assert rows'.bindings[b].user == u;
    }
  }

  lemma MoreBindingsFit(rows: Rows, user: User, bindingID: string)
    requires BindingsFit(rows) && LoadsUser(rows, user) && user.row.kind == Standard
    ensures var rows' := AddBinding(rows, user, bindingID);
            BindingsFit(rows') && rows'.users == rows.users && rows'.instances == rows.instances
  {
    assert AddBinding(rows, user, bindingID).users == rows.users;
  }

  lemma MoreBindings(cfg: Config, ids: set<string>, w: World, user: User, bindingID: string)
    requires Counted(cfg, ids, w) && LoadsUser(w.rows, user) && user.row.kind == Standard
    ensures Counted(cfg, ids, w.(rows := AddBinding(w.rows, user, bindingID)))
  {
    AddBindingKeeps(w.rows, {}, user, bindingID);
    MoreBindingsFit(w.rows, user, bindingID);
    BindingsOnlyGrow(cfg, w, user, bindingID);
    SameUsersCounted(cfg, ids, w, w.(rows := AddBinding(w.rows, user, bindingID)));
  }

  lemma EnableUserDoes(cfg: Config, rows: Rows, sid: ServerId, s: Server, kind: EngineKind, dbName: string, name: string, password: string)
    requires RolesLive(cfg, rows, sid, s, kind) && NameFree(cfg, rows, sid, name) && dbName in s.databases && '\0' !in password
    ensures EnableUser(kind, s, dbName, name, password, true, true) == (Enabled(s, dbName, name, password), true)
  {
    SentPasswordIs(kind, password);
  }

  /** The row that `Bind` stores for a new user. */
  lemma MadeUserFits(cfg: Config, ids: set<string>, rows: Rows, i: Instance, kind: EngineKind, name: string, e: Entropy)
    requires Loads(rows, i) && NameMade(cfg, rows, i, kind, name) && NewUser(Standard, cfg.key, Some(e), i.id).Some?
    ensures var user := NewUser(Standard, cfg.key, Some(e), i.id).value.(username := name);
            && user.kind == Standard && user.instance == i.id && user.username == name
            && UserFits(cfg, ids, rows, user) && Password(user, cfg.key) == Some(RandPassword(e.password))
            && '\0' !in RandPassword(e.password)
  {
    RandPasswordWellFormed(e.password);
  }

  /** A `Bind` that is about to store a new user with that row. */
  ghost predicate StoresUser(cfg: Config, rows: Rows, i: Instance, plan: Plan, kind: EngineKind, name: string, o: BindCalls, user: UserRow) {
    && Loads(rows, i) && RecordedPlan(cfg, i.row) == Some(plan) && EngineOf(plan) == Some(kind)
    && CreateUsername(kind, i.row.instanceID, o.name) == Some(name) && UserNamed(i.users, name).None?
    && o.save && o.entropy.Some? && NewUser(Standard, cfg.key, o.entropy, i.id).Some?
    && user == NewUser(Standard, cfg.key, o.entropy, i.id).value.(username := name)
  }

  lemma NameIsMade(cfg: Config, ids: set<string>, rows: Rows, i: Instance, plan: Plan, kind: EngineKind, name: string, o: BindCalls, user: UserRow)
    requires RolesApart(ids) && RowsFit(cfg, ids, rows) && CarefulBind(rows, o) && StoresUser(cfg, rows, i, plan, kind, name, o, user)
    ensures At(cfg, rows, i.id, HomeOf(cfg, i.row, plan)) && NameFree(cfg, rows, HomeOf(cfg, i.row, plan), name)
    ensures user.kind == Standard && user.instance == i.id && user.username == name
    ensures UserFits(cfg, ids, rows, user) && Password(user, cfg.key) == Some(RandPassword(o.entropy.value.password))
  {
    assert NameMade(cfg, rows, i, kind, name);
    MadeNameIsFree(cfg, ids, rows, i, kind, name, HomeOf(cfg, i.row, plan));
    MadeUserFits(cfg, ids, rows, i, kind, name, o.entropy.value);
  }

  lemma StoredUser(cfg: Config, rows: Rows, i: Instance, plan: Plan, kind: EngineKind, name: string, bindingID: string, o: BindCalls, user: UserRow)
    requires KeysUsed(rows) && StoresUser(cfg, rows, i, plan, kind, name, o, user)
    ensures BindRows(rows, i, bindingID, name, Standard, cfg.key, o.entropy, o.save).0 == InsertUser(rows, user, bindingID)
    ensures NewUserRows(rows, InsertUser(rows, user, bindingID), rows.nextID, user, rows.nextID + 1, bindingID)
  {
  }

  lemma ServerAfterBind(cfg: Config, ids: set<string>, w: World, w': World, i: Instance, plan: Plan, kind: EngineKind, name: string,
                        bindingID: string, o: BindCalls, user: UserRow)
    requires ServersFit(cfg, w) && CarefulBind(w.rows, o) && StoresUser(cfg, w.rows, i, plan, kind, name, o, user)
    requires At(cfg, w.rows, i.id, HomeOf(cfg, i.row, plan)) && NameFree(cfg, w.rows, HomeOf(cfg, i.row, plan), name)
    requires Password(user, cfg.key) == Some(RandPassword(o.entropy.value.password))
    requires HomeOf(cfg, i.row, plan) in w.servers && BindDoes(cfg, w, w', i, plan, kind, name, bindingID, o)
    ensures w'.servers == w.servers[HomeOf(cfg, i.row, plan) := Enabled(w.servers[HomeOf(cfg, i.row, plan)], i.row.dbName, name,
                                                                         RandPassword(o.entropy.value.password))]
    ensures w'.rows == BindRows(w.rows, i, bindingID, name, Standard, cfg.key, o.entropy, o.save).0
  {
    var sid := HomeOf(cfg, i.row, plan);
    var password := RandPassword(o.entropy.value.password);
    assert Serves(cfg, w.rows, sid, kind);
    assert ServerFits(cfg, w.rows, sid, w.servers[sid], kind);
    RandPasswordWellFormed(o.entropy.value.password);
    EnableUserDoes(cfg, w.rows, sid, w.servers[sid], kind, i.row.dbName, name, password);
  }

  /** The tables with the new user in them. */
  ghost predicate UserStored(cfg: Config, ids: set<string>, rows: Rows, rows': Rows, user: UserRow, bindingID: string, sid: ServerId) {
    && RecordsOk(rows', {}) && NewUserRows(rows, rows', rows.nextID, user, rows.nextID + 1, bindingID)
    && UserFits(cfg, ids, rows, user) && At(cfg, rows, user.instance, sid) && NameFree(cfg, rows, sid, user.username)
  }

  /** The servers with its role on one of them. */
  ghost predicate RoleMade(cfg: Config, w: World, w': World, user: UserRow, sid: ServerId) {
    && Password(user, cfg.key).Some? && user.instance in w.rows.instances && sid in w.servers
    && w'.servers == w.servers[sid := Enabled(w.servers[sid], w.rows.instances[user.instance].dbName, user.username,
                                              Password(user, cfg.key).value)]
  }

  lemma NewUserTables(cfg: Config, ids: set<string>, w: World, w': World, user: UserRow, bindingID: string, sid: ServerId)
    requires RowsFit(cfg, ids, w.rows) && UsersBound(cfg, w) && w'.servers.Keys == w.servers.Keys
    requires UserStored(cfg, ids, w.rows, w'.rows, user, bindingID, sid)
    ensures RowsFit(cfg, ids, w'.rows) && UsersBound(cfg, w')
  {
    var (u0, b0) := (w.rows.nextID, w.rows.nextID + 1);
    NewUserRowsFit(cfg, ids, w.rows, w'.rows, u0, user, b0, bindingID, sid);
    NewUserBound(cfg, w, w', u0, user, b0, bindingID);
  }

  lemma NewUserServers(cfg: Config, ids: set<string>, w: World, w': World, user: UserRow, bindingID: string, sid: ServerId)
    requires ServersFit(cfg, w) && RoleMade(cfg, w, w', user, sid)
    requires NewUserRows(w.rows, w'.rows, w.rows.nextID, user, w.rows.nextID + 1, bindingID)
    requires At(cfg, w.rows, user.instance, sid) && NameFree(cfg, w.rows, sid, user.username)
    ensures ServersFit(cfg, w') && w'.servers.Keys == w.servers.Keys
  {
    NewUserServersFit(cfg, w, w', w.rows.nextID, user, w.rows.nextID + 1, bindingID, sid, Password(user, cfg.key).value);
  }

  lemma NewUserCounted(cfg: Config, ids: set<string>, w: World, w': World, user: UserRow, bindingID: string, sid: ServerId)
    requires Counted(cfg, ids, w) && UserStored(cfg, ids, w.rows, w'.rows, user, bindingID, sid) && RoleMade(cfg, w, w', user, sid)
    ensures Counted(cfg, ids, w')
  {
    NewUserServers(cfg, ids, w, w', user, bindingID, sid);
    NewUserTables(cfg, ids, w, w', user, bindingID, sid);
  }

  lemma BindStores(cfg: Config, ids: set<string>, rows: Rows, i: Instance, plan: Plan, kind: EngineKind, name: string,
                   bindingID: string, o: BindCalls, user: UserRow)
    requires RolesApart(ids) && RowsFit(cfg, ids, rows) && CarefulBind(rows, o) && StoresUser(cfg, rows, i, plan, kind, name, o, user)
    ensures UserStored(cfg, ids, rows, InsertUser(rows, user, bindingID), user, bindingID, HomeOf(cfg, i.row, plan))
    ensures BindRows(rows, i, bindingID, name, Standard, cfg.key, o.entropy, o.save).0 == InsertUser(rows, user, bindingID)
  {
    NameIsMade(cfg, ids, rows, i, plan, kind, name, o, user);
    StoredUser(cfg, rows, i, plan, kind, name, bindingID, o, user);
    StoredUserKeeps(cfg, rows, i, plan, kind, name, bindingID, o, user);
  }

  lemma BindMakesRole(cfg: Config, ids: set<string>, w: World, w': World, i: Instance, plan: Plan, kind: EngineKind, name: string,
                      bindingID: string, o: BindCalls, user: UserRow)
    requires RolesApart(ids) && RowsFit(cfg, ids, w.rows) && ServersFit(cfg, w) && CarefulBind(w.rows, o)
    requires StoresUser(cfg, w.rows, i, plan, kind, name, o, user)
    requires HomeOf(cfg, i.row, plan) in w.servers && BindDoes(cfg, w, w', i, plan, kind, name, bindingID, o)
    ensures RoleMade(cfg, w, w', user, HomeOf(cfg, i.row, plan))
    ensures w'.rows == BindRows(w.rows, i, bindingID, name, Standard, cfg.key, o.entropy, o.save).0
  {
    NameIsMade(cfg, ids, w.rows, i, plan, kind, name, o, user);
    ServerAfterBind(cfg, ids, w, w', i, plan, kind, name, bindingID, o, user);
  }

  lemma StoredUserKeeps(cfg: Config, rows: Rows, i: Instance, plan: Plan, kind: EngineKind, name: string, bindingID: string, o: BindCalls, user: UserRow)
    requires RecordsOk(rows, {}) && StoresUser(cfg, rows, i, plan, kind, name, o, user)
    ensures RecordsOk(InsertUser(rows, user, bindingID), {})
  {
    StoredUser(cfg, rows, i, plan, kind, name, bindingID, o, user);
    BindKeeps(rows, {}, i, bindingID, name, cfg.key, o.entropy, o.save);
  }

  lemma NewUserBind(cfg: Config, ids: set<string>, w: World, w': World, i: Instance, plan: Plan, kind: EngineKind, name: string,
                    bindingID: string, o: BindCalls, user: UserRow)
    requires RolesApart(ids) && Counted(cfg, ids, w) && CarefulBind(w.rows, o) && StoresUser(cfg, w.rows, i, plan, kind, name, o, user)
    requires HomeOf(cfg, i.row, plan) in w.servers && BindDoes(cfg, w, w', i, plan, kind, name, bindingID, o)
    ensures Counted(cfg, ids, w')
  {
    BindMakesRole(cfg, ids, w, w', i, plan, kind, name, bindingID, o, user);
    BindStores(cfg, ids, w.rows, i, plan, kind, name, bindingID, o, user);
    NewUserCounted(cfg, ids, w, w', user, bindingID, HomeOf(cfg, i.row, plan));
  }

  /** `Bind` keeps users and roles in step if the two SQL statements go through; everything else may fail. */
  lemma BindCounted(cfg: Config, ids: set<string>, w: World, req: BindRequest, o: BindCalls)
    requires RolesApart(ids) && Counted(cfg, ids, w) && CarefulBind(w.rows, o)
    ensures Counted(cfg, ids, Bind(cfg, w, req, o).0)
  {
    var w' := Bind(cfg, w, req, o).0;
    var ok, i, plan, kind, name := BindGets(cfg, w, req, o);
    if ok {
      BindDoesCounted(cfg, ids, w, w', i, plan, kind, name, req.bindingID, o);
    }
  }

  lemma BindDoesCounted(cfg: Config, ids: set<string>, w: World, w': World, i: Instance, plan: Plan, kind: EngineKind, name: string,
                        bindingID: string, o: BindCalls)
    requires RolesApart(ids) && Counted(cfg, ids, w) && CarefulBind(w.rows, o)
    requires Loads(w.rows, i) && RecordedPlan(cfg, i.row) == Some(plan) && EngineOf(plan) == Some(kind)
    requires HomeOf(cfg, i.row, plan) in w.servers && CreateUsername(kind, i.row.instanceID, o.name) == Some(name)
    requires BindDoes(cfg, w, w', i, plan, kind, name, bindingID, o)
    ensures Counted(cfg, ids, w')
  {
    if BindRows(w.rows, i, bindingID, name, Standard, cfg.key, o.entropy, o.save).1.NotBound? {
      assert w' == w;
    } else if UserNamed(i.users, name).Some? {
      FoundIsStandard(cfg, ids, w.rows, i, kind, name, o);
      MoreBindings(cfg, ids, w, UserNamed(i.users, name).value, bindingID);
    } else {
      var user := NewUser(Standard, cfg.key, o.entropy, i.id).value.(username := name);
      NewUserBind(cfg, ids, w, w', i, plan, kind, name, bindingID, o, user);
    }
  }
}
