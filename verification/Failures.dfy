/** What a failed call leaves behind: exactly when `Provision`, `Bind` and `Unbind` put users and
    roles out of step. */
module Failures {
  import opened Wrappers
  import opened Utils
  import opened Models
  import opened Records
  import opened Names
  import opened Catalog
  import opened SqlServers
  import opened Broker
  import opened RunRecords
  import opened RunReferences
  import opened RefCount
  import opened ProvisionFailures
  import opened RefCountProvision
  import opened RefCountBind
  import opened RefCountUnbind

  // ---- Bind ----------------------------------------------------------------

  /** The guard of the branch that stores a new user: the instance and its plan are found, the service is
      bindable, an engine is there, a name is made, no user of the instance has it, the user can be made
      and the save goes through. */
  predicate AddsUser(cfg: Config, w: World, req: BindRequest, o: BindCalls) {
    var found := FindObjects(cfg, w.rows, req.instanceID, o.find);
    && found.Ok? && found.value.1.bindable
    && var i := found.value.0;
       var engine := OpenEngine(cfg, w.servers, i, found.value.2, o.describe, o.open);
       && engine.Ok?
       && var name := CreateUsername(engine.value, i.row.instanceID, o.name);
          name.Some? && UserNamed(i.users, name.value).None? && NewUser(Standard, cfg.key, o.entropy, i.id).Some? && o.save
  }

  predicate ChangesUsers(cfg: Config, w: World, req: BindRequest, o: BindCalls) {
    Bind(cfg, w, req, o).0.rows.users.Keys != w.rows.users.Keys
  }

  /** The guard says exactly when the user table changes. */
  lemma AddsUserIff(cfg: Config, w: World, req: BindRequest, o: BindCalls)
    requires KeysUsed(w.rows) && SharedUp(w.servers)
    ensures AddsUser(cfg, w, req, o) <==> ChangesUsers(cfg, w, req, o)
  {
    FoundLoads(cfg, w.rows, req.instanceID, o.find);
    var found := FindObjects(cfg, w.rows, req.instanceID, o.find);
    if found.Ok? && found.value.1.bindable {
      var (i, plan) := (found.value.0, found.value.2);
      var engine := OpenEngine(cfg, w.servers, i, plan, o.describe, o.open);
      if engine.Ok? && CreateUsername(engine.value, i.row.instanceID, o.name).Some? {
        var name := CreateUsername(engine.value, i.row.instanceID, o.name).value;
        BindFoundDoes(cfg, w, req, o, i, plan, engine.value, name);
        BindRowsKeys(w.rows, i, req.bindingID, name, cfg.key, o.entropy, o.save);
      }
    }
  }

  predicate FreshBindName(rows: Rows, o: BindCalls) {
    o.name.Some? ==> FreshName(rows, RandUsername(o.name.value))
  }

  /** The same `Bind` with both SQL statements going through. */
  function Granting(o: BindCalls): BindCalls {
    o.(createUser := true, grant := true)
  }

  lemma BindRowsKeys(rows: Rows, i: Instance, bindingID: string, name: string, key: Bytes, entropy: Option<Entropy>, save: bool)
    requires KeysUsed(rows) && Loads(rows, i)
    ensures var (rows', r) := BindRows(rows, i, bindingID, name, Standard, key, entropy, save);
            rows'.users.Keys != rows.users.Keys <==> r.Bound? && r.isNew
  {
    var (rows', r) := BindRows(rows, i, bindingID, name, Standard, key, entropy, save);
    if r.Bound? && r.isNew {
      assert rows.nextID in rows'.users.Keys && rows.nextID !in rows.users.Keys;
    } else if r.Bound? {
      var user := UserNamed(i.users, name).value;
      assert LoadsUser(rows, user);
      assert rows'.users == rows.users;
    }
  }

  lemma NoNewUserShape(cfg: Config, w: World, w': World, i: Instance, plan: Plan, kind: EngineKind, name: string, bindingID: string, o: BindCalls)
    requires KeysUsed(w.rows) && Loads(w.rows, i) && BindDoes(cfg, w, w', i, plan, kind, name, bindingID, o)
    requires w'.rows.users.Keys == w.rows.users.Keys
    ensures w' == w || (UserNamed(i.users, name).Some?
                        && w' == w.(rows := AddBinding(w.rows, UserNamed(i.users, name).value, bindingID)))
  {
    BindRowsKeys(w.rows, i, bindingID, name, cfg.key, o.entropy, o.save);
  }

  /** Without a new user it does not matter how the SQL statements go. */
  lemma NoNewUser(cfg: Config, ids: set<string>, w: World, req: BindRequest, o: BindCalls)
    requires RolesApart(ids) && Counted(cfg, ids, w) && FreshBindName(w.rows, o) && !ChangesUsers(cfg, w, req, o)
    ensures Counted(cfg, ids, Bind(cfg, w, req, o).0)
  {
    var w' := Bind(cfg, w, req, o).0;
    var ok, i, plan, kind, name := BindGets(cfg, w, req, o);
    if ok {
      NoNewUserShape(cfg, w, w', i, plan, kind, name, req.bindingID, o);
      if w' != w {
        FoundIsStandard(cfg, ids, w.rows, i, kind, name, Granting(o));
        MoreBindings(cfg, ids, w, UserNamed(i.users, name).value, req.bindingID);
      }
    }
  }

  /** A new user whose role cannot be used puts its instance out of step. */
  lemma UnusableRole(cfg: Config, rows: Rows, rows': Rows, u0: nat, user: UserRow, b0: nat, bindingID: string, sid: ServerId,
                     s: Server, s': Server)
    requires NewUserRows(rows, rows', u0, user, b0, bindingID) && At(cfg, rows, user.instance, sid)
    requires NameFree(cfg, rows, sid, user.username) && GrantsLive(cfg, rows, sid, s) && s'.grants == s.grants
    ensures !CanUse(s', rows.instances[user.instance].dbName, user.username)
    ensures !InStep(cfg, rows', user.instance, s')
  {
    assert !LiveGrant(cfg, rows, sid, (rows.instances[user.instance].dbName, user.username));
    assert rows'.users[u0] == user;
    assert HasStandardUser(rows', user.instance, user.username);
  }

  lemma FailedEnable(kind: EngineKind, s: Server, dbName: string, name: string, password: string, createUser: bool, grant: bool)
    requires !(createUser && grant)
    ensures EnableUser(kind, s, dbName, name, password, createUser, grant).0.grants == s.grants
    ensures !EnableUser(kind, s, dbName, name, password, createUser, grant).1
  {
  }

  /** A `Bind` that stores a new user and whose SQL does not go through. */
  ghost predicate FailsAfterSaving(cfg: Config, ids: set<string>, w: World, w': World, i: Instance, plan: Plan, kind: EngineKind, name: string,
                                   bindingID: string, o: BindCalls, user: UserRow) {
    && RolesApart(ids) && Counted(cfg, ids, w) && CarefulBind(w.rows, Granting(o)) && !(o.createUser && o.grant)
    && StoresUser(cfg, w.rows, i, plan, kind, name, o, user)
    && HomeOf(cfg, i.row, plan) in w.servers && BindDoes(cfg, w, w', i, plan, kind, name, bindingID, o)
  }

  lemma FailedBindShape(cfg: Config, ids: set<string>, w: World, w': World, i: Instance, plan: Plan, kind: EngineKind, name: string,
                        bindingID: string, o: BindCalls, user: UserRow)
    requires FailsAfterSaving(cfg, ids, w, w', i, plan, kind, name, bindingID, o, user)
    ensures var sid := HomeOf(cfg, i.row, plan); sid in w'.servers && w'.servers[sid].grants == w.servers[sid].grants
    ensures UserStored(cfg, ids, w.rows, w'.rows, user, bindingID, HomeOf(cfg, i.row, plan))
    ensures user.username == name && user.instance == i.id && user.kind == Standard && Password(user, cfg.key).Some?
  {
    var sid := HomeOf(cfg, i.row, plan);
    NameIsMade(cfg, ids, w.rows, i, plan, kind, name, Granting(o), user);
    BindStores(cfg, ids, w.rows, i, plan, kind, name, bindingID, Granting(o), user);
    FailedEnable(kind, w.servers[sid], i.row.dbName, name, Password(user, cfg.key).value, o.createUser, o.grant);
  }

  lemma StoredUnusable(cfg: Config, ids: set<string>, rows: Rows, rows': Rows, user: UserRow, bindingID: string, sid: ServerId, s: Server, s': Server)
    requires UserStored(cfg, ids, rows, rows', user, bindingID, sid) && GrantsLive(cfg, rows, sid, s) && s'.grants == s.grants
    ensures !CanUse(s', rows.instances[user.instance].dbName, user.username)
    ensures At(cfg, rows', user.instance, sid) && !InStep(cfg, rows', user.instance, s')
  {
    UnusableRole(cfg, rows, rows', rows.nextID, user, rows.nextID + 1, bindingID, sid, s, s');
  }

  lemma HomeGrantsLive(cfg: Config, w: World, i: Instance, plan: Plan, kind: EngineKind)
    requires ServersFit(cfg, w) && HomeOf(cfg, i.row, plan) in w.servers
    requires i.id in w.rows.instances && w.rows.instances[i.id] == i.row
    requires RecordedPlan(cfg, i.row) == Some(plan) && EngineOf(plan) == Some(kind)
    ensures GrantsLive(cfg, w.rows, HomeOf(cfg, i.row, plan), w.servers[HomeOf(cfg, i.row, plan)])
  {
    assert At(cfg, w.rows, i.id, HomeOf(cfg, i.row, plan));
    assert Serves(cfg, w.rows, HomeOf(cfg, i.row, plan), kind);
  }

  lemma FailedBindOutOfStep(cfg: Config, ids: set<string>, w: World, w': World, i: Instance, plan: Plan, kind: EngineKind, name: string,
                            bindingID: string, o: BindCalls, user: UserRow)
    requires FailsAfterSaving(cfg, ids, w, w', i, plan, kind, name, bindingID, o, user)
    ensures HomeOf(cfg, i.row, plan) in w'.servers
    ensures !CanUse(w'.servers[HomeOf(cfg, i.row, plan)], i.row.dbName, name)
    ensures !AllInStep(cfg, w')
  {
    var sid := HomeOf(cfg, i.row, plan);
    FailedBindShape(cfg, ids, w, w', i, plan, kind, name, bindingID, o, user);
    HomeGrantsLive(cfg, w, i, plan, kind);
    StoredUnusable(cfg, ids, w.rows, w'.rows, user, bindingID, sid, w.servers[sid], w'.servers[sid]);
  }

  lemma FailingBindOutOfStep(cfg: Config, ids: set<string>, w: World, req: BindRequest, o: BindCalls)
    requires RolesApart(ids) && Counted(cfg, ids, w) && FreshBindName(w.rows, o)
    requires ChangesUsers(cfg, w, req, o) && !(o.createUser && o.grant)
    ensures !AllInStep(cfg, Bind(cfg, w, req, o).0)
  {
    var ok, i, plan, kind, name := BindGets(cfg, w, req, o);
    BindRowsKeys(w.rows, i, req.bindingID, name, cfg.key, o.entropy, o.save);
    var user := NewUser(Standard, cfg.key, o.entropy, i.id).value.(username := name);
    FailedBindOutOfStep(cfg, ids, w, Bind(cfg, w, req, o).0, i, plan, kind, name, req.bindingID, o, user);
  }

  /** When exactly a `Bind` keeps users and roles in step, and then it keeps the invariant too: when it stores
      no new user, or both SQL statements go through. Any other call may fail. */
  lemma BindInStepIff(cfg: Config, ids: set<string>, w: World, req: BindRequest, o: BindCalls)
    requires RolesApart(ids) && Counted(cfg, ids, w) && FreshBindName(w.rows, o)
    ensures AllInStep(cfg, Bind(cfg, w, req, o).0) <==> !AddsUser(cfg, w, req, o) || (o.createUser && o.grant)
    ensures Counted(cfg, ids, Bind(cfg, w, req, o).0) <==> AllInStep(cfg, Bind(cfg, w, req, o).0)
  {
    AddsUserIff(cfg, w, req, o);
    if !ChangesUsers(cfg, w, req, o) {
      NoNewUser(cfg, ids, w, req, o);
      CountedIsInStep(cfg, ids, Bind(cfg, w, req, o).0);
    } else if o.createUser && o.grant {
      BindCounted(cfg, ids, w, req, o);
      CountedIsInStep(cfg, ids, Bind(cfg, w, req, o).0);
    } else {
      FailingBindOutOfStep(cfg, ids, w, req, o);
      OutOfStepNotCounted(cfg, ids, Bind(cfg, w, req, o).0);
    }
  }

  /** The row behind the answer of `Bind` is stored. */
  lemma BoundUserStored(rows: Rows, i: Instance, bindingID: string, name: string, key: Bytes, entropy: Option<Entropy>, save: bool)
    requires KeysUsed(rows) && Loads(rows, i)
    ensures var (rows', r) := BindRows(rows, i, bindingID, name, Standard, key, entropy, save);
            && rows'.instances == rows.instances
            && (r.Bound? ==> r.user.id in rows'.users && rows'.users[r.user.id] == r.user.row
                             && r.user.row.instance == i.id && r.user.row.username == name)
  {
    var r := BindRows(rows, i, bindingID, name, Standard, key, entropy, save).1;
    if r.Bound? && !r.isNew {
      assert LoadsUser(rows, UserNamed(i.users, name).value);
    }
  }

  lemma ServedIsUsable(cfg: Config, ids: set<string>, w: World, u: nat, sid: ServerId)
    requires Counted(cfg, ids, w) && StandardAt(cfg, w.rows, u, sid) && sid in w.servers
    ensures Password(w.rows.users[u], cfg.key).Some?
    ensures Usable(w.servers[sid], w.rows.instances[w.rows.users[u].instance].dbName, w.rows.users[u].username,
                   Password(w.rows.users[u], cfg.key).value)
  {
    var r := w.rows.users[u].instance;
    assert InstanceFits(cfg, ids, w.rows.instances[r]);
    assert Serves(cfg, w.rows, sid, Kind(cfg, w.rows.instances[r]).value);
    assert UserServed(cfg, w.rows, u, w.servers[sid]);
  }

  /** A `Bind` answers with the password of the stored user and the server of the instance. */
  ghost predicate Answers(cfg: Config, rows': Rows, i: Instance, plan: Plan, u: nat, c: Credentials) {
    && u in rows'.users && rows'.users[u].instance == i.id && Password(rows'.users[u], cfg.key) == Some(c.password)
    && c == Credentials(HomeOf(cfg, i.row, plan), i.row.dbName, rows'.users[u].username, c.password)
  }

  lemma BindFoundAnswers(cfg: Config, w: World, req: BindRequest, o: BindCalls, i: Instance, plan: Plan, kind: EngineKind, name: string)
    requires FindObjects(cfg, w.rows, req.instanceID, o.find).Ok?
    requires var found := FindObjects(cfg, w.rows, req.instanceID, o.find).value; found.0 == i && found.1.bindable && found.2 == plan
    requires OpenEngine(cfg, w.servers, i, plan, o.describe, o.open) == Ok(kind)
    requires CreateUsername(kind, i.row.instanceID, o.name) == Some(name)
    requires KeysUsed(w.rows) && Loads(w.rows, i)
    ensures var (w', reply) := Bind(cfg, w, req, o);
            var r := BindRows(w.rows, i, req.bindingID, name, Standard, cfg.key, o.entropy, o.save).1;
            && (reply.BoundTo? ==> r.Bound? && w'.rows == BindRows(w.rows, i, req.bindingID, name, Standard, cfg.key, o.entropy, o.save).0
                                   && Answers(cfg, w'.rows, i, plan, r.user.id, reply.credentials) && (r.isNew ==> o.createUser && o.grant))
            && (r.Bound? && !r.isNew && Password(r.user.row, cfg.key).Some? ==> reply.BoundTo?)
  {
    BindIsFinish(cfg, w, req, o, i, plan, kind, name);
    FinishAnswers(cfg, w, i, plan, kind, name, req.bindingID, o);
  }

  lemma FinishAnswers(cfg: Config, w: World, i: Instance, plan: Plan, kind: EngineKind, name: string, bindingID: string, o: BindCalls)
    requires KeysUsed(w.rows) && Loads(w.rows, i)
    ensures var (w', reply) := FinishBind(cfg, w, i, plan, kind, name, bindingID, o);
            var r := BindRows(w.rows, i, bindingID, name, Standard, cfg.key, o.entropy, o.save).1;
            && (reply.BoundTo? ==> r.Bound? && w'.rows == BindRows(w.rows, i, bindingID, name, Standard, cfg.key, o.entropy, o.save).0
                                   && Answers(cfg, w'.rows, i, plan, r.user.id, reply.credentials) && (r.isNew ==> o.createUser && o.grant))
            && (r.Bound? && !r.isNew && Password(r.user.row, cfg.key).Some? ==> reply.BoundTo?)
  {
    BoundUserStored(w.rows, i, bindingID, name, cfg.key, o.entropy, o.save);
  }

  lemma CredentialsUsable(cfg: Config, ids: set<string>, w': World, i: Instance, plan: Plan, u: nat, c: Credentials)
    requires Counted(cfg, ids, w') && Answers(cfg, w'.rows, i, plan, u, c) && w'.rows.users[u].kind == Standard
    requires i.id in w'.rows.instances && w'.rows.instances[i.id] == i.row && RecordedPlan(cfg, i.row) == Some(plan) && c.host in w'.servers
    ensures Usable(w'.servers[c.host], c.dbName, c.username, c.password)
  {
    assert StandardAt(cfg, w'.rows, u, c.host);
    ServedIsUsable(cfg, ids, w', u, c.host);
  }

  lemma BoundKind(rows: Rows, i: Instance, bindingID: string, name: string, key: Bytes, entropy: Option<Entropy>, save: bool)
    ensures var r := BindRows(rows, i, bindingID, name, Standard, key, entropy, save).1;
            r.Bound? ==> if r.isNew then r.user.row.kind == Standard
                         else UserNamed(i.users, name).Some? && r.user.row == UserNamed(i.users, name).value.row
  {
  }

  /** The user behind an answer is a standard one. */
  lemma BoundIsStandard(cfg: Config, ids: set<string>, rows: Rows, i: Instance, bindingID: string, kind: EngineKind, name: string, o: BindCalls)
    requires RowsFit(cfg, ids, rows) && Loads(rows, i) && FreshBindName(rows, o)
    requires CreateUsername(kind, i.row.instanceID, o.name) == Some(name)
    ensures var (rows', r) := BindRows(rows, i, bindingID, name, Standard, cfg.key, o.entropy, o.save);
            r.Bound? ==> r.user.row.kind == Standard
  {
    var r := BindRows(rows, i, bindingID, name, Standard, cfg.key, o.entropy, o.save).1;
    BoundKind(rows, i, bindingID, name, cfg.key, o.entropy, o.save);
    if r.Bound? && !r.isNew {
      FoundIsStandard(cfg, ids, rows, i, kind, name, Granting(o));
    }
  }

  /** An answer of `Bind` comes from a user that it found or stored. */
  lemma BindAnswers(cfg: Config, ids: set<string>, w: World, req: BindRequest, o: BindCalls) returns (i: Instance, plan: Plan, u: nat)
    requires RowsFit(cfg, ids, w.rows) && SharedUp(w.servers) && FreshBindName(w.rows, o) && Bind(cfg, w, req, o).1.BoundTo?
    ensures var (w', reply) := Bind(cfg, w, req, o);
            && Answers(cfg, w'.rows, i, plan, u, reply.credentials) && w'.rows.users[u].kind == Standard
            && i.id in w'.rows.instances && w'.rows.instances[i.id] == i.row && RecordedPlan(cfg, i.row) == Some(plan)
            && reply.credentials.host in w'.servers
            && (ChangesUsers(cfg, w, req, o) ==> o.createUser && o.grant)
  {
    FoundLoads(cfg, w.rows, req.instanceID, o.find);
    i, plan := FindObjects(cfg, w.rows, req.instanceID, o.find).value.0, FindObjects(cfg, w.rows, req.instanceID, o.find).value.2;
    var kind := OpenEngine(cfg, w.servers, i, plan, o.describe, o.open).value;
    var name := CreateUsername(kind, i.row.instanceID, o.name).value;
    u := BindRows(w.rows, i, req.bindingID, name, Standard, cfg.key, o.entropy, o.save).1.user.id;
    BindFoundAnswers(cfg, w, req, o, i, plan, kind, name);
    BindRowsKeys(w.rows, i, req.bindingID, name, cfg.key, o.entropy, o.save);
    BoundUserStored(w.rows, i, req.bindingID, name, cfg.key, o.entropy, o.save);
    BoundIsStandard(cfg, ids, w.rows, i, req.bindingID, kind, name, o);
    HomesStay(cfg, w, req, o);
  }

  /** An answer names a server that exists. */
  lemma HomesStay(cfg: Config, w: World, req: BindRequest, o: BindCalls)
    requires SharedUp(w.servers)
    ensures var (w', reply) := Bind(cfg, w, req, o);
            reply.BoundTo? ==> reply.credentials.host in w'.servers
  {
    var ok, i, plan, kind, username := BindReaches(cfg, w, req, o);
    if ok {
      FinishBindShape(cfg, w, i, plan, kind, username, req.bindingID, o);
      OpenedHome(cfg, w.servers, i, plan, o.describe, o.open);
    }
  }

  lemma OpenedHome(cfg: Config, servers: map<ServerId, Server>, i: Instance, plan: Plan, describe: bool, open: bool)
    requires SharedUp(servers) && OpenEngine(cfg, servers, i, plan, describe, open).Ok?
    ensures HomeOf(cfg, i.row, plan) in servers
  {
  }

  lemma AfterBindCounted(cfg: Config, ids: set<string>, w: World, req: BindRequest, o: BindCalls)
    requires RolesApart(ids) && Counted(cfg, ids, w) && FreshBindName(w.rows, o)
    requires ChangesUsers(cfg, w, req, o) ==> o.createUser && o.grant
    ensures Counted(cfg, ids, Bind(cfg, w, req, o).0)
  {
    if ChangesUsers(cfg, w, req, o) {
      BindCounted(cfg, ids, w, req, o);
    } else {
      NoNewUser(cfg, ids, w, req, o);
    }
  }

  /** Whatever fails: credentials that `Bind` hands out, from a state in step, can be used. */
  lemma BindAnswersUsable(cfg: Config, ids: set<string>, w: World, req: BindRequest, o: BindCalls)
    requires RolesApart(ids) && Counted(cfg, ids, w) && FreshBindName(w.rows, o)
    ensures var (w', reply) := Bind(cfg, w, req, o);
            reply.BoundTo? ==> var c := reply.credentials; c.host in w'.servers && Usable(w'.servers[c.host], c.dbName, c.username, c.password)
  {
    var (w', reply) := Bind(cfg, w, req, o);
    if reply.BoundTo? {
      var i, plan, u := BindAnswers(cfg, ids, w, req, o);
      AfterBindCounted(cfg, ids, w, req, o);
      CredentialsUsable(cfg, ids, w', i, plan, u, reply.credentials);
    }
  }

  // ---- A second Bind after one that failed ---------------------------------

  lemma FoundAgain(cfg: Config, w: World, w1: World, req: BindRequest, o: BindCalls)
    requires FindObjects(cfg, w.rows, req.instanceID, o.find).Ok? && UniqueInstanceIDs(w1.rows) && w1.rows.instances == w.rows.instances
    ensures var (first, again) := (FindObjects(cfg, w.rows, req.instanceID, o.find).value, FindObjects(cfg, w1.rows, req.instanceID, true));
            && again.Ok? && again.value.0.id == first.0.id && again.value.0.row == first.0.row
            && again.value.1 == first.1 && again.value.2 == first.2 && Loads(w1.rows, again.value.0)
  {
    var i := FindObjects(cfg, w.rows, req.instanceID, o.find).value.0;
    assert w1.rows.instances[i.id].instanceID == req.instanceID;
    LoadInstanceLoads(w1.rows, FindInstance(w1.rows, req.instanceID).value.id);
  }

  lemma StoredRowsFit(cfg: Config, ids: set<string>, rows: Rows, rows': Rows, user: UserRow, bindingID: string, sid: ServerId)
    requires RowsFit(cfg, ids, rows) && UserStored(cfg, ids, rows, rows', user, bindingID, sid)
    ensures RowsFit(cfg, ids, rows') && rows'.instances == rows.instances
    ensures exists u :: u in rows'.users && rows'.users[u] == user
  {
    var (u0, b0) := (rows.nextID, rows.nextID + 1);
    NewUserRowsFit(cfg, ids, rows, rows', u0, user, b0, bindingID, sid);
    assert rows'.users[u0] == user;
  }

  /** All the calls that a `Bind` of an existing user needs go through. */
  predicate Calm(o: BindCalls) {
    o.find && o.describe && o.open && o.save
  }

  lemma BindExisting(cfg: Config, w: World, req: BindRequest, o: BindCalls, i: Instance, plan: Plan, kind: EngineKind, name: string)
    requires FindObjects(cfg, w.rows, req.instanceID, o.find).Ok? && o.save
    requires var found := FindObjects(cfg, w.rows, req.instanceID, o.find).value; found.0 == i && found.1.bindable && found.2 == plan
    requires OpenEngine(cfg, w.servers, i, plan, o.describe, o.open) == Ok(kind)
    requires CreateUsername(kind, i.row.instanceID, o.name) == Some(name) && UserNamed(i.users, name).Some?
    requires Password(UserNamed(i.users, name).value.row, cfg.key).Some?
    ensures var (w', reply) := Bind(cfg, w, req, o);
            && w'.servers == w.servers
            && reply == BoundTo(Credentials(HomeOf(cfg, i.row, plan), i.row.dbName, name,
                                            Password(UserNamed(i.users, name).value.row, cfg.key).value))
  {
  }

  lemma FoundByName(cfg: Config, ids: set<string>, rows: Rows, i: Instance, user: UserRow)
    requires UsersFit(cfg, ids, rows) && Loads(rows, i) && user.instance == i.id && exists u :: u in rows.users && rows.users[u] == user
    ensures UserNamed(i.users, user.username).Some? && Password(UserNamed(i.users, user.username).value.row, cfg.key).Some?
  {
    var u :| u in rows.users && rows.users[u] == user;
    assert HasUser(i.users, u);
    var found := UserNamed(i.users, user.username).value;
    assert LoadsUser(rows, found) && UserFits(cfg, ids, rows, found.row);
  }

  /** Credentials without a role that can use the database. */
  predicate Dead(w: World, c: Credentials) {
    !(c.host in w.servers && Usable(w.servers[c.host], c.dbName, c.username, c.password))
  }

  lemma RebindAnswers(cfg: Config, ids: set<string>, w1: World, again: BindRequest, calls: BindCalls, i: Instance, plan: Plan, user: UserRow)
    requires RowsFit(cfg, ids, w1.rows) && Calm(calls) && FindObjects(cfg, w1.rows, again.instanceID, calls.find).Ok?
    requires var found := FindObjects(cfg, w1.rows, again.instanceID, calls.find).value; found.0 == i && found.1.bindable && found.2 == plan
    requires Loads(w1.rows, i) && EngineOf(plan) == Some(Postgres) && HomeOf(cfg, i.row, plan) in w1.servers
    requires user.instance == i.id && user.username == PostgresRole(i.row.instanceID)
    requires exists u :: u in w1.rows.users && w1.rows.users[u] == user
    requires !CanUse(w1.servers[HomeOf(cfg, i.row, plan)], i.row.dbName, user.username)
    ensures var (w2, reply) := Bind(cfg, w1, again, calls);
            reply.BoundTo? && Dead(w2, reply.credentials)
  {
    Opens(cfg, ids, w1.rows, w1.servers, i, plan);
    FoundByName(cfg, ids, w1.rows, i, user);
    BindExisting(cfg, w1, again, calls, i, plan, Postgres, user.username);
  }

  /** After a `Bind` on Postgres that stored its user and failed in SQL, a second `Bind` of that instance in
      which every call succeeds answers with credentials that cannot be used. */
  lemma RebindIsDead(cfg: Config, ids: set<string>, w: World, req: BindRequest, o: BindCalls, again: BindRequest, calls: BindCalls)
    requires RolesApart(ids) && Counted(cfg, ids, w) && FreshBindName(w.rows, o)
    requires AddsUser(cfg, w, req, o) && !(o.createUser && o.grant)
    requires FindObjects(cfg, w.rows, req.instanceID, o.find).Ok?
             && EngineOf(FindObjects(cfg, w.rows, req.instanceID, o.find).value.2) == Some(Postgres)
    requires again.instanceID == req.instanceID && Calm(calls)
    ensures var (w2, reply) := Bind(cfg, Bind(cfg, w, req, o).0, again, calls);
            reply.BoundTo? && Dead(w2, reply.credentials)
  {
    AddsUserIff(cfg, w, req, o);
    var w1 := Bind(cfg, w, req, o).0;
    var i, user := FailedBindLeaves(cfg, ids, w, req, o);
    FoundAgain(cfg, w, w1, req, o);
    var (again1, plan) := (FindObjects(cfg, w1.rows, req.instanceID, true).value.0, FindObjects(cfg, w.rows, req.instanceID, o.find).value.2);
    RebindAnswers(cfg, ids, w1, again, calls, again1, plan, user);
  }

  lemma FailedBindLeaves(cfg: Config, ids: set<string>, w: World, req: BindRequest, o: BindCalls) returns (i: Instance, user: UserRow)
    requires RolesApart(ids) && Counted(cfg, ids, w) && FreshBindName(w.rows, o)
    requires ChangesUsers(cfg, w, req, o) && !(o.createUser && o.grant)
    requires FindObjects(cfg, w.rows, req.instanceID, o.find).Ok?
             && EngineOf(FindObjects(cfg, w.rows, req.instanceID, o.find).value.2) == Some(Postgres)
    ensures var w1 := Bind(cfg, w, req, o).0;
            var (found, service, plan) := FindObjects(cfg, w.rows, req.instanceID, o.find).value;
            && i == found && service.bindable && RowsFit(cfg, ids, w1.rows) && w1.rows.instances == w.rows.instances
            && HomeOf(cfg, i.row, plan) in w1.servers
            && user.instance == i.id && user.username == PostgresRole(i.row.instanceID)
            && (exists u :: u in w1.rows.users && w1.rows.users[u] == user)
            && !CanUse(w1.servers[HomeOf(cfg, i.row, plan)], i.row.dbName, user.username)
  {
    var w1 := Bind(cfg, w, req, o).0;
    FoundLoads(cfg, w.rows, req.instanceID, o.find);
    i := FindObjects(cfg, w.rows, req.instanceID, o.find).value.0;
    var plan := FindObjects(cfg, w.rows, req.instanceID, o.find).value.2;
    var name := PostgresRole(i.row.instanceID);
    BindFoundDoes(cfg, w, req, o, i, plan, Postgres, name);
    BindRowsKeys(w.rows, i, req.bindingID, name, cfg.key, o.entropy, o.save);
    user := NewUser(Standard, cfg.key, o.entropy, i.id).value.(username := name);
    FailedStoreLeaves(cfg, ids, w, w1, i, plan, name, req.bindingID, o, user);
  }

  lemma FailedStoreLeaves(cfg: Config, ids: set<string>, w: World, w1: World, i: Instance, plan: Plan, name: string, bindingID: string,
                          o: BindCalls, user: UserRow)
    requires FailsAfterSaving(cfg, ids, w, w1, i, plan, Postgres, name, bindingID, o, user)
    ensures RowsFit(cfg, ids, w1.rows) && w1.rows.instances == w.rows.instances && HomeOf(cfg, i.row, plan) in w1.servers
    ensures user.instance == i.id && user.username == name && exists u :: u in w1.rows.users && w1.rows.users[u] == user
    ensures !CanUse(w1.servers[HomeOf(cfg, i.row, plan)], i.row.dbName, name)
  {
    FailedBindShape(cfg, ids, w, w1, i, plan, Postgres, name, bindingID, o, user);
    FailedBindOutOfStep(cfg, ids, w, w1, i, plan, Postgres, name, bindingID, o, user);
    StoredRowsFit(cfg, ids, w.rows, w1.rows, user, bindingID, HomeOf(cfg, i.row, plan));
  }

  // ---- Unbind --------------------------------------------------------------

  /** The call deletes the last binding of a user whose database server exists. */
  predicate TakesLastBinding(cfg: Config, w: World, req: BindRequest, o: UnbindCalls) {
    var found := FindObjects(cfg, w.rows, req.instanceID, o.find);
    && found.Ok? && HomeOf(cfg, found.value.0.row, found.value.2) in w.servers
    && var r := UnbindRows(w.rows, found.value.0, req.bindingID, o.deleteBinding).1; r.Unbound? && r.last
  }

  /** The calls after that: connecting, which a shared instance does not need, the two SQL statements, and
      the deletion of the user, which starts with the binding that is already gone. */
  predicate GoesThrough(cfg: Config, w: World, req: BindRequest, o: UnbindCalls) {
    var found := FindObjects(cfg, w.rows, req.instanceID, o.find);
    && found.Ok? && (found.value.2.shared || (o.describe && o.open))
    && o.revoke && o.dropUser && (o.deletes.None? || o.deletes.value >= 2)
  }

  function AllThrough(o: UnbindCalls): UnbindCalls {
    o.(describe := true, open := true, deletes := None)
  }

  /** The call gets to its second half. */
  lemma UnbindFinishes(cfg: Config, w: World, req: BindRequest, o: UnbindCalls)
    requires TakesLastBinding(cfg, w, req, o)
    ensures var found := FindObjects(cfg, w.rows, req.instanceID, o.find).value;
            var (rows, r) := UnbindRows(w.rows, found.0, req.bindingID, o.deleteBinding);
            Unbind(cfg, w, req, o) == FinishUnbind(cfg, w.(rows := rows), found.0, found.2, r.user, o)
  {
  }

  /** Calls that do not matter: those of a connection that is not made, and the deletions after the last. */
  lemma FinishesTheSame(cfg: Config, w: World, i: Instance, plan: Plan, user: User, o: UnbindCalls)
    requires (plan.shared || (o.describe && o.open)) && |user.bindings| == 1 && (o.deletes.None? || o.deletes.value >= 2)
    ensures FinishUnbind(cfg, w, i, plan, user, o).0 == FinishUnbind(cfg, w, i, plan, user, AllThrough(o)).0
  {
    assert OpenEngine(cfg, w.servers, i, plan, o.describe, o.open) == OpenEngine(cfg, w.servers, i, plan, true, true);
    UserCascadeAt(user);
    assert GoThrough(2, 0, o.deletes) == 2;
    assert DeleteUserRows(w.rows, user, o.deletes) == DeleteUserRows(w.rows, user, None);
  }

  lemma GoesThroughSame(cfg: Config, w: World, req: BindRequest, o: UnbindCalls)
    requires TakesLastBinding(cfg, w, req, o) && GoesThrough(cfg, w, req, o)
    ensures Unbind(cfg, w, req, o).0 == Unbind(cfg, w, req, AllThrough(o)).0
  {
    var found := FindObjects(cfg, w.rows, req.instanceID, o.find).value;
    var (rows, r) := UnbindRows(w.rows, found.0, req.bindingID, o.deleteBinding);
    UnbindFinishes(cfg, w, req, o);
    UnbindFinishes(cfg, w, req, AllThrough(o));
    FinishesTheSame(cfg, w.(rows := rows), found.0, found.2, r.user, o);
  }

  lemma FailedUnbindShape(cfg: Config, w: World, req: BindRequest, o: UnbindCalls)
    requires TakesLastBinding(cfg, w, req, o) && !GoesThrough(cfg, w, req, o)
    ensures var found := FindObjects(cfg, w.rows, req.instanceID, o.find).value;
            var (rows, r) := UnbindRows(w.rows, found.0, req.bindingID, o.deleteBinding);
            var w' := Unbind(cfg, w, req, o).0;
            && HomeOf(cfg, found.0.row, found.2) in w'.servers
            && (w'.rows == rows || (o.deletes.Some? && o.deletes.value < 2 && w'.rows == DeleteUserRows(rows, r.user, o.deletes)))
  {
  }

  /** What is left when one of them fails: the user without its binding, and its server. */
  lemma FailedUnbindLeaves(cfg: Config, w: World, req: BindRequest, o: UnbindCalls)
    requires TakesLastBinding(cfg, w, req, o) && !GoesThrough(cfg, w, req, o)
    ensures var found := FindObjects(cfg, w.rows, req.instanceID, o.find).value;
            var binding := BindingUser(found.0.users, req.bindingID).value.1;
            var w' := Unbind(cfg, w, req, o).0;
            && w'.rows.instances == w.rows.instances && w'.rows.users == w.rows.users
            && w'.rows.bindings == w.rows.bindings - {binding.id} && HomeOf(cfg, found.0.row, found.2) in w'.servers
  {
    var (user, binding) := BindingUser(FindObjects(cfg, w.rows, req.instanceID, o.find).value.0.users, req.bindingID).value;
    FailedUnbindShape(cfg, w, req, o);
    HalfUnbound(w.rows, Unbind(cfg, w, req, o).0.rows, user, binding, o.deletes);
  }

  lemma HalfUnbound(rows: Rows, rows': Rows, user: User, binding: Binding, deletes: Option<nat>)
    requires |user.bindings| == 1 && binding in user.bindings
    requires rows' == Erase(rows, [BindingRef(binding.id)])
             || (deletes.Some? && deletes.value < 2 && rows' == DeleteUserRows(Erase(rows, [BindingRef(binding.id)]), user, deletes))
    ensures rows'.instances == rows.instances && rows'.users == rows.users && rows'.bindings == rows.bindings - {binding.id}
  {
    ErasedBinding(rows, binding.id);
    assert user.bindings == [binding];
    if rows' != Erase(rows, [BindingRef(binding.id)]) {
      HalfErased(rows, user, binding, deletes);
    }
  }

  /** Fewer than two deletions leave the user. */
  lemma HalfErased(rows: Rows, user: User, binding: Binding, deletes: Option<nat>)
    requires user.bindings == [binding] && deletes.Some? && deletes.value < 2
    ensures DeleteUserRows(Erase(rows, [BindingRef(binding.id)]), user, deletes) == Erase(rows, [BindingRef(binding.id)])
  {
    var cascade := UserCascade(user);
    UserCascadeAt(user);
    assert cascade == [BindingRef(binding.id), UserRef(user.id)];
    assert cascade[..1] == [BindingRef(binding.id)] && cascade[..0] == [];
    EraseInSteps(rows, [BindingRef(binding.id)], [BindingRef(binding.id)]);
    EraseInSteps(rows, [BindingRef(binding.id)], []);
    var twice := [BindingRef(binding.id)] + [BindingRef(binding.id)];
    assert forall ref :: ref in twice <==> ref in [BindingRef(binding.id)];
    assert [BindingRef(binding.id)] + [] == [BindingRef(binding.id)];
    assert Erase(rows, twice) == Erase(rows, [BindingRef(binding.id)]);
  }

  /** A standard user without a binding. */
  lemma UnboundOutOfStep(cfg: Config, w': World, u: nat, sid: ServerId)
    requires StandardAt(cfg, w'.rows, u, sid) && sid in w'.servers && !HasBinding(w'.rows, u)
    ensures !AllInStep(cfg, w')
  {
    assert !InStep(cfg, w'.rows, w'.rows.users[u].instance, w'.servers[sid]);
  }

  lemma FailedUnbindOutOfStep(cfg: Config, ids: set<string>, w: World, req: BindRequest, o: UnbindCalls)
    requires RowsFit(cfg, ids, w.rows) && TakesLastBinding(cfg, w, req, o) && !GoesThrough(cfg, w, req, o)
    ensures !AllInStep(cfg, Unbind(cfg, w, req, o).0)
  {
    FoundLoads(cfg, w.rows, req.instanceID, o.find);
    FailedUnbindLeaves(cfg, w, req, o);
    var w' := Unbind(cfg, w, req, o).0;
    var (i, plan) := (FindObjects(cfg, w.rows, req.instanceID, o.find).value.0, FindObjects(cfg, w.rows, req.instanceID, o.find).value.2);
    var (user, binding) := BindingUser(i.users, req.bindingID).value;
    LastBindingOnly(w.rows, w'.rows, i, user, binding);
    UnboundOutOfStep(cfg, w', user.id, HomeOf(cfg, i.row, plan));
  }

  lemma LastBindingOnly(rows: Rows, rows': Rows, i: Instance, user: User, binding: Binding)
    requires Loads(rows, i) && user in i.users && binding in user.bindings && |user.bindings| == 1
    requires rows'.bindings == rows.bindings - {binding.id}
    ensures !HasBinding(rows', user.id) && user.id in rows.users && rows.users[user.id] == user.row && user.row.instance == i.id
  {
    assert LoadsUser(rows, user);
    forall b | b in rows.bindings && rows.bindings[b].user == user.id
      ensures b == binding.id
    {
      LastBindingGone(rows, user, binding, b);
    }
  }

  /** Unless it takes the last binding it does not matter how the rest goes. */
  lemma NotLastCounted(cfg: Config, ids: set<string>, w: World, req: BindRequest, o: UnbindCalls)
    requires Counted(cfg, ids, w) && !TakesLastBinding(cfg, w, req, o)
    ensures Counted(cfg, ids, Unbind(cfg, w, req, o).0)
  {
    FoundLoads(cfg, w.rows, req.instanceID, o.find);
    var found := FindObjects(cfg, w.rows, req.instanceID, o.find);
    if found.Ok? && UnbindRows(w.rows, found.value.0, req.bindingID, o.deleteBinding).1.Unbound? {
      var (user, binding) := BindingUser(found.value.0.users, req.bindingID).value;
      assert LoadsUser(w.rows, user) && user.row.instance == found.value.0.id;
      NotLastShape(cfg, w, req, o);
      BindingGoneCounted(cfg, ids, w, found.value.0, user, binding);
    }
  }

  lemma NotLastShape(cfg: Config, w: World, req: BindRequest, o: UnbindCalls)
    requires SharedUp(w.servers) && !TakesLastBinding(cfg, w, req, o)
    requires var found := FindObjects(cfg, w.rows, req.instanceID, o.find);
             found.Ok? && UnbindRows(w.rows, found.value.0, req.bindingID, o.deleteBinding).1.Unbound?
    ensures var i := FindObjects(cfg, w.rows, req.instanceID, o.find).value.0;
            Unbind(cfg, w, req, o).0 == w.(rows := UnbindRows(w.rows, i, req.bindingID, o.deleteBinding).0)
  {
  }

  /** When exactly an `Unbind` keeps users and roles in step, and then the invariant too: when it does not take the last binding of a
      user on an existing server, or every call after that goes through. */
  lemma UnbindInStepIff(cfg: Config, ids: set<string>, w: World, req: BindRequest, o: UnbindCalls)
    requires RolesApart(ids) && Counted(cfg, ids, w)
    ensures AllInStep(cfg, Unbind(cfg, w, req, o).0) <==> !TakesLastBinding(cfg, w, req, o) || GoesThrough(cfg, w, req, o)
    ensures Counted(cfg, ids, Unbind(cfg, w, req, o).0) <==> AllInStep(cfg, Unbind(cfg, w, req, o).0)
  {
    if !TakesLastBinding(cfg, w, req, o) {
      NotLastCounted(cfg, ids, w, req, o);
      CountedIsInStep(cfg, ids, Unbind(cfg, w, req, o).0);
    } else if GoesThrough(cfg, w, req, o) {
      GoesThroughSame(cfg, w, req, o);
      UnbindCounted(cfg, ids, w, req, AllThrough(o));
      CountedIsInStep(cfg, ids, Unbind(cfg, w, req, o).0);
    } else {
      FailedUnbindOutOfStep(cfg, ids, w, req, o);
      OutOfStepNotCounted(cfg, ids, Unbind(cfg, w, req, o).0);
    }
  }

  // ---- Provision -----------------------------------------------------------

  /** The look-up fails over a record with a standard user whose server is gone, and the call builds that
      server again, empty. */
  predicate RebuildsUsed(cfg: Config, w: World, req: ProvisionRequest, o: ProvisionCalls) {
    && !o.find
    && exists r :: r in w.rows.instances && w.rows.instances[r].instanceID == req.instanceID
                   && RebuildsHomeOf(cfg, w, req, o, r) && HasStandard(w.rows, r)
  }

  /** On an empty server an instance is in step exactly when it has no standard user. */
  lemma EmptyServerIff(cfg: Config, ids: set<string>, rows: Rows, r: nat, s: Server)
    requires UsersFit(cfg, ids, rows) && BindingsFit(rows) && r in rows.instances && s.roles == map[] && s.grants == {}
    ensures InStep(cfg, rows, r, s) <==> !HasStandard(rows, r)
  {
    if HasStandard(rows, r) {
      var u :| u in rows.users && rows.users[u].instance == r && rows.users[u].kind == Standard;
      assert HasStandardUser(rows, r, rows.users[u].username);
      assert !CanUse(s, rows.instances[r].dbName, rows.users[u].username);
    } else {
      assert forall name :: !CanUse(s, rows.instances[r].dbName, name) && !HasStandardUser(rows, r, name);
    }
  }

  lemma RebuiltOutOfStep(cfg: Config, ids: set<string>, w: World, req: ProvisionRequest, o: ProvisionCalls)
    requires RolesApart(ids) && Counted(cfg, ids, w) && RebuildsUsed(cfg, w, req, o)
    ensures !AllInStep(cfg, Provision(cfg, w, req, o).0)
  {
    var w' := Provision(cfg, w, req, o).0;
    var r :| r in w.rows.instances && w.rows.instances[r].instanceID == req.instanceID
             && RebuildsHomeOf(cfg, w, req, o, r) && HasStandard(w.rows, r);
    var home := Home(cfg, w.rows.instances[r]).value;
    RecordedProvision(cfg, ids, w, req, o);
    NewServersIff(cfg, w, req, o, home);
    EmptyServerIff(cfg, ids, w.rows, r, w'.servers[home]);
    assert At(cfg, w'.rows, r, home);
  }

  lemma NotRebuiltInStep(cfg: Config, ids: set<string>, w: World, req: ProvisionRequest, o: ProvisionCalls)
    requires RolesApart(ids) && Counted(cfg, ids, w) && req.instanceID in ids
    requires HasRecord(w.rows, req.instanceID) && !o.find && !RebuildsUsed(cfg, w, req, o)
    ensures AllInStep(cfg, Provision(cfg, w, req, o).0)
  {
    var w' := Provision(cfg, w, req, o).0;
    RecordedProvision(cfg, ids, w, req, o);
    CountedIsInStep(cfg, ids, w);
    forall r, sid | At(cfg, w'.rows, r, sid) && sid in w'.servers
      ensures InStep(cfg, w'.rows, r, w'.servers[sid])
    {
      assert At(cfg, w.rows, r, sid);
      if sid in w.servers {
        SameUsersInStep(cfg, w.rows, r, w.servers[sid], w'.servers[sid]);
      } else {
        OnlyItsRecord(cfg, ids, w.rows, RowOf(cfg, req), r, sid);
        NewServersIff(cfg, w, req, o, sid);
        assert RebuildsHomeOf(cfg, w, req, o, r);
        EmptyServerIff(cfg, ids, w.rows, r, w'.servers[sid]);
      }
    }
  }

  /** When exactly users and roles are in step right after a `Provision`: unless its look-up fails over a record
      with a standard user, the server of that record is gone, and the call builds it again. Any other call
      may fail. When it keeps the invariant as well is `ProvisionCountedIff`. */
  lemma ProvisionInStepIff(cfg: Config, ids: set<string>, w: World, req: ProvisionRequest, o: ProvisionCalls)
    requires ValidServices(cfg.services) && RolesApart(ids) && Counted(cfg, ids, w) && req.instanceID in ids
    requires !HasRecord(w.rows, req.instanceID) ==> FreshMaster(ids, w.rows, o)
    ensures AllInStep(cfg, Provision(cfg, w, req, o).0) <==> !RebuildsUsed(cfg, w, req, o)
  {
    if RebuildsUsed(cfg, w, req, o) {
      RebuiltOutOfStep(cfg, ids, w, req, o);
    } else if HasRecord(w.rows, req.instanceID) && !o.find {
      NotRebuiltInStep(cfg, ids, w, req, o);
    } else {
      ProvisionCounted(cfg, ids, w, req, o);
      CountedIsInStep(cfg, ids, Provision(cfg, w, req, o).0);
    }
  }
}
