/** `Unbind` keeps users and roles in step; and what holds whenever rows and roles go, which
    RefCountDelete.dfy uses too. */
module RefCountUnbind {
  import opened Wrappers
  import opened Models
  import opened Records
  import opened Catalog
  import opened SqlServers
  import opened Broker
  import opened RunRecords
  import opened RefCount

  // ---- Rows go -------------------------------------------------------------

  /** Rows are only removed, and a user that stays keeps its bindings. */
  ghost predicate Shrunk(rows: Rows, rows': Rows) {
    && (forall r :: r in rows'.instances ==> r in rows.instances && rows'.instances[r] == rows.instances[r])
    && (forall u :: u in rows'.users ==> u in rows.users && rows'.users[u] == rows.users[u])
    && (forall b :: b in rows'.bindings ==> b in rows.bindings && rows'.bindings[b] == rows.bindings[b])
    && (forall b :: b in rows.bindings && rows.bindings[b].user in rows'.users ==> b in rows'.bindings)
  }

  /** Every user and instance that goes is on that server. */
  ghost predicate GoneFrom(cfg: Config, rows: Rows, rows': Rows, sid: ServerId) {
    && (forall u :: u in rows.users && u !in rows'.users ==> UserAt(cfg, rows, u, sid))
    && (forall r :: r in rows.instances && r !in rows'.instances ==> At(cfg, rows, r, sid))
  }

  lemma ShrunkRowsFit(cfg: Config, ids: set<string>, rows: Rows, rows': Rows)
    requires RowsFit(cfg, ids, rows) && RecordsOk(rows', {}) && Shrunk(rows, rows')
    ensures RowsFit(cfg, ids, rows')
  {
    assert UsersFit(cfg, ids, rows') by {
      forall u | u in rows'.users
        ensures UserFits(cfg, ids, rows', rows'.users[u])
      {
        assert UserFits(cfg, ids, rows, rows.users[u]);
      }
    }
    assert NamesApart(cfg, rows') by {
      ShrunkNamesApart(cfg, rows, rows');
    }
    ShrunkOthersFit(cfg, ids, rows, rows');
  }

  lemma ShrunkNamesApart(cfg: Config, rows: Rows, rows': Rows)
    requires NamesApart(cfg, rows) && Shrunk(rows, rows')
    ensures NamesApart(cfg, rows')
  {
    forall u, v, sid | UserAt(cfg, rows', u, sid) && UserAt(cfg, rows', v, sid) && rows'.users[u].username == rows'.users[v].username
      ensures u == v
    {
      assert UserAt(cfg, rows, u, sid) && UserAt(cfg, rows, v, sid);
    }
  }

  lemma ShrunkOthersFit(cfg: Config, ids: set<string>, rows: Rows, rows': Rows)
    requires InstancesFit(cfg, ids, rows) && BindingsFit(rows) && Integrity(rows') && Shrunk(rows, rows')
    ensures InstancesFit(cfg, ids, rows') && BindingsFit(rows')
  {
  }

  lemma ShrunkServes(cfg: Config, rows: Rows, rows': Rows, sid: ServerId, kind: EngineKind)
    requires Shrunk(rows, rows') && Serves(cfg, rows', sid, kind)
    ensures Serves(cfg, rows, sid, kind)
  {
    if !(sid.Shared? && SharedEngine(sid.engine) == Some(kind)) {
      var r :| At(cfg, rows', r, sid) && Kind(cfg, rows'.instances[r]) == Some(kind);
      assert At(cfg, rows, r, sid);
    }
  }

  /** Where nothing goes the standard users are the same. */
  lemma ShrunkAgrees(cfg: Config, rows: Rows, rows': Rows, sid: ServerId, from: ServerId)
    requires Shrunk(rows, rows') && Integrity(rows) && Integrity(rows') && GoneFrom(cfg, rows, rows', from) && sid != from
    ensures AgreeAt(cfg, rows, rows', sid)
  {
    forall u | StandardAt(cfg, rows, u, sid)
      ensures StandardAt(cfg, rows', u, sid)
    {
      assert !UserAt(cfg, rows, u, from);
    }
  }

  lemma ShrunkServersFit(cfg: Config, w: World, w': World, from: ServerId)
    requires ServersFit(cfg, w) && Shrunk(w.rows, w'.rows) && Integrity(w.rows) && Integrity(w'.rows) && GoneFrom(cfg, w.rows, w'.rows, from)
    requires forall sid :: sid in w'.servers && sid != from ==> sid in w.servers && w'.servers[sid] == w.servers[sid]
    requires forall kind :: from in w'.servers && Serves(cfg, w'.rows, from, kind) ==> ServerFits(cfg, w'.rows, from, w'.servers[from], kind)
    ensures ServersFit(cfg, w')
  {
    forall sid, kind | sid in w'.servers && Serves(cfg, w'.rows, sid, kind)
      ensures ServerFits(cfg, w'.rows, sid, w'.servers[sid], kind)
    {
      if sid != from {
        ShrunkServes(cfg, w.rows, w'.rows, sid, kind);
        ShrunkAgrees(cfg, w.rows, w'.rows, sid, from);
        assert forall r :: At(cfg, w'.rows, r, sid) ==> At(cfg, w.rows, r, sid);
        AgreeingFits(cfg, w.rows, w'.rows, sid, w.servers[sid], kind);
      }
    }
  }

  lemma ShrunkBound(cfg: Config, w: World, w': World)
    requires UsersBound(cfg, w) && Shrunk(w.rows, w'.rows) && w'.servers.Keys <= w.servers.Keys
    ensures UsersBound(cfg, w')
  {
    forall u, sid | StandardAt(cfg, w'.rows, u, sid) && sid in w'.servers
      ensures HasBinding(w'.rows, u)
    {
      assert StandardAt(cfg, w.rows, u, sid);
      var b :| b in w.rows.bindings && w.rows.bindings[b].user == u;
      assert w'.rows.bindings[b].user == u;
    }
  }

  /** Rows go that belong to one server, and no other server changes. */
  ghost predicate Removal(cfg: Config, w: World, w': World, from: ServerId) {
    && Shrunk(w.rows, w'.rows) && GoneFrom(cfg, w.rows, w'.rows, from) && w'.servers.Keys == w.servers.Keys
    && forall sid :: sid in w'.servers && sid != from ==> w'.servers[sid] == w.servers[sid]
  }

  /** The server that rows were removed from fits what is left. */
  ghost predicate FitsAfter(cfg: Config, w': World, from: ServerId) {
    forall kind :: from in w'.servers && Serves(cfg, w'.rows, from, kind) ==> ServerFits(cfg, w'.rows, from, w'.servers[from], kind)
  }

  lemma ShrunkCounted(cfg: Config, ids: set<string>, w: World, w': World, from: ServerId)
    requires Counted(cfg, ids, w) && RecordsOk(w'.rows, {}) && Removal(cfg, w, w', from) && FitsAfter(cfg, w', from)
    ensures Counted(cfg, ids, w')
  {
    ShrunkRowsFit(cfg, ids, w.rows, w'.rows);
    ShrunkServersFit(cfg, w, w', from);
    ShrunkBound(cfg, w, w');
  }

  // ---- Roles go ------------------------------------------------------------

  /** On MySQL the roles of removed users are gone, on both engines their grants, and the others all that they could. */
  ghost predicate RolesRemoved(cfg: Config, rows: Rows, rows': Rows, sid: ServerId, s: Server, s': Server, kind: EngineKind) {
    && (kind == MySQL ==> RolesKept(cfg, rows, rows', sid, s, s'))
    && (forall g :: g in s'.grants ==> g in s.grants && !RemovedGrant(cfg, rows, rows', sid, g))
    && (forall u :: StandardAt(cfg, rows', u, sid) ==> UserServed(cfg, rows', u, s'))
    && (forall r :: At(cfg, rows', r, sid) ==> rows'.instances[r].dbName in s'.databases)
  }

  /** No role is new or changed, and none is that of a removed user. */
  ghost predicate RolesKept(cfg: Config, rows: Rows, rows': Rows, sid: ServerId, s: Server, s': Server) {
    forall name :: name in s'.roles ==> name in s.roles && s'.roles[name] == s.roles[name] && !RemovedName(cfg, rows, rows', sid, name)
  }

  ghost predicate RemovedName(cfg: Config, rows: Rows, rows': Rows, sid: ServerId, name: string) {
    exists u :: StandardAt(cfg, rows, u, sid) && u !in rows'.users && rows.users[u].username == name
  }

  ghost predicate RemovedGrant(cfg: Config, rows: Rows, rows': Rows, sid: ServerId, g: (string, string)) {
    exists u :: StandardAt(cfg, rows, u, sid) && u !in rows'.users
                && g == (rows.instances[rows.users[u].instance].dbName, rows.users[u].username)
  }

  lemma RemovedFits(cfg: Config, rows: Rows, rows': Rows, sid: ServerId, s: Server, s': Server, kind: EngineKind)
    requires Shrunk(rows, rows') && Integrity(rows') && ServerFits(cfg, rows, sid, s, kind)
    requires RolesRemoved(cfg, rows, rows', sid, s, s', kind)
    ensures ServerFits(cfg, rows', sid, s', kind)
  {
    forall name | LiveName(cfg, rows, sid, name) && !RemovedName(cfg, rows, rows', sid, name)
      ensures LiveName(cfg, rows', sid, name)
    {
      var u :| StandardAt(cfg, rows, u, sid) && rows.users[u].username == name;
      assert StandardAt(cfg, rows', u, sid);
    }
    forall g | LiveGrant(cfg, rows, sid, g) && !RemovedGrant(cfg, rows, rows', sid, g)
      ensures LiveGrant(cfg, rows', sid, g)
    {
      var u :| StandardAt(cfg, rows, u, sid) && rows.users[u].username == g.1 && rows.instances[rows.users[u].instance].dbName == g.0;
      assert StandardAt(cfg, rows', u, sid);
    }
  }

  // ---- Unbind --------------------------------------------------------------

  /** The calls of an `Unbind` that have to succeed. */
  predicate CarefulUnbind(o: UnbindCalls) {
    o.describe && o.open && o.revoke && o.dropUser && o.deletes.None?
  }

  lemma ErasedBinding(rows: Rows, id: nat)
    ensures var rows' := Erase(rows, [BindingRef(id)]);
            rows'.instances == rows.instances && rows'.users == rows.users && rows'.bindings == rows.bindings - {id}
  {
    var rows' := Erase(rows, [BindingRef(id)]);
    assert rows'.instances == rows.instances;
    assert rows'.users == rows.users;
    assert rows'.bindings == rows.bindings - {id};
  }

  /** One binding of a standard user goes. */
  lemma OneBindingLess(rows: Rows, id: nat)
    requires RecordsOk(rows, {}) && BindingsFit(rows)
    ensures var rows' := Erase(rows, [BindingRef(id)]); RecordsOk(rows', {}) && BindingsFit(rows')
  {
    EraseBindingKeeps(rows, {}, id);
  }

  /** Unless it was the last one the user still has a binding. */
  lemma StillBound(rows: Rows, user: User, binding: Binding)
    requires LoadsUser(rows, user) && binding in user.bindings && |user.bindings| != 1
    ensures exists b :: b in rows.bindings && b != binding.id && rows.bindings[b].user == user.id
  {
    var k :| 0 <= k < |user.bindings| && user.bindings[k] == binding;
    var other := if k == 0 then 1 else 0;
    assert user.bindings[other] in user.bindings && user.bindings[other].id != binding.id;
  }

  lemma LastBindingGone(rows: Rows, user: User, binding: Binding, b: nat)
    requires LoadsUser(rows, user) && binding in user.bindings && |user.bindings| == 1
    requires b in rows.bindings && rows.bindings[b].user == user.id
    ensures b == binding.id
  {
    assert Binding(b, rows.bindings[b].bindingID) in user.bindings;
  }

  /** Without that binding the users elsewhere are bound, and the user itself unless it was its last and
      its server exists. */
  lemma UnboundRowBound(cfg: Config, w: World, w': World, user: User, binding: Binding)
    requires UsersBound(cfg, w) && LoadsUser(w.rows, user) && binding in user.bindings && w'.servers == w.servers
    requires w'.rows.instances == w.rows.instances && w'.rows.users == w.rows.users && w'.rows.bindings == w.rows.bindings - {binding.id}
    requires |user.bindings| != 1 || forall sid :: sid in w.servers ==> !StandardAt(cfg, w.rows, user.id, sid)
    ensures UsersBound(cfg, w')
  {
    forall u, sid | StandardAt(cfg, w'.rows, u, sid) && sid in w'.servers
      ensures HasBinding(w'.rows, u)
    {
      assert StandardAt(cfg, w.rows, u, sid);
      var b :| b in w.rows.bindings && w.rows.bindings[b].user == u;
      if u == user.id {
        StillBound(w.rows, user, binding);
        var other :| other in w.rows.bindings && other != binding.id && w.rows.bindings[other].user == user.id;
        assert w'.rows.bindings[other].user == u;
      } else {
        assert w'.rows.bindings[b].user == u;
      }
    }
  }

  lemma BindingGoneCounted(cfg: Config, ids: set<string>, w: World, i: Instance, user: User, binding: Binding)
    requires Counted(cfg, ids, w) && Loads(w.rows, i) && user in i.users && binding in user.bindings
    requires |user.bindings| != 1 || forall sid :: sid in w.servers ==> !StandardAt(cfg, w.rows, user.id, sid)
    ensures Counted(cfg, ids, w.(rows := Erase(w.rows, [BindingRef(binding.id)])))
  {
    var w' := w.(rows := Erase(w.rows, [BindingRef(binding.id)]));
    OneBindingLess(w.rows, binding.id);
    ErasedBinding(w.rows, binding.id);
    UnboundRowBound(cfg, w, w', user, binding);
    SameUsersCounted(cfg, ids, w, w');
  }

  // The last binding, while the server exists.

  lemma ErasedUser(rows: Rows, user: User, binding: Binding)
    requires user.bindings == [binding]
    ensures var rows' := DeleteUserRows(Erase(rows, [BindingRef(binding.id)]), user, None);
            rows'.instances == rows.instances && rows'.users == rows.users - {user.id} && rows'.bindings == rows.bindings - {binding.id}
  {
    var cascade := UserCascade(user);
    UserCascadeAt(user);
    assert cascade[..|cascade|] == cascade && cascade == [BindingRef(binding.id), UserRef(user.id)];
    EraseInSteps(rows, [BindingRef(binding.id)], cascade);
    var refs := [BindingRef(binding.id)] + cascade;
    assert refs == [BindingRef(binding.id), BindingRef(binding.id), UserRef(user.id)];
    var rows' := Erase(rows, refs);
    assert rows'.instances == rows.instances;
    assert rows'.users == rows.users - {user.id};
    assert rows'.bindings == rows.bindings - {binding.id};
  }

  /** The rows without the user, which had this one binding. */
  lemma UserGoneRows(cfg: Config, rows: Rows, user: User, binding: Binding, sid: ServerId)
    requires LoadsUser(rows, user) && user.bindings == [binding] && UserAt(cfg, rows, user.id, sid)
    ensures var rows' := DeleteUserRows(Erase(rows, [BindingRef(binding.id)]), user, None);
            Shrunk(rows, rows') && GoneFrom(cfg, rows, rows', sid)
  {
    ErasedUser(rows, user, binding);
    forall b | b in rows.bindings && b == binding.id
      ensures rows.bindings[b].user == user.id
    {
      assert binding in user.bindings;
    }
  }

  lemma UserGoneRecordsOk(rows: Rows, i: Instance, bindingID: string)
    requires RecordsOk(rows, {}) && Loads(rows, i) && BindingUser(i.users, bindingID).Some?
    ensures var (user, binding) := BindingUser(i.users, bindingID).value;
            RecordsOk(DeleteUserRows(Erase(rows, [BindingRef(binding.id)]), user, None), {})
  {
    UnbindKeeps(rows, {}, i, bindingID, true, None);
  }

  /** The server without the role, or with the role disabled. */
  function Disabled(kind: EngineKind, s: Server, dbName: string, name: string): Server
    requires name in s.roles
  {
    match kind
    case Postgres => s.(roles := s.roles[name := s.roles[name].(login := false)], grants := s.grants - {(dbName, name)})
    case MySQL => s.(roles := s.roles - {name}, grants := set g | g in s.grants && g.1 != name)
  }

  lemma DisableUserDoes(kind: EngineKind, s: Server, dbName: string, name: string)
    requires name in s.roles && dbName in s.databases && (dbName, name) in s.grants
    ensures DisableUser(kind, s, dbName, name, true, true) == (Disabled(kind, s, dbName, name), true)
  {
    var left := s.grants - {(dbName, name)};
    assert (set g | g in left && g.1 != name) == (set g | g in s.grants && g.1 != name);
  }

  /** The others on the server are served as before. */
  lemma OthersServed(cfg: Config, rows: Rows, rows': Rows, sid: ServerId, s: Server, u0: nat, kind: EngineKind)
    requires Shrunk(rows, rows') && NamesApart(cfg, rows) && StandardAt(cfg, rows, u0, sid) && u0 !in rows'.users
    requires AllServed(cfg, rows, sid, s)
    ensures UserServed(cfg, rows, u0, s)
    ensures var s' := Disabled(kind, s, rows.instances[rows.users[u0].instance].dbName, rows.users[u0].username);
            AllServed(cfg, rows', sid, s')
  {
    assert UserServed(cfg, rows, u0, s);
    var s' := Disabled(kind, s, rows.instances[rows.users[u0].instance].dbName, rows.users[u0].username);
    forall u | StandardAt(cfg, rows', u, sid)
      ensures UserServed(cfg, rows', u, s')
    {
      assert StandardAt(cfg, rows, u, sid) && UserServed(cfg, rows, u, s);
      assert UserAt(cfg, rows, u, sid) && UserAt(cfg, rows, u0, sid);
    }
  }

  lemma DisabledRemoves(cfg: Config, rows: Rows, rows': Rows, sid: ServerId, s: Server, u0: nat, kind: EngineKind)
    requires rows'.users == rows.users - {u0} && StandardAt(cfg, rows, u0, sid) && rows.users[u0].username in s.roles
    ensures var s' := Disabled(kind, s, rows.instances[rows.users[u0].instance].dbName, rows.users[u0].username);
            && (kind == MySQL ==> RolesKept(cfg, rows, rows', sid, s, s'))
            && (forall g :: g in s'.grants ==> g in s.grants && !RemovedGrant(cfg, rows, rows', sid, g))
            && s'.databases == s.databases
  {
  }

  /** The server fits the rows without the user. */
  lemma DisabledFits(cfg: Config, rows: Rows, rows': Rows, sid: ServerId, s: Server, u0: nat, kind: EngineKind)
    requires Shrunk(rows, rows') && Integrity(rows') && rows'.instances == rows.instances && rows'.users == rows.users - {u0}
    requires NamesApart(cfg, rows) && StandardAt(cfg, rows, u0, sid) && ServerFits(cfg, rows, sid, s, kind)
    ensures UserServed(cfg, rows, u0, s)
    ensures ServerFits(cfg, rows', sid, Disabled(kind, s, rows.instances[rows.users[u0].instance].dbName, rows.users[u0].username), kind)
  {
    var s' := Disabled(kind, s, rows.instances[rows.users[u0].instance].dbName, rows.users[u0].username);
    OthersServed(cfg, rows, rows', sid, s, u0, kind);
    DisabledRemoves(cfg, rows, rows', sid, s, u0, kind);
    assert forall r :: At(cfg, rows', r, sid) ==> At(cfg, rows, r, sid);
    RemovedFits(cfg, rows, rows', sid, s, s', kind);
  }

  /** An instance whose server exists can be opened: it has its master user, whose password opens. */
  lemma Opens(cfg: Config, ids: set<string>, rows: Rows, servers: map<ServerId, Server>, i: Instance, plan: Plan)
    requires RowsFit(cfg, ids, rows) && Loads(rows, i) && RecordedPlan(cfg, i.row) == Some(plan) && HomeOf(cfg, i.row, plan) in servers
    ensures EngineOf(plan).Some? && OpenEngine(cfg, servers, i, plan, true, true) == Ok(EngineOf(plan).value)
  {
    assert InstanceFits(cfg, ids, i.row);
    var u :| u in rows.users && rows.users[u].instance == i.id && rows.users[u].kind == Master;
    assert HasUser(i.users, u);
    var master := MasterUser(i.users);
    assert master.Some? && LoadsUser(rows, master.value);
    assert UserFits(cfg, ids, rows, master.value.row);
  }

  /** What `Unbind` does after it has found the instance. */
  ghost predicate UnbindDoes(cfg: Config, w: World, w': World, i: Instance, plan: Plan, bindingID: string, o: UnbindCalls) {
    var (rows, r) := UnbindRows(w.rows, i, bindingID, o.deleteBinding);
    var home := HomeOf(cfg, i.row, plan);
    if !r.Unbound? then w' == w
    else if !r.last || home !in w.servers then w' == w.(rows := rows)
    else
      && EngineOf(plan).Some?
      && var (s, done) := DisableUser(EngineOf(plan).value, w.servers[home], i.row.dbName, r.user.row.username, true, true);
         done ==> w' == World(DeleteUserRows(rows, r.user, None), w.servers[home := s], w.log)
  }

  lemma UnbindFoundDoes(cfg: Config, ids: set<string>, w: World, req: BindRequest, o: UnbindCalls, i: Instance, plan: Plan)
    requires RowsFit(cfg, ids, w.rows) && CarefulUnbind(o) && Loads(w.rows, i) && RecordedPlan(cfg, i.row) == Some(plan)
    requires FindObjects(cfg, w.rows, req.instanceID, o.find).Ok?
    requires var found := FindObjects(cfg, w.rows, req.instanceID, o.find).value; found.0 == i && found.2 == plan
    ensures UnbindDoes(cfg, w, Unbind(cfg, w, req, o).0, i, plan, req.bindingID, o)
  {
    if HomeOf(cfg, i.row, plan) in w.servers {
      Opens(cfg, ids, w.rows, w.servers, i, plan);
      UnbindOpened(cfg, w, req, o, i, plan);
    } else {
      UnbindNotOpened(cfg, w, req, o, i, plan);
    }
  }

  lemma UnbindOpened(cfg: Config, w: World, req: BindRequest, o: UnbindCalls, i: Instance, plan: Plan)
    requires CarefulUnbind(o) && FindObjects(cfg, w.rows, req.instanceID, o.find).Ok?
    requires var found := FindObjects(cfg, w.rows, req.instanceID, o.find).value; found.0 == i && found.2 == plan
    requires HomeOf(cfg, i.row, plan) in w.servers && EngineOf(plan).Some?
    requires OpenEngine(cfg, w.servers, i, plan, true, true) == Ok(EngineOf(plan).value)
    ensures UnbindDoes(cfg, w, Unbind(cfg, w, req, o).0, i, plan, req.bindingID, o)
  {
  }

  lemma UnbindNotOpened(cfg: Config, w: World, req: BindRequest, o: UnbindCalls, i: Instance, plan: Plan)
    requires CarefulUnbind(o) && FindObjects(cfg, w.rows, req.instanceID, o.find).Ok?
    requires var found := FindObjects(cfg, w.rows, req.instanceID, o.find).value; found.0 == i && found.2 == plan
    requires HomeOf(cfg, i.row, plan) !in w.servers
    ensures UnbindDoes(cfg, w, Unbind(cfg, w, req, o).0, i, plan, req.bindingID, o)
  {
  }

  function WithoutUser(w: World, user: User, binding: Binding, dbName: string, sid: ServerId, kind: EngineKind): World
    requires sid in w.servers && user.row.username in w.servers[sid].roles
  {
    w.(rows := DeleteUserRows(Erase(w.rows, [BindingRef(binding.id)]), user, None),
       servers := w.servers[sid := Disabled(kind, w.servers[sid], dbName, user.row.username)])
  }

  /** A standard user of a loaded instance, with its one binding, on an existing server. */
  ghost predicate LastBinding(cfg: Config, w: World, i: Instance, user: User, binding: Binding, sid: ServerId, kind: EngineKind) {
    && LoadsUser(w.rows, user) && user.bindings == [binding] && user.row.instance == i.id
    && i.id in w.rows.instances && w.rows.instances[i.id] == i.row
    && StandardAt(cfg, w.rows, user.id, sid) && sid in w.servers && Kind(cfg, i.row) == Some(kind)
    && ServerFits(cfg, w.rows, sid, w.servers[sid], kind)
  }

  lemma LastBindingServed(cfg: Config, w: World, i: Instance, user: User, binding: Binding, sid: ServerId, kind: EngineKind)
    requires LastBinding(cfg, w, i, user, binding, sid, kind)
    ensures var s := w.servers[sid];
            user.row.username in s.roles && i.row.dbName in s.databases && (i.row.dbName, user.row.username) in s.grants
  {
    assert UserServed(cfg, w.rows, user.id, w.servers[sid]);
  }

  lemma UserGoneServerFits(cfg: Config, ids: set<string>, w: World, w': World, i: Instance, user: User, binding: Binding,
                           sid: ServerId, kind: EngineKind)
    requires RolesApart(ids) && RowsFit(cfg, ids, w.rows) && LastBinding(cfg, w, i, user, binding, sid, kind)
    requires user.row.username in w.servers[sid].roles && w' == WithoutUser(w, user, binding, i.row.dbName, sid, kind)
    requires Shrunk(w.rows, w'.rows) && Integrity(w'.rows)
    ensures FitsAfter(cfg, w', sid)
  {
    ErasedUser(w.rows, user, binding);
    forall other | Serves(cfg, w'.rows, sid, other)
      ensures ServerFits(cfg, w'.rows, sid, w'.servers[sid], other)
    {
      SameInstancesServe(cfg, w.rows, w'.rows, sid, other);
      OnlyKind(cfg, ids, w.rows, user.row.instance, sid, other);
      DisabledFits(cfg, w.rows, w'.rows, sid, w.servers[sid], user.id, kind);
    }
  }

  lemma UserGoneRemoval(cfg: Config, w: World, w': World, i: Instance, user: User, binding: Binding, sid: ServerId, kind: EngineKind)
    requires LastBinding(cfg, w, i, user, binding, sid, kind)
    requires user.row.username in w.servers[sid].roles && w' == WithoutUser(w, user, binding, i.row.dbName, sid, kind)
    ensures Removal(cfg, w, w', sid)
  {
    UserGoneRows(cfg, w.rows, user, binding, sid);
    OneServerChanged(cfg, w, w', sid, Disabled(kind, w.servers[sid], i.row.dbName, user.row.username));
  }

  lemma OneServerChanged(cfg: Config, w: World, w': World, sid: ServerId, s': Server)
    requires Shrunk(w.rows, w'.rows) && GoneFrom(cfg, w.rows, w'.rows, sid) && sid in w.servers && w'.servers == w.servers[sid := s']
    ensures Removal(cfg, w, w', sid)
  {
  }

  lemma UserGoneCounted(cfg: Config, ids: set<string>, w: World, w': World, i: Instance, user: User, binding: Binding, sid: ServerId, kind: EngineKind)
    requires RolesApart(ids) && Counted(cfg, ids, w) && LastBinding(cfg, w, i, user, binding, sid, kind)
    requires user.row.username in w.servers[sid].roles && w' == WithoutUser(w, user, binding, i.row.dbName, sid, kind)
    requires RecordsOk(w'.rows, {})
    ensures Counted(cfg, ids, w')
  {
    UserGoneRemoval(cfg, w, w', i, user, binding, sid, kind);
    UserGoneServerFits(cfg, ids, w, w', i, user, binding, sid, kind);
    ShrunkCounted(cfg, ids, w, w', sid);
  }

  lemma IsLastBinding(cfg: Config, w: World, i: Instance, plan: Plan, user: User, binding: Binding, kind: EngineKind)
    requires ServersFit(cfg, w) && Loads(w.rows, i) && RecordedPlan(cfg, i.row) == Some(plan) && EngineOf(plan) == Some(kind)
    requires user in i.users && user.row.kind == Standard && binding in user.bindings && |user.bindings| == 1
    requires HomeOf(cfg, i.row, plan) in w.servers
    ensures LastBinding(cfg, w, i, user, binding, HomeOf(cfg, i.row, plan), kind)
  {
    var sid := HomeOf(cfg, i.row, plan);
    assert LoadsUser(w.rows, user) && user.row.instance == i.id && user.bindings == [binding];
    assert At(cfg, w.rows, i.id, sid) && Serves(cfg, w.rows, sid, kind);
  }

  /** The last binding of a user goes, and with it the user and its role. */
  lemma LastUnbindCounted(cfg: Config, ids: set<string>, w: World, w': World, i: Instance, plan: Plan, bindingID: string, o: UnbindCalls)
    requires RolesApart(ids) && Counted(cfg, ids, w) && Loads(w.rows, i) && RecordedPlan(cfg, i.row) == Some(plan)
    requires UnbindDoes(cfg, w, w', i, plan, bindingID, o)
    requires var r := UnbindRows(w.rows, i, bindingID, o.deleteBinding).1; r.Unbound? && r.last
    requires HomeOf(cfg, i.row, plan) in w.servers
    ensures Counted(cfg, ids, w')
  {
    var (user, binding) := BindingUser(i.users, bindingID).value;
    var (sid, kind) := (HomeOf(cfg, i.row, plan), EngineOf(plan).value);
    IsLastBinding(cfg, w, i, plan, user, binding, kind);
    LastBindingServed(cfg, w, i, user, binding, sid, kind);
    assert w' == WithoutUser(w, user, binding, i.row.dbName, sid, kind) by {
      DisableUserDoes(kind, w.servers[sid], i.row.dbName, user.row.username);
    }
    assert RecordsOk(w'.rows, {}) by {
      UserGoneRecordsOk(w.rows, i, bindingID);
    }
    UserGoneCounted(cfg, ids, w, w', i, user, binding, sid, kind);
  }

  /** A server that an instance is on serves its engine only. */
  lemma OnlyKind(cfg: Config, ids: set<string>, rows: Rows, r: nat, sid: ServerId, kind: EngineKind)
    requires RolesApart(ids) && RowsFit(cfg, ids, rows) && At(cfg, rows, r, sid) && Serves(cfg, rows, sid, kind)
    ensures Kind(cfg, rows.instances[r]) == Some(kind)
  {
    if sid.Shared? && SharedEngine(sid.engine) == Some(kind) {
      HomeShape(cfg, rows.instances[r], sid);
    } else {
      var q :| At(cfg, rows, q, sid) && Kind(cfg, rows.instances[q]) == Some(kind);
      assert Kind(cfg, rows.instances[r]) == Kind(cfg, rows.instances[q]) by {
        OneKind(cfg, ids, rows, r, q, sid);
      }
    }
  }

  /** `Unbind` keeps users and roles in step if the calls behind the last binding go through. */
  lemma UnbindCounted(cfg: Config, ids: set<string>, w: World, req: BindRequest, o: UnbindCalls)
    requires RolesApart(ids) && Counted(cfg, ids, w) && CarefulUnbind(o)
    ensures Counted(cfg, ids, Unbind(cfg, w, req, o).0)
  {
    FoundLoads(cfg, w.rows, req.instanceID, o.find);
    var found := FindObjects(cfg, w.rows, req.instanceID, o.find);
    if found.Ok? {
      var (i, plan) := (found.value.0, found.value.2);
      UnbindFoundDoes(cfg, ids, w, req, o, i, plan);
      UnbindDoesCounted(cfg, ids, w, Unbind(cfg, w, req, o).0, i, plan, req.bindingID, o);
    }
  }

  lemma UnbindDoesCounted(cfg: Config, ids: set<string>, w: World, w': World, i: Instance, plan: Plan, bindingID: string, o: UnbindCalls)
    requires RolesApart(ids) && Counted(cfg, ids, w) && Loads(w.rows, i) && RecordedPlan(cfg, i.row) == Some(plan)
    requires UnbindDoes(cfg, w, w', i, plan, bindingID, o)
    ensures Counted(cfg, ids, w')
  {
    var r := UnbindRows(w.rows, i, bindingID, o.deleteBinding).1;
    if r.Unbound? {
      if r.last && HomeOf(cfg, i.row, plan) in w.servers {
        LastUnbindCounted(cfg, ids, w, w', i, plan, bindingID, o);
      } else {
        var (user, binding) := BindingUser(i.users, bindingID).value;
        assert LoadsUser(w.rows, user) && user.row.instance == i.id;
        BindingGoneCounted(cfg, ids, w, i, user, binding);
      }
    }
  }
}
