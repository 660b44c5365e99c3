/** `Deprovision` and `LastOperation` keep users and roles in step. */
module RefCountDelete {
  import opened Wrappers
  import opened Models
  import opened Records
  import opened Catalog
  import opened SqlServers
  import opened Broker
  import opened RunRecords
  import opened RefCount
  import opened RefCountUnbind

  // ---- The rows of an instance go ------------------------------------------

  /** Exactly the instance, its users and their bindings are gone. */
  ghost predicate InstanceGone(rows: Rows, rows': Rows, i: nat) {
    && Shrunk(rows, rows')
    && (forall r :: r in rows'.instances <==> r in rows.instances && r != i)
    && (forall u :: u in rows'.users <==> u in rows.users && rows.users[u].instance != i)
  }

  /** No deletion of a row fails, or not one of these. */
  predicate Whole(i: Instance, deletes: Option<nat>) {
    deletes.None? || |InstanceCascade(i)| <= deletes.value
  }

  lemma WholeIsAll(rows: Rows, i: Instance, deletes: Option<nat>)
    requires Whole(i, deletes)
    ensures DeleteInstanceRows(rows, i, deletes) == DeleteInstanceRows(rows, i, None)
  {
    assert GoThrough(|InstanceCascade(i)|, 0, deletes) == |InstanceCascade(i)|;
  }

  lemma DeletedInstanceGone(rows: Rows, i: Instance)
    requires Integrity(rows) && Loads(rows, i)
    ensures InstanceGone(rows, DeleteInstanceRows(rows, i, None), i.id)
  {
    var cascade := InstanceCascade(i);
    assert cascade[..|cascade|] == cascade;
    InstanceCascadeRemovesExactly(rows, i);
  }

  lemma DeletedRecordsOk(rows: Rows, i: Instance)
    requires RecordsOk(rows, {}) && Loads(rows, i)
    ensures RecordsOk(DeleteInstanceRows(rows, i, None), {})
  {
    DeletedInstanceGone(rows, i);
    MoreBegun(rows, {}, {i.id});
    DeleteInstanceKeeps(rows, {i.id}, i, None);
  }

  lemma GoneFromHome(cfg: Config, rows: Rows, rows': Rows, i: nat, sid: ServerId)
    requires At(cfg, rows, i, sid) && InstanceGone(rows, rows', i)
    ensures GoneFrom(cfg, rows, rows', sid)
  {
  }

  // ---- LastOperation -------------------------------------------------------

  lemma NobodyLeft(cfg: Config, ids: set<string>, w: World, w': World, i: nat, sid: ServerId)
    requires RolesApart(ids) && RowsFit(cfg, ids, w.rows) && At(cfg, w.rows, i, sid) && !sid.Shared? && InstanceGone(w.rows, w'.rows, i)
    ensures FitsAfter(cfg, w', sid)
  {
    forall r
      ensures !At(cfg, w'.rows, r, sid)
    {
      if At(cfg, w'.rows, r, sid) {
        OneKind(cfg, ids, w.rows, r, i, sid);
      }
    }
    assert forall kind :: !Serves(cfg, w'.rows, sid, kind);
  }

  lemma DedicatedGone(cfg: Config, ids: set<string>, w: World, w': World, i: Instance, plan: Plan)
    requires RolesApart(ids) && Counted(cfg, ids, w) && Loads(w.rows, i) && RecordedPlan(cfg, i.row) == Some(plan) && !plan.shared
    requires w'.rows == DeleteInstanceRows(w.rows, i, None) && w'.servers == w.servers
    ensures Counted(cfg, ids, w')
  {
    var sid := HomeOf(cfg, i.row, plan);
    DeletedInstanceGone(w.rows, i);
    DeletedRecordsOk(w.rows, i);
    GoneFromHome(cfg, w.rows, w'.rows, i.id, sid);
    NobodyLeft(cfg, ids, w, w', i.id, sid);
    ShrunkCounted(cfg, ids, w, w', sid);
  }

  // ---- Dropping users ------------------------------------------------------

  predicate Named(users: seq<User>, name: string) {
    exists u :: u in users && u.row.username == name
  }

  lemma NamedLast(users: seq<User>, name: string)
    requires users != []
    ensures Named(users, name) <==> Named(users[..|users| - 1], name) || users[|users| - 1].row.username == name
  {
    var (init, last) := (users[..|users| - 1], users[|users| - 1]);
    assert users == init + [last];
    if users[|users| - 1].row.username == name {
      assert last in users;
    }
  }

  /** Exactly the named roles whose drop goes through can do nothing any more. */
  ghost predicate DroppedSome(kind: EngineKind, s: Server, s': Server, users: seq<User>, dropUser: string -> bool) {
    && s'.databases == s.databases
    && (forall name :: name in s'.roles <==> name in s.roles && (kind == Postgres || !(Named(users, name) && dropUser(name))))
    && (forall name :: name in s'.roles
          ==> if Named(users, name) && dropUser(name) then !s'.roles[name].login else s'.roles[name] == s.roles[name])
    && (forall g :: g in s'.grants <==> g in s.grants && !(kind == MySQL && Named(users, g.1) && dropUser(g.1) && g.1 in s.roles))
  }

  lemma DropOneMore(kind: EngineKind, s: Server, before: Server, after: Server, users: seq<User>, dropUser: string -> bool)
    requires users != [] && DroppedSome(kind, s, before, users[..|users| - 1], dropUser)
    requires var name := users[|users| - 1].row.username;
             var r := DropUser(kind, before, name, dropUser(name));
             after == match r case Some(dropped) => dropped case None => before
    ensures DroppedSome(kind, s, after, users, dropUser)
  {
    forall name {
      NamedLast(users, name);
    }
  }

  lemma {:induction false} SomeDropped(kind: EngineKind, s: Server, users: seq<User>, dropUser: string -> bool)
    ensures DroppedSome(kind, s, DropUsers(kind, s, users, dropUser), users, dropUser)
  {
    if users != [] {
      var init := users[..|users| - 1];
      SomeDropped(kind, s, init, dropUser);
      DropOneMore(kind, s, DropUsers(kind, s, init, dropUser), DropUsers(kind, s, users, dropUser), users, dropUser);
    }
  }

  // ---- Deprovision of a shared instance ------------------------------------

  /** The server after the database was dropped and those users whose drop went through. */
  ghost predicate ServerDropped(kind: EngineKind, s: Server, s': Server, i: Instance, dropUser: string -> bool) {
    exists mid :: DropDB(kind, s, i.row.dbName, true) == Some(mid) && DroppedSome(kind, mid, s', i.users, dropUser)
  }

  /** The users of an instance are gone, its database is dropped, and on MySQL all their roles with it. */
  ghost predicate InstanceDropped(cfg: Config, rows: Rows, rows': Rows, i: Instance, kind: EngineKind, s: Server, s': Server,
                                  dropUser: string -> bool) {
    && Loads(rows, i) && InstanceGone(rows, rows', i.id) && ServerDropped(kind, s, s', i, dropUser)
    && (kind == MySQL ==> forall u :: StandardOf(rows, i.id, u) ==> dropUser(rows.users[u].username))
  }

  lemma NameOfGone(rows: Rows, i: Instance, u: nat)
    requires Loads(rows, i) && u in rows.users && rows.users[u].instance == i.id
    ensures Named(i.users, rows.users[u].username)
  {
    assert HasUser(i.users, u);
    var loaded :| loaded in i.users && loaded.id == u;
    assert LoadsUser(rows, loaded);
  }

  /** A user that stays on the server shares no name with one that goes. */
  lemma NameOfOther(cfg: Config, rows: Rows, i: Instance, sid: ServerId, u: nat)
    requires Loads(rows, i) && NamesApart(cfg, rows) && At(cfg, rows, i.id, sid)
    requires UserAt(cfg, rows, u, sid) && rows.users[u].instance != i.id
    ensures !Named(i.users, rows.users[u].username)
  {
    forall loaded | loaded in i.users
      ensures loaded.row.username != rows.users[u].username
    {
      assert LoadsUser(rows, loaded) && UserAt(cfg, rows, loaded.id, sid);
    }
  }

  lemma OtherDatabase(cfg: Config, ids: set<string>, rows: Rows, r: nat, q: nat)
    requires RolesApart(ids) && UniqueInstanceIDs(rows) && InstancesFit(cfg, ids, rows)
    requires r in rows.instances && q in rows.instances && r != q
    ensures rows.instances[r].dbName != rows.instances[q].dbName
  {
    assert InstanceFits(cfg, ids, rows.instances[r]) && InstanceFits(cfg, ids, rows.instances[q]);
    if rows.instances[r].dbName == rows.instances[q].dbName {
      RolesApartNames(cfg, ids, rows.instances[r].instanceID, rows.instances[q].instanceID);
    }
  }

  lemma DroppedRoles(cfg: Config, rows: Rows, rows': Rows, i: Instance, sid: ServerId, s: Server, s': Server, dropUser: string -> bool)
    requires InstanceDropped(cfg, rows, rows', i, MySQL, s, s', dropUser)
    ensures RolesKept(cfg, rows, rows', sid, s, s')
  {
    forall name | name in s'.roles
      ensures name in s.roles && s'.roles[name] == s.roles[name] && !RemovedName(cfg, rows, rows', sid, name)
    {
      forall u | StandardAt(cfg, rows, u, sid) && u !in rows'.users
        ensures rows.users[u].username != name
      {
        NameOfGone(rows, i, u);
        assert StandardOf(rows, i.id, u);
      }
    }
  }

  lemma DroppedGrants(cfg: Config, rows: Rows, rows': Rows, i: Instance, sid: ServerId, kind: EngineKind, s: Server, s': Server,
                      dropUser: string -> bool)
    requires InstanceDropped(cfg, rows, rows', i, kind, s, s', dropUser) && AllServed(cfg, rows, sid, s)
    ensures forall g :: g in s'.grants ==> g in s.grants && !RemovedGrant(cfg, rows, rows', sid, g)
  {
    forall g, u | g in s'.grants && StandardAt(cfg, rows, u, sid) && u !in rows'.users
      ensures g != (rows.instances[rows.users[u].instance].dbName, rows.users[u].username)
    {
      NameOfGone(rows, i, u);
      assert StandardOf(rows, i.id, u) && UserServed(cfg, rows, u, s);
    }
  }

  lemma DroppedOthersServed(cfg: Config, ids: set<string>, rows: Rows, rows': Rows, i: Instance, sid: ServerId, kind: EngineKind,
                            s: Server, s': Server, dropUser: string -> bool)
    requires RolesApart(ids) && UniqueInstanceIDs(rows) && InstancesFit(cfg, ids, rows) && NamesApart(cfg, rows)
    requires InstanceDropped(cfg, rows, rows', i, kind, s, s', dropUser) && AllServed(cfg, rows, sid, s) && At(cfg, rows, i.id, sid)
    ensures AllServed(cfg, rows', sid, s')
  {
    forall u | StandardAt(cfg, rows', u, sid)
      ensures UserServed(cfg, rows', u, s')
    {
      assert StandardAt(cfg, rows, u, sid) && UserServed(cfg, rows, u, s);
      NameOfOther(cfg, rows, i, sid, u);
      OtherDatabase(cfg, ids, rows, rows.users[u].instance, i.id);
    }
  }

  lemma DroppedDatabases(cfg: Config, ids: set<string>, rows: Rows, rows': Rows, i: Instance, sid: ServerId, kind: EngineKind,
                         s: Server, s': Server, dropUser: string -> bool)
    requires RolesApart(ids) && UniqueInstanceIDs(rows) && InstancesFit(cfg, ids, rows)
    requires InstanceDropped(cfg, rows, rows', i, kind, s, s', dropUser) && DatabasesThere(cfg, rows, sid, s)
    ensures DatabasesThere(cfg, rows', sid, s')
  {
    forall r | At(cfg, rows', r, sid)
      ensures rows'.instances[r].dbName in s'.databases
    {
      assert At(cfg, rows, r, sid);
      OtherDatabase(cfg, ids, rows, r, i.id);
    }
  }

  lemma DroppedFits(cfg: Config, ids: set<string>, rows: Rows, rows': Rows, i: Instance, sid: ServerId, kind: EngineKind,
                    s: Server, s': Server, dropUser: string -> bool)
    requires RolesApart(ids) && RowsFit(cfg, ids, rows) && Integrity(rows') && ServerFits(cfg, rows, sid, s, kind)
    requires InstanceDropped(cfg, rows, rows', i, kind, s, s', dropUser) && At(cfg, rows, i.id, sid)
    ensures ServerFits(cfg, rows', sid, s', kind)
  {
    assert RolesRemoved(cfg, rows, rows', sid, s, s', kind) by {
      if kind == MySQL {
        DroppedRoles(cfg, rows, rows', i, sid, s, s', dropUser);
      }
      DroppedGrants(cfg, rows, rows', i, sid, kind, s, s', dropUser);
      DroppedOthersServed(cfg, ids, rows, rows', i, sid, kind, s, s', dropUser);
      DroppedDatabases(cfg, ids, rows, rows', i, sid, kind, s, s', dropUser);
    }
    RemovedFits(cfg, rows, rows', sid, s, s', kind);
  }

  lemma DroppedFitsAfter(cfg: Config, ids: set<string>, w: World, w': World, i: Instance, sid: ServerId, kind: EngineKind,
                         dropUser: string -> bool)
    requires RolesApart(ids) && RowsFit(cfg, ids, w.rows) && ServersFit(cfg, w) && Integrity(w'.rows)
    requires sid in w.servers && sid in w'.servers && At(cfg, w.rows, i.id, sid) && Kind(cfg, i.row) == Some(kind)
    requires InstanceDropped(cfg, w.rows, w'.rows, i, kind, w.servers[sid], w'.servers[sid], dropUser)
    ensures FitsAfter(cfg, w', sid)
  {
    forall other | Serves(cfg, w'.rows, sid, other)
      ensures ServerFits(cfg, w'.rows, sid, w'.servers[sid], other)
    {
      ShrunkServes(cfg, w.rows, w'.rows, sid, other);
      OnlyKind(cfg, ids, w.rows, i.id, sid, other);
      DroppedFits(cfg, ids, w.rows, w'.rows, i, sid, kind, w.servers[sid], w'.servers[sid], dropUser);
    }
  }

  lemma InstanceRemoval(cfg: Config, w: World, w': World, i: nat, sid: ServerId, s': Server)
    requires At(cfg, w.rows, i, sid) && InstanceGone(w.rows, w'.rows, i) && sid in w.servers && w'.servers == w.servers[sid := s']
    ensures Removal(cfg, w, w', sid)
  {
    GoneFromHome(cfg, w.rows, w'.rows, i, sid);
  }

  lemma SharedDeprovisionCounted(cfg: Config, ids: set<string>, w: World, w': World, i: Instance, sid: ServerId, kind: EngineKind,
                                 s': Server, dropUser: string -> bool)
    requires RolesApart(ids) && Counted(cfg, ids, w) && sid in w.servers && At(cfg, w.rows, i.id, sid) && Kind(cfg, i.row) == Some(kind)
    requires w'.servers == w.servers[sid := s'] && w'.rows == DeleteInstanceRows(w.rows, i, None)
    requires InstanceDropped(cfg, w.rows, w'.rows, i, kind, w.servers[sid], s', dropUser)
    ensures Counted(cfg, ids, w')
  {
    DeletedRecordsOk(w.rows, i);
    InstanceRemoval(cfg, w, w', i.id, sid, s');
    DroppedFitsAfter(cfg, ids, w, w', i, sid, kind, dropUser);
    ShrunkCounted(cfg, ids, w, w', sid);
  }

  // ---- Deprovision ---------------------------------------------------------

  /** The call drops the database of a shared instance. */
  predicate DropsDatabase(cfg: Config, w: World, req: DeprovisionRequest, o: DeprovisionCalls) {
    var found := FindObjects(cfg, w.rows, req.instanceID, o.find);
    req.asyncAllowed && found.Ok? && found.value.2.shared && SharedEngine(found.value.2.engine).Some? && o.dropDB
  }

  /** A standard user of a MySQL instance keeps its account, because the drop of that user fails. */
  predicate LeavesAccounts(cfg: Config, w: World, req: DeprovisionRequest, o: DeprovisionCalls) {
    && DropsDatabase(cfg, w, req, o)
    && var (i, _, plan) := FindObjects(cfg, w.rows, req.instanceID, o.find).value;
       SharedEngine(plan.engine) == Some(MySQL) && exists u :: u in w.rows.users && StandardOf(w.rows, i.id, u) && !o.dropUser(w.rows.users[u].username)
  }

  /** What must not happen in a `Deprovision`: that it drops the database and does not delete all rows of the
      instance, or leaves an account. A user drop that fails on Postgres does no harm. */
  predicate CarefulDeprovision(cfg: Config, w: World, req: DeprovisionRequest, o: DeprovisionCalls) {
    DropsDatabase(cfg, w, req, o)
    ==> Whole(FindObjects(cfg, w.rows, req.instanceID, o.find).value.0, o.deletes) && !LeavesAccounts(cfg, w, req, o)
  }

  lemma SharedDeprovisionEffect(cfg: Config, w: World, req: DeprovisionRequest, o: DeprovisionCalls, i: Instance, plan: Plan)
    requires DropsDatabase(cfg, w, req, o) && SharedUp(w.servers)
    requires var found := FindObjects(cfg, w.rows, req.instanceID, o.find).value; found.0 == i && found.2 == plan
    ensures var (w', sid) := (Deprovision(cfg, w, req, o).0, Shared(plan.engine));
            && sid in w.servers && sid in w'.servers && w'.servers == w.servers[sid := w'.servers[sid]]
            && w'.rows == DeleteInstanceRows(w.rows, i, o.deletes)
            && ServerDropped(SharedEngine(plan.engine).value, w.servers[sid], w'.servers[sid], i, o.dropUser)
  {
    var (kind, s) := (SharedEngine(plan.engine).value, w.servers[Shared(plan.engine)]);
    var mid := DropDB(kind, s, i.row.dbName, true).value;
    SomeDropped(kind, mid, i.users, o.dropUser);
    assert DropDB(kind, s, i.row.dbName, true) == Some(mid) && DroppedSome(kind, mid, DropUsers(kind, mid, i.users, o.dropUser), i.users, o.dropUser);
  }

  /** Otherwise `Deprovision` leaves rows, roles and grants alone. */
  lemma OtherwiseCalm(cfg: Config, w: World, req: DeprovisionRequest, o: DeprovisionCalls)
    requires !DropsDatabase(cfg, w, req, o)
    ensures var w' := Deprovision(cfg, w, req, o).0;
            w'.rows == w.rows && w'.servers.Keys == w.servers.Keys && forall sid :: sid in w.servers ==> SameUsers(w.servers[sid], w'.servers[sid])
  {
  }

  lemma DeprovisionCounted(cfg: Config, ids: set<string>, w: World, req: DeprovisionRequest, o: DeprovisionCalls)
    requires RolesApart(ids) && Counted(cfg, ids, w) && CarefulDeprovision(cfg, w, req, o)
    ensures Counted(cfg, ids, Deprovision(cfg, w, req, o).0)
  {
    var w' := Deprovision(cfg, w, req, o).0;
    if DropsDatabase(cfg, w, req, o) {
      FoundLoads(cfg, w.rows, req.instanceID, o.find);
      var (i, plan) := (FindObjects(cfg, w.rows, req.instanceID, o.find).value.0, FindObjects(cfg, w.rows, req.instanceID, o.find).value.2);
      var sid := Shared(plan.engine);
      SharedDeprovisionEffect(cfg, w, req, o, i, plan);
      WholeIsAll(w.rows, i, o.deletes);
      DeletedInstanceGone(w.rows, i);
      SharedDeprovisionCounted(cfg, ids, w, w', i, sid, SharedEngine(plan.engine).value, w'.servers[sid], o.dropUser);
    } else {
      OtherwiseCalm(cfg, w, req, o);
      CalmKeeps(cfg, ids, w, w');
    }
  }
}
