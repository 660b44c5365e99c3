/** What a completed `Deprovision` of a shared instance can leave on the server, and when exactly that puts
    the next instance with the same ID out of step. */
module Leftovers {
  import opened Wrappers
  import opened Models
  import opened Records
  import opened Catalog
  import opened SqlServers
  import opened Broker
  import opened RunRecords
  import opened RunReferences
  import opened RefCount
  import opened RefCountProvision
  import opened RefCountUnbind
  import opened RefCountDelete
  import opened DeletionFailures

  // ---- A new instance ------------------------------------------------------

  /** The request passes the checks for a plan on that shared server, and the two calls of a shared plan go
      through, which the save does not over an older record. */
  predicate StoresOn(cfg: Config, w: World, req: ProvisionRequest, o: ProvisionCalls, sid: ServerId) {
    var checked := ProvisionCheck(cfg, w.rows, req, o);
    && checked.Checked? && checked.plan.shared && SharedEngine(checked.plan.engine).Some? && Shared(checked.plan.engine) == sid
    && o.createDB && o.save && !HasRecord(w.rows, req.instanceID)
  }

  /** Some role can use the database. */
  ghost predicate InUse(s: Server, dbName: string) {
    exists name :: CanUse(s, dbName, name)
  }

  predicate PlansOn(cfg: Config, req: ProvisionRequest, sid: ServerId) {
    var plan := RecordedPlan(cfg, RowOf(cfg, req));
    plan.Some? && plan.value.shared && Shared(plan.value.engine) == sid
  }

  lemma StoresOnIff(cfg: Config, w: World, req: ProvisionRequest, o: ProvisionCalls, sid: ServerId)
    requires SharedUp(w.servers)
    ensures Provision(cfg, w, req, o).1.Provisioned? && PlansOn(cfg, req, sid) <==> StoresOn(cfg, w, req, o, sid)
  {
    var first := ProvisionCheck(cfg, w.rows, req, o);
    ProvisionUnfold(cfg, w, req, o, Begin);
    ProvisionUnfold(cfg, w, req, o, first);
    if first.Checked? && first.plan.shared {
      var (w1, second) := ProvisionStep(cfg, w, req, o, first);
      ProvisionUnfold(cfg, w1, req, o, second);
      var (w2, third) := ProvisionStep(cfg, w1, req, o, second);
      ProvisionUnfold(cfg, w2, req, o, third);
    }
  }

  lemma OldStandardUsers(rows: Rows, rows': Rows, r0: nat, row: InstanceRow, u0: nat, master: UserRow, r: nat, name: string)
    requires NewInstanceRows(rows, rows', r0, row, u0, master) && r != r0
    ensures HasStandardUser(rows', r, name) <==> HasStandardUser(rows, r, name)
  {
    if HasStandardUser(rows, r, name) {
      var u :| u in rows.users && rows.users[u].instance == r && rows.users[u].kind == Standard && rows.users[u].username == name;
      assert rows'.users[u] == rows.users[u];
    }
  }

  /** An instance that was there before stays in step. */
  lemma OldInStep(cfg: Config, rows: Rows, rows': Rows, r0: nat, row: InstanceRow, u0: nat, master: UserRow, r: nat, s: Server)
    requires NewInstanceRows(rows, rows', r0, row, u0, master) && r in rows.instances && r != r0 && InStep(cfg, rows, r, s)
    ensures InStep(cfg, rows', r, s)
  {
    assert forall u :: HasBinding(rows', u) <==> HasBinding(rows, u);
    forall name
      ensures CanUse(s, rows'.instances[r].dbName, name) <==> HasStandardUser(rows', r, name)
    {
      OldStandardUsers(rows, rows', r0, row, u0, master, r, name);
    }
  }

  /** A new instance is in step exactly when no role can use its database. */
  lemma NewInStepIff(cfg: Config, rows: Rows, rows': Rows, r0: nat, row: InstanceRow, u0: nat, master: UserRow, s': Server)
    requires Integrity(rows) && NewInstanceRows(rows, rows', r0, row, u0, master)
    ensures InStep(cfg, rows', r0, s') <==> !InUse(s', row.dbName)
  {
    assert forall u :: u in rows'.users && rows'.users[u].instance == r0 ==> u == u0;
    assert !HasBinding(rows', u0);
    assert forall name :: !HasStandardUser(rows', r0, name);
    if name :| CanUse(s', row.dbName, name) {
      assert rows'.instances[r0].dbName == row.dbName && !HasStandardUser(rows', r0, name);
    }
  }

  lemma StoredInStepIff(cfg: Config, ids: set<string>, w: World, w': World, row: InstanceRow, master: UserRow, plan: Plan)
    requires RolesApart(ids) && RowsFit(cfg, ids, w.rows) && AllInStep(cfg, w) && row.instanceID in ids
    requires forall r :: r in w.rows.instances ==> w.rows.instances[r].instanceID != row.instanceID
    requires RecordedPlan(cfg, row) == Some(plan) && SharedUp(w.servers)
    requires NewInstanceRows(w.rows, w'.rows, w.rows.nextID, row, w.rows.nextID + 1, master)
    requires ProvisionServers(cfg, w.servers, w'.servers, row) && HomeReady(cfg, w.servers, w'.servers, row, plan)
    ensures AllInStep(cfg, w') <==> !InUse(w'.servers[HomeOf(cfg, row, plan)], row.dbName)
  {
    var home := HomeOf(cfg, row, plan);
    NewInStepIff(cfg, w.rows, w'.rows, w.rows.nextID, row, w.rows.nextID + 1, master, w'.servers[home]);
    assert At(cfg, w'.rows, w.rows.nextID, home);
    forall r, sid | r != w.rows.nextID && At(cfg, w'.rows, r, sid) && sid in w'.servers
      ensures InStep(cfg, w'.rows, r, w'.servers[sid])
    {
      assert At(cfg, w.rows, r, sid);
      if sid !in w.servers {
        NobodyElseThere(cfg, ids, w.rows, row, r, sid);
      }
      SameUsersInStep(cfg, w.rows, r, w.servers[sid], w'.servers[sid]);
      OldInStep(cfg, w.rows, w'.rows, w.rows.nextID, row, w.rows.nextID + 1, master, r, w'.servers[sid]);
    }
  }

  lemma RefusedInStep(cfg: Config, ids: set<string>, w: World, w': World, row: InstanceRow)
    requires RolesApart(ids) && RowsFit(cfg, ids, w.rows) && AllInStep(cfg, w) && row.instanceID in ids
    requires forall r :: r in w.rows.instances ==> w.rows.instances[r].instanceID != row.instanceID
    requires w'.rows == w.rows && ProvisionServers(cfg, w.servers, w'.servers, row)
    ensures AllInStep(cfg, w')
  {
    forall r, sid | At(cfg, w'.rows, r, sid) && sid in w'.servers
      ensures InStep(cfg, w'.rows, r, w'.servers[sid])
    {
      if sid !in w.servers {
        NobodyElseThere(cfg, ids, w.rows, row, r, sid);
      }
      SameUsersInStep(cfg, w.rows, r, w.servers[sid], w'.servers[sid]);
    }
  }

  lemma UseIsKept(s: Server, s': Server, dbName: string)
    requires SameUsers(s, s')
    ensures InUse(s', dbName) <==> InUse(s, dbName)
  {
    assert forall name :: CanUse(s', dbName, name) <==> CanUse(s, dbName, name);
  }

  lemma ProvisionedInStepIff(cfg: Config, ids: set<string>, w: World, req: ProvisionRequest, o: ProvisionCalls)
    requires RolesApart(ids) && RowsFit(cfg, ids, w.rows) && AllInStep(cfg, w) && SharedUp(w.servers)
    requires req.instanceID in ids && !HasRecord(w.rows, req.instanceID) && Provision(cfg, w, req, o).1.Provisioned?
    ensures var (row, plan) := (RowOf(cfg, req), RecordedPlan(cfg, RowOf(cfg, req)));
            && plan.Some? && (plan.value.shared ==> Shared(plan.value.engine) in w.servers)
            && (AllInStep(cfg, Provision(cfg, w, req, o).0)
                <==> !(plan.value.shared && InUse(w.servers[Shared(plan.value.engine)], row.dbName)))
  {
    var plan, master := ProvisionedShape(cfg, w, req, o);
    var (w', row) := (Provision(cfg, w, req, o).0, RowOf(cfg, req));
    StoredInStepIff(cfg, ids, w, w', row, master, plan);
    HomeInUse(cfg, w, w', row, plan);
  }

  /** What a `Provision` that succeeds adds to the tables and to the servers. */
  lemma ProvisionedShape(cfg: Config, w: World, req: ProvisionRequest, o: ProvisionCalls) returns (plan: Plan, master: UserRow)
    requires KeysUsed(w.rows) && Provision(cfg, w, req, o).1.Provisioned?
    ensures var (w', row) := (Provision(cfg, w, req, o).0, RowOf(cfg, req));
            && RecordedPlan(cfg, row) == Some(plan)
            && NewInstanceRows(w.rows, w'.rows, w.rows.nextID, row, w.rows.nextID + 1, master)
            && ProvisionServers(cfg, w.servers, w'.servers, row) && HomeReady(cfg, w.servers, w'.servers, row, plan)
  {
    ProvisionFromReady(cfg, w.servers, w, req, o, Begin);
    ProvisionFromMaster(cfg, w, req, o, Begin);
    plan := RecordedPlan(cfg, RowOf(cfg, req)).value;
    var made := NewUser(Master, cfg.key, o.entropy, 0).value;
    master := made.(instance := w.rows.nextID);
    InsertedInstance(w.rows, RowOf(cfg, req), made);
  }

  lemma HomeInUse(cfg: Config, w: World, w': World, row: InstanceRow, plan: Plan)
    requires SharedUp(w.servers)
    requires ProvisionServers(cfg, w.servers, w'.servers, row) && HomeReady(cfg, w.servers, w'.servers, row, plan)
    ensures plan.shared ==> Shared(plan.engine) in w.servers
    ensures InUse(w'.servers[HomeOf(cfg, row, plan)], row.dbName)
            <==> plan.shared && InUse(w.servers[Shared(plan.engine)], row.dbName)
  {
    var home := HomeOf(cfg, row, plan);
    if plan.shared {
      UseIsKept(w.servers[home], w'.servers[home], row.dbName);
    }
  }

  /** From any state in step, also one that does not satisfy the invariant: a `Provision` of an ID without a
      record puts users and roles out of step exactly when it stores the instance on a shared server where
      some role can already use its database. */
  lemma NewInstanceInStepIff(cfg: Config, ids: set<string>, w: World, req: ProvisionRequest, o: ProvisionCalls)
    requires RolesApart(ids) && RowsFit(cfg, ids, w.rows) && AllInStep(cfg, w) && SharedUp(w.servers)
    requires req.instanceID in ids && !HasRecord(w.rows, req.instanceID)
    ensures AllInStep(cfg, Provision(cfg, w, req, o).0)
            <==> !(exists sid :: sid in w.servers && StoresOn(cfg, w, req, o, sid) && InUse(w.servers[sid], DBName(cfg.dbPrefix, req.instanceID)))
  {
    var plan := RecordedPlan(cfg, RowOf(cfg, req));
    forall sid {
      StoresOnIff(cfg, w, req, o, sid);
    }
    if Provision(cfg, w, req, o).1.Provisioned? {
      ProvisionedInStepIff(cfg, ids, w, req, o);
      if plan.value.shared {
        assert PlansOn(cfg, req, Shared(plan.value.engine));
      }
    } else {
      ProvisionFromReady(cfg, w.servers, w, req, o, Begin);
      ProvisionFromMaster(cfg, w, req, o, Begin);
      RefusedInStep(cfg, ids, w, Provision(cfg, w, req, o).0, RowOf(cfg, req));
    }
  }

  // ---- After a completed Deprovision ---------------------------------------

  lemma LeftIsStandard(cfg: Config, ids: set<string>, w: World, i: Instance, kind: EngineKind, sid: ServerId, s': Server,
                       dropUser: string -> bool, name: string)
    requires RolesApart(ids) && RowsFit(cfg, ids, w.rows) && sid in w.servers && GrantsLive(cfg, w.rows, sid, w.servers[sid])
    requires Loads(w.rows, i) && At(cfg, w.rows, i.id, sid) && ServerDropped(kind, w.servers[sid], s', i, dropUser)
    requires CanUse(s', i.row.dbName, name)
    ensures kind == MySQL && exists u :: u in w.rows.users && StandardOf(w.rows, i.id, u) && !dropUser(w.rows.users[u].username)
  {
    assert (i.row.dbName, name) in w.servers[sid].grants;
    GrantIsOfInstance(cfg, ids, w.rows, i.id, sid, name);
    var u :| u in w.rows.users && w.rows.users[u].instance == i.id && w.rows.users[u].kind == Standard && w.rows.users[u].username == name;
    NameOfGone(w.rows, i, u);
    assert StandardOf(w.rows, i.id, u);
  }

  /** A MySQL user whose drop failed can use a database of that name as before. */
  lemma AccountIsLeft(cfg: Config, w: World, i: Instance, sid: ServerId, s': Server, dropUser: string -> bool, u: nat)
    requires sid in w.servers && AllServed(cfg, w.rows, sid, w.servers[sid]) && Loads(w.rows, i) && At(cfg, w.rows, i.id, sid)
    requires ServerDropped(MySQL, w.servers[sid], s', i, dropUser) && StandardOf(w.rows, i.id, u) && !dropUser(w.rows.users[u].username)
    ensures CanUse(s', i.row.dbName, w.rows.users[u].username)
  {
    assert StandardAt(cfg, w.rows, u, sid) && UserServed(cfg, w.rows, u, w.servers[sid]);
  }

  /** The grants that a completed `Deprovision` leaves on the database it dropped: on MySQL those of the users
      whose drop failed, and no others. */
  lemma LeftInUseIff(cfg: Config, ids: set<string>, w: World, i: Instance, kind: EngineKind, sid: ServerId, s': Server, dropUser: string -> bool)
    requires RolesApart(ids) && RowsFit(cfg, ids, w.rows) && sid in w.servers && ServerFits(cfg, w.rows, sid, w.servers[sid], kind)
    requires Loads(w.rows, i) && At(cfg, w.rows, i.id, sid) && ServerDropped(kind, w.servers[sid], s', i, dropUser)
    ensures InUse(s', i.row.dbName)
            <==> kind == MySQL && exists u :: u in w.rows.users && StandardOf(w.rows, i.id, u) && !dropUser(w.rows.users[u].username)
  {
    if name :| CanUse(s', i.row.dbName, name) {
      LeftIsStandard(cfg, ids, w, i, kind, sid, s', dropUser, name);
    }
    if u :| kind == MySQL && StandardOf(w.rows, i.id, u) && !dropUser(w.rows.users[u].username) {
      AccountIsLeft(cfg, w, i, sid, s', dropUser, u);
    }
  }

  /** Nobody uses a database of that name on another shared server. */
  lemma NotInUseElsewhere(cfg: Config, ids: set<string>, w: World, r: nat, home: ServerId, sid: ServerId)
    requires RolesApart(ids) && RowsFit(cfg, ids, w.rows) && ServersFit(cfg, w) && At(cfg, w.rows, r, home)
    requires sid.Shared? && SharedEngine(sid.engine).Some? && sid in w.servers && sid != home
    ensures !InUse(w.servers[sid], w.rows.instances[r].dbName)
  {
    assert Serves(cfg, w.rows, sid, SharedEngine(sid.engine).value);
    forall name | CanUse(w.servers[sid], w.rows.instances[r].dbName, name)
      ensures false
    {
      assert LiveGrant(cfg, w.rows, sid, (w.rows.instances[r].dbName, name));
      var u :| StandardAt(cfg, w.rows, u, sid) && w.rows.instances[w.rows.users[u].instance].dbName == w.rows.instances[r].dbName;
      OtherDatabase(cfg, ids, w.rows, w.rows.users[u].instance, r);
    }
  }

  /** The rows after the deletion: they fit, and the ID is free. */
  lemma FreeAgain(cfg: Config, ids: set<string>, rows: Rows, i: Instance)
    requires RowsFit(cfg, ids, rows) && Loads(rows, i)
    ensures var rows' := DeleteInstanceRows(rows, i, None); RowsFit(cfg, ids, rows') && !HasRecord(rows', i.row.instanceID)
  {
    DeletedInstanceGone(rows, i);
    DeletedRecordsOk(rows, i);
    ShrunkRowsFit(cfg, ids, rows, DeleteInstanceRows(rows, i, None));
  }

  /** A `Deprovision` that drops the database and deletes all rows of the instance. */
  predicate Completes(cfg: Config, w: World, req: DeprovisionRequest, o: DeprovisionCalls) {
    DropsDatabase(cfg, w, req, o) && Whole(FindObjects(cfg, w.rows, req.instanceID, o.find).value.0, o.deletes)
  }

  lemma CompletedShape(cfg: Config, ids: set<string>, w: World, req: DeprovisionRequest, o: DeprovisionCalls) returns (i: Instance, plan: Plan)
    requires Counted(cfg, ids, w) && Completes(cfg, w, req, o)
    ensures Loads(w.rows, i) && RecordedPlan(cfg, i.row) == Some(plan) && plan.shared && SharedEngine(plan.engine).Some?
    ensures i.row.instanceID == req.instanceID && req.instanceID in ids && i.row.dbName == DBName(cfg.dbPrefix, req.instanceID)
    ensures var (w1, home) := (Deprovision(cfg, w, req, o).0, Shared(plan.engine));
            && home in w.servers && home in w1.servers && w1.servers == w.servers[home := w1.servers[home]]
            && w1.rows == DeleteInstanceRows(w.rows, i, None)
            && ServerDropped(SharedEngine(plan.engine).value, w.servers[home], w1.servers[home], i, o.dropUser)
    ensures LeavesAccounts(cfg, w, req, o)
            <==> SharedEngine(plan.engine) == Some(MySQL)
                 && exists u :: u in w.rows.users && StandardOf(w.rows, i.id, u) && !o.dropUser(w.rows.users[u].username)
  {
    FoundLoads(cfg, w.rows, req.instanceID, o.find);
    i, plan := FindObjects(cfg, w.rows, req.instanceID, o.find).value.0, FindObjects(cfg, w.rows, req.instanceID, o.find).value.2;
    SharedDeprovisionEffect(cfg, w, req, o, i, plan);
    WholeIsAll(w.rows, i, o.deletes);
    assert InstanceFits(cfg, ids, i.row);
  }

  lemma CompletedLeaves(cfg: Config, ids: set<string>, w: World, req: DeprovisionRequest, o: DeprovisionCalls)
    requires RolesApart(ids) && Counted(cfg, ids, w) && Completes(cfg, w, req, o)
    ensures var w1 := Deprovision(cfg, w, req, o).0;
            && RowsFit(cfg, ids, w1.rows) && AllInStep(cfg, w1) && SharedUp(w1.servers)
            && req.instanceID in ids && !HasRecord(w1.rows, req.instanceID)
  {
    var i, plan := CompletedShape(cfg, ids, w, req, o);
    FreeAgain(cfg, ids, w.rows, i);
    DeprovisionInStepIff(cfg, ids, w, req, o);
  }

  lemma LeftOnIff(cfg: Config, ids: set<string>, w: World, req: DeprovisionRequest, o: DeprovisionCalls, sid: ServerId)
    requires RolesApart(ids) && Counted(cfg, ids, w) && Completes(cfg, w, req, o)
    requires sid.Shared? && SharedEngine(sid.engine).Some?
    ensures var w1 := Deprovision(cfg, w, req, o).0;
            sid in w1.servers
            && (InUse(w1.servers[sid], DBName(cfg.dbPrefix, req.instanceID)) <==> LeavesAccounts(cfg, w, req, o) && sid == Shared("mysql"))
  {
    var i, plan := CompletedShape(cfg, ids, w, req, o);
    LeftOn(cfg, ids, w, Deprovision(cfg, w, req, o).0, i, plan, o.dropUser, sid);
  }

  lemma EngineNames(engine: string)
    ensures SharedEngine(engine) == Some(MySQL) <==> engine == "mysql"
  {
  }

  lemma LeftOn(cfg: Config, ids: set<string>, w: World, w1: World, i: Instance, plan: Plan, dropUser: string -> bool, sid: ServerId)
    requires RolesApart(ids) && Counted(cfg, ids, w) && Loads(w.rows, i) && RecordedPlan(cfg, i.row) == Some(plan)
    requires plan.shared && SharedEngine(plan.engine).Some? && Shared(plan.engine) in w.servers && Shared(plan.engine) in w1.servers
    requires w1.servers == w.servers[Shared(plan.engine) := w1.servers[Shared(plan.engine)]]
    requires ServerDropped(SharedEngine(plan.engine).value, w.servers[Shared(plan.engine)], w1.servers[Shared(plan.engine)], i, dropUser)
    requires sid.Shared? && SharedEngine(sid.engine).Some?
    ensures sid in w1.servers
    ensures InUse(w1.servers[sid], i.row.dbName)
            <==> sid == Shared("mysql") && SharedEngine(plan.engine) == Some(MySQL)
                 && exists u :: u in w.rows.users && StandardOf(w.rows, i.id, u) && !dropUser(w.rows.users[u].username)
  {
    EngineNames(plan.engine);
    if sid == Shared(plan.engine) {
      LeftAtHomeIff(cfg, ids, w, w1, i, plan, dropUser);
    } else {
      assert !InUse(w.servers[sid], i.row.dbName) by {
        assert At(cfg, w.rows, i.id, Shared(plan.engine));
        EngineNames(sid.engine);
        NotInUseElsewhere(cfg, ids, w, i.id, Shared(plan.engine), sid);
      }
    }
  }

  lemma LeftAtHomeIff(cfg: Config, ids: set<string>, w: World, w1: World, i: Instance, plan: Plan, dropUser: string -> bool)
    requires RolesApart(ids) && Counted(cfg, ids, w) && Loads(w.rows, i) && RecordedPlan(cfg, i.row) == Some(plan)
    requires plan.shared && SharedEngine(plan.engine).Some? && Shared(plan.engine) in w.servers && Shared(plan.engine) in w1.servers
    requires ServerDropped(SharedEngine(plan.engine).value, w.servers[Shared(plan.engine)], w1.servers[Shared(plan.engine)], i, dropUser)
    ensures InUse(w1.servers[Shared(plan.engine)], i.row.dbName)
            <==> SharedEngine(plan.engine) == Some(MySQL)
                 && exists u :: u in w.rows.users && StandardOf(w.rows, i.id, u) && !dropUser(w.rows.users[u].username)
  {
    var (kind, home) := (SharedEngine(plan.engine).value, Shared(plan.engine));
    assert Serves(cfg, w.rows, home, kind);
    LeftInUseIff(cfg, ids, w, i, kind, home, w1.servers[home], dropUser);
  }

  /** When exactly the ID of a deprovisioned shared instance can be provisioned again in step, with any plan and
      whatever fails: unless an account was left on the shared MySQL server, and the new instance is stored
      there. So on Postgres always, and on MySQL when the drop of every standard user went through. */
  lemma ReprovisionInStepIff(cfg: Config, ids: set<string>, w: World, req: DeprovisionRequest, o: DeprovisionCalls,
                             again: ProvisionRequest, calls: ProvisionCalls)
    requires RolesApart(ids) && Counted(cfg, ids, w) && Completes(cfg, w, req, o) && again.instanceID == req.instanceID
    ensures var w1 := Deprovision(cfg, w, req, o).0;
            AllInStep(cfg, w1)
            && (AllInStep(cfg, Provision(cfg, w1, again, calls).0)
                <==> !(LeavesAccounts(cfg, w, req, o) && StoresOn(cfg, w1, again, calls, Shared("mysql"))))
  {
    var w1 := Deprovision(cfg, w, req, o).0;
    CompletedLeaves(cfg, ids, w, req, o);
    NewInstanceInStepIff(cfg, ids, w1, again, calls);
    forall sid | StoresOn(cfg, w1, again, calls, sid)
      ensures sid in w1.servers
              && (InUse(w1.servers[sid], DBName(cfg.dbPrefix, req.instanceID)) <==> LeavesAccounts(cfg, w, req, o) && sid == Shared("mysql"))
    {
      LeftOnIff(cfg, ids, w, req, o, sid);
    }
  }
}
