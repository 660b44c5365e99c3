/** `Provision` keeps users and roles in step. */
module RefCountProvision {
  import opened Wrappers
  import opened Utils
  import opened Models
  import opened Records
  import opened Catalog
  import opened SqlServers
  import opened Broker
  import opened RunRecords
  import opened RunReferences
  import opened ProvisionFailures
  import opened RefCount

  // ---- Provision -----------------------------------------------------------

  /** The databases of a server that is created for the record: a new cluster has its database, and the RDS
      instance in it has none. */
  function NewDatabases(cfg: Config, row: InstanceRow, sid: ServerId): set<string> {
    var plan := RecordedPlan(cfg, row);
    if sid.RdsInstance? && plan.Some? && IsAurora(plan.value) then {} else {row.dbName}
  }

  /** The servers of a `Provision` under way for the record `row`: the old ones with the same users, and
      new ones without users that carry its identifier. */
  ghost predicate ProvisionServers(cfg: Config, servers: map<ServerId, Server>, servers': map<ServerId, Server>, row: InstanceRow) {
    && (forall sid :: sid in servers ==> sid in servers' && SameUsers(servers[sid], servers'[sid]))
    && (forall sid :: sid in servers' && sid !in servers
          ==> sid in {InstanceServer(cfg, row), ClusterServer(cfg, row)} && servers'[sid].roles == map[] && servers'[sid].grants == {}
              && servers'[sid].databases == NewDatabases(cfg, row, sid))
  }

  /** When the record is about to be stored its database is there, on a server of its own or a shared one. */
  ghost predicate HomeReady(cfg: Config, servers: map<ServerId, Server>, servers': map<ServerId, Server>, row: InstanceRow, plan: Plan) {
    var home := HomeOf(cfg, row, plan);
    && home in servers' && row.dbName in servers'[home].databases
    && (if plan.shared then SharedEngine(plan.engine).Some? else home !in servers)
  }

  /** What a stage knows, against the servers at the start of the call. */
  ghost predicate StageReady(cfg: Config, servers: map<ServerId, Server>, w: World, req: ProvisionRequest, stage: Stage) {
    && ProvisionServers(cfg, servers, w.servers, RowOf(cfg, req))
    && (match stage
        case Begin => w.servers == servers
        case Checked(_, _, _) => w.servers == servers
        case ClusterUp(plan, row, _) => !plan.shared && IsAurora(plan) && HomeReady(cfg, servers, w.servers, row, plan)
        case Built(plan, row, _, _) => HomeReady(cfg, servers, w.servers, row, plan)
        case Undo(row, _) => row == RowOf(cfg, req)
        case Finished(reply) =>
          reply.Provisioned? ==> RecordedPlan(cfg, RowOf(cfg, req)).Some?
                                 && HomeReady(cfg, servers, w.servers, RowOf(cfg, req), RecordedPlan(cfg, RowOf(cfg, req)).value))
  }

  lemma CheckedReady(cfg: Config, servers: map<ServerId, Server>, w: World, req: ProvisionRequest, o: ProvisionCalls, stage: Stage)
    requires stage.Checked? && StageFor(cfg, req, stage) && StageReady(cfg, servers, w, req, stage)
    ensures var (w', next) := ProvisionStep(cfg, w, req, o, stage); StageReady(cfg, servers, w', req, next)
  {
  }

  lemma LaterReady(cfg: Config, servers: map<ServerId, Server>, w: World, req: ProvisionRequest, o: ProvisionCalls, stage: Stage)
    requires !stage.Checked? && !stage.Begin? && StageFor(cfg, req, stage) && StageReady(cfg, servers, w, req, stage)
    ensures var (w', next) := ProvisionStep(cfg, w, req, o, stage); StageReady(cfg, servers, w', req, next)
  {
  }

  lemma {:induction false} ProvisionFromReady(cfg: Config, servers: map<ServerId, Server>, w: World, req: ProvisionRequest, o: ProvisionCalls, stage: Stage)
    requires StageFor(cfg, req, stage) && StageOk(stage) && StageReady(cfg, servers, w, req, stage)
    ensures var (w', reply) := ProvisionFrom(cfg, w, req, o, stage); StageReady(cfg, servers, w', req, Finished(reply))
    decreases StepsLeft(stage)
  {
    ProvisionUnfold(cfg, w, req, o, stage);
    if !stage.Finished? {
      var (w', next) := ProvisionStep(cfg, w, req, o, stage);
      ProvisionStepInstances(cfg, w, req, o, stage);
      if stage.Checked? {
        CheckedReady(cfg, servers, w, req, o, stage);
      } else if !stage.Begin? {
        LaterReady(cfg, servers, w, req, o, stage);
      }
      ProvisionFromReady(cfg, servers, w', req, o, next);
    }
  }

  /** The row that a successful `Provision` stores. */
  predicate StageMaster(cfg: Config, o: ProvisionCalls, stage: Stage) {
    var made := NewUser(Master, cfg.key, o.entropy, 0);
    match stage
    case Checked(_, _, master) => made == Some(master)
    case ClusterUp(_, _, master) => made == Some(master)
    case Built(_, _, master, _) => made == Some(master)
    case _ => true
  }

  lemma {:induction false} ProvisionFromMaster(cfg: Config, w: World, req: ProvisionRequest, o: ProvisionCalls, stage: Stage)
    requires StageFor(cfg, req, stage) && StageMaster(cfg, o, stage) && !stage.Finished?
    ensures var (w', reply) := ProvisionFrom(cfg, w, req, o, stage);
            var made := NewUser(Master, cfg.key, o.entropy, 0);
            if reply.Provisioned? then made.Some? && InsertInstance(w.rows, RowOf(cfg, req), made.value) == Some(w'.rows)
            else w'.rows == w.rows
    decreases StepsLeft(stage)
  {
    ProvisionUnfold(cfg, w, req, o, stage);
    var (w', next) := ProvisionStep(cfg, w, req, o, stage);
    if next.Finished? {
      ProvisionUnfold(cfg, w', req, o, next);
    } else {
      MasterStays(cfg, w, req, o, stage);
      ProvisionFromMaster(cfg, w', req, o, next);
    }
  }

  lemma MasterStays(cfg: Config, w: World, req: ProvisionRequest, o: ProvisionCalls, stage: Stage)
    requires StageFor(cfg, req, stage) && StageMaster(cfg, o, stage) && !stage.Finished?
    ensures var (w', next) := ProvisionStep(cfg, w, req, o, stage);
            StageFor(cfg, req, next) && StageMaster(cfg, o, next) && (!next.Finished? ==> w'.rows == w.rows)
  {
  }

  lemma RecordedIsRefused(cfg: Config, w: World, req: ProvisionRequest, o: ProvisionCalls)
    requires o.find && exists r :: r in w.rows.instances && w.rows.instances[r].instanceID == req.instanceID
    ensures Provision(cfg, w, req, o).0 == w && !Provision(cfg, w, req, o).1.Provisioned?
  {
    ProvisionUnfold(cfg, w, req, o, Begin);
    ProvisionUnfold(cfg, w, req, o, ProvisionCheck(cfg, w.rows, req, o));
  }

  /** An instance ID without a record has no server that serves another record. */
  lemma NobodyElseThere(cfg: Config, ids: set<string>, rows: Rows, row: InstanceRow, r: nat, sid: ServerId)
    requires RolesApart(ids) && RowsFit(cfg, ids, rows) && row.instanceID in ids
    requires forall i :: i in rows.instances ==> rows.instances[i].instanceID != row.instanceID
    requires sid in {InstanceServer(cfg, row), ClusterServer(cfg, row)}
    ensures !At(cfg, rows, r, sid)
  {
    if At(cfg, rows, r, sid) {
      HomeShape(cfg, rows.instances[r], sid);
      assert InstanceFits(cfg, ids, rows.instances[r]);
      RolesApartNames(cfg, ids, rows.instances[r].instanceID, row.instanceID);
    }
  }

  lemma FailedProvisionCounted(cfg: Config, ids: set<string>, w: World, w': World, row: InstanceRow)
    requires RolesApart(ids) && Counted(cfg, ids, w) && row.instanceID in ids
    requires forall i :: i in w.rows.instances ==> w.rows.instances[i].instanceID != row.instanceID
    requires w'.rows == w.rows && ProvisionServers(cfg, w.servers, w'.servers, row)
    ensures Counted(cfg, ids, w')
  {
    forall sid, kind | sid in w'.servers && Serves(cfg, w.rows, sid, kind)
      ensures sid in w.servers
    {
      if sid !in w.servers {
        var r :| At(cfg, w.rows, r, sid);
        NobodyElseThere(cfg, ids, w.rows, row, r, sid);
      }
    }
    CalmKeeps(cfg, ids, w, w');
  }

  // The tables after a new instance with its master user.

  /** Nothing but an instance r0 with a master user u0 is new. */
  ghost predicate NewInstanceRows(rows: Rows, rows': Rows, r0: nat, row: InstanceRow, u0: nat, master: UserRow) {
    && r0 !in rows.instances && u0 !in rows.users && master.instance == r0 && master.kind == Master
    && rows'.instances == rows.instances[r0 := row] && rows'.users == rows.users[u0 := master] && rows'.bindings == rows.bindings
  }

  lemma OldUsersStay(cfg: Config, rows: Rows, rows': Rows, r0: nat, row: InstanceRow, u0: nat, master: UserRow, sid: ServerId)
    requires Integrity(rows) && NewInstanceRows(rows, rows', r0, row, u0, master)
    ensures AgreeAt(cfg, rows, rows', sid)
    ensures forall u :: UserAt(cfg, rows', u, sid) && u != u0 ==> UserAt(cfg, rows, u, sid) && rows'.users[u] == rows.users[u]
  {
  }

  lemma NewInstanceNamesApart(cfg: Config, rows: Rows, rows': Rows, r0: nat, row: InstanceRow, u0: nat, master: UserRow)
    requires Integrity(rows) && NewInstanceRows(rows, rows', r0, row, u0, master)
    requires NamesApart(cfg, rows) && FreshName(rows, master.username)
    ensures NamesApart(cfg, rows')
  {
    forall u, v, sid | UserAt(cfg, rows', u, sid) && UserAt(cfg, rows', v, sid) && rows'.users[u].username == rows'.users[v].username
      ensures u == v
    {
      OldUsersStay(cfg, rows, rows', r0, row, u0, master, sid);
    }
  }

  lemma NewInstanceUsersFit(cfg: Config, ids: set<string>, rows: Rows, rows': Rows, r0: nat, row: InstanceRow, u0: nat, master: UserRow)
    requires Integrity(rows) && NewInstanceRows(rows, rows', r0, row, u0, master)
    requires UsersFit(cfg, ids, rows) && Password(master, cfg.key).Some? && !IsRoleOf(ids, master.username)
    ensures UsersFit(cfg, ids, rows')
  {
    forall u | u in rows'.users
      ensures UserFits(cfg, ids, rows', rows'.users[u])
    {
      if u != u0 {
        assert UserFits(cfg, ids, rows, rows.users[u]);
      }
    }
  }

  lemma InsertedInstance(rows: Rows, row: InstanceRow, master: UserRow)
    requires KeysUsed(rows) && InsertInstance(rows, row, master).Some? && master.kind == Master
    ensures NewInstanceRows(rows, InsertInstance(rows, row, master).value, rows.nextID, row, rows.nextID + 1, master.(instance := rows.nextID))
  {
  }

  lemma NewInstanceRowsFit(cfg: Config, ids: set<string>, rows: Rows, row: InstanceRow, master: UserRow)
    requires RowsFit(cfg, ids, rows) && InstanceFits(cfg, ids, row) && InsertInstance(rows, row, master).Some?
    requires master.kind == Master && Password(master, cfg.key).Some? && FreshName(rows, master.username) && !IsRoleOf(ids, master.username)
    ensures RowsFit(cfg, ids, InsertInstance(rows, row, master).value)
  {
    InsertInstanceKeeps(rows, {}, row, master);
    NewInstanceFits(cfg, ids, rows, InsertInstance(rows, row, master).value, row, master);
    OldBindingsFit(cfg, ids, rows, InsertInstance(rows, row, master).value, row, master);
  }

  lemma OldBindingsFit(cfg: Config, ids: set<string>, rows: Rows, rows': Rows, row: InstanceRow, master: UserRow)
    requires KeysUsed(rows) && InsertInstance(rows, row, master) == Some(rows')
    requires InstancesFit(cfg, ids, rows) && BindingsFit(rows) && InstanceFits(cfg, ids, row)
    ensures InstancesFit(cfg, ids, rows') && BindingsFit(rows')
  {
  }

  lemma NewInstanceFits(cfg: Config, ids: set<string>, rows: Rows, rows': Rows, row: InstanceRow, master: UserRow)
    requires Integrity(rows) && KeysUsed(rows) && InsertInstance(rows, row, master) == Some(rows') && master.kind == Master
    requires UsersFit(cfg, ids, rows) && NamesApart(cfg, rows)
    requires Password(master, cfg.key).Some? && FreshName(rows, master.username) && !IsRoleOf(ids, master.username)
    ensures UsersFit(cfg, ids, rows') && NamesApart(cfg, rows')
  {
    var (r0, u0, stored) := (rows.nextID, rows.nextID + 1, master.(instance := rows.nextID));
    InsertedInstance(rows, row, master);
    NewInstanceUsersFit(cfg, ids, rows, rows', r0, row, u0, stored);
    NewInstanceNamesApart(cfg, rows, rows', r0, row, u0, stored);
  }

  /** What a successful `Provision` leaves on the servers, for the new row of key r0 and its master u0. */
  lemma NewInstanceCounted(cfg: Config, ids: set<string>, w: World, w': World, row: InstanceRow, master: UserRow, plan: Plan)
    requires RolesApart(ids) && Counted(cfg, ids, w) && row.instanceID in ids
    requires forall i :: i in w.rows.instances ==> w.rows.instances[i].instanceID != row.instanceID
    requires RecordedPlan(cfg, row) == Some(plan)
    requires NewInstanceRows(w.rows, w'.rows, w.rows.nextID, row, w.rows.nextID + 1, master)
    requires RowsFit(cfg, ids, w'.rows)
    requires ProvisionServers(cfg, w.servers, w'.servers, row) && HomeReady(cfg, w.servers, w'.servers, row, plan)
    ensures Counted(cfg, ids, w')
  {
    forall sid, kind | sid in w'.servers && Serves(cfg, w'.rows, sid, kind)
      ensures ServerFits(cfg, w'.rows, sid, w'.servers[sid], kind)
    {
      if sid in w.servers {
        OldServerFits(cfg, ids, w, w', row, master, plan, sid, kind);
      } else {
        NewServerFits(cfg, ids, w, w', row, master, plan, sid, kind);
      }
    }
    forall u, sid | StandardAt(cfg, w'.rows, u, sid) && sid in w'.servers
      ensures HasBinding(w'.rows, u)
    {
      OldUsersStay(cfg, w.rows, w'.rows, w.rows.nextID, row, w.rows.nextID + 1, master, sid);
      if sid !in w.servers {
        NobodyElseThere(cfg, ids, w.rows, row, w.rows.users[u].instance, sid);
      }
    }
  }

  lemma OldServerFits(cfg: Config, ids: set<string>, w: World, w': World, row: InstanceRow, master: UserRow, plan: Plan,
                      sid: ServerId, kind: EngineKind)
    requires Integrity(w.rows) && ServersFit(cfg, w) && sid in w.servers && Serves(cfg, w'.rows, sid, kind)
    requires RecordedPlan(cfg, row) == Some(plan)
    requires NewInstanceRows(w.rows, w'.rows, w.rows.nextID, row, w.rows.nextID + 1, master)
    requires ProvisionServers(cfg, w.servers, w'.servers, row) && HomeReady(cfg, w.servers, w'.servers, row, plan)
    ensures ServerFits(cfg, w'.rows, sid, w'.servers[sid], kind)
  {
    assert Serves(cfg, w.rows, sid, kind) by {
      StillServes(cfg, w.rows, w'.rows, row, master, plan, sid, kind);
    }
    SameUsersFit(cfg, w.rows, sid, w.servers[sid], w'.servers[sid], kind);
    OldUsersStay(cfg, w.rows, w'.rows, w.rows.nextID, row, w.rows.nextID + 1, master, sid);
    OldServerDatabases(cfg, w, w', row, master, plan, sid);
    AgreeingFits(cfg, w.rows, w'.rows, sid, w'.servers[sid], kind);
  }

  lemma OldServerDatabases(cfg: Config, w: World, w': World, row: InstanceRow, master: UserRow, plan: Plan, sid: ServerId)
    requires sid in w.servers && DatabasesThere(cfg, w.rows, sid, w.servers[sid]) && RecordedPlan(cfg, row) == Some(plan)
    requires NewInstanceRows(w.rows, w'.rows, w.rows.nextID, row, w.rows.nextID + 1, master)
    requires ProvisionServers(cfg, w.servers, w'.servers, row) && HomeReady(cfg, w.servers, w'.servers, row, plan)
    ensures sid in w'.servers && DatabasesThere(cfg, w'.rows, sid, w'.servers[sid])
  {
    forall r | At(cfg, w'.rows, r, sid)
      ensures w'.rows.instances[r].dbName in w'.servers[sid].databases
    {
      if r != w.rows.nextID {
        assert At(cfg, w.rows, r, sid);
      }
    }
  }

  /** A new instance makes no old server serve another engine. */
  lemma StillServes(cfg: Config, rows: Rows, rows': Rows, row: InstanceRow, master: UserRow, plan: Plan, sid: ServerId, kind: EngineKind)
    requires NewInstanceRows(rows, rows', rows.nextID, row, rows.nextID + 1, master)
    requires RecordedPlan(cfg, row) == Some(plan) && Serves(cfg, rows', sid, kind) && (HomeOf(cfg, row, plan) == sid ==> plan.shared)
    ensures Serves(cfg, rows, sid, kind)
  {
    if !(sid.Shared? && SharedEngine(sid.engine) == Some(kind)) {
      var r :| At(cfg, rows', r, sid) && Kind(cfg, rows'.instances[r]) == Some(kind);
      assert r != rows.nextID;
      assert At(cfg, rows, r, sid);
    }
  }

  /** A server without roles fits an instance without standard users. */
  lemma EmptyServerFits(cfg: Config, rows: Rows, sid: ServerId, s: Server, kind: EngineKind)
    requires s.roles == map[] && s.grants == {} && DatabasesThere(cfg, rows, sid, s)
    requires forall u :: !StandardAt(cfg, rows, u, sid)
    ensures ServerFits(cfg, rows, sid, s, kind)
  {
  }

  lemma NobodyStandardThere(cfg: Config, rows: Rows, rows': Rows, row: InstanceRow, master: UserRow, sid: ServerId, u: nat)
    requires Integrity(rows) && NewInstanceRows(rows, rows', rows.nextID, row, rows.nextID + 1, master)
    requires forall r :: !At(cfg, rows, r, sid)
    ensures !StandardAt(cfg, rows', u, sid)
  {
    OldUsersStay(cfg, rows, rows', rows.nextID, row, rows.nextID + 1, master, sid);
  }

  lemma NewServerFits(cfg: Config, ids: set<string>, w: World, w': World, row: InstanceRow, master: UserRow, plan: Plan,
                      sid: ServerId, kind: EngineKind)
    requires RolesApart(ids) && RowsFit(cfg, ids, w.rows) && row.instanceID in ids
    requires forall i :: i in w.rows.instances ==> w.rows.instances[i].instanceID != row.instanceID
    requires sid in w'.servers && sid !in w.servers && RecordedPlan(cfg, row) == Some(plan)
    requires NewInstanceRows(w.rows, w'.rows, w.rows.nextID, row, w.rows.nextID + 1, master)
    requires ProvisionServers(cfg, w.servers, w'.servers, row) && HomeReady(cfg, w.servers, w'.servers, row, plan)
    ensures ServerFits(cfg, w'.rows, sid, w'.servers[sid], kind)
  {
    forall r
      ensures !At(cfg, w.rows, r, sid)
    {
      NobodyElseThere(cfg, ids, w.rows, row, r, sid);
    }
    forall u
      ensures !StandardAt(cfg, w'.rows, u, sid)
    {
      NobodyStandardThere(cfg, w.rows, w'.rows, row, master, sid, u);
    }
    NewServerDatabases(cfg, w, w', row, master, plan, sid);
    EmptyServerFits(cfg, w'.rows, sid, w'.servers[sid], kind);
  }

  lemma NewServerDatabases(cfg: Config, w: World, w': World, row: InstanceRow, master: UserRow, plan: Plan, sid: ServerId)
    requires sid in w'.servers && RecordedPlan(cfg, row) == Some(plan) && forall r :: !At(cfg, w.rows, r, sid)
    requires NewInstanceRows(w.rows, w'.rows, w.rows.nextID, row, w.rows.nextID + 1, master)
    requires HomeReady(cfg, w.servers, w'.servers, row, plan)
    ensures DatabasesThere(cfg, w'.rows, sid, w'.servers[sid])
  {
    forall r | At(cfg, w'.rows, r, sid)
      ensures r == w.rows.nextID
    {
      assert r != w.rows.nextID ==> At(cfg, w.rows, r, sid);
    }
  }

  /** The random name of the master user belongs to nobody, and is no role of an instance ID. */
  predicate FreshMaster(ids: set<string>, rows: Rows, o: ProvisionCalls) {
    o.entropy.Some? ==> var name := RandUsername(o.entropy.value.name); FreshName(rows, name) && !IsRoleOf(ids, name)
  }

  /** The look-up fails over a record whose server is gone, and the call builds that server again: without
      the users of the record, if it has any, or without its database, as the RDS instance of a cluster. */
  predicate SpoilsHome(cfg: Config, w: World, req: ProvisionRequest, o: ProvisionCalls) {
    && !o.find
    && exists r :: r in w.rows.instances && w.rows.instances[r].instanceID == req.instanceID && RebuildsHomeOf(cfg, w, req, o, r)
                   && (HasStandard(w.rows, r)
                       || w.rows.instances[r].dbName !in NewDatabases(cfg, RowOf(cfg, req), Home(cfg, w.rows.instances[r]).value))
  }

  predicate RebuildsHomeOf(cfg: Config, w: World, req: ProvisionRequest, o: ProvisionCalls, r: nat)
    requires r in w.rows.instances
  {
    var home := Home(cfg, w.rows.instances[r]);
    home.Some? && home.value !in w.servers && Builds(cfg, w, req, o, home.value)
  }

  /** What must not happen in a `Provision`, and what its random name has to miss. */
  predicate CarefulProvision(cfg: Config, ids: set<string>, w: World, req: ProvisionRequest, o: ProvisionCalls) {
    req.instanceID in ids && (!HasRecord(w.rows, req.instanceID) ==> FreshMaster(ids, w.rows, o)) && !SpoilsHome(cfg, w, req, o)
  }

  lemma NewInstanceKind(cfg: Config, ids: set<string>, row: InstanceRow, plan: Plan)
    requires ValidServices(cfg.services) && RecordedPlan(cfg, row) == Some(plan)
    requires plan.shared ==> SharedEngine(plan.engine).Some?
    ensures Kind(cfg, row).Some?
  {
    var service := FindService(cfg.services, row.serviceID).value;
    assert ValidService(service) && plan in service.plans;
    ValidPlanIsProvided(plan);
  }

  lemma ProvisionCounted(cfg: Config, ids: set<string>, w: World, req: ProvisionRequest, o: ProvisionCalls)
    requires ValidServices(cfg.services) && RolesApart(ids) && Counted(cfg, ids, w) && CarefulProvision(cfg, ids, w, req, o)
    ensures Counted(cfg, ids, Provision(cfg, w, req, o).0)
  {
    if !HasRecord(w.rows, req.instanceID) {
      FreeProvisionCounted(cfg, ids, w, req, o);
    } else if o.find {
      RecordedIsRefused(cfg, w, req, o);
    } else {
      HiddenRecordCounted(cfg, ids, w, req, o);
    }
  }

  /** For an ID without a record anything may fail. */
  lemma FreeProvisionCounted(cfg: Config, ids: set<string>, w: World, req: ProvisionRequest, o: ProvisionCalls)
    requires ValidServices(cfg.services) && RolesApart(ids) && Counted(cfg, ids, w)
    requires req.instanceID in ids && !HasRecord(w.rows, req.instanceID) && FreshMaster(ids, w.rows, o)
    ensures Counted(cfg, ids, Provision(cfg, w, req, o).0)
  {
    var (w', reply) := Provision(cfg, w, req, o);
    ProvisionFromReady(cfg, w.servers, w, req, o, Begin);
    ProvisionFromMaster(cfg, w, req, o, Begin);
    if reply.Provisioned? {
      SucceededCounted(cfg, ids, w, w', req, o);
    } else {
      FailedProvisionCounted(cfg, ids, w, w', RowOf(cfg, req));
    }
  }

  /** What a `Provision` does for an ID that has a record: nothing to the rows, and to the servers no more
      than to create some, without users, under its identifier. */
  lemma RecordedProvision(cfg: Config, ids: set<string>, w: World, req: ProvisionRequest, o: ProvisionCalls)
    requires RecordsOk(w.rows, {}) && HasRecord(w.rows, req.instanceID)
    ensures var w' := Provision(cfg, w, req, o).0;
            w'.rows == w.rows && ProvisionServers(cfg, w.servers, w'.servers, RowOf(cfg, req))
  {
    var r :| r in w.rows.instances && w.rows.instances[r].instanceID == req.instanceID;
    MoreBegun(w.rows, {}, Begun(w.log));
    RecordedIsNotProvisioned(cfg, w, req, o, r);
    ProvisionFromReady(cfg, w.servers, w, req, o, Begin);
  }

  /** A server with the identifier of an ID is the home of no record but that of the ID. */
  lemma OnlyItsRecord(cfg: Config, ids: set<string>, rows: Rows, row: InstanceRow, r: nat, sid: ServerId)
    requires RolesApart(ids) && InstancesFit(cfg, ids, rows) && row.instanceID in ids
    requires sid in {InstanceServer(cfg, row), ClusterServer(cfg, row)} && At(cfg, rows, r, sid)
    ensures rows.instances[r].instanceID == row.instanceID
  {
    HomeShape(cfg, rows.instances[r], sid);
    assert InstanceFits(cfg, ids, rows.instances[r]);
    RolesApartNames(cfg, ids, rows.instances[r].instanceID, row.instanceID);
  }

  /** A server that the call builds under a hidden record is the home of that record alone. */
  lemma RebuiltHome(cfg: Config, ids: set<string>, w: World, req: ProvisionRequest, o: ProvisionCalls, sid: ServerId, r: nat)
    requires RolesApart(ids) && RowsFit(cfg, ids, w.rows) && req.instanceID in ids
    requires HasRecord(w.rows, req.instanceID) && !o.find && !SpoilsHome(cfg, w, req, o)
    requires sid !in w.servers && sid in Provision(cfg, w, req, o).0.servers && At(cfg, w.rows, r, sid)
    ensures w.rows.instances[r].dbName in NewDatabases(cfg, RowOf(cfg, req), sid)
    ensures forall u :: !StandardAt(cfg, w.rows, u, sid)
  {
    RecordedProvision(cfg, ids, w, req, o);
    OnlyItsRecord(cfg, ids, w.rows, RowOf(cfg, req), r, sid);
    NewServersIff(cfg, w, req, o, sid);
    assert RebuildsHomeOf(cfg, w, req, o, r);
    forall u | StandardAt(cfg, w.rows, u, sid)
      ensures false
    {
      OneKind(cfg, ids, w.rows, r, w.rows.users[u].instance, sid);
    }
  }

  lemma RebuiltServerFits(cfg: Config, ids: set<string>, w: World, req: ProvisionRequest, o: ProvisionCalls, sid: ServerId, kind: EngineKind)
    requires RolesApart(ids) && RowsFit(cfg, ids, w.rows) && req.instanceID in ids
    requires HasRecord(w.rows, req.instanceID) && !o.find && !SpoilsHome(cfg, w, req, o)
    requires var w' := Provision(cfg, w, req, o).0;
             sid !in w.servers && sid in w'.servers && Serves(cfg, w'.rows, sid, kind)
    ensures var w' := Provision(cfg, w, req, o).0;
            ServerFits(cfg, w'.rows, sid, w'.servers[sid], kind) && forall u :: !StandardAt(cfg, w'.rows, u, sid)
  {
    var w' := Provision(cfg, w, req, o).0;
    RecordedProvision(cfg, ids, w, req, o);
    forall r | At(cfg, w.rows, r, sid)
      ensures w.rows.instances[r].dbName in w'.servers[sid].databases
      ensures forall u :: !StandardAt(cfg, w.rows, u, sid)
    {
      RebuiltHome(cfg, ids, w, req, o, sid, r);
    }
    EmptyServerFits(cfg, w.rows, sid, w'.servers[sid], kind);
  }

  lemma HiddenRecordCounted(cfg: Config, ids: set<string>, w: World, req: ProvisionRequest, o: ProvisionCalls)
    requires RolesApart(ids) && Counted(cfg, ids, w) && req.instanceID in ids
    requires HasRecord(w.rows, req.instanceID) && !o.find && !SpoilsHome(cfg, w, req, o)
    ensures Counted(cfg, ids, Provision(cfg, w, req, o).0)
  {
    var w' := Provision(cfg, w, req, o).0;
    RecordedProvision(cfg, ids, w, req, o);
    forall sid, kind | sid in w'.servers && Serves(cfg, w'.rows, sid, kind)
      ensures ServerFits(cfg, w'.rows, sid, w'.servers[sid], kind)
      ensures sid !in w.servers ==> forall u :: !StandardAt(cfg, w'.rows, u, sid)
    {
      if sid in w.servers {
        SameUsersFit(cfg, w.rows, sid, w.servers[sid], w'.servers[sid], kind);
      } else {
        RebuiltServerFits(cfg, ids, w, req, o, sid, kind);
      }
    }
    forall u, sid | StandardAt(cfg, w'.rows, u, sid) && sid in w'.servers
      ensures HasBinding(w'.rows, u)
    {
      assert InstanceFits(cfg, ids, w.rows.instances[w.rows.users[u].instance]);
      assert Serves(cfg, w'.rows, sid, Kind(cfg, w.rows.instances[w.rows.users[u].instance]).value);
    }
  }

  lemma SpoiledNotCounted(cfg: Config, ids: set<string>, w: World, req: ProvisionRequest, o: ProvisionCalls)
    requires RolesApart(ids) && Counted(cfg, ids, w) && SpoilsHome(cfg, w, req, o)
    ensures !Counted(cfg, ids, Provision(cfg, w, req, o).0)
  {
    var w' := Provision(cfg, w, req, o).0;
    var r :| r in w.rows.instances && w.rows.instances[r].instanceID == req.instanceID && RebuildsHomeOf(cfg, w, req, o, r)
             && (HasStandard(w.rows, r)
                 || w.rows.instances[r].dbName !in NewDatabases(cfg, RowOf(cfg, req), Home(cfg, w.rows.instances[r]).value));
    var home := Home(cfg, w.rows.instances[r]).value;
    RecordedProvision(cfg, ids, w, req, o);
    NewServersIff(cfg, w, req, o, home);
    assert InstanceFits(cfg, ids, w.rows.instances[r]) && At(cfg, w'.rows, r, home);
    assert Serves(cfg, w'.rows, home, Kind(cfg, w.rows.instances[r]).value);
    if HasStandard(w.rows, r) {
      var u :| u in w.rows.users && w.rows.users[u].instance == r && w.rows.users[u].kind == Standard;
      assert StandardAt(cfg, w'.rows, u, home) && !UserServed(cfg, w'.rows, u, w'.servers[home]);
    }
  }

  /** When exactly a `Provision` keeps the invariant. Any call but the look-up may fail. */
  lemma ProvisionCountedIff(cfg: Config, ids: set<string>, w: World, req: ProvisionRequest, o: ProvisionCalls)
    requires ValidServices(cfg.services) && RolesApart(ids) && Counted(cfg, ids, w)
    requires req.instanceID in ids && (!HasRecord(w.rows, req.instanceID) ==> FreshMaster(ids, w.rows, o))
    ensures Counted(cfg, ids, Provision(cfg, w, req, o).0) <==> !SpoilsHome(cfg, w, req, o)
  {
    if SpoilsHome(cfg, w, req, o) {
      SpoiledNotCounted(cfg, ids, w, req, o);
    } else {
      ProvisionCounted(cfg, ids, w, req, o);
    }
  }

  lemma SucceededCounted(cfg: Config, ids: set<string>, w: World, w': World, req: ProvisionRequest, o: ProvisionCalls)
    requires ValidServices(cfg.services) && RolesApart(ids) && Counted(cfg, ids, w)
    requires req.instanceID in ids && FreshMaster(ids, w.rows, o)
    requires NewUser(Master, cfg.key, o.entropy, 0).Some?
    requires InsertInstance(w.rows, RowOf(cfg, req), NewUser(Master, cfg.key, o.entropy, 0).value) == Some(w'.rows)
    requires StageReady(cfg, w.servers, w', req, Finished(Provisioned(true)))
    ensures Counted(cfg, ids, w')
  {
    var (row, master) := (RowOf(cfg, req), NewUser(Master, cfg.key, o.entropy, 0).value);
    var plan := RecordedPlan(cfg, row).value;
    NewInstanceKind(cfg, ids, row, plan);
    NewInstanceRowsFit(cfg, ids, w.rows, row, master);
    InsertedInstance(w.rows, row, master);
    NewInstanceCounted(cfg, ids, w, w', row, master.(instance := w.rows.nextID), plan);
  }
}
