/** Short runs that show the failures of Failures.dfy and ProvisionFailures.dfy happening, on any broker that
    offers a bindable Postgres instance. */
module Witnesses {
  import opened Wrappers
  import opened Utils
  import opened Models
  import opened Records
  import opened Names
  import opened Catalog
  import opened Broker
  import opened RunReferences
  import opened ClusterOrphans
  import opened ProvisionFailures
  import opened RefCount
  import opened RefCountProvision
  import opened RefCountBind
  import opened RefCountUnbind
  import opened RefCountRuns
  import opened Failures

  const ID := "a"
  const FIRST := BindRequest(ID, "first")
  const SECOND := BindRequest(ID, "second")
  const BOUND := BindCalls(true, true, true, None, Some(ZEROS), true, true, true)
  const NOT_CREATED := BindCalls(true, true, true, None, Some(ZEROS), true, false, true)
  const NOT_REVOKED := UnbindCalls(true, true, true, true, false, true, None)

  /** A broker with a usable key and a valid catalog that offers a bindable Postgres instance. */
  predicate OffersPostgres(cfg: Config, serviceID: string, planID: string) {
    && ValidKey(cfg.key) && ValidServices(cfg.services)
    && FindService(cfg.services, serviceID).Some? && FindService(cfg.services, serviceID).value.bindable
    && FindServicePlan(cfg.services, serviceID, planID).Some?
    && var plan := FindServicePlan(cfg.services, serviceID, planID).value;
       !plan.shared && !IsAurora(plan) && EngineOf(plan) == Some(Postgres)
  }

  function AfterProvision(cfg: Config, serviceID: string, planID: string): World {
    Provision(cfg, START, Ask(ID, serviceID, planID), ALL_CREATED).0
  }

  lemma RoleOfID()
    ensures RolesApart({ID}) && !IsRoleOf({ID}, RandUsername(ZEROS.name))
  {
    RandUsernameWellFormed(ZEROS.name);
    RolesCollideIff(ID, ID);
    assert |PostgresRole(ID)| == 2 by {
      assert PostgresRole(ID) == "ua";
    }
  }

  lemma ProvisionedIsCounted(cfg: Config, serviceID: string, planID: string)
    requires OffersPostgres(cfg, serviceID, planID)
    ensures Counted(cfg, {ID}, AfterProvision(cfg, serviceID, planID))
  {
    RoleOfID();
    StartCounted(cfg, {ID});
    ProvisionCounted(cfg, {ID}, START, Ask(ID, serviceID, planID), ALL_CREATED);
  }

  lemma ProvisionedHasNoBinding(cfg: Config, serviceID: string, planID: string)
    ensures AfterProvision(cfg, serviceID, planID).rows.bindings == map[]
  {
    ProvisionFromMaster(cfg, START, Ask(ID, serviceID, planID), ALL_CREATED, Begin);
  }

  lemma ProvisionedIsThere(cfg: Config, serviceID: string, planID: string)
    requires OffersPostgres(cfg, serviceID, planID)
    ensures var w := AfterProvision(cfg, serviceID, planID);
            var row := RowOf(cfg, Ask(ID, serviceID, planID));
            1 in w.rows.instances && w.rows.instances[1] == row && InstanceServer(cfg, row) in w.servers
  {
    GoodProvision(cfg, START, Ask(ID, serviceID, planID), FindServicePlan(cfg.services, serviceID, planID).value);
  }

  /** The instance can be found and opened, and it has no standard user yet. */
  ghost predicate Ready(cfg: Config, w: World, i: Instance, plan: Plan) {
    && Counted(cfg, {ID}, w) && w.rows.bindings == map[] && FindObjects(cfg, w.rows, ID, true).Ok?
    && (var found := FindObjects(cfg, w.rows, ID, true).value; found.0 == i && found.1.bindable && found.2 == plan)
    && Loads(w.rows, i) && i.row.instanceID == ID && EngineOf(plan) == Some(Postgres) && HomeOf(cfg, i.row, plan) in w.servers
    && OpenEngine(cfg, w.servers, i, plan, true, true) == Ok(Postgres)
    && UserNamed(i.users, PostgresRole(ID)).None? && ValidKey(cfg.key)
  }

  lemma ProvisionedIsReady(cfg: Config, serviceID: string, planID: string) returns (i: Instance, plan: Plan)
    requires OffersPostgres(cfg, serviceID, planID)
    ensures Ready(cfg, AfterProvision(cfg, serviceID, planID), i, plan)
  {
    var w := AfterProvision(cfg, serviceID, planID);
    ProvisionedIsCounted(cfg, serviceID, planID);
    ProvisionedHasNoBinding(cfg, serviceID, planID);
    ProvisionedIsThere(cfg, serviceID, planID);
    plan := FindServicePlan(cfg.services, serviceID, planID).value;
    i := StoredIsReady(cfg, w, serviceID, planID);
  }

  lemma StoredIsReady(cfg: Config, w: World, serviceID: string, planID: string) returns (i: Instance)
    requires OffersPostgres(cfg, serviceID, planID) && Counted(cfg, {ID}, w) && w.rows.bindings == map[]
    requires var row := RowOf(cfg, Ask(ID, serviceID, planID));
             1 in w.rows.instances && w.rows.instances[1] == row && InstanceServer(cfg, row) in w.servers
    ensures Ready(cfg, w, i, FindServicePlan(cfg.services, serviceID, planID).value)
  {
    var plan := FindServicePlan(cfg.services, serviceID, planID).value;
    GoodFind(cfg, w.rows, 1, plan);
    i := FindObjects(cfg, w.rows, ID, true).value.0;
    Opens(cfg, {ID}, w.rows, w.servers, i, plan);
    NoStandardUser(cfg, w, i, plan);
  }

  lemma NobodyStandard(cfg: Config, w: World, u: nat, sid: ServerId)
    requires UsersBound(cfg, w) && w.rows.bindings == map[] && sid in w.servers
    ensures !StandardAt(cfg, w.rows, u, sid)
  {
  }

  lemma NoStandardUser(cfg: Config, w: World, i: Instance, plan: Plan)
    requires Counted(cfg, {ID}, w) && w.rows.bindings == map[] && Loads(w.rows, i) && i.row.instanceID == ID
    requires RecordedPlan(cfg, i.row) == Some(plan) && EngineOf(plan) == Some(Postgres) && HomeOf(cfg, i.row, plan) in w.servers
    ensures UserNamed(i.users, PostgresRole(ID)).None?
  {
    if UserNamed(i.users, PostgresRole(ID)).Some? {
      FoundIsStandard(cfg, {ID}, w.rows, i, Postgres, PostgresRole(ID), BOUND);
      NobodyStandard(cfg, w, UserNamed(i.users, PostgresRole(ID)).value.id, HomeOf(cfg, i.row, plan));
    }
  }

  // ---- A failed Bind -------------------------------------------------------

  /** A `Bind` whose calls reach the save stores a user. */
  lemma FirstBindAddsUser(cfg: Config, w: World, i: Instance, plan: Plan, o: BindCalls)
    requires Ready(cfg, w, i, plan) && (o == BOUND || o == NOT_CREATED)
    ensures AddsUser(cfg, w, FIRST, o)
  {
    NewUserOpens(Standard, cfg.key, ZEROS, i.id);
  }

  lemma FailedFirstBind(cfg: Config, w: World, i: Instance, plan: Plan)
    requires Ready(cfg, w, i, plan)
    ensures var w1 := Bind(cfg, w, FIRST, NOT_CREATED).0;
            var (w2, reply) := Bind(cfg, w1, SECOND, BOUND);
            AllInStep(cfg, w) && !AllInStep(cfg, w1) && reply.BoundTo? && Dead(w2, reply.credentials)
  {
    RoleOfID();
    FirstBindAddsUser(cfg, w, i, plan, NOT_CREATED);
    CountedIsInStep(cfg, {ID}, w);
    BindInStepIff(cfg, {ID}, w, FIRST, NOT_CREATED);
    RebindIsDead(cfg, {ID}, w, FIRST, NOT_CREATED, SECOND, BOUND);
  }

  /** A reachable state out of step: the role is not created. A second binding, with every call going
      through, then gets credentials that do not work. */
  lemma FailedBindHappens(cfg: Config, serviceID: string, planID: string)
    requires OffersPostgres(cfg, serviceID, planID)
    ensures var w := AfterProvision(cfg, serviceID, planID);
            var w1 := Bind(cfg, w, FIRST, NOT_CREATED).0;
            var (w2, reply) := Bind(cfg, w1, SECOND, BOUND);
            AllInStep(cfg, w) && !AllInStep(cfg, w1) && reply.BoundTo? && Dead(w2, reply.credentials)
  {
    var i, plan := ProvisionedIsReady(cfg, serviceID, planID);
    FailedFirstBind(cfg, AfterProvision(cfg, serviceID, planID), i, plan);
  }

  // ---- A failed Unbind -----------------------------------------------------

  /** The worlds before and after a first `Bind`: one new user of the instance, and one binding in all. */
  ghost predicate OneUserMore(cfg: Config, w: World, w1: World, u0: nat, b0: nat) {
    var found := FindObjects(cfg, w.rows, ID, true);
    && found.Ok? && HomeOf(cfg, found.value.0.row, found.value.2) in w1.servers && w1.rows.instances == w.rows.instances
    && u0 in w1.rows.users && w1.rows.users[u0].kind == Standard && w1.rows.users[u0].instance == found.value.0.id
    && w1.rows.bindings == map[b0 := BindingRow(u0, FIRST.bindingID)]
  }

  lemma FirstBindShape(cfg: Config, w: World, i: Instance, plan: Plan) returns (user: UserRow)
    requires Ready(cfg, w, i, plan)
    ensures var w1 := Bind(cfg, w, FIRST, BOUND).0;
            && user.kind == Standard && user.instance == i.id && w1.rows == InsertUser(w.rows, user, FIRST.bindingID)
            && HomeOf(cfg, i.row, plan) in w1.servers
  {
    NewUserOpens(Standard, cfg.key, ZEROS, i.id);
    user := NewUser(Standard, cfg.key, Some(ZEROS), i.id).value.(username := PostgresRole(ID));
    BindFoundDoes(cfg, w, FIRST, BOUND, i, plan, Postgres, PostgresRole(ID));
    StoredUser(cfg, w.rows, i, plan, Postgres, PostgresRole(ID), FIRST.bindingID, BOUND, user);
  }

  lemma InsertedIsOneMore(cfg: Config, w: World, w1: World, i: Instance, plan: Plan, user: UserRow)
    requires FindObjects(cfg, w.rows, ID, true).Ok? && w.rows.bindings == map[]
    requires var found := FindObjects(cfg, w.rows, ID, true).value; found.0 == i && found.2 == plan
    requires user.kind == Standard && user.instance == i.id && w1.rows == InsertUser(w.rows, user, FIRST.bindingID)
    requires HomeOf(cfg, i.row, plan) in w1.servers
    ensures OneUserMore(cfg, w, w1, w.rows.nextID, w.rows.nextID + 1)
  {
  }

  lemma TwoBindings(rows: Rows, user: User, j: nat, k: nat)
    requires LoadsUser(rows, user) && j < k < |user.bindings|
    ensures user.bindings[j].id in rows.bindings && user.bindings[k].id in rows.bindings
    ensures user.bindings[j].id != user.bindings[k].id
  {
    assert user.bindings[j] in user.bindings && user.bindings[k] in user.bindings;
  }

  lemma OnlyBinding(rows: Rows, user: User, b0: nat)
    requires LoadsUser(rows, user) && forall b :: b in rows.bindings ==> b == b0
    ensures |user.bindings| <= 1
  {
    if |user.bindings| > 1 {
      TwoBindings(rows, user, 0, 1);
    }
  }

  /** In tables with one binding in all, the standard user that holds it holds no other. */
  lemma OneBindingInAll(rows: Rows, i: Instance, u0: nat, b0: nat, bindingID: string)
    requires Loads(rows, i) && u0 in rows.users && rows.users[u0].instance == i.id && rows.users[u0].kind == Standard
    requires rows.bindings == map[b0 := BindingRow(u0, bindingID)]
    ensures BindingUser(i.users, bindingID).Some? && |BindingUser(i.users, bindingID).value.0.bindings| == 1
  {
    assert HasUser(i.users, u0);
    var loaded :| loaded in i.users && loaded.id == u0;
    assert LoadsUser(rows, loaded);
    assert b0 in rows.bindings && rows.bindings[b0] == BindingRow(loaded.id, bindingID);
    assert Binding(b0, rows.bindings[b0].bindingID) in loaded.bindings;
    assert BindingUser(i.users, bindingID).Some?;
    OnlyBinding(rows, BindingUser(i.users, bindingID).value.0, b0);
  }

  lemma OneUserTakesLast(cfg: Config, w: World, w1: World, u0: nat, b0: nat)
    requires UniqueInstanceIDs(w1.rows) && OneUserMore(cfg, w, w1, u0, b0)
    ensures TakesLastBinding(cfg, w1, FIRST, NOT_REVOKED)
  {
    FoundAgain(cfg, w, w1, FIRST, BOUND);
    var found := FindObjects(cfg, w1.rows, ID, true).value;
    OneBindingInAll(w1.rows, found.0, u0, b0, FIRST.bindingID);
  }

  lemma InsertedTakesLast(cfg: Config, w: World, w1: World, i: Instance, plan: Plan, user: UserRow)
    requires FindObjects(cfg, w.rows, ID, true).Ok? && w.rows.bindings == map[] && UniqueInstanceIDs(w1.rows)
    requires var found := FindObjects(cfg, w.rows, ID, true).value; found.0 == i && found.2 == plan
    requires user.kind == Standard && user.instance == i.id && w1.rows == InsertUser(w.rows, user, FIRST.bindingID)
    requires HomeOf(cfg, i.row, plan) in w1.servers
    ensures TakesLastBinding(cfg, w1, FIRST, NOT_REVOKED)
  {
    InsertedIsOneMore(cfg, w, w1, i, plan, user);
    OneUserTakesLast(cfg, w, w1, w.rows.nextID, w.rows.nextID + 1);
  }

  lemma NotRevoked(cfg: Config, w1: World)
    requires Counted(cfg, {ID}, w1) && TakesLastBinding(cfg, w1, FIRST, NOT_REVOKED)
    ensures AllInStep(cfg, w1) && !AllInStep(cfg, Unbind(cfg, w1, FIRST, NOT_REVOKED).0)
  {
    RoleOfID();
    CountedIsInStep(cfg, {ID}, w1);
    UnbindInStepIff(cfg, {ID}, w1, FIRST, NOT_REVOKED);
  }

  lemma FailedFirstUnbind(cfg: Config, w: World, w1: World, i: Instance, plan: Plan)
    requires Ready(cfg, w, i, plan) && w1 == Bind(cfg, w, FIRST, BOUND).0
    ensures AllInStep(cfg, w1) && !AllInStep(cfg, Unbind(cfg, w1, FIRST, NOT_REVOKED).0)
  {
    RoleOfID();
    BindCounted(cfg, {ID}, w, FIRST, BOUND);
    var user := FirstBindShape(cfg, w, i, plan);
    InsertedTakesLast(cfg, w, w1, i, plan, user);
    NotRevoked(cfg, w1);
  }

  /** A reachable state out of step: the last binding is gone, and the role is not revoked. */
  lemma FailedUnbindHappens(cfg: Config, serviceID: string, planID: string)
    requires OffersPostgres(cfg, serviceID, planID)
    ensures var w1 := Bind(cfg, AfterProvision(cfg, serviceID, planID), FIRST, BOUND).0;
            AllInStep(cfg, w1) && !AllInStep(cfg, Unbind(cfg, w1, FIRST, NOT_REVOKED).0)
  {
    var w := AfterProvision(cfg, serviceID, planID);
    var i, plan := ProvisionedIsReady(cfg, serviceID, planID);
    FailedFirstUnbind(cfg, w, Bind(cfg, w, FIRST, BOUND).0, i, plan);
  }

  // ---- A failed save -------------------------------------------------------

  const NOT_SAVED := ALL_CREATED.(save := false)
  const NOT_LOOKED_UP := ALL_CREATED.(find := false)

  /** The request builds an RDS instance wherever the look-up does not stop it. */
  lemma RequestBuilds(cfg: Config, serviceID: string, planID: string, w: World, o: ProvisionCalls)
    requires OffersPostgres(cfg, serviceID, planID) && (o == NOT_SAVED || o == NOT_LOOKED_UP)
    requires o.find ==> !HasRecord(w.rows, ID)
    ensures BuildsInstance(cfg, w, Ask(ID, serviceID, planID), o)
  {
    NewUserOpens(Master, cfg.key, ZEROS, 0);
  }

  /** An RDS instance without a record, left by a `Provision` in which only the save fails. The same request
      with every call going through then fails. */
  lemma FailedSaveHappens(cfg: Config, serviceID: string, planID: string)
    requires OffersPostgres(cfg, serviceID, planID)
    ensures var req := Ask(ID, serviceID, planID);
            var w := Provision(cfg, START, req, NOT_SAVED).0;
            && InstanceServer(cfg, RowOf(cfg, req)) in w.servers && !HasRecord(w.rows, ID)
            && !Provision(cfg, w, req, ALL_CREATED).1.Provisioned?
  {
    var req := Ask(ID, serviceID, planID);
    var w := Provision(cfg, START, req, NOT_SAVED).0;
    RequestBuilds(cfg, serviceID, planID, START, NOT_SAVED);
    InstanceLeftIff(cfg, START, req, NOT_SAVED);
    BuildsForDedicated(cfg, START, req, NOT_SAVED);
    ExistingInstanceBlocks(cfg, w, req, ALL_CREATED);
  }

  // ---- A failed look-up ----------------------------------------------------

  lemma CarefulTeardown(cfg: Config, w: World)
    ensures CarefulRun(cfg, {ID}, w, Teardown(cfg, ID))
  {
    var (first, second) := (Teardown(cfg, ID)[0], Teardown(cfg, ID)[1]);
    assert Teardown(cfg, ID) == [first] + [second];
    assert Teardown(cfg, ID)[..1] == [first] && [first][..0] == [];
    assert CarefulRun(cfg, {ID}, w, [first]);
  }

  /** The instance is deleted while it has a user; its record waits for `LastOperation`. */
  lemma TornDown(cfg: Config, w1: World, serviceID: string, planID: string, r: nat)
    requires OffersPostgres(cfg, serviceID, planID) && Counted(cfg, {ID}, w1)
    requires r in w1.rows.instances && w1.rows.instances[r] == RowOf(cfg, Ask(ID, serviceID, planID))
    requires InstanceServer(cfg, w1.rows.instances[r]) in w1.servers
    ensures var w2 := Run(cfg, w1, Teardown(cfg, ID));
            Counted(cfg, {ID}, w2) && w2.rows == w1.rows && InstanceServer(cfg, w1.rows.instances[r]) !in w2.servers
  {
    RoleOfID();
    CarefulTeardown(cfg, w1);
    RunCounted(cfg, {ID}, w1, Teardown(cfg, ID));
    TeardownRuns(cfg, w1, r, FindServicePlan(cfg.services, serviceID, planID).value);
  }

  /** A `Provision` whose look-up fails then builds the server again, empty. */
  lemma Rebuilt(cfg: Config, w2: World, serviceID: string, planID: string, r: nat)
    requires OffersPostgres(cfg, serviceID, planID) && Counted(cfg, {ID}, w2) && HasStandard(w2.rows, r)
    requires r in w2.rows.instances && w2.rows.instances[r] == RowOf(cfg, Ask(ID, serviceID, planID))
    requires InstanceServer(cfg, w2.rows.instances[r]) !in w2.servers
    ensures AllInStep(cfg, w2) && !AllInStep(cfg, Provision(cfg, w2, Ask(ID, serviceID, planID), NOT_LOOKED_UP).0)
  {
    RoleOfID();
    CountedIsInStep(cfg, {ID}, w2);
    RequestBuilds(cfg, serviceID, planID, w2, NOT_LOOKED_UP);
    assert RebuildsHomeOf(cfg, w2, Ask(ID, serviceID, planID), NOT_LOOKED_UP, r);
    ProvisionInStepIff(cfg, {ID}, w2, Ask(ID, serviceID, planID), NOT_LOOKED_UP);
  }

  /** A reachable state out of step: provision and bind, have the instance deleted, and provision again
      with a look-up that fails before `LastOperation` has removed the record. */
  lemma RebuiltHappens(cfg: Config, serviceID: string, planID: string)
    requires OffersPostgres(cfg, serviceID, planID)
    ensures var w1 := Bind(cfg, AfterProvision(cfg, serviceID, planID), FIRST, BOUND).0;
            var w2 := Run(cfg, w1, Teardown(cfg, ID));
            AllInStep(cfg, w2) && !AllInStep(cfg, Provision(cfg, w2, Ask(ID, serviceID, planID), NOT_LOOKED_UP).0)
  {
    var w1 := Bind(cfg, AfterProvision(cfg, serviceID, planID), FIRST, BOUND).0;
    var r := BoundInstance(cfg, serviceID, planID, w1);
    TornDown(cfg, w1, serviceID, planID, r);
    Rebuilt(cfg, Run(cfg, w1, Teardown(cfg, ID)), serviceID, planID, r);
  }

  /** After the first `Bind` the instance has a standard user. */
  lemma BoundInstance(cfg: Config, serviceID: string, planID: string, w1: World) returns (r: nat)
    requires OffersPostgres(cfg, serviceID, planID) && w1 == Bind(cfg, AfterProvision(cfg, serviceID, planID), FIRST, BOUND).0
    ensures Counted(cfg, {ID}, w1) && HasStandard(w1.rows, r)
    ensures r in w1.rows.instances && w1.rows.instances[r] == RowOf(cfg, Ask(ID, serviceID, planID))
    ensures InstanceServer(cfg, w1.rows.instances[r]) in w1.servers
  {
    var w := AfterProvision(cfg, serviceID, planID);
    var i, plan := ProvisionedIsReady(cfg, serviceID, planID);
    ProvisionedIsThere(cfg, serviceID, planID);
    RoleOfID();
    r := 1;
    assert Counted(cfg, {ID}, w1) by {
      BindCounted(cfg, {ID}, w, FIRST, BOUND);
    }
    var user := FirstBindShape(cfg, w, i, plan);
    BoundRow(cfg, w, w1, i, plan, user);
  }

  lemma BoundRow(cfg: Config, w: World, w1: World, i: Instance, plan: Plan, user: UserRow)
    requires Ready(cfg, w, i, plan) && 1 in w.rows.instances && w.rows.instances[1].instanceID == ID
    requires user.kind == Standard && user.instance == i.id && w1.rows == InsertUser(w.rows, user, FIRST.bindingID)
    ensures i.id == 1 && w1.rows.instances == w.rows.instances && HasStandard(w1.rows, 1)
  {
    assert w1.rows.users[w.rows.nextID] == user;
  }
}
