/** Short runs in which a deletion that does not go through puts users and roles out of step, at once or in a
    later step: `Deprovision` on any broker that offers a bindable plan on the shared Postgres or MySQL server,
    and `LastOperation` on any that offers a bindable Aurora plan. */
module DeletionWitnesses {
  import opened Wrappers
  import opened Strings
  import opened Utils
  import opened Models
  import opened Records
  import opened Names
  import opened Catalog
  import opened SqlServers
  import opened Broker
  import opened RunReferences
  import opened ClusterOrphans
  import opened RefCount
  import opened RefCountProvision
  import opened RefCountBind
  import opened RefCountUnbind
  import opened RefCountDelete
  import opened RefCountRuns
  import opened RoleCollisions
  import opened DeletionFailures
  import opened Leftovers
  import opened Witnesses

  // ---- A half Deprovision --------------------------------------------------

  function NothingDeleted(): DeprovisionCalls {
    AllDeleted().(deletes := Some(0))
  }

  /** The world after a first `Bind` of an instance on the shared Postgres server. */
  lemma SharedBound(cfg: Config, serviceID: string, planID: string)
    requires OffersShared(cfg, serviceID, planID)
    ensures var w := Bind(cfg, AfterProvision(cfg, serviceID, planID), FIRST, BOUND).0;
            Counted(cfg, {ID}, w) && StandardOf(w.rows, 1, 3)
            && 1 in w.rows.instances && w.rows.instances[1] == RowOf(cfg, Ask(ID, serviceID, planID))
  {
    var w := AfterProvision(cfg, serviceID, planID);
    RoleOfID();
    SharedProvision(cfg, START, ID, serviceID, planID, "postgres", ZEROS);
    assert Creating(ZEROS) == ALL_CREATED;
    assert Counted(cfg, {ID}, w) by {
      StartCounted(cfg, {ID});
      ProvisionCounted(cfg, {ID}, START, Ask(ID, serviceID, planID), ALL_CREATED);
    }
    SharedBind(cfg, w, 1, serviceID, planID, FIRST.bindingID, ZEROS);
    BindCounted(cfg, {ID}, w, FIRST, BOUND);
  }

  lemma NothingGoes(cfg: Config, w: World, serviceID: string, planID: string)
    requires OffersShared(cfg, serviceID, planID) && UniqueInstanceIDs(w.rows) && StandardOf(w.rows, 1, 3)
    requires 1 in w.rows.instances && w.rows.instances[1] == RowOf(cfg, Ask(ID, serviceID, planID))
    ensures HalfDeprovisioned(cfg, w, DeprovisionRequest(ID, true), NothingDeleted())
  {
    GoodFind(cfg, w.rows, 1, FindServicePlan(cfg.services, serviceID, planID).value);
    assert Refs(FindObjects(cfg, w.rows, ID, true).value.0, Some(0)) == [];
    assert !UserInStep(w.rows, [], 3, StillUsable(Postgres, NothingDeleted().dropUser)(w.rows.users[3].username));
  }

  /** The database and the users are dropped, and no row goes: the user is still recorded. */
  lemma HalfDeprovisionHappens(cfg: Config, serviceID: string, planID: string)
    requires OffersShared(cfg, serviceID, planID)
    ensures var w := Bind(cfg, AfterProvision(cfg, serviceID, planID), FIRST, BOUND).0;
            AllInStep(cfg, w) && !AllInStep(cfg, Deprovision(cfg, w, DeprovisionRequest(ID, true), NothingDeleted()).0)
  {
    var w := Bind(cfg, AfterProvision(cfg, serviceID, planID), FIRST, BOUND).0;
    SharedBound(cfg, serviceID, planID);
    RoleOfID();
    CountedIsInStep(cfg, {ID}, w);
    NothingGoes(cfg, w, serviceID, planID);
    DeprovisionInStepIff(cfg, {ID}, w, DeprovisionRequest(ID, true), NothingDeleted());
  }

  // ---- A half LastOperation ------------------------------------------------

  /** Only the last deletion fails, that of the instance. */
  function AllButInstance(i: Instance): LastOperationCalls {
    DESCRIBED.(deletes := Some(|UsersCascade(i.users)|))
  }

  lemma AllUsersGo(rows: Rows, i: Instance)
    requires Integrity(rows) && Loads(rows, i)
    ensures var refs := Refs(i, AllButInstance(i).deletes);
            && InstanceRef(i.id) !in refs && (forall u :: u in rows.users && rows.users[u].instance == i.id ==> UserRef(u) in refs)
            && (forall u :: StandardOf(rows, i.id, u) ==> !KeepsBinding(rows, refs, u))
  {
    UsersCascadeMembers(i.users);
    forall u | u in rows.users && rows.users[u].instance == i.id
      ensures UserRef(u) in UsersCascade(i.users)
    {
      InstanceCascadeHasUser(rows, i, u);
    }
    assert Refs(i, AllButInstance(i).deletes) == UsersCascade(i.users);
    forall b | b in rows.bindings && rows.users[rows.bindings[b].user].instance == i.id
      ensures BindingRef(b) in UsersCascade(i.users)
    {
      InstanceCascadeHasBinding(rows, i, b);
    }
  }

  lemma UsersLeftBehind(cfg: Config, w: World, r: nat, plan: Plan)
    requires Integrity(w.rows) && UniqueInstanceIDs(w.rows) && HasStandard(w.rows, r)
    requires r in w.rows.instances && RecordedPlan(cfg, w.rows.instances[r]) == Some(plan) && !plan.shared && IsAurora(plan)
    requires InstanceServer(cfg, w.rows.instances[r]) !in w.servers && ClusterServer(cfg, w.rows.instances[r]) in w.servers
    ensures var id := w.rows.instances[r].instanceID;
            var found := FindObjects(cfg, w.rows, id, true);
            found.Ok? && LeavesUsersBehind(cfg, w, id, AllButInstance(found.value.0))
  {
    GoodFind(cfg, w.rows, r, plan);
    var i := FindObjects(cfg, w.rows, w.rows.instances[r].instanceID, true).value.0;
    AllUsersGo(w.rows, i);
    var u :| u in w.rows.users && w.rows.users[u].instance == r && w.rows.users[u].kind == Standard;
    assert StandardOf(w.rows, i.id, u);
  }

  /** From any state that satisfies the invariant: RDS reports the instance gone, its cluster is still there,
      and all rows of the instance go but the last. Then the roles of its users can still log in. */
  lemma LastRowStays(cfg: Config, ids: set<string>, w: World, r: nat, plan: Plan)
    requires RolesApart(ids) && Counted(cfg, ids, w) && HasStandard(w.rows, r)
    requires r in w.rows.instances && RecordedPlan(cfg, w.rows.instances[r]) == Some(plan) && !plan.shared && IsAurora(plan)
    requires InstanceServer(cfg, w.rows.instances[r]) !in w.servers && ClusterServer(cfg, w.rows.instances[r]) in w.servers
    ensures var id := w.rows.instances[r].instanceID;
            var found := FindObjects(cfg, w.rows, id, true);
            found.Ok? && !AllInStep(cfg, LastOperation(cfg, w, id, AllButInstance(found.value.0)).0)
  {
    var id := w.rows.instances[r].instanceID;
    UsersLeftBehind(cfg, w, r, plan);
    LastOperationInStepIff(cfg, ids, w, id, AllButInstance(FindObjects(cfg, w.rows, id, true).value.0));
  }

  /** A broker with a usable key and a valid catalog that offers a bindable Aurora plan. */
  predicate OffersAurora(cfg: Config, serviceID: string, planID: string) {
    && ValidKey(cfg.key) && ValidServices(cfg.services)
    && FindService(cfg.services, serviceID).Some? && FindService(cfg.services, serviceID).value.bindable
    && OffersPlan(cfg, serviceID, planID, true)
  }

  const OTHER_NAME: NameBytes := [4, 0, 0, 0, 0, 0, 0, 0, 0]
  const BOUND_BY_NAME := BOUND.(name := Some(OTHER_NAME))

  lemma SecondCharacter(name: NameBytes)
    requires name[0] < 8
    ensures |RandUsername(name)| > 1 && RandUsername(name)[1] == Digit64(name[0] / 4)
  {
    var text := Encode64(name);
    assert |text| >= 4 && text[0] == Digit64(name[0] / 4);
    ReplaceCharAt(text, '-', '_');
  }

  lemma OtherNameDiffers()
    ensures RandUsername(OTHER_NAME) != RandUsername(ZEROS.name)
  {
    SecondCharacter(OTHER_NAME);
    SecondCharacter(ZEROS.name);
  }

  lemma AuroraCounted(cfg: Config, serviceID: string, planID: string)
    requires OffersAurora(cfg, serviceID, planID)
    ensures Counted(cfg, {ID}, AfterProvision(cfg, serviceID, planID))
  {
    RoleOfID();
    StartCounted(cfg, {ID});
    ProvisionCounted(cfg, {ID}, START, Ask(ID, serviceID, planID), ALL_CREATED);
  }

  /** The only user is the master, under another name. */
  lemma OtherNameIsFresh(cfg: Config, serviceID: string, planID: string)
    ensures FreshName(AfterProvision(cfg, serviceID, planID).rows, RandUsername(OTHER_NAME))
  {
    OtherNameDiffers();
    ProvisionFromMaster(cfg, START, Ask(ID, serviceID, planID), ALL_CREATED, Begin);
  }

  lemma AuroraProvisioned(cfg: Config, serviceID: string, planID: string)
    requires OffersAurora(cfg, serviceID, planID)
    ensures var (w, row) := (AfterProvision(cfg, serviceID, planID), RowOf(cfg, Ask(ID, serviceID, planID)));
            && Counted(cfg, {ID}, w) && 1 in w.rows.instances && w.rows.instances[1] == row
            && InstanceServer(cfg, row) in w.servers && ClusterServer(cfg, row) in w.servers
            && FreshName(w.rows, RandUsername(OTHER_NAME))
  {
    GoodProvision(cfg, START, Ask(ID, serviceID, planID), FindServicePlan(cfg.services, serviceID, planID).value);
    AuroraCounted(cfg, serviceID, planID);
    OtherNameIsFresh(cfg, serviceID, planID);
  }

  /** The record of the ID, on an existing server with the MySQL engine. */
  predicate OnMySql(cfg: Config, w: World, serviceID: string, planID: string) {
    var plan := FindServicePlan(cfg.services, serviceID, planID);
    && ValidKey(cfg.key) && plan.Some? && EngineOf(plan.value) == Some(MySQL)
    && FindService(cfg.services, serviceID).Some? && FindService(cfg.services, serviceID).value.bindable
    && 1 in w.rows.instances && w.rows.instances[1] == RowOf(cfg, Ask(ID, serviceID, planID))
    && HomeOf(cfg, w.rows.instances[1], plan.value) in w.servers
  }

  /** A first `Bind` gives the instance a standard user and creates no server. */
  lemma MySqlBound(cfg: Config, w: World, serviceID: string, planID: string)
    requires OnMySql(cfg, w, serviceID, planID) && Counted(cfg, {ID}, w) && FreshName(w.rows, RandUsername(OTHER_NAME))
    ensures Counted(cfg, {ID}, Bind(cfg, w, FIRST, BOUND_BY_NAME).0) && MySqlUserStored(w, Bind(cfg, w, FIRST, BOUND_BY_NAME).0)
  {
    var plan := FindServicePlan(cfg.services, serviceID, planID).value;
    RoleOfID();
    BindCounted(cfg, {ID}, w, FIRST, BOUND_BY_NAME);
    GoodFind(cfg, w.rows, 1, plan);
    var i := FindObjects(cfg, w.rows, ID, true).value.0;
    Opens(cfg, {ID}, w.rows, w.servers, i, plan);
    BindFoundDoes(cfg, w, FIRST, BOUND_BY_NAME, i, plan, MySQL, RandUsername(OTHER_NAME));
    NewMySqlUser(cfg, w, Bind(cfg, w, FIRST, BOUND_BY_NAME).0, i, plan);
  }

  ghost predicate MySqlUserStored(w: World, w1: World) {
    && w1.rows.instances == w.rows.instances && w1.servers.Keys == w.servers.Keys
    && StandardOf(w1.rows, 1, w.rows.nextID) && w1.rows.users[w.rows.nextID].username == RandUsername(OTHER_NAME)
  }

  lemma NewMySqlUser(cfg: Config, w: World, w1: World, i: Instance, plan: Plan)
    requires ValidKey(cfg.key) && Loads(w.rows, i) && i.id == 1 && FreshName(w.rows, RandUsername(OTHER_NAME))
    requires BindDoes(cfg, w, w1, i, plan, MySQL, RandUsername(OTHER_NAME), FIRST.bindingID, BOUND_BY_NAME)
    ensures MySqlUserStored(w, w1)
  {
    NewUserOpens(Standard, cfg.key, ZEROS, i.id);
    assert UserNamed(i.users, RandUsername(OTHER_NAME)).None? by {
      assert forall u :: u in i.users ==> LoadsUser(w.rows, u);
    }
    assert w.rows.nextID in w1.rows.users;
  }

  lemma AuroraDeprovision(cfg: Config, w: World, serviceID: string, planID: string)
    requires OffersAurora(cfg, serviceID, planID) && UniqueInstanceIDs(w.rows)
    requires var row := RowOf(cfg, Ask(ID, serviceID, planID));
             1 in w.rows.instances && w.rows.instances[1] == row && InstanceServer(cfg, row) in w.servers
    ensures var w' := Deprovision(cfg, w, DeprovisionRequest(ID, true), AllDeleted()).0;
            && w'.rows == w.rows && w'.servers.Keys == w.servers.Keys
            && w'.servers[InstanceServer(cfg, w.rows.instances[1])].deleting
  {
    GoodFind(cfg, w.rows, 1, FindServicePlan(cfg.services, serviceID, planID).value);
  }

  lemma TeardownIs(cfg: Config, w: World)
    ensures Run(cfg, w, Teardown(cfg, ID))
            == Disappear(Deprovision(cfg, w, DeprovisionRequest(ID, true), AllDeleted()).0, RdsInstance(Identifier(cfg.dbPrefix, ID)))
  {
    var (first, second) := (Teardown(cfg, ID)[0], Teardown(cfg, ID)[1]);
    RunOne(cfg, w, first);
    RunAppend(cfg, w, [first], second);
    assert Teardown(cfg, ID) == [first] + [second];
  }

  /** Delete the RDS instance, and let it go before the cluster. */
  lemma InstanceGoes(cfg: Config, w: World, serviceID: string, planID: string)
    requires OffersAurora(cfg, serviceID, planID) && Counted(cfg, {ID}, w)
    requires var row := RowOf(cfg, Ask(ID, serviceID, planID));
             && 1 in w.rows.instances && w.rows.instances[1] == row
             && InstanceServer(cfg, row) in w.servers && ClusterServer(cfg, row) in w.servers
    ensures var (row, w1) := (w.rows.instances[1], Run(cfg, w, Teardown(cfg, ID)));
            && Counted(cfg, {ID}, w1) && w1.rows == w.rows
            && InstanceServer(cfg, row) !in w1.servers && ClusterServer(cfg, row) in w1.servers
  {
    var w1 := Deprovision(cfg, w, DeprovisionRequest(ID, true), AllDeleted()).0;
    RoleOfID();
    TeardownIs(cfg, w);
    AuroraDeprovision(cfg, w, serviceID, planID);
    DeprovisionCounted(cfg, {ID}, w, DeprovisionRequest(ID, true), AllDeleted());
    DisappearCounted(cfg, {ID}, w1, RdsInstance(Identifier(cfg.dbPrefix, ID)));
  }

  /** Provision and bind, have the instance deleted, and ask for the last operation while the cluster is still
      there; all rows of the instance go but the last. */
  lemma LastRowStaysHappens(cfg: Config, serviceID: string, planID: string)
    requires OffersAurora(cfg, serviceID, planID)
    ensures var w := Run(cfg, Bind(cfg, AfterProvision(cfg, serviceID, planID), FIRST, BOUND_BY_NAME).0, Teardown(cfg, ID));
            var found := FindObjects(cfg, w.rows, ID, true);
            AllInStep(cfg, w) && found.Ok? && !AllInStep(cfg, LastOperation(cfg, w, ID, AllButInstance(found.value.0)).0)
  {
    var w := AfterProvision(cfg, serviceID, planID);
    var w1 := Bind(cfg, w, FIRST, BOUND_BY_NAME).0;
    AuroraProvisioned(cfg, serviceID, planID);
    MySqlBound(cfg, w, serviceID, planID);
    InstanceGoes(cfg, w1, serviceID, planID);
    RoleOfID();
    CountedIsInStep(cfg, {ID}, Run(cfg, w1, Teardown(cfg, ID)));
    LastRowStays(cfg, {ID}, Run(cfg, w1, Teardown(cfg, ID)), 1, FindServicePlan(cfg.services, serviceID, planID).value);
  }

  // ---- An account that is left ---------------------------------------------

  function NoUserDropped(): DeprovisionCalls {
    AllDeleted().(dropUser := (name: string) => false)
  }

  /** The world after a first `Bind` of an instance on the shared MySQL server. */
  function MySqlWorld(cfg: Config, serviceID: string, planID: string): World {
    Bind(cfg, AfterProvision(cfg, serviceID, planID), FIRST, BOUND_BY_NAME).0
  }

  lemma MySqlProvisioned(cfg: Config, serviceID: string, planID: string)
    requires OffersSharedOn(cfg, serviceID, planID, "mysql")
    ensures var w := AfterProvision(cfg, serviceID, planID);
            && OnMySql(cfg, w, serviceID, planID) && Counted(cfg, {ID}, w) && FreshName(w.rows, RandUsername(OTHER_NAME))
            && forall r :: r in w.rows.instances ==> r == 1
  {
    RoleOfID();
    SharedProvision(cfg, START, ID, serviceID, planID, "mysql", ZEROS);
    assert Creating(ZEROS) == ALL_CREATED;
    OtherNameIsFresh(cfg, serviceID, planID);
    StartCounted(cfg, {ID});
    ProvisionCounted(cfg, {ID}, START, Ask(ID, serviceID, planID), ALL_CREATED);
  }

  /** One instance with a standard user of that name is all that is recorded. */
  ghost predicate OneMySqlUser(cfg: Config, w: World, serviceID: string, planID: string) {
    && Counted(cfg, {ID}, w) && (forall r :: r in w.rows.instances <==> r == 1)
    && w.rows.instances[1] == RowOf(cfg, Ask(ID, serviceID, planID))
    && exists u :: StandardOf(w.rows, 1, u) && w.rows.users[u].username == RandUsername(OTHER_NAME)
  }

  lemma MySqlReady(cfg: Config, serviceID: string, planID: string)
    requires OffersSharedOn(cfg, serviceID, planID, "mysql")
    ensures OneMySqlUser(cfg, MySqlWorld(cfg, serviceID, planID), serviceID, planID)
  {
    var w0 := AfterProvision(cfg, serviceID, planID);
    MySqlProvisioned(cfg, serviceID, planID);
    MySqlBound(cfg, w0, serviceID, planID);
    assert StandardOf(MySqlWorld(cfg, serviceID, planID).rows, 1, w0.rows.nextID);
  }

  lemma LeavesThisAccount(cfg: Config, w: World, serviceID: string, planID: string)
    requires OffersSharedOn(cfg, serviceID, planID, "mysql") && OneMySqlUser(cfg, w, serviceID, planID)
    ensures var (req, o) := (DeprovisionRequest(ID, true), NoUserDropped());
            && Completes(cfg, w, req, o) && LeavesAccounts(cfg, w, req, o) && Deprovision(cfg, w, req, o).1 == Deprovisioned(false)
  {
    GoodFind(cfg, w.rows, 1, FindServicePlan(cfg.services, serviceID, planID).value);
  }

  lemma NothingRecorded(rows: Rows, i: Instance)
    requires Integrity(rows) && Loads(rows, i) && forall r :: r in rows.instances ==> r == i.id
    ensures var rows' := DeleteInstanceRows(rows, i, None); rows'.users == map[] && rows'.instances == map[]
  {
    DeletedInstanceGone(rows, i);
  }

  lemma AccountStays(cfg: Config, w: World, serviceID: string, planID: string)
    requires OffersSharedOn(cfg, serviceID, planID, "mysql") && OneMySqlUser(cfg, w, serviceID, planID)
    requires Completes(cfg, w, DeprovisionRequest(ID, true), NoUserDropped())
    ensures var w1 := Deprovision(cfg, w, DeprovisionRequest(ID, true), NoUserDropped()).0;
            && Shared("mysql") in w1.servers && w1.rows.users == map[] && w1.rows.instances == map[]
            && CanUse(w1.servers[Shared("mysql")], DBName(cfg.dbPrefix, ID), RandUsername(OTHER_NAME))
  {
    var i, plan := CompletedShape(cfg, {ID}, w, DeprovisionRequest(ID, true), NoUserDropped());
    var w1 := Deprovision(cfg, w, DeprovisionRequest(ID, true), NoUserDropped()).0;
    NothingRecorded(w.rows, i);
    AccountOnServer(cfg, w, w1, i);
  }

  lemma AccountOnServer(cfg: Config, w: World, w1: World, i: Instance)
    requires ServersFit(cfg, w) && Loads(w.rows, i) && At(cfg, w.rows, i.id, Shared("mysql")) && SharedUp(w.servers) && SharedUp(w1.servers)
    requires ServerDropped(MySQL, w.servers[Shared("mysql")], w1.servers[Shared("mysql")], i, NoUserDropped().dropUser)
    requires exists u :: StandardOf(w.rows, i.id, u) && w.rows.users[u].username == RandUsername(OTHER_NAME)
    ensures CanUse(w1.servers[Shared("mysql")], i.row.dbName, RandUsername(OTHER_NAME))
  {
    var u :| StandardOf(w.rows, i.id, u) && w.rows.users[u].username == RandUsername(OTHER_NAME);
    assert Serves(cfg, w.rows, Shared("mysql"), MySQL);
    AccountIsLeft(cfg, w, i, Shared("mysql"), w1.servers[Shared("mysql")], NoUserDropped().dropUser, u);
  }

  lemma ProvisionedAgain(cfg: Config, w1: World, serviceID: string, planID: string)
    requires OffersSharedOn(cfg, serviceID, planID, "mysql") && Shared("mysql") in w1.servers && SharedUp(w1.servers)
    requires w1.rows.instances == map[] && w1.rows.users == map[]
    requires CanUse(w1.servers[Shared("mysql")], DBName(cfg.dbPrefix, ID), RandUsername(OTHER_NAME))
    ensures var (w2, reply) := Provision(cfg, w1, Ask(ID, serviceID, planID), ALL_CREATED);
            && StoresOn(cfg, w1, Ask(ID, serviceID, planID), ALL_CREATED, Shared("mysql")) && reply.Provisioned?
            && FreshName(w2.rows, RandUsername(OTHER_NAME)) && Shared("mysql") in w2.servers
            && CanUse(w2.servers[Shared("mysql")], DBName(cfg.dbPrefix, ID), RandUsername(OTHER_NAME))
  {
    assert Creating(ZEROS) == ALL_CREATED;
    NewUserOpens(Master, cfg.key, ZEROS, 0);
    OtherNameDiffers();
    SharedProvision(cfg, w1, ID, serviceID, planID, "mysql", ZEROS);
  }

  /** On any broker that offers a bindable plan on the shared MySQL server: provision and bind, deprovision with
      the database dropped and all rows deleted but the user not dropped, and provision the same ID again with
      every call going through. The old account can use the new database, and no stored user has its name. */
  lemma LeftoverHappens(cfg: Config, serviceID: string, planID: string)
    requires OffersSharedOn(cfg, serviceID, planID, "mysql")
    ensures var (w1, gone) := Deprovision(cfg, MySqlWorld(cfg, serviceID, planID), DeprovisionRequest(ID, true), NoUserDropped());
            var (w2, again) := Provision(cfg, w1, Ask(ID, serviceID, planID), ALL_CREATED);
            && gone == Deprovisioned(false) && AllInStep(cfg, w1) && again.Provisioned? && !AllInStep(cfg, w2)
            && FreshName(w2.rows, RandUsername(OTHER_NAME)) && Shared("mysql") in w2.servers
            && CanUse(w2.servers[Shared("mysql")], DBName(cfg.dbPrefix, ID), RandUsername(OTHER_NAME))
  {
    var (w, req, o) := (MySqlWorld(cfg, serviceID, planID), DeprovisionRequest(ID, true), NoUserDropped());
    MySqlReady(cfg, serviceID, planID);
    LeavesThisAccount(cfg, w, serviceID, planID);
    AccountStays(cfg, w, serviceID, planID);
    RoleOfID();
    CompletedLeaves(cfg, {ID}, w, req, o);
    ProvisionedAgain(cfg, Deprovision(cfg, w, req, o).0, serviceID, planID);
    ReprovisionInStepIff(cfg, {ID}, w, req, o, Ask(ID, serviceID, planID), ALL_CREATED);
  }

  // ---- A record without its database ---------------------------------------

  /** All rows of the instance go but the last. */
  function AllButRecord(i: Instance): DeprovisionCalls {
    AllDeleted().(deletes := AllButInstance(i).deletes)
  }

  /** The record is there without users, and its database is not. */
  ghost predicate Bare(cfg: Config, w: World, serviceID: string, planID: string) {
    && KeysUsed(w.rows) && UniqueInstanceIDs(w.rows) && SharedUp(w.servers) && ValidKey(cfg.key)
    && 1 in w.rows.instances && w.rows.instances[1] == RowOf(cfg, Ask(ID, serviceID, planID))
    && (forall u :: u in w.rows.users ==> w.rows.users[u].instance != 1)
    && w.rows.instances[1].dbName !in w.servers[SHARED].databases
    && (forall g :: g in w.servers[SHARED].grants ==> g.0 != w.rows.instances[1].dbName)
  }

  lemma NobodyOutOfStep(cfg: Config, w: World, serviceID: string, planID: string, i: Instance)
    requires OffersShared(cfg, serviceID, planID) && Integrity(w.rows) && Loads(w.rows, i)
    requires i.row == RowOf(cfg, Ask(ID, serviceID, planID))
    requires FindObjects(cfg, w.rows, ID, true).Ok? && FindObjects(cfg, w.rows, ID, true).value.0 == i
    ensures !HalfDeprovisioned(cfg, w, DeprovisionRequest(ID, true), AllButRecord(i))
  {
    AllUsersGo(w.rows, i);
  }

  lemma BareRows(rows: Rows, i: Instance)
    requires Integrity(rows) && KeysUsed(rows) && UniqueInstanceIDs(rows) && Loads(rows, i)
    ensures var rows' := DeleteInstanceRows(rows, i, AllButInstance(i).deletes);
            && KeysUsed(rows') && UniqueInstanceIDs(rows') && i.id in rows'.instances && rows'.instances[i.id] == i.row
            && forall u :: u in rows'.users ==> rows'.users[u].instance != i.id
  {
    AllUsersGo(rows, i);
  }

  lemma BareServer(s: Server, s': Server, i: Instance, dropUser: string -> bool)
    requires ServerDropped(Postgres, s, s', i, dropUser)
    ensures i.row.dbName !in s'.databases && forall g :: g in s'.grants ==> g.0 != i.row.dbName
  {
  }

  lemma RecordStays(cfg: Config, w: World, serviceID: string, planID: string, i: Instance)
    requires OffersShared(cfg, serviceID, planID) && Counted(cfg, {ID}, w)
    requires i.id == 1 && i.row == RowOf(cfg, Ask(ID, serviceID, planID)) && Loads(w.rows, i)
    requires FindObjects(cfg, w.rows, ID, true).Ok? && FindObjects(cfg, w.rows, ID, true).value.0 == i
    ensures var w1 := Deprovision(cfg, w, DeprovisionRequest(ID, true), AllButRecord(i)).0;
            Bare(cfg, w1, serviceID, planID) && AllInStep(cfg, w1)
  {
    var (req, o, plan) := (DeprovisionRequest(ID, true), AllButRecord(i), FindServicePlan(cfg.services, serviceID, planID).value);
    var w1 := Deprovision(cfg, w, req, o).0;
    assert AllInStep(cfg, w1) by {
      RoleOfID();
      NobodyOutOfStep(cfg, w, serviceID, planID, i);
      DeprovisionInStepIff(cfg, {ID}, w, req, o);
    }
    SharedDeprovisionEffect(cfg, w, req, o, i, plan);
    BareRows(w.rows, i);
    BareServer(w.servers[SHARED], w1.servers[SHARED], i, o.dropUser);
  }

  lemma BareBind(cfg: Config, w1: World, serviceID: string, planID: string)
    requires OffersShared(cfg, serviceID, planID) && Bare(cfg, w1, serviceID, planID)
    ensures var (w2, reply) := Bind(cfg, w1, SECOND, BOUND);
            && reply.Failed? && 1 in w2.rows.instances && w2.rows.instances[1] == w1.rows.instances[1]
            && SHARED in w2.servers && w2.servers[SHARED].grants == w1.servers[SHARED].grants
            && HasStandardUser(w2.rows, 1, PostgresRole(ID))
  {
    var plan := FindServicePlan(cfg.services, serviceID, planID).value;
    GoodFind(cfg, w1.rows, 1, plan);
    var i := FindObjects(cfg, w1.rows, ID, true).value.0;
    assert UserNamed(i.users, PostgresRole(ID)).None? by {
      assert forall u :: u in i.users ==> LoadsUser(w1.rows, u);
    }
    NewUserOpens(Standard, cfg.key, ZEROS, 1);
    BindFoundDoes(cfg, w1, SECOND, BOUND, i, plan, Postgres, PostgresRole(ID));
    var w2 := Bind(cfg, w1, SECOND, BOUND).0;
    assert w1.rows.nextID in w2.rows.users;
  }

  /** On any broker that offers a bindable plan on the shared Postgres server: a `Deprovision` that stops right
      before the row of the instance is in step, and leaves a record without its database. The next `Bind`, with
      every call going through, stores a user, cannot grant anything to it, and fails. */
  lemma LostDatabaseHappens(cfg: Config, serviceID: string, planID: string)
    requires OffersShared(cfg, serviceID, planID)
    ensures var w := Bind(cfg, AfterProvision(cfg, serviceID, planID), FIRST, BOUND).0;
            var found := FindObjects(cfg, w.rows, ID, true);
            && found.Ok?
            && var w1 := Deprovision(cfg, w, DeprovisionRequest(ID, true), AllButRecord(found.value.0)).0;
               var (w2, reply) := Bind(cfg, w1, SECOND, BOUND);
               AllInStep(cfg, w1) && reply.Failed? && !AllInStep(cfg, w2)
  {
    var w := Bind(cfg, AfterProvision(cfg, serviceID, planID), FIRST, BOUND).0;
    SharedBound(cfg, serviceID, planID);
    GoodFind(cfg, w.rows, 1, FindServicePlan(cfg.services, serviceID, planID).value);
    var i := FindObjects(cfg, w.rows, ID, true).value.0;
    RecordStays(cfg, w, serviceID, planID, i);
    var w1 := Deprovision(cfg, w, DeprovisionRequest(ID, true), AllButRecord(i)).0;
    BareBind(cfg, w1, serviceID, planID);
    UserWithoutGrant(cfg, w1, Bind(cfg, w1, SECOND, BOUND).0, serviceID, planID);
  }

  lemma UserWithoutGrant(cfg: Config, w1: World, w2: World, serviceID: string, planID: string)
    requires OffersShared(cfg, serviceID, planID) && Bare(cfg, w1, serviceID, planID)
    requires 1 in w2.rows.instances && w2.rows.instances[1] == w1.rows.instances[1]
    requires SHARED in w2.servers && w2.servers[SHARED].grants == w1.servers[SHARED].grants && HasStandardUser(w2.rows, 1, PostgresRole(ID))
    ensures !AllInStep(cfg, w2)
  {
    assert At(cfg, w2.rows, 1, SHARED);
    assert !CanUse(w2.servers[SHARED], w2.rows.instances[1].dbName, PostgresRole(ID));
  }
}
