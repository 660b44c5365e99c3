/** How two instances on the shared Postgres server come out of step when their IDs share a role name, and
    that this is the only way. */
module RoleCollisions {
  import opened Wrappers
  import opened Strings
  import opened Utils
  import opened Models
  import opened Records
  import opened Names
  import opened Catalog
  import opened SqlServers
  import opened Broker
  import opened RunReferences
  import opened ClusterOrphans
  import opened RefCount
  import opened RefCountBind
  import opened RefCountRuns

  /** A broker with a usable key and a valid catalog that offers a bindable plan on the shared server of that
      engine. */
  predicate OffersSharedOn(cfg: Config, serviceID: string, planID: string, engine: string) {
    && ValidKey(cfg.key) && ValidServices(cfg.services)
    && FindService(cfg.services, serviceID).Some? && FindService(cfg.services, serviceID).value.bindable
    && FindServicePlan(cfg.services, serviceID, planID).Some?
    && var plan := FindServicePlan(cfg.services, serviceID, planID).value;
       plan.shared && plan.engine == engine
  }

  predicate OffersShared(cfg: Config, serviceID: string, planID: string) {
    OffersSharedOn(cfg, serviceID, planID, "postgres")
  }

  const SHARED := Shared("postgres")

  /** Two different random names that are no roles of the IDs. */
  predicate SpareNames(ids: set<string>, x: NameBytes, y: NameBytes) {
    RandUsername(x) != RandUsername(y) && !IsRoleOf(ids, RandUsername(x)) && !IsRoleOf(ids, RandUsername(y))
  }

  /** Random names are spare when no ID has exactly 12 characters, as with GUIDs. */
  lemma NoTwelveIsSpare(ids: set<string>, x: NameBytes, y: NameBytes)
    requires RandUsername(x) != RandUsername(y) && forall id :: id in ids ==> |id| != 12
    ensures SpareNames(ids, x, y)
  {
    RandUsernameWellFormed(x);
    RandUsernameWellFormed(y);
    forall id | id in ids
      ensures |PostgresRole(id)| != USERNAME_LENGTH
    {
      RoleOfCut(id);
      ReplaceCharAt(Cut62(id), '-', '_');
    }
  }

  // ---- Steps in which every call succeeds ----------------------------------

  function Made(cfg: Config, kind: UserType, e: Entropy, instance: nat): UserRow
    requires ValidKey(cfg.key)
  {
    NewUserOpens(kind, cfg.key, e, instance);
    NewUser(kind, cfg.key, Some(e), instance).value
  }

  function Creating(e: Entropy): ProvisionCalls {
    ALL_CREATED.(entropy := Some(e))
  }

  function Granted(e: Entropy): BindCalls {
    BindCalls(true, true, true, None, Some(e), true, true, true)
  }

  lemma SharedProvision(cfg: Config, w: World, id: string, serviceID: string, planID: string, engine: string, e: Entropy)
    requires OffersSharedOn(cfg, serviceID, planID, engine) && SharedEngine(engine).Some?
    requires !HasRecord(w.rows, id) && Shared(engine) in w.servers
    ensures var (req, s) := (Ask(id, serviceID, planID), w.servers[Shared(engine)]);
            Provision(cfg, w, req, Creating(e)).1.Provisioned?
            && Some(Provision(cfg, w, req, Creating(e)).0.rows) == InsertInstance(w.rows, RowOf(cfg, req), Made(cfg, Master, e, 0))
            && Provision(cfg, w, req, Creating(e)).0.servers == w.servers[Shared(engine) := s.(databases := s.databases + {DBName(cfg.dbPrefix, id)})]
  {
    var (req, o) := (Ask(id, serviceID, planID), Creating(e));
    NewUserOpens(Master, cfg.key, e, 0);
    var first := ProvisionCheck(cfg, w.rows, req, o);
    ProvisionUnfold(cfg, w, req, o, Begin);
    ProvisionUnfold(cfg, w, req, o, first);
    var (w1, second) := ProvisionStep(cfg, w, req, o, first);
    ProvisionUnfold(cfg, w1, req, o, second);
    var (w2, third) := ProvisionStep(cfg, w1, req, o, second);
    ProvisionUnfold(cfg, w2, req, o, third);
  }

  lemma EnablesOnPostgres(s: Server, dbName: string, name: string, e: Entropy)
    requires dbName in s.databases
    ensures EnableUser(Postgres, s, dbName, name, RandPassword(e.password), true, true) == (Enabled(s, dbName, name, RandPassword(e.password)), true)
  {
    RandPasswordWellFormed(e.password);
    SentPasswordIs(Postgres, RandPassword(e.password));
  }

  /** The user that a first `Bind` of the instance stores. */
  function BoundUser(cfg: Config, id: string, e: Entropy, instance: nat): UserRow
    requires ValidKey(cfg.key)
  {
    Made(cfg, Standard, e, instance).(username := PostgresRole(id))
  }

  lemma SharedBind(cfg: Config, w: World, r: nat, serviceID: string, planID: string, bindingID: string, e: Entropy)
    requires OffersShared(cfg, serviceID, planID) && UniqueInstanceIDs(w.rows) && SharedUp(w.servers)
    requires r in w.rows.instances && w.rows.instances[r].serviceID == serviceID && w.rows.instances[r].planID == planID
    requires w.rows.instances[r].dbName in w.servers[SHARED].databases
    requires forall u :: u in w.rows.users && w.rows.users[u].instance == r
                  ==> w.rows.users[u].username != PostgresRole(w.rows.instances[r].instanceID)
    ensures var row := w.rows.instances[r];
            var (w', reply) := Bind(cfg, w, BindRequest(row.instanceID, bindingID), Granted(e));
            && reply.BoundTo? && w'.rows == InsertUser(w.rows, BoundUser(cfg, row.instanceID, e, r), bindingID)
            && w'.servers == w.servers[SHARED := Enabled(w.servers[SHARED], row.dbName, PostgresRole(row.instanceID), RandPassword(e.password))]
  {
    var row := w.rows.instances[r];
    var plan := FindServicePlan(cfg.services, serviceID, planID).value;
    GoodFind(cfg, w.rows, r, plan);
    var i := FindObjects(cfg, w.rows, row.instanceID, true).value.0;
    assert UserNamed(i.users, PostgresRole(row.instanceID)).None? by {
      forall u | u in i.users
        ensures u.row.username != PostgresRole(row.instanceID)
      {
        assert LoadsUser(w.rows, u);
      }
    }
    NewUserOpens(Standard, cfg.key, e, r);
    BindFoundDoes(cfg, w, BindRequest(row.instanceID, bindingID), Granted(e), i, plan, Postgres, PostgresRole(row.instanceID));
    EnablesOnPostgres(w.servers[SHARED], row.dbName, PostgresRole(row.instanceID), e);
  }

  // ---- The run that loses a password ---------------------------------------

  const FIRST_PASSWORD: PasswordBytes := [0, 0, 0, 0, 0, 0, 0, 0, 0, 0, 0, 0, 0, 0, 0, 0, 0, 0]
  const SECOND_PASSWORD: PasswordBytes := [1, 0, 0, 0, 0, 0, 0, 0, 0, 0, 0, 0, 0, 0, 0, 0, 0, 0]

  lemma PasswordsDiffer()
    ensures RandPassword(FIRST_PASSWORD) != RandPassword(SECOND_PASSWORD)
  {
    RandPasswordWellFormed(FIRST_PASSWORD);
    RandPasswordWellFormed(SECOND_PASSWORD);
    assert FIRST_PASSWORD[0] != SECOND_PASSWORD[0];
  }

  function Drawn(name: NameBytes, password: PasswordBytes): Entropy {
    Entropy(name, password, ZEROS.iv)
  }

  /** Two instance IDs on one plan, and the random bytes behind the names of their master users. */
  datatype Collision = Collision(serviceID: string, planID: string, firstID: string, secondID: string,
                                 firstBytes: NameBytes, secondBytes: NameBytes)

  /** Provision and bind one instance, then provision and bind the other. */
  function CollisionRun(c: Collision): seq<Step> {
    [ DoProvision(Ask(c.firstID, c.serviceID, c.planID), Creating(Drawn(c.firstBytes, FIRST_PASSWORD))),
      DoBind(BindRequest(c.firstID, "first"), Granted(Drawn(c.firstBytes, FIRST_PASSWORD))),
      DoProvision(Ask(c.secondID, c.serviceID, c.planID), Creating(Drawn(c.secondBytes, FIRST_PASSWORD))),
      DoBind(BindRequest(c.secondID, "second"), Granted(Drawn(c.secondBytes, SECOND_PASSWORD))) ]
  }

  function FirstRow(cfg: Config, c: Collision): InstanceRow {
    RowOf(cfg, Ask(c.firstID, c.serviceID, c.planID))
  }

  function SecondRow(cfg: Config, c: Collision): InstanceRow {
    RowOf(cfg, Ask(c.secondID, c.serviceID, c.planID))
  }

  ghost predicate AfterOne(cfg: Config, c: Collision, w: World) {
    && (forall r :: r in w.rows.instances <==> r == 1) && w.rows.instances[1] == FirstRow(cfg, c)
    && (forall u :: u in w.rows.users ==> u == 2 && w.rows.users[u].username == RandUsername(c.firstBytes))
    && w.rows.nextID == 3 && SharedUp(w.servers) && FirstRow(cfg, c).dbName in w.servers[SHARED].databases
  }

  ghost predicate AfterTwo(cfg: Config, c: Collision, w: World)
    requires ValidKey(cfg.key)
  {
    && (forall r :: r in w.rows.instances <==> r == 1) && w.rows.instances[1] == FirstRow(cfg, c)
    && (forall u :: u in w.rows.users && u != 3 ==> u == 2 && w.rows.users[u].username == RandUsername(c.firstBytes))
    && 3 in w.rows.users && w.rows.users[3] == BoundUser(cfg, c.firstID, Drawn(c.firstBytes, FIRST_PASSWORD), 1)
    && w.rows.nextID == 5 && SharedUp(w.servers)
  }

  ghost predicate AfterThree(cfg: Config, c: Collision, w: World)
    requires ValidKey(cfg.key)
  {
    && (forall r :: r in w.rows.instances <==> r == 1 || r == 5)
    && w.rows.instances[1] == FirstRow(cfg, c) && w.rows.instances[5] == SecondRow(cfg, c)
    && (forall u :: u in w.rows.users && w.rows.users[u].instance == 5
          ==> w.rows.users[u].username in {RandUsername(c.firstBytes), RandUsername(c.secondBytes)})
    && 3 in w.rows.users && w.rows.users[3] == BoundUser(cfg, c.firstID, Drawn(c.firstBytes, FIRST_PASSWORD), 1)
    && w.rows.nextID == 7 && SharedUp(w.servers) && SecondRow(cfg, c).dbName in w.servers[SHARED].databases
  }

  /** The role now has the second password, and the first stored row still opens to the first. */
  ghost predicate AfterFour(cfg: Config, c: Collision, w: World)
    requires ValidKey(cfg.key)
  {
    && 1 in w.rows.instances && w.rows.instances[1] == FirstRow(cfg, c)
    && 3 in w.rows.users && w.rows.users[3] == BoundUser(cfg, c.firstID, Drawn(c.firstBytes, FIRST_PASSWORD), 1)
    && SHARED in w.servers && PostgresRole(c.secondID) in w.servers[SHARED].roles
    && w.servers[SHARED].roles[PostgresRole(c.secondID)].password == RandPassword(SECOND_PASSWORD)
  }

  /** The handler reports success. */
  predicate Succeeds(cfg: Config, w: World, step: Step) {
    match step
    case DoProvision(req, o) => Provision(cfg, w, req, o).1.Provisioned?
    case DoBind(req, o) => Bind(cfg, w, req, o).1.BoundTo?
    case _ => true
  }

  ghost predicate GoodStep(cfg: Config, ids: set<string>, w: World, step: Step) {
    Careful(cfg, ids, w, step) && Succeeds(cfg, w, step)
  }

  /** Two spare names and two IDs of the set. */
  predicate CollisionOf(cfg: Config, ids: set<string>, c: Collision) {
    && OffersShared(cfg, c.serviceID, c.planID) && SpareNames(ids, c.firstBytes, c.secondBytes)
    && c.firstID in ids && c.secondID in ids && c.firstID != c.secondID
  }

  lemma StepOne(cfg: Config, ids: set<string>, c: Collision)
    requires CollisionOf(cfg, ids, c)
    ensures GoodStep(cfg, ids, START, CollisionRun(c)[0]) && AfterOne(cfg, c, Next(cfg, START, CollisionRun(c)[0]))
  {
    SharedProvision(cfg, START, c.firstID, c.serviceID, c.planID, "postgres", Drawn(c.firstBytes, FIRST_PASSWORD));
  }

  lemma StepTwo(cfg: Config, ids: set<string>, c: Collision, w: World)
    requires CollisionOf(cfg, ids, c) && AfterOne(cfg, c, w)
    ensures GoodStep(cfg, ids, w, CollisionRun(c)[1]) && AfterTwo(cfg, c, Next(cfg, w, CollisionRun(c)[1]))
  {
    SharedBind(cfg, w, 1, c.serviceID, c.planID, "first", Drawn(c.firstBytes, FIRST_PASSWORD));
  }

  lemma StepThree(cfg: Config, ids: set<string>, c: Collision, w: World)
    requires CollisionOf(cfg, ids, c) && AfterTwo(cfg, c, w)
    ensures GoodStep(cfg, ids, w, CollisionRun(c)[2]) && AfterThree(cfg, c, Next(cfg, w, CollisionRun(c)[2]))
  {
    ThirdIsCareful(cfg, ids, c, w);
    SecondProvisioned(cfg, c, w);
  }

  lemma SecondProvisioned(cfg: Config, c: Collision, w: World)
    requires OffersShared(cfg, c.serviceID, c.planID) && c.firstID != c.secondID && AfterTwo(cfg, c, w)
    ensures Succeeds(cfg, w, CollisionRun(c)[2]) && AfterThree(cfg, c, Next(cfg, w, CollisionRun(c)[2]))
  {
    SharedProvision(cfg, w, c.secondID, c.serviceID, c.planID, "postgres", Drawn(c.secondBytes, FIRST_PASSWORD));
  }

  lemma ThirdIsCareful(cfg: Config, ids: set<string>, c: Collision, w: World)
    requires CollisionOf(cfg, ids, c) && AfterTwo(cfg, c, w)
    ensures Careful(cfg, ids, w, CollisionRun(c)[2])
  {
  }

  lemma SecondEnabled(cfg: Config, c: Collision, w: World, w': World)
    requires ValidKey(cfg.key) && AfterThree(cfg, c, w)
    requires w'.rows == InsertUser(w.rows, BoundUser(cfg, c.secondID, Drawn(c.secondBytes, SECOND_PASSWORD), 5), "second")
    requires w'.servers == w.servers[SHARED := Enabled(w.servers[SHARED], SecondRow(cfg, c).dbName, PostgresRole(c.secondID), RandPassword(SECOND_PASSWORD))]
    ensures AfterFour(cfg, c, w')
  {
  }

  lemma StepFour(cfg: Config, ids: set<string>, c: Collision, w: World)
    requires CollisionOf(cfg, ids, c) && AfterThree(cfg, c, w)
    ensures GoodStep(cfg, ids, w, CollisionRun(c)[3]) && AfterFour(cfg, c, Next(cfg, w, CollisionRun(c)[3]))
  {
    SharedBind(cfg, w, 5, c.serviceID, c.planID, "second", Drawn(c.secondBytes, SECOND_PASSWORD));
    SecondEnabled(cfg, c, w, Next(cfg, w, CollisionRun(c)[3]));
  }

  /** The first `n` steps are careful ones, and every one of them reports success. */
  ghost predicate GoodRun(cfg: Config, ids: set<string>, steps: seq<Step>, n: nat)
    requires n <= |steps|
  {
    CarefulRun(cfg, ids, START, steps[..n]) && forall k :: 0 <= k < n ==> Succeeds(cfg, Run(cfg, START, steps[..k]), steps[k])
  }

  lemma OneMoreStep(cfg: Config, ids: set<string>, steps: seq<Step>, n: nat)
    requires n < |steps| && GoodRun(cfg, ids, steps, n) && GoodStep(cfg, ids, Run(cfg, START, steps[..n]), steps[n])
    ensures GoodRun(cfg, ids, steps, n + 1)
    ensures Run(cfg, START, steps[..n + 1]) == Next(cfg, Run(cfg, START, steps[..n]), steps[n])
  {
    assert steps[..n + 1][..n] == steps[..n];
  }

  lemma FirstTwo(cfg: Config, ids: set<string>, c: Collision)
    requires CollisionOf(cfg, ids, c)
    ensures GoodRun(cfg, ids, CollisionRun(c), 2) && AfterTwo(cfg, c, Run(cfg, START, CollisionRun(c)[..2]))
  {
    var steps := CollisionRun(c);
    assert steps[..0] == [];
    StepOne(cfg, ids, c);
    OneMoreStep(cfg, ids, steps, 0);
    StepTwo(cfg, ids, c, Run(cfg, START, steps[..1]));
    OneMoreStep(cfg, ids, steps, 1);
  }

  lemma AllFour(cfg: Config, ids: set<string>, c: Collision)
    requires CollisionOf(cfg, ids, c)
    ensures GoodRun(cfg, ids, CollisionRun(c), 4) && AfterFour(cfg, c, Run(cfg, START, CollisionRun(c)[..4]))
  {
    var steps := CollisionRun(c);
    FirstTwo(cfg, ids, c);
    StepThree(cfg, ids, c, Run(cfg, START, steps[..2]));
    OneMoreStep(cfg, ids, steps, 2);
    StepFour(cfg, ids, c, Run(cfg, START, steps[..3]));
    OneMoreStep(cfg, ids, steps, 3);
  }

  /** The stored user of the first instance cannot log in with the password that its row opens to. */
  ghost predicate PasswordLost(cfg: Config, c: Collision, w: World) {
    exists u :: u in w.rows.users && w.rows.users[u].kind == Standard
      && w.rows.users[u].instance in w.rows.instances && w.rows.instances[w.rows.users[u].instance].instanceID == c.firstID
      && Password(w.rows.users[u], cfg.key) == Some(RandPassword(FIRST_PASSWORD)) && SHARED in w.servers
      && !Usable(w.servers[SHARED], DBName(cfg.dbPrefix, c.firstID), w.rows.users[u].username, RandPassword(FIRST_PASSWORD))
  }

  lemma LosesPassword(cfg: Config, c: Collision, w: World)
    requires OffersShared(cfg, c.serviceID, c.planID) && PostgresRole(c.firstID) == PostgresRole(c.secondID) && AfterFour(cfg, c, w)
    ensures PasswordLost(cfg, c, w) && !AllInStep(cfg, w)
  {
    PasswordsDiffer();
    NewUserOpens(Standard, cfg.key, Drawn(c.firstBytes, FIRST_PASSWORD), 1);
    assert At(cfg, w.rows, 1, SHARED);
    assert Password(w.rows.users[3], cfg.key) == Some(RandPassword(FIRST_PASSWORD));
    assert !InStep(cfg, w.rows, 1, w.servers[SHARED]);
  }

  /** For any two IDs that share a role name: a run in which every call succeeds and every name is fresh,
      and after which the first user cannot log in with its stored password any more. */
  lemma Collides(cfg: Config, ids: set<string>, c: Collision)
    requires CollisionOf(cfg, ids, c) && PostgresRole(c.firstID) == PostgresRole(c.secondID)
    ensures var (steps, w) := (CollisionRun(c), Run(cfg, START, CollisionRun(c)));
            && CarefulRun(cfg, ids, START, steps)
            && (forall k :: 0 <= k < |steps| ==> Succeeds(cfg, Run(cfg, START, steps[..k]), steps[k]))
            && PasswordLost(cfg, c, w) && !AllInStep(cfg, w)
  {
    AllFour(cfg, ids, c);
    assert CollisionRun(c)[..4] == CollisionRun(c);
    LosesPassword(cfg, c, Run(cfg, START, CollisionRun(c)));
  }

  /** Exactly when no two of the IDs share a role name does every careful run over them keep users and roles
      in step. */
  lemma InStepIff(cfg: Config, ids: set<string>, serviceID: string, planID: string, x: NameBytes, y: NameBytes)
    requires OffersShared(cfg, serviceID, planID) && SpareNames(ids, x, y)
    ensures (forall steps: seq<Step> {:trigger Run(cfg, START, steps)} ::
               CarefulRun(cfg, ids, START, steps) ==> AllInStep(cfg, Run(cfg, START, steps)))
            <==> RolesApart(ids)
  {
    if RolesApart(ids) {
      forall steps: seq<Step> | CarefulRun(cfg, ids, START, steps)
        ensures AllInStep(cfg, Run(cfg, START, steps))
      {
        UsersStayInStep(cfg, ids, steps);
      }
    } else {
      var a, b :| a in ids && b in ids && PostgresRole(a) == PostgresRole(b) && a != b;
      Collides(cfg, ids, Collision(serviceID, planID, a, b, x, y));
    }
  }
}
