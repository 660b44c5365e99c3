/** How an Aurora cluster is orphaned when two instance IDs share an RDS identifier, and that this is the
    only way. */
module ClusterOrphans {
  import opened Wrappers
  import opened Utils
  import opened Models
  import opened Records
  import opened Names
  import opened Catalog
  import opened Broker
  import opened RunReferences
  import opened RunClusters

  /** A broker with a usable key that offers a plan on a plain RDS instance and a plan on Aurora. */
  datatype Offer = Offer(plainService: string, plainPlan: string, auroraService: string, auroraPlan: string)

  predicate OffersPlan(cfg: Config, serviceID: string, planID: string, aurora: bool) {
    var plan := FindServicePlan(cfg.services, serviceID, planID);
    plan.Some? && !plan.value.shared && IsAurora(plan.value) == aurora
  }

  predicate Offers(cfg: Config, f: Offer) {
    ValidKey(cfg.key) && OffersPlan(cfg, f.plainService, f.plainPlan, false) && OffersPlan(cfg, f.auroraService, f.auroraPlan, true)
  }

  // ---- Steps in which every call succeeds ----------------------------------

  const ZEROS := Entropy([0, 0, 0, 0, 0, 0, 0, 0, 0], [0, 0, 0, 0, 0, 0, 0, 0, 0, 0, 0, 0, 0, 0, 0, 0, 0, 0],
                         [0, 0, 0, 0, 0, 0, 0, 0, 0, 0, 0, 0])
  const ALL_CREATED := ProvisionCalls(true, Some(ZEROS), true, true, true, true, true)
  const DESCRIBED := LastOperationCalls(true, true, "available", false, None)

  function AllDeleted(): DeprovisionCalls {
    DeprovisionCalls(true, true, (name: string) => true, None, true, true)
  }

  function Ask(instanceID: string, serviceID: string, planID: string): ProvisionRequest {
    ProvisionRequest(instanceID, serviceID, planID, true, false)
  }

  /** What a `Provision` in which every call succeeds leaves. */
  ghost predicate ProvisionedWell(cfg: Config, w: World, w': World, row: InstanceRow, plan: Plan) {
    && w'.rows.instances == w.rows.instances[w.rows.nextID := row] && w'.rows.nextID == w.rows.nextID + 2
    && w'.servers.Keys == w.servers.Keys + {InstanceServer(cfg, row)} + (if IsAurora(plan) then {ClusterServer(cfg, row)} else {})
    && w'.log == w.log + (if IsAurora(plan) then [ClusterCreated(Identifier(cfg.dbPrefix, row.instanceID))] else [])
  }

  lemma GoodProvision(cfg: Config, w: World, req: ProvisionRequest, plan: Plan)
    requires req.asyncAllowed && !req.malformed && ValidKey(cfg.key)
    requires FindServicePlan(cfg.services, req.serviceID, req.planID) == Some(plan) && !plan.shared
    requires forall i :: i in w.rows.instances ==> w.rows.instances[i].instanceID != req.instanceID
    requires InstanceServer(cfg, RowOf(cfg, req)) !in w.servers && ClusterServer(cfg, RowOf(cfg, req)) !in w.servers
    ensures ProvisionedWell(cfg, w, Provision(cfg, w, req, ALL_CREATED).0, RowOf(cfg, req), plan)
  {
    ProvisionUnfold(cfg, w, req, ALL_CREATED, Begin);
    NewUserOpens(Master, cfg.key, ZEROS, 0);
    var first := ProvisionCheck(cfg, w.rows, req, ALL_CREATED);
    assert first == Checked(plan, RowOf(cfg, req), NewUser(Master, cfg.key, Some(ZEROS), 0).value);
    GoodBuild(cfg, w, req, first);
  }

  lemma GoodBuild(cfg: Config, w: World, req: ProvisionRequest, stage: Stage)
    requires stage.Checked? && !stage.plan.shared
    requires forall i :: i in w.rows.instances ==> w.rows.instances[i].instanceID != stage.row.instanceID
    requires InstanceServer(cfg, stage.row) !in w.servers && ClusterServer(cfg, stage.row) !in w.servers
    ensures ProvisionedWell(cfg, w, ProvisionFrom(cfg, w, req, ALL_CREATED, stage).0, stage.row, stage.plan)
  {
    var (w1, second) := ProvisionStep(cfg, w, req, ALL_CREATED, stage);
    ProvisionUnfold(cfg, w, req, ALL_CREATED, stage);
    if IsAurora(stage.plan) {
      var (w2, third) := ProvisionStep(cfg, w1, req, ALL_CREATED, second);
      ProvisionUnfold(cfg, w1, req, ALL_CREATED, second);
      GoodSave(cfg, w2, req, third);
    } else {
      GoodSave(cfg, w1, req, second);
    }
  }

  lemma GoodSave(cfg: Config, w: World, req: ProvisionRequest, stage: Stage)
    requires stage.Built? && forall i :: i in w.rows.instances ==> w.rows.instances[i].instanceID != stage.row.instanceID
    ensures var w' := ProvisionFrom(cfg, w, req, ALL_CREATED, stage).0;
            && w'.rows.instances == w.rows.instances[w.rows.nextID := stage.row] && w'.rows.nextID == w.rows.nextID + 2
            && w'.servers == w.servers && w'.log == w.log
  {
    var (w', next) := ProvisionStep(cfg, w, req, ALL_CREATED, stage);
    ProvisionUnfold(cfg, w, req, ALL_CREATED, stage);
    ProvisionUnfold(cfg, w', req, ALL_CREATED, next);
  }

  /** The look-up of an ID that one row has. */
  lemma GoodFind(cfg: Config, rows: Rows, id: nat, plan: Plan)
    requires UniqueInstanceIDs(rows) && id in rows.instances && RecordedPlan(cfg, rows.instances[id]) == Some(plan)
    ensures var found := FindObjects(cfg, rows, rows.instances[id].instanceID, true);
            found.Ok? && found.value.0.id == id && found.value.0.row == rows.instances[id] && found.value.2 == plan
            && Loads(rows, found.value.0)
  {
    var i := FindInstance(rows, rows.instances[id].instanceID);
    LoadInstanceLoads(rows, i.value.id);
    assert FindService(cfg.services, rows.instances[id].serviceID).Some?;
  }

  lemma GoodDeprovision(cfg: Config, w: World, id: nat, plan: Plan)
    requires UniqueInstanceIDs(w.rows) && id in w.rows.instances && RecordedPlan(cfg, w.rows.instances[id]) == Some(plan)
    requires !plan.shared && !IsAurora(plan) && InstanceServer(cfg, w.rows.instances[id]) in w.servers
    ensures var w' := Deprovision(cfg, w, DeprovisionRequest(w.rows.instances[id].instanceID, true), AllDeleted()).0;
            var server := InstanceServer(cfg, w.rows.instances[id]);
            && w'.rows == w.rows && w'.log == w.log
            && w'.servers.Keys == w.servers.Keys && w'.servers[server].deleting
  {
    GoodFind(cfg, w.rows, id, plan);
  }

  lemma GoodLastOperation(cfg: Config, w: World, id: nat, plan: Plan)
    requires UniqueInstanceIDs(w.rows) && id in w.rows.instances && RecordedPlan(cfg, w.rows.instances[id]) == Some(plan)
    requires !plan.shared && InstanceServer(cfg, w.rows.instances[id]) !in w.servers
    ensures var w' := LastOperation(cfg, w, w.rows.instances[id].instanceID, DESCRIBED).0;
            && w'.rows.instances == w.rows.instances - {id} && w'.log == w.log + [DeletionBegun(id)]
  {
    GoodFind(cfg, w.rows, id, plan);
    WholeInstanceGoes(w.rows, FindObjects(cfg, w.rows, w.rows.instances[id].instanceID, true).value.0);
  }

  lemma WholeInstanceGoes(rows: Rows, i: Instance)
    ensures DeleteInstanceRows(rows, i, None).instances == rows.instances - {i.id}
  {
    UsersCascadeMembers(i.users);
    var cascade := InstanceCascade(i);
    assert cascade[..|cascade|] == cascade && cascade[|cascade| - 1] == InstanceRef(i.id);
  }

  // ---- The run that orphans a cluster --------------------------------------

  lemma RunAppend(cfg: Config, w: World, steps: seq<Step>, step: Step)
    ensures Run(cfg, w, steps + [step]) == Next(cfg, Run(cfg, w, steps), step)
  {
    assert (steps + [step])[..|steps|] == steps;
  }

  lemma {:induction false} RunTwice(cfg: Config, w: World, steps: seq<Step>, more: seq<Step>)
    ensures Run(cfg, w, steps + more) == Run(cfg, Run(cfg, w, steps), more)
  {
    if more == [] {
      assert steps + more == steps;
    } else {
      RunTwice(cfg, w, steps, more[..|more| - 1]);
      assert steps + more == steps + more[..|more| - 1] + [more[|more| - 1]];
      RunAppend(cfg, w, steps + more[..|more| - 1], more[|more| - 1]);
    }
  }

  lemma RunOne(cfg: Config, w: World, step: Step)
    ensures Run(cfg, w, [step]) == Next(cfg, w, step)
  {
    assert [] + [step] == [step];
    RunAppend(cfg, w, [], step);
  }

  /** Delete the RDS instance of a plain record, and let it go. */
  function Teardown(cfg: Config, plain: string): seq<Step> {
    [ DoDeprovision(DeprovisionRequest(plain, true), AllDeleted()), Gone(RdsInstance(Identifier(cfg.dbPrefix, plain))) ]
  }

  lemma TeardownRuns(cfg: Config, w: World, id: nat, plan: Plan)
    requires UniqueInstanceIDs(w.rows) && id in w.rows.instances && RecordedPlan(cfg, w.rows.instances[id]) == Some(plan)
    requires !plan.shared && !IsAurora(plan) && InstanceServer(cfg, w.rows.instances[id]) in w.servers
    ensures var w' := Run(cfg, w, Teardown(cfg, w.rows.instances[id].instanceID));
            && w'.rows == w.rows && w'.log == w.log
            && w'.servers.Keys == w.servers.Keys - {InstanceServer(cfg, w.rows.instances[id])}
  {
    var plain := w.rows.instances[id].instanceID;
    var (first, second) := (Teardown(cfg, plain)[0], Teardown(cfg, plain)[1]);
    GoodDeprovision(cfg, w, id, plan);
    RunOne(cfg, w, first);
    RunAppend(cfg, w, [first], second);
    assert Teardown(cfg, plain) == [first] + [second];
  }

  /** Provision an ID, then tear `plain` down. */
  function Round(cfg: Config, instanceID: string, serviceID: string, planID: string, plain: string): seq<Step> {
    [DoProvision(Ask(instanceID, serviceID, planID), ALL_CREATED)] + Teardown(cfg, plain)
  }

  /** Provision `plain` on a plain RDS instance and tear that down, without asking for the last operation;
      provision `aurora` under the same identifier; tear `plain` down again, which deletes the RDS
      instance of `aurora` but not its cluster; ask for the last operation of `aurora`. */
  function OrphanRun(cfg: Config, f: Offer, plain: string, aurora: string): seq<Step> {
    BothRounds(cfg, f, plain, aurora) + [DoLastOperation(aurora, DESCRIBED)]
  }

  /** A record of `plain`, and no RDS instance or cluster at all. */
  ghost predicate HalfOrphaned(cfg: Config, f: Offer, plain: string, w: World) {
    && (forall r :: r in w.rows.instances <==> r == 1) && w.rows.nextID == 3
    && w.rows.instances[1] == RowOf(cfg, Ask(plain, f.plainService, f.plainPlan))
    && w.servers.Keys == START.servers.Keys && w.log == []
  }

  lemma FirstHalf(cfg: Config, f: Offer, plain: string)
    requires Offers(cfg, f)
    ensures HalfOrphaned(cfg, f, plain, Run(cfg, START, Round(cfg, plain, f.plainService, f.plainPlan, plain)))
  {
    var step := DoProvision(Ask(plain, f.plainService, f.plainPlan), ALL_CREATED);
    var p := FindServicePlan(cfg.services, f.plainService, f.plainPlan).value;
    RunOne(cfg, START, step);
    GoodProvision(cfg, START, step.provision, p);
    var w1 := Run(cfg, START, [step]);
    TeardownRuns(cfg, w1, 1, p);
    RunTwice(cfg, START, [step], Teardown(cfg, plain));
    assert w1.servers.Keys - {InstanceServer(cfg, w1.rows.instances[1])} == START.servers.Keys;
  }

  /** Both records, and of both instances only the cluster. */
  ghost predicate AlmostOrphaned(cfg: Config, f: Offer, plain: string, aurora: string, w: World) {
    && (forall r :: r in w.rows.instances <==> r == 1 || r == 3)
    && w.rows.instances[1] == RowOf(cfg, Ask(plain, f.plainService, f.plainPlan))
    && w.rows.instances[3] == RowOf(cfg, Ask(aurora, f.auroraService, f.auroraPlan))
    && RdsInstance(Identifier(cfg.dbPrefix, aurora)) !in w.servers && w.log == [ClusterCreated(Identifier(cfg.dbPrefix, aurora))]
  }

  /** Both records, and all three servers of the second. */
  ghost predicate BothRecorded(cfg: Config, f: Offer, plain: string, aurora: string, w: World) {
    && (forall r :: r in w.rows.instances <==> r == 1 || r == 3)
    && w.rows.instances[1] == RowOf(cfg, Ask(plain, f.plainService, f.plainPlan))
    && w.rows.instances[3] == RowOf(cfg, Ask(aurora, f.auroraService, f.auroraPlan))
    && RdsInstance(Identifier(cfg.dbPrefix, aurora)) in w.servers && w.log == [ClusterCreated(Identifier(cfg.dbPrefix, aurora))]
  }

  lemma SecondProvision(cfg: Config, f: Offer, plain: string, aurora: string, w: World)
    requires Offers(cfg, f) && plain != aurora && HalfOrphaned(cfg, f, plain, w)
    ensures BothRecorded(cfg, f, plain, aurora, Provision(cfg, w, Ask(aurora, f.auroraService, f.auroraPlan), ALL_CREATED).0)
  {
    GoodProvision(cfg, w, Ask(aurora, f.auroraService, f.auroraPlan), FindServicePlan(cfg.services, f.auroraService, f.auroraPlan).value);
  }

  lemma SecondHalf(cfg: Config, f: Offer, plain: string, aurora: string, w: World)
    requires Offers(cfg, f) && plain != aurora && Identifier(cfg.dbPrefix, plain) == Identifier(cfg.dbPrefix, aurora)
    requires HalfOrphaned(cfg, f, plain, w)
    ensures AlmostOrphaned(cfg, f, plain, aurora, Run(cfg, w, Round(cfg, aurora, f.auroraService, f.auroraPlan, plain)))
  {
    var step := DoProvision(Ask(aurora, f.auroraService, f.auroraPlan), ALL_CREATED);
    var w1 := Run(cfg, w, [step]);
    assert BothRecorded(cfg, f, plain, aurora, w1) by {
      RunOne(cfg, w, step);
      SecondProvision(cfg, f, plain, aurora, w);
    }
    TeardownRuns(cfg, w1, 1, FindServicePlan(cfg.services, f.plainService, f.plainPlan).value);
    RunTwice(cfg, w, [step], Teardown(cfg, plain));
  }

  lemma OrphanShows(cfg: Config, f: Offer, plain: string, w: World, c: string)
    requires Offers(cfg, f)
    requires forall r :: r in w.rows.instances ==> w.rows.instances[r] == RowOf(cfg, Ask(plain, f.plainService, f.plainPlan))
    requires w.log == [ClusterCreated(c)] + [DeletionBegun(3)]
    ensures !NoOrphans(cfg, w)
  {
    assert Pending([ClusterCreated(c)], c);
    PendingAppend([ClusterCreated(c)], DeletionBegun(3), c);
    assert !Referenced(cfg, w.rows, c);
  }

  lemma LastStep(cfg: Config, f: Offer, plain: string, aurora: string, w: World)
    requires Offers(cfg, f) && plain != aurora && AlmostOrphaned(cfg, f, plain, aurora, w)
    ensures !NoOrphans(cfg, LastOperation(cfg, w, aurora, DESCRIBED).0)
  {
    var w' := LastOperation(cfg, w, aurora, DESCRIBED).0;
    assert (forall r :: r in w'.rows.instances ==> r == 1 && w'.rows.instances[r] == w.rows.instances[1])
           && w'.log == w.log + [DeletionBegun(3)] by {
      GoodLastOperation(cfg, w, 3, FindServicePlan(cfg.services, f.auroraService, f.auroraPlan).value);
    }
    OrphanShows(cfg, f, plain, w', Identifier(cfg.dbPrefix, aurora));
  }

  function BothRounds(cfg: Config, f: Offer, plain: string, aurora: string): seq<Step> {
    Round(cfg, plain, f.plainService, f.plainPlan, plain) + Round(cfg, aurora, f.auroraService, f.auroraPlan, plain)
  }

  lemma BothRoundsRun(cfg: Config, f: Offer, plain: string, aurora: string)
    requires Offers(cfg, f) && plain != aurora && SameUpToDash(plain, aurora)
    ensures AlmostOrphaned(cfg, f, plain, aurora, Run(cfg, START, BothRounds(cfg, f, plain, aurora)))
  {
    var first := Round(cfg, plain, f.plainService, f.plainPlan, plain);
    NamesCollideIff(cfg.dbPrefix, plain, aurora);
    FirstHalf(cfg, f, plain);
    SecondHalf(cfg, f, plain, aurora, Run(cfg, START, first));
    RunTwice(cfg, START, first, Round(cfg, aurora, f.auroraService, f.auroraPlan, plain));
  }

  lemma OrphanRunEnds(cfg: Config, f: Offer, plain: string, aurora: string)
    ensures Run(cfg, START, OrphanRun(cfg, f, plain, aurora))
            == LastOperation(cfg, Run(cfg, START, BothRounds(cfg, f, plain, aurora)), aurora, DESCRIBED).0
  {
    RunAppend(cfg, START, BothRounds(cfg, f, plain, aurora), DoLastOperation(aurora, DESCRIBED));
  }

  lemma Orphaned(cfg: Config, f: Offer, plain: string, aurora: string)
    requires Offers(cfg, f) && plain != aurora && SameUpToDash(plain, aurora)
    ensures !NoOrphans(cfg, Run(cfg, START, OrphanRun(cfg, f, plain, aurora)))
  {
    var w := Run(cfg, START, BothRounds(cfg, f, plain, aurora));
    assert AlmostOrphaned(cfg, f, plain, aurora, w) by {
      BothRoundsRun(cfg, f, plain, aurora);
    }
    assert !NoOrphans(cfg, LastOperation(cfg, w, aurora, DESCRIBED).0) by {
      LastStep(cfg, f, plain, aurora, w);
    }
    OrphanRunEnds(cfg, f, plain, aurora);
  }

  /** Exactly when no two of the IDs share an identifier does every run over them, with every pattern of
      failures, keep every cluster referenced or given up. */
  lemma CompensatedIff(cfg: Config, f: Offer, ids: set<string>)
    requires Offers(cfg, f)
    ensures (forall steps: seq<Step> {:trigger Run(cfg, START, steps)} :: ProvisionsOnly(steps, ids) ==> NoOrphans(cfg, Run(cfg, START, steps)))
            <==> Apart(ids)
  {
    if Apart(ids) {
      forall steps: seq<Step> | ProvisionsOnly(steps, ids)
        ensures NoOrphans(cfg, Run(cfg, START, steps))
      {
        ClustersAreCompensated(cfg, ids, steps);
      }
    } else {
      var a, b :| a in ids && b in ids && SameUpToDash(a, b) && a != b;
      Orphaned(cfg, f, a, b);
      assert ProvisionsOnly(OrphanRun(cfg, f, a, b), ids);
    }
  }
}
