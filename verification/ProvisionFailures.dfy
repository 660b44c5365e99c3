/** What a failed `Provision` leaves behind, exactly, told from its inputs: which servers it creates, and
    when one of them has no record. */
module ProvisionFailures {
  import opened Models
  import opened Catalog
  import opened Broker
  import opened RunRecords
  import opened RunReferences

  // ---- What a call creates -------------------------------------------------

  /** The request passes the checks for a dedicated plan, and RDS creates what the plan needs, which it
      refuses for a cluster that is there already. */
  predicate BuildsInstance(cfg: Config, w: World, req: ProvisionRequest, o: ProvisionCalls) {
    var checked := ProvisionCheck(cfg, w.rows, req, o);
    && checked.Checked? && !checked.plan.shared && o.createInstance
    && (IsAurora(checked.plan) ==> o.createCluster && ClusterServer(cfg, RowOf(cfg, req)) !in w.servers)
  }

  predicate BuildsCluster(cfg: Config, w: World, req: ProvisionRequest, o: ProvisionCalls) {
    var checked := ProvisionCheck(cfg, w.rows, req, o);
    checked.Checked? && !checked.plan.shared && IsAurora(checked.plan) && o.createCluster
  }

  /** A call that has built everything: it succeeds exactly when the save goes through and the ID is free. */
  lemma FromBuilt(cfg: Config, w: World, req: ProvisionRequest, o: ProvisionCalls, stage: Stage)
    requires stage.Built?
    ensures var (w', reply) := ProvisionFrom(cfg, w, req, o, stage);
            && w'.servers.Keys == w.servers.Keys
            && (reply.Provisioned? <==> o.save && !HasRecord(w.rows, stage.row.instanceID))
            && (!reply.Provisioned? ==> w'.rows == w.rows)
  {
    var (w1, next) := ProvisionStep(cfg, w, req, o, stage);
    ProvisionUnfold(cfg, w, req, o, stage);
    ProvisionUnfold(cfg, w1, req, o, next);
    if next.Undo? {
      var (w2, last) := ProvisionStep(cfg, w1, req, o, next);
      ProvisionUnfold(cfg, w2, req, o, last);
    }
  }

  /** A call whose cluster is up. */
  lemma FromClusterUp(cfg: Config, w: World, req: ProvisionRequest, o: ProvisionCalls, stage: Stage)
    requires stage.ClusterUp?
    ensures var (w', reply) := ProvisionFrom(cfg, w, req, o, stage);
            && w'.servers.Keys == w.servers.Keys + (if o.createInstance then {InstanceServer(cfg, stage.row)} else {})
            && (InstanceServer(cfg, stage.row) !in w.servers
                ==> (reply.Provisioned? <==> o.createInstance && o.save && !HasRecord(w.rows, stage.row.instanceID)))
            && (!reply.Provisioned? ==> w'.rows == w.rows)
  {
    var (w1, next) := ProvisionStep(cfg, w, req, o, stage);
    ProvisionUnfold(cfg, w, req, o, stage);
    if next.Built? {
      FromBuilt(cfg, w1, req, o, next);
    } else {
      var (w2, last) := ProvisionStep(cfg, w1, req, o, next);
      ProvisionUnfold(cfg, w1, req, o, next);
      ProvisionUnfold(cfg, w2, req, o, last);
    }
  }

  /** The servers that the rest of a call for a dedicated plan adds. */
  function Added(cfg: Config, w: World, o: ProvisionCalls, plan: Plan, row: InstanceRow): set<ServerId> {
    if !IsAurora(plan) then (if o.createInstance then {InstanceServer(cfg, row)} else {})
    else if !o.createCluster || ClusterServer(cfg, row) in w.servers then {}
    else {ClusterServer(cfg, row)} + (if o.createInstance then {InstanceServer(cfg, row)} else {})
  }

  /** A call for a dedicated plan that has passed the checks. */
  lemma FromChecked(cfg: Config, w: World, req: ProvisionRequest, o: ProvisionCalls, stage: Stage)
    requires stage.Checked? && !stage.plan.shared
    ensures var (w', reply) := ProvisionFrom(cfg, w, req, o, stage);
            && w'.servers.Keys == w.servers.Keys + Added(cfg, w, o, stage.plan, stage.row)
            && (InstanceServer(cfg, stage.row) !in w.servers
                ==> (reply.Provisioned? <==> InstanceServer(cfg, stage.row) in Added(cfg, w, o, stage.plan, stage.row)
                                             && o.save && !HasRecord(w.rows, stage.row.instanceID)))
            && (!reply.Provisioned? ==> w'.rows == w.rows)
  {
    var (w1, next) := ProvisionStep(cfg, w, req, o, stage);
    ProvisionUnfold(cfg, w, req, o, stage);
    if next.ClusterUp? {
      FromClusterUp(cfg, w1, req, o, next);
    } else if next.Built? {
      FromBuilt(cfg, w1, req, o, next);
    } else {
      ProvisionUnfold(cfg, w1, req, o, next);
    }
  }

  /** A call for a shared plan creates no server, and neither does one that the checks stop. */
  lemma {:induction false} NoServerAdded(cfg: Config, w: World, req: ProvisionRequest, o: ProvisionCalls, stage: Stage)
    requires match stage
             case Checked(plan, _, _) => plan.shared
             case Built(plan, _, _, cluster) => plan.shared && !cluster
             case Finished(_) => true
             case _ => false
    ensures ProvisionFrom(cfg, w, req, o, stage).0.servers.Keys == w.servers.Keys
    decreases StepsLeft(stage)
  {
    ProvisionUnfold(cfg, w, req, o, stage);
    if !stage.Finished? {
      var (w', next) := ProvisionStep(cfg, w, req, o, stage);
      NoServerAdded(cfg, w', req, o, next);
    }
  }

  /** The server is created by the call, if it is not there yet. */
  predicate Builds(cfg: Config, w: World, req: ProvisionRequest, o: ProvisionCalls, sid: ServerId) {
    || (sid == InstanceServer(cfg, RowOf(cfg, req)) && BuildsInstance(cfg, w, req, o))
    || (sid == ClusterServer(cfg, RowOf(cfg, req)) && BuildsCluster(cfg, w, req, o))
  }

  /** Which servers are new after a `Provision`, whatever fails. */
  lemma NewServersIff(cfg: Config, w: World, req: ProvisionRequest, o: ProvisionCalls, sid: ServerId)
    requires sid !in w.servers
    ensures sid in Provision(cfg, w, req, o).0.servers <==> Builds(cfg, w, req, o, sid)
  {
    var checked := ProvisionCheck(cfg, w.rows, req, o);
    ProvisionUnfold(cfg, w, req, o, Begin);
    if checked.Checked? && !checked.plan.shared {
      FromChecked(cfg, w, req, o, checked);
    } else {
      NoServerAdded(cfg, w, req, o, checked);
    }
  }

  /** When exactly a `Provision` leaves an RDS instance that was not there before, told from the request,
      the rows, the servers and how the calls go: whether it is left at all; whether this call records
      it; and whether it is left without any record of that ID. An older record of the ID, which a failed
      look-up hides from the check, stops the save like a failure of the save itself. */
  lemma InstanceLeftIff(cfg: Config, w: World, req: ProvisionRequest, o: ProvisionCalls)
    requires InstanceServer(cfg, RowOf(cfg, req)) !in w.servers
    ensures var (w', reply) := Provision(cfg, w, req, o);
            var left := InstanceServer(cfg, RowOf(cfg, req)) in w'.servers;
            && (left <==> BuildsInstance(cfg, w, req, o))
            && (left && w'.rows == w.rows
                <==> BuildsInstance(cfg, w, req, o) && (!o.save || HasRecord(w.rows, req.instanceID)))
            && (left && !HasRecord(w'.rows, req.instanceID)
                <==> BuildsInstance(cfg, w, req, o) && !o.save && !HasRecord(w.rows, req.instanceID))
            && (left && reply.Provisioned? <==> BuildsInstance(cfg, w, req, o) && o.save && !HasRecord(w.rows, req.instanceID))
  {
    var checked := ProvisionCheck(cfg, w.rows, req, o);
    ProvisionUnfold(cfg, w, req, o, Begin);
    if checked.Checked? && !checked.plan.shared {
      FromChecked(cfg, w, req, o, checked);
      StoredOrNot(cfg, w, req, o);
    } else {
      NoServerAdded(cfg, w, req, o, checked);
    }
  }

  /** A call that succeeds stores its record, and so changes the rows. */
  lemma StoredOrNot(cfg: Config, w: World, req: ProvisionRequest, o: ProvisionCalls)
    ensures var (w', reply) := Provision(cfg, w, req, o);
            if reply.Provisioned? then HasRecord(w'.rows, req.instanceID) && w'.rows != w.rows else w'.rows == w.rows
  {
    ProvisionFromInstances(cfg, w, req, o, Begin);
    var (w', reply) := Provision(cfg, w, req, o);
    if reply.Provisioned? {
      assert w'.rows.nextID == w.rows.nextID + 2;
      assert w'.rows.instances[w.rows.nextID] == RowOf(cfg, req);
    }
  }

  /** No call of `Provision` gets past an RDS instance that exists, with or without a record. */
  lemma {:induction false} ExistingInstanceStops(cfg: Config, w: World, req: ProvisionRequest, o: ProvisionCalls, stage: Stage)
    requires StageFor(cfg, req, stage) && StageOk(stage) && !stage.Built? && (stage.Finished? ==> !stage.reply.Provisioned?)
    requires InstanceServer(cfg, RowOf(cfg, req)) in w.servers
    requires match stage case Checked(plan, _, _) => !plan.shared case ClusterUp(plan, _, _) => !plan.shared case _ => true
    requires RecordedPlan(cfg, RowOf(cfg, req)).Some? && !IsShared(cfg, RowOf(cfg, req))
    ensures !ProvisionFrom(cfg, w, req, o, stage).1.Provisioned?
    decreases StepsLeft(stage)
  {
    ProvisionUnfold(cfg, w, req, o, stage);
    if !stage.Finished? {
      var (w', next) := ProvisionStep(cfg, w, req, o, stage);
      ProvisionStepInstances(cfg, w, req, o, stage);
      ExistingInstanceStops(cfg, w', req, o, next);
    }
  }

  lemma ExistingInstanceBlocks(cfg: Config, w: World, req: ProvisionRequest, o: ProvisionCalls)
    requires InstanceServer(cfg, RowOf(cfg, req)) in w.servers
    requires RecordedPlan(cfg, RowOf(cfg, req)).Some? && !IsShared(cfg, RowOf(cfg, req))
    ensures !Provision(cfg, w, req, o).1.Provisioned?
  {
    ExistingInstanceStops(cfg, w, req, o, Begin);
  }

  lemma BuildsForDedicated(cfg: Config, w: World, req: ProvisionRequest, o: ProvisionCalls)
    requires BuildsInstance(cfg, w, req, o)
    ensures RecordedPlan(cfg, RowOf(cfg, req)).Some? && !IsShared(cfg, RowOf(cfg, req))
  {
  }

  /** So after a call that built the RDS instance and did not record it, the same request fails, however its
      calls go, after any run and for as long as that RDS instance exists. */
  lemma UnrecordedBlocks(cfg: Config, w: World, req: ProvisionRequest, o: ProvisionCalls, w': World, steps: seq<Step>, calls: ProvisionCalls)
    requires InstanceServer(cfg, RowOf(cfg, req)) !in w.servers
    requires BuildsInstance(cfg, w, req, o) && (!o.save || HasRecord(w.rows, req.instanceID))
    requires w' == Provision(cfg, w, req, o).0 && InstanceServer(cfg, RowOf(cfg, req)) in Run(cfg, w', steps).servers
    ensures w'.rows == w.rows && InstanceServer(cfg, RowOf(cfg, req)) in w'.servers
    ensures !Provision(cfg, Run(cfg, w', steps), req, calls).1.Provisioned?
  {
    InstanceLeftIff(cfg, w, req, o);
    BuildsForDedicated(cfg, w, req, o);
    ExistingInstanceBlocks(cfg, Run(cfg, w', steps), req, calls);
  }
}
