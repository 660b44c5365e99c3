/** Whole runs of the broker, whatever fails: the record of an RDS instance stays until RDS reports that
    instance gone, and no instance ever moves to another engine or between shared and dedicated. */
module RunReferences {
  import opened Wrappers
  import opened Utils
  import opened Models
  import opened Records
  import opened Catalog
  import opened Broker
  import opened RunRecords

  // ---- What one step does to the instance table ----------------------------

  /** `LastOperation` for that record is told that its RDS instance does not exist. */
  predicate ReportsGone(cfg: Config, w: World, step: Step, row: InstanceRow) {
    && step.DoLastOperation? && step.lastOperation == row.instanceID
    && step.lastOperationCalls.find && step.lastOperationCalls.describe
    && InstanceServer(cfg, row) !in w.servers
  }

  /** The step may take that record away. */
  predicate MayRemove(cfg: Config, w: World, step: Step, row: InstanceRow) {
    IsShared(cfg, row) || ReportsGone(cfg, w, step, row)
  }

  /** The rows after a step, as far as instances go: untouched, or with one new record of the request,
      or without one record that the step may remove. `begun` are the deletions that it begins. */
  ghost predicate InstancesStep(cfg: Config, w: World, step: Step, rows: Rows, begun: set<nat>) {
    && w.rows.nextID <= rows.nextID
    && (forall i :: i in begun ==> i in w.rows.instances && MayRemove(cfg, w, step, w.rows.instances[i]))
    && (forall i :: i in w.rows.instances && i !in rows.instances ==> MayRemove(cfg, w, step, w.rows.instances[i]))
    && (forall i :: i in w.rows.instances && i in rows.instances ==> rows.instances[i] == w.rows.instances[i])
    && (forall i :: i in rows.instances && i !in w.rows.instances ==> w.rows.nextID <= i && Requested(step, rows.instances[i]))
  }

  predicate Requested(step: Step, row: InstanceRow) {
    step.DoProvision? && row.instanceID == step.provision.instanceID
    && row.serviceID == step.provision.serviceID && row.planID == step.provision.planID
  }

  /** The deletions begun by a step. */
  function NewlyBegun(log: seq<Effect>, log': seq<Effect>): set<nat> {
    Begun(log') - Begun(log)
  }

  /** A stage of `Provision` carries the record asked for and its plan. */
  predicate StageFor(cfg: Config, req: ProvisionRequest, stage: Stage) {
    match stage
    case Checked(plan, row, _) => RowFor(cfg, req, plan, row)
    case ClusterUp(plan, row, _) => RowFor(cfg, req, plan, row)
    case Built(plan, row, _, _) => RowFor(cfg, req, plan, row)
    case Undo(row, _) => row.instanceID == req.instanceID
    case _ => true
  }

  predicate RowFor(cfg: Config, req: ProvisionRequest, plan: Plan, row: InstanceRow) {
    row == InstanceRow(req.instanceID, DBName(cfg.dbPrefix, req.instanceID), req.serviceID, req.planID)
    && RecordedPlan(cfg, row) == Some(plan)
  }

  predicate HasRecord(rows: Rows, instanceID: string) {
    exists i :: i in rows.instances && rows.instances[i].instanceID == instanceID
  }

  /** The record that a request asks for. */
  function RowOf(cfg: Config, req: ProvisionRequest): InstanceRow {
    InstanceRow(req.instanceID, DBName(cfg.dbPrefix, req.instanceID), req.serviceID, req.planID)
  }

  /** The rows after `Provision`, or after a step that ends it: one new record exactly when it succeeds. */
  ghost predicate ProvisionedRows(cfg: Config, req: ProvisionRequest, rows: Rows, rows': Rows, reply: Reply) {
    if reply.Provisioned? then
      exists master: UserRow :: master.kind == Master && InsertInstance(rows, RowOf(cfg, req), master) == Some(rows')
    else rows' == rows
  }

  lemma ProvisionStepInstances(cfg: Config, w: World, req: ProvisionRequest, o: ProvisionCalls, stage: Stage)
    requires StageFor(cfg, req, stage) && StageOk(stage) && !stage.Finished?
    ensures var (w', next) := ProvisionStep(cfg, w, req, o, stage);
            && StageFor(cfg, req, next) && StageOk(next)
            && (next.Finished? ==> ProvisionedRows(cfg, req, w.rows, w'.rows, next.reply))
            && (!next.Finished? ==> w'.rows == w.rows)
  {
    var (w', next) := ProvisionStep(cfg, w, req, o, stage);
    if next.Finished? && next.reply.Provisioned? {
      assert InsertInstance(w.rows, RowOf(cfg, req), stage.master) == Some(w'.rows);
    }
  }

  lemma ProvisionStepBegins(cfg: Config, w: World, req: ProvisionRequest, o: ProvisionCalls, stage: Stage)
    ensures Begun(ProvisionStep(cfg, w, req, o, stage).0.log) == Begun(w.log)
  {
    var (w', next) := ProvisionStep(cfg, w, req, o, stage);
    if w'.log != w.log {
      var more := w'.log[|w.log|..];
      assert w'.log == w.log + more && |more| == 1 && !more[0].DeletionBegun?;
      BegunGrows(w.log, more);
    }
  }

  lemma {:induction false} ProvisionFromInstances(cfg: Config, w: World, req: ProvisionRequest, o: ProvisionCalls, stage: Stage)
    requires StageFor(cfg, req, stage) && StageOk(stage) && !stage.Finished?
    ensures var (w', reply) := ProvisionFrom(cfg, w, req, o, stage);
            ProvisionedRows(cfg, req, w.rows, w'.rows, reply) && Begun(w'.log) == Begun(w.log)
    decreases StepsLeft(stage)
  {
    ProvisionStepInstances(cfg, w, req, o, stage);
    ProvisionStepBegins(cfg, w, req, o, stage);
    ProvisionUnfold(cfg, w, req, o, stage);
    var (w', next) := ProvisionStep(cfg, w, req, o, stage);
    if next.Finished? {
      ProvisionUnfold(cfg, w', req, o, next);
    } else {
      ProvisionFromInstances(cfg, w', req, o, next);
    }
  }

  lemma ProvisionedRowsStep(cfg: Config, w: World, req: ProvisionRequest, o: ProvisionCalls, rows: Rows, reply: Reply)
    requires KeysUsed(w.rows) && ProvisionedRows(cfg, req, w.rows, rows, reply)
    ensures InstancesStep(cfg, w, DoProvision(req, o), rows, {})
    ensures reply.Provisioned? ==> w.rows.nextID in rows.instances && rows.instances[w.rows.nextID] == RowOf(cfg, req)
    ensures reply.Provisioned? ==> forall i :: i in w.rows.instances ==> w.rows.instances[i].instanceID != req.instanceID
  {
  }

  lemma EraseInstances(rows: Rows, i: Instance, deletes: Option<nat>)
    ensures forall k :: k in rows.instances && k != i.id ==> k in DeleteInstanceRows(rows, i, deletes).instances
  {
    UsersCascadeMembers(i.users);
  }

  lemma DeletionInstances(cfg: Config, w: World, step: Step, i: Instance, deletes: Option<nat>)
    requires Loads(w.rows, i) && MayRemove(cfg, w, step, i.row)
    ensures var log := w.log + [DeletionBegun(i.id)];
            InstancesStep(cfg, w, step, DeleteInstanceRows(w.rows, i, deletes), NewlyBegun(w.log, log))
  {
    EraseInstances(w.rows, i, deletes);
    BegunGrows(w.log, [DeletionBegun(i.id)]);
  }

  lemma SameInstances(cfg: Config, w: World, step: Step, rows: Rows)
    requires rows.instances == w.rows.instances && w.rows.nextID <= rows.nextID
    ensures InstancesStep(cfg, w, step, rows, {})
  {
  }

  lemma NothingBegun(w: World, log: seq<Effect>)
    requires |w.log| <= |log| && log[..|w.log|] == w.log
    requires forall k :: |w.log| <= k < |log| ==> !log[k].DeletionBegun?
    ensures NewlyBegun(w.log, log) == {}
  {
    var more := log[|w.log|..];
    assert log == w.log + more;
    BegunGrows(w.log, more);
  }

  lemma BindRowsInstances(rows: Rows, i: Instance, bindingID: string, username: string, key: Bytes, entropy: Option<Entropy>, ok: bool)
    ensures var after := BindRows(rows, i, bindingID, username, Standard, key, entropy, ok).0;
            after.instances == rows.instances && rows.nextID <= after.nextID
  {
  }

  lemma UnbindRowsInstances(rows: Rows, rows': Rows, i: Instance, bindingID: string, o: UnbindCalls)
    requires UnbindEffect(rows, rows', i, bindingID, o)
    ensures rows'.instances == rows.instances && rows'.nextID == rows.nextID
  {
    var (after, r) := UnbindRows(rows, i, bindingID, o.deleteBinding);
    assert after.instances == rows.instances && after.nextID == rows.nextID;
    if r.Unbound? {
      DeleteUserInstances(after, r.user, o.deletes);
    }
  }

  lemma DeleteUserInstances(rows: Rows, u: User, deletes: Option<nat>)
    ensures DeleteUserRows(rows, u, deletes).instances == rows.instances
    ensures DeleteUserRows(rows, u, deletes).nextID == rows.nextID
  {
    UserCascadeAt(u);
    assert forall k :: InstanceRef(k) !in UserCascade(u);
    assert DeleteUserRows(rows, u, deletes).instances == rows.instances;
  }

  lemma DeprovisionInstances(cfg: Config, w: World, req: DeprovisionRequest, o: DeprovisionCalls)
    ensures var w' := Deprovision(cfg, w, req, o).0;
            InstancesStep(cfg, w, DoDeprovision(req, o), w'.rows, NewlyBegun(w.log, w'.log))
  {
    var i := DeprovisionShape(cfg, w, req, o);
    DeprovisionEffectInstances(cfg, w, Deprovision(cfg, w, req, o).0, i, DoDeprovision(req, o), o.deletes);
  }

  lemma DeprovisionEffectInstances(cfg: Config, w: World, w': World, i: Instance, step: Step, deletes: Option<nat>)
    requires DeprovisionEffect(cfg, w, w', i, deletes)
    ensures InstancesStep(cfg, w, step, w'.rows, NewlyBegun(w.log, w'.log))
  {
    if SharedDeleted(cfg, w, w', i, deletes) {
      DeletionInstances(cfg, w, step, i, deletes);
    } else {
      NothingBegun(w, w'.log);
    }
  }

  lemma LastOperationInstances(cfg: Config, w: World, id: string, o: LastOperationCalls)
    ensures var w' := LastOperation(cfg, w, id, o).0;
            InstancesStep(cfg, w, DoLastOperation(id, o), w'.rows, NewlyBegun(w.log, w'.log))
  {
    FoundLoads(cfg, w.rows, id, o.find);
    var found := FindObjects(cfg, w.rows, id, o.find);
    if found.Ok? && ReportsGone(cfg, w, DoLastOperation(id, o), found.value.0.row) {
      DeletionInstances(cfg, w, DoLastOperation(id, o), found.value.0, o.deletes);
    }
  }

  lemma UpdateInstances(cfg: Config, w: World, req: UpdateRequest, o: UpdateCalls)
    ensures var w' := Update(cfg, w, req, o).0;
            InstancesStep(cfg, w, DoUpdate(req, o), w'.rows, NewlyBegun(w.log, w'.log))
  {
    UpdateShape(cfg, w, req, o);
    NothingBegun(w, Update(cfg, w, req, o).0.log);
  }

  lemma BindInstances(cfg: Config, w: World, req: BindRequest, o: BindCalls)
    ensures var w' := Bind(cfg, w, req, o).0;
            InstancesStep(cfg, w, DoBind(req, o), w'.rows, NewlyBegun(w.log, w'.log))
  {
    var i, username := BindShape(cfg, w, req, o);
    BindRowsInstances(w.rows, i, req.bindingID, username, cfg.key, o.entropy, o.save);
    NothingBegun(w, w.log);
    SameInstances(cfg, w, DoBind(req, o), Bind(cfg, w, req, o).0.rows);
  }

  lemma UnbindInstances(cfg: Config, w: World, req: BindRequest, o: UnbindCalls)
    ensures var w' := Unbind(cfg, w, req, o).0;
            InstancesStep(cfg, w, DoUnbind(req, o), w'.rows, NewlyBegun(w.log, w'.log))
  {
    var i := UnbindShape(cfg, w, req, o);
    var rows := Unbind(cfg, w, req, o).0.rows;
    UnbindRowsInstances(w.rows, rows, i, req.bindingID, o);
    NothingBegun(w, w.log);
    SameInstances(cfg, w, DoUnbind(req, o), rows);
  }

  /** Any step, with any failures, changes the instance table in one of these ways only. */
  lemma InstancesChange(cfg: Config, w: World, step: Step)
    requires WorldOk(w)
    ensures var w' := Next(cfg, w, step);
            InstancesStep(cfg, w, step, w'.rows, NewlyBegun(w.log, w'.log))
  {
    var w' := Next(cfg, w, step);
    match step
    case DoProvision(req, o) =>
      ProvisionFromInstances(cfg, w, req, o, Begin);
      ProvisionedRowsStep(cfg, w, req, o, w'.rows, Provision(cfg, w, req, o).1);
    case DoUpdate(req, o) => UpdateInstances(cfg, w, req, o);
    case DoDeprovision(req, o) => DeprovisionInstances(cfg, w, req, o);
    case DoBind(req, o) => BindInstances(cfg, w, req, o);
    case DoUnbind(req, o) => UnbindInstances(cfg, w, req, o);
    case DoLastOperation(id, o) => LastOperationInstances(cfg, w, id, o);
    case Gone(id) => NothingBegun(w, w'.log);
  }

  // ---- No lost references --------------------------------------------------

  /** The record of a dedicated instance: stored under that key, whole, with its master user. */
  ghost predicate Recorded(cfg: Config, w: World, id: nat, row: InstanceRow) {
    && Sound(w)
    && id in w.rows.instances && w.rows.instances[id] == row && id !in Begun(w.log)
    && HasMaster(w.rows, id)
    && RecordedPlan(cfg, row).Some? && !IsShared(cfg, row)
  }

  /** No step of the run is told that the RDS instance of that record is gone. */
  predicate NeverReportedGone(cfg: Config, w: World, steps: seq<Step>, row: InstanceRow) {
    if steps == [] then true
    else
      var init := steps[..|steps| - 1];
      NeverReportedGone(cfg, w, init, row) && !ReportsGone(cfg, Run(cfg, w, init), steps[|steps| - 1], row)
  }

  /** While the RDS instance is there at every step, no step reports it gone. */
  lemma {:induction false} PresentIsNeverGone(cfg: Config, w: World, steps: seq<Step>, row: InstanceRow)
    requires forall n :: 0 <= n <= |steps| ==> InstanceServer(cfg, row) in Run(cfg, w, steps[..n]).servers
    ensures NeverReportedGone(cfg, w, steps, row)
  {
    if steps != [] {
      var init := steps[..|steps| - 1];
      forall n | 0 <= n <= |init|
        ensures InstanceServer(cfg, row) in Run(cfg, w, init[..n]).servers
      {
        assert init[..n] == steps[..n];
      }
      PresentIsNeverGone(cfg, w, init, row);
      assert init[..|init|] == init;
    }
  }

  /** The tables are sound, and a deletion has only begun for an instance that was recorded. */
  ghost predicate Sound(w: World) {
    WorldOk(w) && forall i :: i in Begun(w.log) ==> i < w.rows.nextID
  }

  lemma NextKeepsSound(cfg: Config, w: World, step: Step)
    requires Sound(w)
    ensures Sound(Next(cfg, w, step))
  {
    InstancesChange(cfg, w, step);
    NextKeepsRecords(cfg, w, step);
    var w' := Next(cfg, w, step);
    forall i | i in Begun(w'.log)
      ensures i < w'.rows.nextID
    {
      assert i in Begun(w.log) || i in NewlyBegun(w.log, w'.log);
    }
  }

  lemma {:induction false} ReachableIsSound(cfg: Config, steps: seq<Step>)
    ensures Sound(Run(cfg, START, steps))
  {
    if steps != [] {
      ReachableIsSound(cfg, steps[..|steps| - 1]);
      NextKeepsSound(cfg, Run(cfg, START, steps[..|steps| - 1]), steps[|steps| - 1]);
    }
  }

  lemma StepKeepsReference(cfg: Config, w: World, step: Step, id: nat, row: InstanceRow)
    requires Recorded(cfg, w, id, row) && !ReportsGone(cfg, w, step, row)
    ensures Recorded(cfg, Next(cfg, w, step), id, row)
  {
    InstancesChange(cfg, w, step);
    NextKeepsSound(cfg, w, step);
    var w' := Next(cfg, w, step);
    assert id !in NewlyBegun(w.log, w'.log);
  }

  lemma {:induction false} RunKeepsReference(cfg: Config, w: World, steps: seq<Step>, id: nat, row: InstanceRow)
    requires Recorded(cfg, w, id, row) && NeverReportedGone(cfg, w, steps, row)
    ensures Recorded(cfg, Run(cfg, w, steps), id, row)
  {
    if steps != [] {
      var init := steps[..|steps| - 1];
      RunKeepsReference(cfg, w, init, id, row);
      StepKeepsReference(cfg, Run(cfg, w, init), steps[|steps| - 1], id, row);
    }
  }

  /** Where the answer of a `Provision` comes from: its plan, and a server that exists. */
  predicate AnswerOk(cfg: Config, w: World, req: ProvisionRequest, stage: Stage) {
    match stage
    case Built(plan, row, _, _) => plan.shared || InstanceServer(cfg, row) in w.servers
    case Finished(Provisioned(isAsync)) =>
      RecordedPlan(cfg, RowOf(cfg, req)).Some? && isAsync == !IsShared(cfg, RowOf(cfg, req))
      && (isAsync ==> InstanceServer(cfg, RowOf(cfg, req)) in w.servers)
    case _ => true
  }

  lemma {:induction false} ProvisionFromAnswer(cfg: Config, w: World, req: ProvisionRequest, o: ProvisionCalls, stage: Stage)
    requires StageFor(cfg, req, stage) && StageOk(stage) && AnswerOk(cfg, w, req, stage)
    ensures var (w', reply) := ProvisionFrom(cfg, w, req, o, stage); AnswerOk(cfg, w', req, Finished(reply))
    decreases StepsLeft(stage)
  {
    ProvisionUnfold(cfg, w, req, o, stage);
    if !stage.Finished? {
      ProvisionStepInstances(cfg, w, req, o, stage);
      var (w', next) := ProvisionStep(cfg, w, req, o, stage);
      ProvisionFromAnswer(cfg, w', req, o, next);
    }
  }

  /** A `Provision` that succeeds for a dedicated plan leaves the RDS instance and its record. */
  lemma ProvisionLeavesReference(cfg: Config, w: World, req: ProvisionRequest, o: ProvisionCalls)
    requires Sound(w) && Provision(cfg, w, req, o).1 == Provisioned(true)
    ensures var w' := Provision(cfg, w, req, o).0;
            Recorded(cfg, w', w.rows.nextID, RowOf(cfg, req)) && InstanceServer(cfg, RowOf(cfg, req)) in w'.servers
  {
    var w' := Provision(cfg, w, req, o).0;
    ProvisionFromAnswer(cfg, w, req, o, Begin);
    ProvisionFromInstances(cfg, w, req, o, Begin);
    ProvisionedRowsStep(cfg, w, req, o, w'.rows, Provisioned(true));
    NextKeepsSound(cfg, w, DoProvision(req, o));
    assert w' == Next(cfg, w, DoProvision(req, o));
  }

  /** An instance ID that has a record cannot be provisioned, however the calls go: not even when the
      look-up fails and the handler believes that it is free. The tables stay as they are. */
  lemma RecordedIsNotProvisioned(cfg: Config, w: World, req: ProvisionRequest, o: ProvisionCalls, id: nat)
    requires WorldOk(w)
    requires id in w.rows.instances && w.rows.instances[id].instanceID == req.instanceID
    ensures !Provision(cfg, w, req, o).1.Provisioned? && Provision(cfg, w, req, o).0.rows == w.rows
  {
    var (w', reply) := Provision(cfg, w, req, o);
    ProvisionFromInstances(cfg, w, req, o, Begin);
    ProvisionedRowsStep(cfg, w, req, o, w'.rows, reply);
  }

  /** No lost references. Take any run, then a `Provision` that reports success for a dedicated plan, then
      any further run in which no `LastOperation` is told that this RDS instance is gone: its record is
      still there, unchanged and with its master user, and its ID cannot be provisioned. */
  lemma NoLostReference(cfg: Config, before: seq<Step>, req: ProvisionRequest, o: ProvisionCalls, after: seq<Step>,
                        again: ProvisionRequest, calls: ProvisionCalls)
    requires Provision(cfg, Run(cfg, START, before), req, o).1 == Provisioned(true)
    requires NeverReportedGone(cfg, Provision(cfg, Run(cfg, START, before), req, o).0, after, RowOf(cfg, req))
    requires again.instanceID == req.instanceID
    ensures var w := Run(cfg, Provision(cfg, Run(cfg, START, before), req, o).0, after);
            && Recorded(cfg, w, Run(cfg, START, before).rows.nextID, RowOf(cfg, req))
            && !Provision(cfg, w, again, calls).1.Provisioned?
  {
    var w0 := Run(cfg, START, before);
    var w1 := Provision(cfg, w0, req, o).0;
    ReachableIsSound(cfg, before);
    ProvisionLeavesReference(cfg, w0, req, o);
    RunKeepsReference(cfg, w1, after, w0.rows.nextID, RowOf(cfg, req));
    RecordedIsNotProvisioned(cfg, Run(cfg, w1, after), again, calls, w0.rows.nextID);
  }

  // ---- Plans never drift ---------------------------------------------------

  /** The plan has the engine and the sharing of the plan recorded for that row. */
  predicate SameKind(cfg: Config, row: InstanceRow, plan: Plan) {
    var recorded := RecordedPlan(cfg, row);
    recorded.Some? && recorded.value.engine == plan.engine && recorded.value.shared == plan.shared
  }

  /** Every plan ever applied to an instance is of the kind of the recorded plan, and what was recorded
      then is what is recorded now. */
  ghost predicate NoDrift(cfg: Config, w: World) {
    forall k :: 0 <= k < |w.log| && w.log[k].PlanApplied? ==> EventOk(cfg, w.rows, w.log[k])
  }

  predicate EventOk(cfg: Config, rows: Rows, e: Effect) {
    e.PlanApplied? ==>
      && SameKind(cfg, e.recorded, e.plan)
      && e.instance < rows.nextID
      && (e.instance in rows.instances ==> rows.instances[e.instance] == e.recorded)
  }

  /** The history only grows, and a plan is only applied if it keeps the kind of the recorded one. */
  lemma UpdateApplies(cfg: Config, w: World, req: UpdateRequest, o: UpdateCalls)
    requires WorldOk(w)
    ensures var w' := Update(cfg, w, req, o).0;
            w'.log == w.log || (|w'.log| == |w.log| + 1 && w'.log[..|w.log|] == w.log && EventOk(cfg, w.rows, w'.log[|w.log|]))
  {
    var found := FindObjects(cfg, w.rows, req.instanceID, o.find);
    if found.Ok? {
      var (i, service, oldPlan) := found.value;
      var newPlan := FindServicePlan(cfg.services, i.row.serviceID, req.planID);
      if newPlan.Some? && CanUpdate(oldPlan, newPlan.value, service) {
        AllowedUpdateKeepsEngine(cfg.services, i.row.serviceID, i.row.planID, req.planID, service);
      }
    }
  }

  /** The history after a step: the old one and more, where any plan applied is of the recorded kind. */
  ghost predicate LogGrows(cfg: Config, w: World, log: seq<Effect>) {
    w.log <= log && forall k :: |w.log| <= k < |log| ==> EventOk(cfg, w.rows, log[k])
  }

  lemma {:induction false} ProvisionLogGrows(cfg: Config, w: World, req: ProvisionRequest, o: ProvisionCalls, stage: Stage, log: seq<Effect>)
    requires log <= w.log && forall k :: |log| <= k < |w.log| ==> !w.log[k].PlanApplied?
    ensures var log' := ProvisionFrom(cfg, w, req, o, stage).0.log;
            log <= log' && forall k :: |log| <= k < |log'| ==> !log'[k].PlanApplied?
    decreases StepsLeft(stage)
  {
    ProvisionUnfold(cfg, w, req, o, stage);
    if !stage.Finished? {
      var (w', next) := ProvisionStep(cfg, w, req, o, stage);
      ProvisionLogGrows(cfg, w', req, o, next, log);
    }
  }

  lemma DeprovisionLogGrows(cfg: Config, w: World, req: DeprovisionRequest, o: DeprovisionCalls)
    ensures LogGrows(cfg, w, Deprovision(cfg, w, req, o).0.log)
  {
    var i := DeprovisionShape(cfg, w, req, o);
  }

  lemma LastOperationLogGrows(cfg: Config, w: World, id: string, o: LastOperationCalls)
    ensures LogGrows(cfg, w, LastOperation(cfg, w, id, o).0.log)
  {
  }

  lemma BindLogGrows(cfg: Config, w: World, req: BindRequest, o: BindCalls)
    ensures LogGrows(cfg, w, Bind(cfg, w, req, o).0.log)
  {
    var i, username := BindShape(cfg, w, req, o);
  }

  lemma UnbindLogGrows(cfg: Config, w: World, req: BindRequest, o: UnbindCalls)
    ensures LogGrows(cfg, w, Unbind(cfg, w, req, o).0.log)
  {
    var i := UnbindShape(cfg, w, req, o);
  }

  lemma UpdateLogGrows(cfg: Config, w: World, req: UpdateRequest, o: UpdateCalls)
    requires WorldOk(w)
    ensures LogGrows(cfg, w, Update(cfg, w, req, o).0.log)
  {
    UpdateApplies(cfg, w, req, o);
  }

  lemma NextLogGrows(cfg: Config, w: World, step: Step)
    requires WorldOk(w)
    ensures LogGrows(cfg, w, Next(cfg, w, step).log)
  {
    match step
    case DoProvision(req, o) => ProvisionLogGrows(cfg, w, req, o, Begin, w.log);
    case DoUpdate(req, o) => UpdateLogGrows(cfg, w, req, o);
    case DoDeprovision(req, o) => DeprovisionLogGrows(cfg, w, req, o);
    case DoBind(req, o) => BindLogGrows(cfg, w, req, o);
    case DoUnbind(req, o) => UnbindLogGrows(cfg, w, req, o);
    case DoLastOperation(id, o) => LastOperationLogGrows(cfg, w, id, o);
    case Gone(id) =>
  }

  lemma NextKeepsPlans(cfg: Config, w: World, step: Step)
    requires WorldOk(w) && NoDrift(cfg, w)
    ensures NoDrift(cfg, Next(cfg, w, step))
  {
    var w' := Next(cfg, w, step);
    InstancesChange(cfg, w, step);
    NextLogGrows(cfg, w, step);
    forall k | 0 <= k < |w'.log| && w'.log[k].PlanApplied?
      ensures EventOk(cfg, w'.rows, w'.log[k])
    {
      assert k < |w.log| ==> w'.log[k] == w.log[k];
      assert EventOk(cfg, w.rows, w'.log[k]);
    }
  }

  /** Over any run, with any failures, every plan that was ever applied to an instance has the engine and
      the sharing of the recorded plan. */
  lemma {:induction false} PlansNeverDrift(cfg: Config, steps: seq<Step>)
    ensures NoDrift(cfg, Run(cfg, START, steps))
  {
    if steps != [] {
      var init := steps[..|steps| - 1];
      PlansNeverDrift(cfg, init);
      ReachableRecordsAreSound(cfg, init);
      NextKeepsPlans(cfg, Run(cfg, START, init), steps[|steps| - 1]);
    }
  }

  /** And a record never changes: neither its plan nor its service nor its names. */
  lemma {:induction false} RecordsNeverChange(cfg: Config, w: World, steps: seq<Step>, id: nat)
    requires Sound(w) && id in w.rows.instances
    ensures var rows := Run(cfg, w, steps).rows;
            id < rows.nextID && Sound(Run(cfg, w, steps)) && (id in rows.instances ==> rows.instances[id] == w.rows.instances[id])
  {
    if steps != [] {
      var init := steps[..|steps| - 1];
      RecordsNeverChange(cfg, w, init, id);
      InstancesChange(cfg, Run(cfg, w, init), steps[|steps| - 1]);
      NextKeepsSound(cfg, Run(cfg, w, init), steps[|steps| - 1]);
    }
  }
}
