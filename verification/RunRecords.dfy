/** Whole runs of the broker, whatever fails: the internal tables stay sound, and an RDS instance that
    still exists is never forgotten. */
module RunRecords {
  import opened Wrappers
  import opened Models
  import opened Records
  import opened Catalog
  import opened SqlServers
  import opened Broker

  /** The instances whose deletion has begun. */
  function Begun(log: seq<Effect>): set<nat> {
    set k | 0 <= k < |log| && log[k].DeletionBegun? :: log[k].instance
  }

  lemma BegunGrows(log: seq<Effect>, more: seq<Effect>)
    ensures Begun(log) <= Begun(log + more)
    ensures forall i :: DeletionBegun(i) in more ==> i in Begun(log + more)
    ensures forall i :: i in Begun(log + more) ==> i in Begun(log) || DeletionBegun(i) in more
  {
    var all := log + more;
    forall i | i in Begun(log)
      ensures i in Begun(all)
    {
      var k :| 0 <= k < |log| && log[k] == DeletionBegun(i);
      assert all[k] == DeletionBegun(i);
    }
    forall i | DeletionBegun(i) in more
      ensures i in Begun(all)
    {
      var k :| 0 <= k < |more| && more[k] == DeletionBegun(i);
      assert all[|log| + k] == DeletionBegun(i);
    }
  }

  lemma MoreBegun(rows: Rows, begun: set<nat>, more: set<nat>)
    requires RecordsOk(rows, begun) && begun <= more
    ensures RecordsOk(rows, more)
  {
  }

  ghost predicate WorldOk(w: World) {
    RecordsOk(w.rows, Begun(w.log))
  }

  const NO_INSTANCE := Instance(0, InstanceRow("", "", "", ""), [])

  /** A stage of `Provision` carries a master user. */
  predicate StageOk(stage: Stage) {
    match stage
    case Checked(_, _, master) => master.kind == Master
    case ClusterUp(_, _, master) => master.kind == Master
    case Built(_, _, master, _) => master.kind == Master
    case _ => true
  }

  lemma ProvisionStepKeeps(cfg: Config, w: World, req: ProvisionRequest, o: ProvisionCalls, stage: Stage)
    requires WorldOk(w) && StageOk(stage)
    ensures var (w', next) := ProvisionStep(cfg, w, req, o, stage);
            WorldOk(w') && StageOk(next)
  {
    var (w', next) := ProvisionStep(cfg, w, req, o, stage);
    match stage
    case Checked(_, row, _) =>
      BegunGrows(w.log, [ClusterCreated(ClusterServer(cfg, row).identifier)]);
      MoreBegun(w.rows, Begun(w.log), Begun(w'.log));
    case Undo(row, _) =>
      BegunGrows(w.log, [ClusterDeleteIssued(ClusterServer(cfg, row).identifier)]);
      MoreBegun(w.rows, Begun(w.log), Begun(w'.log));
    case Built(_, row, master, _) =>
      if w'.rows != w.rows {
        InsertInstanceKeeps(w.rows, Begun(w.log), row, master);
      }
    case _ =>
  }

  lemma {:induction false} ProvisionFromKeeps(cfg: Config, w: World, req: ProvisionRequest, o: ProvisionCalls, stage: Stage)
    requires WorldOk(w) && StageOk(stage)
    ensures WorldOk(ProvisionFrom(cfg, w, req, o, stage).0)
    decreases StepsLeft(stage)
  {
    if !stage.Finished? {
      ProvisionStepKeeps(cfg, w, req, o, stage);
      var (w', next) := ProvisionStep(cfg, w, req, o, stage);
      ProvisionFromKeeps(cfg, w', req, o, next);
    }
  }

  lemma FoundLoads(cfg: Config, rows: Rows, instanceID: string, find: bool)
    ensures FindObjects(cfg, rows, instanceID, find).Ok? ==> Loads(rows, FindObjects(cfg, rows, instanceID, find).value.0)
  {
    if FindObjects(cfg, rows, instanceID, find).Ok? {
      LoadInstanceLoads(rows, FindInstance(rows, instanceID).value.id);
    }
  }

  lemma UpdateShape(cfg: Config, w: World, req: UpdateRequest, o: UpdateCalls)
    ensures var w' := Update(cfg, w, req, o).0;
            && w'.rows == w.rows
            && (w'.log == w.log
                || (|w'.log| == |w.log| + 1 && w'.log[..|w.log|] == w.log && w'.log[|w.log|].PlanApplied?))
  {
  }

  /** The servers after `Update` are the old ones, or those that its extensions part leaves. */
  lemma UpdateServers(cfg: Config, w: World, req: UpdateRequest, o: UpdateCalls) returns (i: Instance, plan: Plan)
    ensures var servers := Update(cfg, w, req, o).0.servers;
            servers == w.servers || servers == UpdateExtensions(cfg, w.servers, req, o, i, plan).0
  {
    i, plan := NO_INSTANCE, Plan("", "", "", "", "", false);
    var found := FindObjects(cfg, w.rows, req.instanceID, o.find);
    if found.Ok? {
      i := found.value.0;
      var newPlan := FindServicePlan(cfg.services, i.row.serviceID, req.planID);
      if newPlan.Some? {
        plan := newPlan.value;
      }
    }
  }

  /** That part changes nothing of a server but its extensions. */
  lemma ExtensionsOnly(cfg: Config, servers: map<ServerId, Server>, req: UpdateRequest, o: UpdateCalls, i: Instance, plan: Plan)
    ensures var servers' := UpdateExtensions(cfg, servers, req, o, i, plan).0;
            servers'.Keys == servers.Keys
            && forall id :: id in servers ==> servers'[id].(extensions := servers[id].extensions) == servers[id]
  {
  }

  lemma UpdateKeeps(cfg: Config, w: World, req: UpdateRequest, o: UpdateCalls)
    requires WorldOk(w)
    ensures WorldOk(Update(cfg, w, req, o).0)
  {
    var w' := Update(cfg, w, req, o).0;
    UpdateShape(cfg, w, req, o);
    var more := w'.log[|w.log|..];
    assert w.log + more == w'.log;
    BegunGrows(w.log, more);
    MoreBegun(w.rows, Begun(w.log), Begun(w'.log));
  }

  /** The deletion of an instance's rows, as far as it goes. */
  lemma DeletionKeeps(w: World, i: Instance, deletes: Option<nat>)
    requires WorldOk(w) && Loads(w.rows, i)
    ensures RecordsOk(DeleteInstanceRows(w.rows, i, deletes), Begun(w.log + [DeletionBegun(i.id)]))
  {
    var begun := Begun(w.log + [DeletionBegun(i.id)]);
    BegunGrows(w.log, [DeletionBegun(i.id)]);
    assert DeletionBegun(i.id) in [DeletionBegun(i.id)];
    MoreBegun(w.rows, Begun(w.log), begun);
    DeleteInstanceKeeps(w.rows, begun, i, deletes);
  }

  predicate IsShared(cfg: Config, row: InstanceRow) {
    RecordedPlan(cfg, row).Some? && RecordedPlan(cfg, row).value.shared
  }

  /** What `Deprovision` does to the rows and the history. */
  ghost predicate DeprovisionEffect(cfg: Config, w: World, w': World, i: Instance, deletes: Option<nat>) {
    || (w'.rows == w.rows && w'.log == w.log)
    || (w'.rows == w.rows && w'.log == w.log + [ClusterDeleteIssued(ClusterServer(cfg, i.row).identifier)])
    || SharedDeleted(cfg, w, w', i, deletes)
  }

  ghost predicate SharedDeleted(cfg: Config, w: World, w': World, i: Instance, deletes: Option<nat>) {
    Loads(w.rows, i) && IsShared(cfg, i.row) && w'.rows == DeleteInstanceRows(w.rows, i, deletes) && w'.log == w.log + [DeletionBegun(i.id)]
  }

  lemma DeprovisionShape(cfg: Config, w: World, req: DeprovisionRequest, o: DeprovisionCalls) returns (i: Instance)
    ensures DeprovisionEffect(cfg, w, Deprovision(cfg, w, req, o).0, i, o.deletes)
  {
    i := NO_INSTANCE;
    FoundLoads(cfg, w.rows, req.instanceID, o.find);
    var found := FindObjects(cfg, w.rows, req.instanceID, o.find);
    if found.Ok? {
      i := found.value.0;
    }
  }

  lemma DeprovisionEffectKeeps(cfg: Config, w: World, w': World, i: Instance, deletes: Option<nat>)
    requires WorldOk(w) && DeprovisionEffect(cfg, w, w', i, deletes)
    ensures WorldOk(w')
  {
    var issued := [ClusterDeleteIssued(ClusterServer(cfg, i.row).identifier)];
    if w'.rows == w.rows && w'.log == w.log {
    } else if w'.rows == w.rows && w'.log == w.log + issued {
      BegunGrows(w.log, issued);
      MoreBegun(w.rows, Begun(w.log), Begun(w.log + issued));
    } else {
      DeletionKeeps(w, i, deletes);
    }
  }

  lemma DeprovisionKeeps(cfg: Config, w: World, req: DeprovisionRequest, o: DeprovisionCalls)
    requires WorldOk(w)
    ensures WorldOk(Deprovision(cfg, w, req, o).0)
  {
    var i := DeprovisionShape(cfg, w, req, o);
    DeprovisionEffectKeeps(cfg, w, Deprovision(cfg, w, req, o).0, i, o.deletes);
  }

  /** A `Bind` that has everything in hand gets to its second half. */
  lemma BindIsFinish(cfg: Config, w: World, req: BindRequest, o: BindCalls, i: Instance, plan: Plan, kind: EngineKind, name: string)
    requires FindObjects(cfg, w.rows, req.instanceID, o.find).Ok?
    requires var found := FindObjects(cfg, w.rows, req.instanceID, o.find).value; found.0 == i && found.1.bindable && found.2 == plan
    requires OpenEngine(cfg, w.servers, i, plan, o.describe, o.open) == Ok(kind)
    requires CreateUsername(kind, i.row.instanceID, o.name) == Some(name)
    ensures Bind(cfg, w, req, o) == FinishBind(cfg, w, i, plan, kind, name, req.bindingID, o)
  {
  }

  /** `Bind` gives up before it touches anything, or it gets to its second half. */
  lemma BindReaches(cfg: Config, w: World, req: BindRequest, o: BindCalls)
    returns (ok: bool, i: Instance, plan: Plan, kind: EngineKind, username: string)
    ensures !ok ==> Bind(cfg, w, req, o).0 == w && Bind(cfg, w, req, o).1.Failed?
    ensures ok ==> Loads(w.rows, i) && OpenEngine(cfg, w.servers, i, plan, o.describe, o.open) == Ok(kind)
                   && Bind(cfg, w, req, o) == FinishBind(cfg, w, i, plan, kind, username, req.bindingID, o)
  {
    ok, i, plan, kind, username := false, NO_INSTANCE, Plan("", "", "", "", "", false), Postgres, "";
    FoundLoads(cfg, w.rows, req.instanceID, o.find);
    var found := FindObjects(cfg, w.rows, req.instanceID, o.find);
    if found.Ok? && found.value.1.bindable {
      i, plan := found.value.0, found.value.2;
      var engine := OpenEngine(cfg, w.servers, i, plan, o.describe, o.open);
      if engine.Ok? {
        kind := engine.value;
        var name := CreateUsername(kind, i.row.instanceID, o.name);
        if name.Some? {
          ok, username := true, name.value;
        }
      }
    }
  }

  lemma FinishBindShape(cfg: Config, w: World, i: Instance, plan: Plan, kind: EngineKind, username: string, bindingID: string, o: BindCalls)
    ensures var (w', reply) := FinishBind(cfg, w, i, plan, kind, username, bindingID, o);
            && w'.log == w.log && w'.servers.Keys == w.servers.Keys
            && (w'.rows == w.rows || w'.rows == BindRows(w.rows, i, bindingID, username, Standard, cfg.key, o.entropy, o.save).0)
            && (reply.BoundTo? ==> reply.credentials.host == HomeOf(cfg, i.row, plan))
  {
  }

  lemma BindShape(cfg: Config, w: World, req: BindRequest, o: BindCalls) returns (i: Instance, username: string)
    ensures var w' := Bind(cfg, w, req, o).0;
            && w'.log == w.log
            && (w'.rows == w.rows
                || (Loads(w.rows, i)
                    && w'.rows == BindRows(w.rows, i, req.bindingID, username, Standard, cfg.key, o.entropy, o.save).0))
  {
    var ok, plan, kind;
    ok, i, plan, kind, username := BindReaches(cfg, w, req, o);
    if ok {
      FinishBindShape(cfg, w, i, plan, kind, username, req.bindingID, o);
    }
  }

  lemma BindStepKeeps(cfg: Config, w: World, req: BindRequest, o: BindCalls)
    requires WorldOk(w)
    ensures WorldOk(Bind(cfg, w, req, o).0)
  {
    var i, username := BindShape(cfg, w, req, o);
    if Bind(cfg, w, req, o).0.rows != w.rows {
      BindKeeps(w.rows, Begun(w.log), i, req.bindingID, username, cfg.key, o.entropy, o.save);
    }
  }

  /** What `Unbind` does to the rows. */
  ghost predicate UnbindEffect(rows: Rows, rows': Rows, i: Instance, bindingID: string, o: UnbindCalls) {
    rows' == rows
    || (Loads(rows, i)
        && var (after, r) := UnbindRows(rows, i, bindingID, o.deleteBinding);
           rows' == after || (r.Unbound? && rows' == DeleteUserRows(after, r.user, o.deletes)))
  }

  lemma UnbindShape(cfg: Config, w: World, req: BindRequest, o: UnbindCalls) returns (i: Instance)
    ensures var w' := Unbind(cfg, w, req, o).0;
            w'.log == w.log && UnbindEffect(w.rows, w'.rows, i, req.bindingID, o)
  {
    i := NO_INSTANCE;
    FoundLoads(cfg, w.rows, req.instanceID, o.find);
    var found := FindObjects(cfg, w.rows, req.instanceID, o.find);
    if found.Ok? {
      i := found.value.0;
      UnbindFoundShape(cfg, w, req, o, i, found.value.2);
    }
  }

  lemma UnbindFoundShape(cfg: Config, w: World, req: BindRequest, o: UnbindCalls, i: Instance, plan: Plan)
    requires FindObjects(cfg, w.rows, req.instanceID, o.find).Ok?
    requires var found := FindObjects(cfg, w.rows, req.instanceID, o.find).value; found.0 == i && found.2 == plan
    ensures var w' := Unbind(cfg, w, req, o).0;
            var (rows, r) := UnbindRows(w.rows, i, req.bindingID, o.deleteBinding);
            w'.log == w.log
            && (w'.rows == w.rows || w'.rows == rows || (r.Unbound? && w'.rows == DeleteUserRows(rows, r.user, o.deletes)))
  {
  }

  lemma UnbindStepKeeps(cfg: Config, w: World, req: BindRequest, o: UnbindCalls)
    requires WorldOk(w)
    ensures WorldOk(Unbind(cfg, w, req, o).0)
  {
    var i := UnbindShape(cfg, w, req, o);
    if Unbind(cfg, w, req, o).0.rows != w.rows {
      UnbindKeeps(w.rows, Begun(w.log), i, req.bindingID, o.deleteBinding, o.deletes);
    }
  }

  lemma LastOperationKeeps(cfg: Config, w: World, id: string, o: LastOperationCalls)
    requires WorldOk(w)
    ensures WorldOk(LastOperation(cfg, w, id, o).0)
  {
    var found := FindObjects(cfg, w.rows, id, o.find);
    FoundLoads(cfg, w.rows, id, o.find);
    if found.Ok? {
      DeletionKeeps(w, found.value.0, o.deletes);
    }
  }

  /** One step, with any failures, keeps the tables sound. */
  lemma NextKeepsRecords(cfg: Config, w: World, step: Step)
    requires WorldOk(w)
    ensures WorldOk(Next(cfg, w, step))
  {
    match step
    case DoProvision(req, o) => ProvisionFromKeeps(cfg, w, req, o, Begin);
    case DoUpdate(req, o) => UpdateKeeps(cfg, w, req, o);
    case DoDeprovision(req, o) => DeprovisionKeeps(cfg, w, req, o);
    case DoBind(req, o) => BindStepKeeps(cfg, w, req, o);
    case DoUnbind(req, o) => UnbindStepKeeps(cfg, w, req, o);
    case DoLastOperation(id, o) => LastOperationKeeps(cfg, w, id, o);
    case Gone(id) =>
  }

  /** Every store the broker can reach, with any requests and any failures: foreign keys hold, instance
      IDs are unique, usernames are unique within an instance, and each instance has at most one master
      and exactly one unless its deletion has begun. */
  lemma {:induction false} ReachableRecordsAreSound(cfg: Config, steps: seq<Step>)
    ensures WorldOk(Run(cfg, START, steps))
  {
    if steps != [] {
      ReachableRecordsAreSound(cfg, steps[..|steps| - 1]);
      NextKeepsRecords(cfg, Run(cfg, START, steps[..|steps| - 1]), steps[|steps| - 1]);
    }
  }

  /** `Unbind` as a whole, with any failures, removes no master user. */
  lemma UnbindNeverRemovesMaster(cfg: Config, w: World, req: BindRequest, o: UnbindCalls, u: nat)
    requires u in w.rows.users && w.rows.users[u].kind == Master
    ensures var rows := Unbind(cfg, w, req, o).0.rows;
            u in rows.users && rows.users[u] == w.rows.users[u]
  {
    var i := UnbindShape(cfg, w, req, o);
    if Unbind(cfg, w, req, o).0.rows != w.rows {
      UnbindSparesMasters(w.rows, i, req.bindingID, o.deleteBinding, o.deletes, u);
    }
  }
}
