/** Aurora clusters over whole runs, whatever fails: when is a cluster that was created either recorded
    or given up with a deletion? */
module RunClusters {
  import opened Wrappers
  import opened Models
  import opened Records
  import opened Names
  import opened Catalog
  import opened SqlServers
  import opened Broker
  import opened RunRecords
  import opened RunReferences

  /** The cluster was created and no deletion of it has been issued since. */
  predicate Pending(log: seq<Effect>, c: string) {
    if log == [] then false
    else
      var last := log[|log| - 1];
      last == ClusterCreated(c) || (last != ClusterDeleteIssued(c) && Pending(log[..|log| - 1], c))
  }

  lemma PendingAppend(log: seq<Effect>, e: Effect, c: string)
    ensures Pending(log + [e], c) <==> e == ClusterCreated(c) || (e != ClusterDeleteIssued(c) && Pending(log, c))
  {
    assert (log + [e])[..|log|] == log;
  }

  /** The row records a dedicated Aurora instance with that identifier. */
  predicate IsClusterRow(cfg: Config, row: InstanceRow, c: string) {
    && RecordedPlan(cfg, row).Some? && !RecordedPlan(cfg, row).value.shared && IsAurora(RecordedPlan(cfg, row).value)
    && Identifier(cfg.dbPrefix, row.instanceID) == c
  }

  /** An internal record names the cluster. */
  predicate Referenced(cfg: Config, rows: Rows, c: string) {
    exists r :: r in rows.instances && IsClusterRow(cfg, rows.instances[r], c)
  }

  predicate Up(servers: map<ServerId, Server>, id: ServerId) {
    id in servers && !servers[id].deleting
  }

  /** The property: a cluster is referenced by a record, or a deletion of it has been issued. */
  ghost predicate NoOrphans(cfg: Config, w: World) {
    forall c :: Pending(w.log, c) ==> Referenced(cfg, w.rows, c)
  }

  /** What makes it last: the record's RDS instance is up, so the record cannot go without a deletion.
      `own` is the cluster of the `Provision` that is under way. */
  ghost predicate Backed(cfg: Config, w: World, own: Option<string>) {
    forall c :: Pending(w.log, c) && own != Some(c) ==> Referenced(cfg, w.rows, c) && Up(w.servers, RdsInstance(c))
  }

  /** No two of these instance IDs give the same identifier. */
  predicate Apart(ids: set<string>) {
    forall a, b :: a in ids && b in ids && SameUpToDash(a, b) ==> a == b
  }

  lemma UnderscoreFreeApart(ids: set<string>)
    requires forall id :: id in ids ==> UnderscoreFree(id)
    ensures Apart(ids)
  {
    forall a, b | a in ids && b in ids && SameUpToDash(a, b)
      ensures a == b
    {
      UnderscoreFreeIdsDiffer(a, b);
    }
  }

  predicate IdsFrom(rows: Rows, ids: set<string>) {
    forall r :: r in rows.instances ==> rows.instances[r].instanceID in ids
  }

  ghost predicate ClustersOk(cfg: Config, ids: set<string>, w: World) {
    WorldOk(w) && IdsFrom(w.rows, ids) && Backed(cfg, w, None)
  }

  // ---- Steps that leave the servers up -------------------------------------

  /** Every server that was up still is. */
  ghost predicate StaysUp(servers: map<ServerId, Server>, servers': map<ServerId, Server>) {
    forall id: ServerId :: Up(servers, id) ==> Up(servers', id)
  }

  lemma QuietStep(cfg: Config, w: World, w': World, own: Option<string>, own': Option<string>)
    requires Backed(cfg, w, own) && StaysUp(w.servers, w'.servers)
    requires forall r :: r in w.rows.instances && RecordedPlan(cfg, w.rows.instances[r]).Some? && !IsShared(cfg, w.rows.instances[r])
               && Up(w.servers, InstanceServer(cfg, w.rows.instances[r]))
               ==> r in w'.rows.instances && w'.rows.instances[r] == w.rows.instances[r]
    requires forall c :: Pending(w'.log, c) && own' != Some(c) ==> Pending(w.log, c) && own != Some(c)
    ensures Backed(cfg, w', own')
  {
    forall c | Pending(w'.log, c) && own' != Some(c)
      ensures Referenced(cfg, w'.rows, c) && Up(w'.servers, RdsInstance(c))
    {
      var r :| r in w.rows.instances && IsClusterRow(cfg, w.rows.instances[r], c);
      assert w'.rows.instances[r] == w.rows.instances[r];
    }
  }

  /** The servers after `Update`, `Bind`, `Unbind` and `LastOperation` are up if they were before. */
  lemma UpdateStaysUp(cfg: Config, w: World, req: UpdateRequest, o: UpdateCalls)
    ensures StaysUp(w.servers, Update(cfg, w, req, o).0.servers)
  {
    var i, plan := UpdateServers(cfg, w, req, o);
    ExtensionsStayUp(cfg, w.servers, req, o, i, plan);
  }

  lemma ExtensionsStayUp(cfg: Config, servers: map<ServerId, Server>, req: UpdateRequest, o: UpdateCalls, i: Instance, plan: Plan)
    ensures StaysUp(servers, UpdateExtensions(cfg, servers, req, o, i, plan).0)
  {
    ExtensionsOnly(cfg, servers, req, o, i, plan);
    forall id | Up(servers, id)
      ensures Up(UpdateExtensions(cfg, servers, req, o, i, plan).0, id)
    {
      assert servers[id].deleting == UpdateExtensions(cfg, servers, req, o, i, plan).0[id].deleting;
    }
  }

  lemma BindStaysUp(cfg: Config, w: World, req: BindRequest, o: BindCalls)
    ensures StaysUp(w.servers, Bind(cfg, w, req, o).0.servers)
  {
  }

  lemma DisableKeepsDeleting(kind: EngineKind, s: Server, dbName: string, username: string, revoke: bool, dropUser: bool)
    ensures DisableUser(kind, s, dbName, username, revoke, dropUser).0.deleting == s.deleting
  {
  }

  lemma FinishUnbindStaysUp(cfg: Config, w: World, i: Instance, plan: Plan, user: User, o: UnbindCalls)
    ensures StaysUp(w.servers, FinishUnbind(cfg, w, i, plan, user, o).0.servers)
  {
    var home := HomeOf(cfg, i.row, plan);
    if home in w.servers && EngineOf(plan).Some? {
      DisableKeepsDeleting(EngineOf(plan).value, w.servers[home], i.row.dbName, user.row.username, o.revoke, o.dropUser);
    }
  }

  lemma UnbindStaysUp(cfg: Config, w: World, req: BindRequest, o: UnbindCalls)
    ensures StaysUp(w.servers, Unbind(cfg, w, req, o).0.servers)
  {
    var found := FindObjects(cfg, w.rows, req.instanceID, o.find);
    if found.Ok? {
      var (rows, r) := UnbindRows(w.rows, found.value.0, req.bindingID, o.deleteBinding);
      if r.Unbound? {
        FinishUnbindStaysUp(cfg, w.(rows := rows), found.value.0, found.value.2, r.user, o);
      }
    }
  }

  lemma {:induction false} DropUsersDeleting(kind: EngineKind, s: Server, users: seq<User>, dropUser: string -> bool)
    ensures DropUsers(kind, s, users, dropUser).deleting == s.deleting
  {
    if users != [] {
      DropUsersDeleting(kind, s, users[..|users| - 1], dropUser);
    }
  }

  // ---- Steps that leave the servers up keep every record they rest on -------

  /** A dedicated record whose server is up survives any step. */
  lemma UpRowsStay(cfg: Config, w: World, step: Step, r: nat)
    requires WorldOk(w) && r in w.rows.instances
    requires !IsShared(cfg, w.rows.instances[r]) && Up(w.servers, InstanceServer(cfg, w.rows.instances[r]))
    ensures var rows := Next(cfg, w, step).rows; r in rows.instances && rows.instances[r] == w.rows.instances[r]
  {
    InstancesChange(cfg, w, step);
  }

  /** A step that leaves the servers up and adds at most one event, not the creation of a cluster. */
  lemma QuietNext(cfg: Config, w: World, step: Step, w': World, e: Effect)
    requires w' == Next(cfg, w, step)
    requires WorldOk(w) && Backed(cfg, w, None)
    requires StaysUp(w.servers, w'.servers)
    requires !e.ClusterCreated? && (w'.log == w.log || w'.log == w.log + [e])
    ensures Backed(cfg, w', None)
  {
    forall r | r in w.rows.instances && RecordedPlan(cfg, w.rows.instances[r]).Some? && !IsShared(cfg, w.rows.instances[r])
               && Up(w.servers, InstanceServer(cfg, w.rows.instances[r]))
      ensures r in w'.rows.instances && w'.rows.instances[r] == w.rows.instances[r]
    {
      UpRowsStay(cfg, w, step, r);
    }
    forall c { PendingAppend(w.log, e, c); }
    QuietStep(cfg, w, w', None, None);
  }

  const NO_EVENT := DeletionBegun(0)

  lemma UpdateClusters(cfg: Config, w: World, req: UpdateRequest, o: UpdateCalls)
    requires WorldOk(w) && Backed(cfg, w, None)
    ensures Backed(cfg, Update(cfg, w, req, o).0, None)
  {
    var w' := Update(cfg, w, req, o).0;
    UpdateStaysUp(cfg, w, req, o);
    UpdateShape(cfg, w, req, o);
    var e := if w'.log == w.log then NO_EVENT else w'.log[|w.log|];
    QuietNext(cfg, w, DoUpdate(req, o), w', e);
  }

  lemma BindClusters(cfg: Config, w: World, req: BindRequest, o: BindCalls)
    requires WorldOk(w) && Backed(cfg, w, None)
    ensures Backed(cfg, Bind(cfg, w, req, o).0, None)
  {
    BindStaysUp(cfg, w, req, o);
    var i, username := BindShape(cfg, w, req, o);
    QuietNext(cfg, w, DoBind(req, o), Bind(cfg, w, req, o).0, NO_EVENT);
  }

  lemma UnbindClusters(cfg: Config, w: World, req: BindRequest, o: UnbindCalls)
    requires WorldOk(w) && Backed(cfg, w, None)
    ensures Backed(cfg, Unbind(cfg, w, req, o).0, None)
  {
    UnbindStaysUp(cfg, w, req, o);
    var i := UnbindShape(cfg, w, req, o);
    QuietNext(cfg, w, DoUnbind(req, o), Unbind(cfg, w, req, o).0, NO_EVENT);
  }

  lemma LastOperationShape(cfg: Config, w: World, id: string, o: LastOperationCalls) returns (i: nat)
    ensures var w' := LastOperation(cfg, w, id, o).0;
            w'.servers == w.servers && (w'.log == w.log || w'.log == w.log + [DeletionBegun(i)])
  {
    var found := FindObjects(cfg, w.rows, id, o.find);
    i := if found.Ok? then found.value.0.id else 0;
  }

  lemma LastOperationQuiet(cfg: Config, w: World, step: Step, w': World, i: nat)
    requires WorldOk(w) && Backed(cfg, w, None) && w' == Next(cfg, w, step)
    requires w'.servers == w.servers && (w'.log == w.log || w'.log == w.log + [DeletionBegun(i)])
    ensures Backed(cfg, w', None)
  {
    QuietNext(cfg, w, step, w', DeletionBegun(i));
  }

  lemma DisappearClusters(cfg: Config, w: World, id: ServerId)
    requires WorldOk(w) && Backed(cfg, w, None)
    ensures Backed(cfg, Disappear(w, id), None)
  {
    QuietNext(cfg, w, Gone(id), Disappear(w, id), NO_EVENT);
  }

  // ---- Deprovision ---------------------------------------------------------

  /** Up to the names, an identifier belongs to one record. */
  lemma SameIdentifierSameRow(cfg: Config, ids: set<string>, rows: Rows, r: nat, q: nat)
    requires Apart(ids) && IdsFrom(rows, ids) && UniqueInstanceIDs(rows) && r in rows.instances && q in rows.instances
    requires Identifier(cfg.dbPrefix, rows.instances[r].instanceID) == Identifier(cfg.dbPrefix, rows.instances[q].instanceID)
    ensures r == q
  {
    NamesCollideIff(cfg.dbPrefix, rows.instances[r].instanceID, rows.instances[q].instanceID);
  }

  /** What `Deprovision` does for an instance of its own. */
  lemma DedicatedDeprovision(cfg: Config, w: World, req: DeprovisionRequest, o: DeprovisionCalls, i: Instance, plan: Plan)
    requires FindObjects(cfg, w.rows, req.instanceID, o.find).Ok?
    requires var found := FindObjects(cfg, w.rows, req.instanceID, o.find).value; found.0 == i && found.2 == plan
    requires !plan.shared
    ensures var w' := Deprovision(cfg, w, req, o).0;
            w' == w
            || (w'.rows == w.rows
                && (forall id :: Up(w.servers, id) && id != InstanceServer(cfg, i.row) && id != ClusterServer(cfg, i.row)
                      ==> Up(w'.servers, id))
                && w'.log == if IsAurora(plan) then w.log + [ClusterDeleteIssued(Identifier(cfg.dbPrefix, i.row.instanceID))] else w.log)
  {
  }

  lemma DedicatedClusters(cfg: Config, ids: set<string>, w: World, req: DeprovisionRequest, o: DeprovisionCalls, i: Instance, plan: Plan)
    requires Apart(ids) && ClustersOk(cfg, ids, w)
    requires FindObjects(cfg, w.rows, req.instanceID, o.find).Ok?
    requires var found := FindObjects(cfg, w.rows, req.instanceID, o.find).value; found.0 == i && found.2 == plan
    requires !plan.shared
    ensures Backed(cfg, Deprovision(cfg, w, req, o).0, None)
  {
    var w' := Deprovision(cfg, w, req, o).0;
    DedicatedDeprovision(cfg, w, req, o, i, plan);
    if w' != w {
      var mine := Identifier(cfg.dbPrefix, i.row.instanceID);
      forall c | Pending(w'.log, c)
        ensures Referenced(cfg, w'.rows, c) && Up(w'.servers, RdsInstance(c))
      {
        PendingAppend(w.log, ClusterDeleteIssued(mine), c);
        var r :| r in w.rows.instances && IsClusterRow(cfg, w.rows.instances[r], c);
        if c == mine {
          SameIdentifierSameRow(cfg, ids, w.rows, r, i.id);
          assert false;
        }
      }
    }
  }

  lemma SharedDeprovision(cfg: Config, w: World, req: DeprovisionRequest, o: DeprovisionCalls)
    requires var found := FindObjects(cfg, w.rows, req.instanceID, o.find); found.Ok? ==> found.value.2.shared
    ensures var w' := Deprovision(cfg, w, req, o).0;
            StaysUp(w.servers, w'.servers) && (w'.log == w.log || exists i: nat :: w'.log == w.log + [DeletionBegun(i)])
  {
    var found := FindObjects(cfg, w.rows, req.instanceID, o.find);
    if found.Ok? {
      var id := Shared(found.value.2.engine);
      var kind := SharedEngine(found.value.2.engine);
      if kind.Some? && id in w.servers {
        var s := DropDB(kind.value, w.servers[id], found.value.0.row.dbName, o.dropDB);
        if s.Some? {
          DropUsersDeleting(kind.value, s.value, found.value.0.users, o.dropUser);
        }
      }
    }
  }

  lemma DeprovisionClusters(cfg: Config, ids: set<string>, w: World, req: DeprovisionRequest, o: DeprovisionCalls)
    requires Apart(ids) && ClustersOk(cfg, ids, w)
    ensures Backed(cfg, Deprovision(cfg, w, req, o).0, None)
  {
    var found := FindObjects(cfg, w.rows, req.instanceID, o.find);
    if found.Ok? && !found.value.2.shared {
      DedicatedClusters(cfg, ids, w, req, o, found.value.0, found.value.2);
    } else {
      var w' := Deprovision(cfg, w, req, o).0;
      SharedDeprovision(cfg, w, req, o);
      var e := if w'.log == w.log then NO_EVENT else w'.log[|w.log|];
      QuietNext(cfg, w, DoDeprovision(req, o), w', e);
    }
  }

  // ---- Provision -----------------------------------------------------------

  /** The cluster that this call of `Provision` has created and not yet recorded or given up. */
  function Own(cfg: Config, stage: Stage): Option<string> {
    match stage
    case ClusterUp(_, row, _) => Some(Identifier(cfg.dbPrefix, row.instanceID))
    case Built(_, row, _, cluster) => if cluster then Some(Identifier(cfg.dbPrefix, row.instanceID)) else None
    case Undo(row, _) => Some(Identifier(cfg.dbPrefix, row.instanceID))
    case _ => None
  }

  ghost predicate StageBacked(cfg: Config, w: World, req: ProvisionRequest, stage: Stage) {
    && StageFor(cfg, req, stage) && StageOk(stage)
    && Backed(cfg, w, Own(cfg, stage))
    && (stage.ClusterUp? ==> IsClusterRow(cfg, stage.row, Identifier(cfg.dbPrefix, stage.row.instanceID)))
    && (stage.Built? && stage.cluster ==> IsClusterRow(cfg, stage.row, Identifier(cfg.dbPrefix, stage.row.instanceID))
                                          && Up(w.servers, InstanceServer(cfg, stage.row)))
  }

  lemma CheckedStepShape(cfg: Config, w: World, req: ProvisionRequest, o: ProvisionCalls, stage: Stage)
    requires stage.Checked? && StageFor(cfg, req, stage)
    ensures var (w', next) := ProvisionStep(cfg, w, req, o, stage);
            && w'.rows == w.rows && StaysUp(w.servers, w'.servers)
            && (if next.ClusterUp? then
                  next.row == stage.row && IsClusterRow(cfg, next.row, Identifier(cfg.dbPrefix, stage.row.instanceID))
                  && w'.log == w.log + [ClusterCreated(Identifier(cfg.dbPrefix, stage.row.instanceID))]
                else w'.log == w.log && (next.Finished? || (next.Built? && !next.cluster)))
  {
  }

  lemma CheckedStepBacked(cfg: Config, w: World, req: ProvisionRequest, o: ProvisionCalls, stage: Stage)
    requires stage.Checked? && StageBacked(cfg, w, req, stage)
    ensures var (w', next) := ProvisionStep(cfg, w, req, o, stage); StageBacked(cfg, w', req, next)
  {
    CheckedStepShape(cfg, w, req, o, stage);
    ProvisionStepInstances(cfg, w, req, o, stage);
    var (w', next) := ProvisionStep(cfg, w, req, o, stage);
    if next.ClusterUp? {
      var mine := Identifier(cfg.dbPrefix, stage.row.instanceID);
      forall c { PendingAppend(w.log, ClusterCreated(mine), c); }
      QuietStep(cfg, w, w', None, Some(mine));
    } else {
      QuietStep(cfg, w, w', None, None);
    }
  }

  lemma ClusterUpStepBacked(cfg: Config, w: World, req: ProvisionRequest, o: ProvisionCalls, stage: Stage)
    requires stage.ClusterUp? && StageBacked(cfg, w, req, stage)
    ensures var (w', next) := ProvisionStep(cfg, w, req, o, stage); StageBacked(cfg, w', req, next)
  {
    var (w', next) := ProvisionStep(cfg, w, req, o, stage);
    QuietStep(cfg, w, w', Own(cfg, stage), Own(cfg, stage));
  }

  lemma BuiltStepBacked(cfg: Config, w: World, req: ProvisionRequest, o: ProvisionCalls, stage: Stage)
    requires stage.Built? && StageBacked(cfg, w, req, stage) && KeysUsed(w.rows)
    ensures var (w', next) := ProvisionStep(cfg, w, req, o, stage); StageBacked(cfg, w', req, next)
  {
    var (w', next) := ProvisionStep(cfg, w, req, o, stage);
    QuietStep(cfg, w, w', Own(cfg, stage), Own(cfg, stage));
    if next.Finished? && next.reply.Provisioned? {
      assert w'.rows.instances[w.rows.nextID] == stage.row;
    }
  }

  lemma UndoStepBacked(cfg: Config, w: World, req: ProvisionRequest, o: ProvisionCalls, stage: Stage)
    requires stage.Undo? && StageBacked(cfg, w, req, stage)
    ensures var (w', next) := ProvisionStep(cfg, w, req, o, stage); StageBacked(cfg, w', req, next)
  {
    var (w', next) := ProvisionStep(cfg, w, req, o, stage);
    var mine := Identifier(cfg.dbPrefix, stage.row.instanceID);
    forall c | Pending(w'.log, c)
      ensures Referenced(cfg, w'.rows, c) && Up(w'.servers, RdsInstance(c))
    {
      PendingAppend(w.log, ClusterDeleteIssued(mine), c);
    }
  }

  lemma {:induction false} ProvisionFromBacked(cfg: Config, w: World, req: ProvisionRequest, o: ProvisionCalls, stage: Stage)
    requires StageBacked(cfg, w, req, stage) && KeysUsed(w.rows)
    ensures Backed(cfg, ProvisionFrom(cfg, w, req, o, stage).0, None)
    decreases StepsLeft(stage)
  {
    ProvisionUnfold(cfg, w, req, o, stage);
    if !stage.Finished? {
      var (w', next) := ProvisionStep(cfg, w, req, o, stage);
      ProvisionStepInstances(cfg, w, req, o, stage);
      match stage {
        case Checked(_, _, _) => CheckedStepBacked(cfg, w, req, o, stage);
        case ClusterUp(_, _, _) => ClusterUpStepBacked(cfg, w, req, o, stage);
        case Built(_, _, _, _) => BuiltStepBacked(cfg, w, req, o, stage);
        case Undo(_, _) => UndoStepBacked(cfg, w, req, o, stage);
        case _ =>
      }
      if next.Finished? {
        ProvisionUnfold(cfg, w', req, o, next);
      } else {
        ProvisionFromBacked(cfg, w', req, o, next);
      }
    }
  }

  /** Within one `Provision` the history grows by nothing, by the creation of the cluster when the call
      succeeds, or by the creation and then the deletion of that same cluster when the call fails: a
      deletion is issued exactly when the cluster was created and the call failed. */
  lemma ProvisionCompensates(cfg: Config, w: World, req: ProvisionRequest, o: ProvisionCalls)
    ensures var (w', reply) := Provision(cfg, w, req, o);
            var c := Identifier(cfg.dbPrefix, req.instanceID);
            || w'.log == w.log
            || (w'.log == w.log + [ClusterCreated(c)] && reply == Provisioned(true))
            || (w'.log == w.log + [ClusterCreated(c)] + [ClusterDeleteIssued(c)] && reply.Failed?)
  {
    var first := ProvisionStep(cfg, w, req, o, Begin).1;
    ProvisionUnfold(cfg, w, req, o, Begin);
    if first.Finished? {
      ProvisionUnfold(cfg, w, req, o, first);
    } else {
      CheckedCompensates(cfg, w, req, o, first);
    }
  }

  lemma CheckedCompensates(cfg: Config, w: World, req: ProvisionRequest, o: ProvisionCalls, stage: Stage)
    requires stage.Checked? && StageFor(cfg, req, stage)
    ensures var (w', reply) := ProvisionFrom(cfg, w, req, o, stage);
            var c := Identifier(cfg.dbPrefix, req.instanceID);
            || w'.log == w.log
            || (w'.log == w.log + [ClusterCreated(c)] && reply == Provisioned(true))
            || (w'.log == w.log + [ClusterCreated(c)] + [ClusterDeleteIssued(c)] && reply.Failed?)
  {
    var (w1, second) := ProvisionStep(cfg, w, req, o, stage);
    ProvisionUnfold(cfg, w, req, o, stage);
    ProvisionUnfold(cfg, w1, req, o, second);
    if second.ClusterUp? {
      var (w2, third) := ProvisionStep(cfg, w1, req, o, second);
      FinishCompensates(cfg, w2, req, o, third);
    } else if second.Built? {
      FinishCompensates(cfg, w1, req, o, second);
    }
  }

  lemma FinishCompensates(cfg: Config, w: World, req: ProvisionRequest, o: ProvisionCalls, stage: Stage)
    requires (stage.Built? || stage.Undo?) && StageFor(cfg, req, stage)
    ensures var (w', reply) := ProvisionFrom(cfg, w, req, o, stage);
            var c := Identifier(cfg.dbPrefix, req.instanceID);
            || (w'.log == w.log && reply.Provisioned? && stage.Built? && reply.isAsync == !stage.plan.shared)
            || (w'.log == w.log && reply.Failed? && stage.Built? && !stage.cluster)
            || (w'.log == w.log + [ClusterDeleteIssued(c)] && reply.Failed? && (stage.Built? ==> stage.cluster))
  {
    var (w1, next) := ProvisionStep(cfg, w, req, o, stage);
    ProvisionUnfold(cfg, w, req, o, stage);
    ProvisionUnfold(cfg, w1, req, o, next);
    if next.Undo? {
      ProvisionUnfold(cfg, ProvisionStep(cfg, w1, req, o, next).0, req, o, ProvisionStep(cfg, w1, req, o, next).1);
    }
  }

  // ---- Runs ----------------------------------------------------------------

  lemma NextClusters(cfg: Config, ids: set<string>, w: World, step: Step)
    requires Apart(ids) && ClustersOk(cfg, ids, w) && (step.DoProvision? ==> step.provision.instanceID in ids)
    ensures ClustersOk(cfg, ids, Next(cfg, w, step))
  {
    NextKeepsRecords(cfg, w, step);
    InstancesChange(cfg, w, step);
    match step
    case DoProvision(req, o) => ProvisionFromBacked(cfg, w, req, o, Begin);
    case DoUpdate(req, o) => UpdateClusters(cfg, w, req, o);
    case DoDeprovision(req, o) => DeprovisionClusters(cfg, ids, w, req, o);
    case DoBind(req, o) => BindClusters(cfg, w, req, o);
    case DoUnbind(req, o) => UnbindClusters(cfg, w, req, o);
    case DoLastOperation(id, o) =>
      var i := LastOperationShape(cfg, w, id, o);
      LastOperationQuiet(cfg, w, step, Next(cfg, w, step), i);
    case Gone(id) => DisappearClusters(cfg, w, id);
  }

  /** The instance IDs that a run asks to provision. */
  predicate ProvisionsOnly(steps: seq<Step>, ids: set<string>) {
    forall k :: 0 <= k < |steps| && steps[k].DoProvision? ==> steps[k].provision.instanceID in ids
  }

  lemma {:induction false} RunClustersOk(cfg: Config, ids: set<string>, steps: seq<Step>)
    requires Apart(ids) && ProvisionsOnly(steps, ids)
    ensures ClustersOk(cfg, ids, Run(cfg, START, steps))
  {
    if steps != [] {
      RunClustersOk(cfg, ids, steps[..|steps| - 1]);
      NextClusters(cfg, ids, Run(cfg, START, steps[..|steps| - 1]), steps[|steps| - 1]);
    }
  }

  /** In every run that provisions only IDs with different identifiers, whatever fails, every Aurora
      cluster that was created is referenced by a record or has had a deletion issued. */
  lemma ClustersAreCompensated(cfg: Config, ids: set<string>, steps: seq<Step>)
    requires Apart(ids) && ProvisionsOnly(steps, ids)
    ensures NoOrphans(cfg, Run(cfg, START, steps))
  {
    RunClustersOk(cfg, ids, steps);
  }
}
