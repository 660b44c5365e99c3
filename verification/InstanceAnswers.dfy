/** When exactly `Provision`, `Deprovision` and `LastOperation` succeed, which error or state they give
    otherwise, and what an answer means, told from the rows, the servers, the request and the calls. */
module InstanceAnswers {
  import opened Wrappers
  import opened Utils
  import opened Models
  import opened Catalog
  import opened SqlServers
  import opened Broker
  import opened RunReferences
  import opened RefCountProvision
  import opened Answers

  // ---- Provision -----------------------------------------------------------

  /** The request is one that the broker takes up: asynchronous answers are allowed, parameters that count
      parse, and the plan is offered. */
  predicate TakesUp(cfg: Config, req: ProvisionRequest) {
    req.asyncAllowed && !(cfg.allowProvisionParameters && req.malformed) && FindServicePlan(cfg.services, req.serviceID, req.planID).Some?
  }

  /** The look-up finds a record. */
  predicate Finds(w: World, req: ProvisionRequest, o: ProvisionCalls) {
    o.find && HasRecord(w.rows, req.instanceID)
  }

  /** The database, the RDS instance, or the Aurora cluster and its instance are created. RDS refuses an
      identifier that is taken. */
  predicate Creates(cfg: Config, w: World, req: ProvisionRequest, o: ProvisionCalls, plan: Plan) {
    if plan.shared then (plan.engine == "postgres" || plan.engine == "mysql") && Shared(plan.engine) in w.servers && o.createDB
    else
      && (IsAurora(plan) ==> o.createCluster && ClusterServer(cfg, RowOf(cfg, req)) !in w.servers)
      && o.createInstance && InstanceServer(cfg, RowOf(cfg, req)) !in w.servers
  }

  predicate ProvisionFails(cfg: Config, w: World, req: ProvisionRequest, o: ProvisionCalls, f: Failure) {
    if !TakesUp(cfg, req) then
      f == if !req.asyncAllowed then AsyncRequired
           else if cfg.allowProvisionParameters && req.malformed then BadParameters else PlanNotFound
    else if Finds(w, req, o) then f == InstanceAlreadyExists
    else if !CanMakeUser(cfg, o.entropy) then f == CallFailed
    else
      var plan := FindServicePlan(cfg.services, req.serviceID, req.planID).value;
      if Creates(cfg, w, req, o, plan) then f == NotRecorded && !(o.save && !HasRecord(w.rows, req.instanceID))
      else f == if plan.shared && plan.engine != "postgres" && plan.engine != "mysql" then Crashed else CallFailed
  }

  predicate Provisions(cfg: Config, w: World, req: ProvisionRequest, o: ProvisionCalls) {
    && TakesUp(cfg, req) && CanMakeUser(cfg, o.entropy)
    && Creates(cfg, w, req, o, FindServicePlan(cfg.services, req.serviceID, req.planID).value)
    && o.save && !HasRecord(w.rows, req.instanceID)
  }

  /** What is new on the servers: the database on a shared one; an empty RDS instance with the database; or an
      empty cluster with the database, its creation on record, and an empty instance in it. */
  predicate IsBuilt(cfg: Config, w: World, w': World, row: InstanceRow, plan: Plan) {
    var (shared, instance, cluster) := (Shared(plan.engine), InstanceServer(cfg, row), ClusterServer(cfg, row));
    if plan.shared then
      && shared in w.servers && w'.log == w.log
      && w'.servers == w.servers[shared := w.servers[shared].(databases := w.servers[shared].databases + {row.dbName})]
    else if IsAurora(plan) then
      && cluster !in w.servers && instance !in w.servers && w'.log == w.log + [ClusterCreated(cluster.identifier)]
      && w'.servers == w.servers[cluster := NewServer({row.dbName})][instance := NewServer({})]
    else instance !in w.servers && w'.log == w.log && w'.servers == w.servers[instance := NewServer({row.dbName})]
  }

  lemma FindsIff(rows: Rows, instanceID: string)
    ensures FindInstance(rows, instanceID).Some? <==> HasRecord(rows, instanceID)
  {
  }

  lemma CheckIff(cfg: Config, w: World, req: ProvisionRequest, o: ProvisionCalls)
    ensures var stage := ProvisionCheck(cfg, w.rows, req, o);
            && (stage.Checked? <==> TakesUp(cfg, req) && !Finds(w, req, o) && CanMakeUser(cfg, o.entropy))
            && (stage.Checked? ==> stage.plan == FindServicePlan(cfg.services, req.serviceID, req.planID).value && stage.row == RowOf(cfg, req))
            && (!stage.Checked? ==> exists f :: stage == Finished(Failed(f)) && ProvisionFails(cfg, w, req, o, f))
  {
    FindsIff(w.rows, req.instanceID);
    var stage := ProvisionCheck(cfg, w.rows, req, o);
    if !stage.Checked? {
      assert ProvisionFails(cfg, w, req, o, stage.reply.failure);
    }
  }

  /** The end of a call that has built everything, and of one that has not. */
  lemma FromBuiltAnswers(cfg: Config, w: World, req: ProvisionRequest, o: ProvisionCalls, stage: Stage)
    requires stage.Built?
    ensures var (w', reply) := ProvisionFrom(cfg, w, req, o, stage);
            && reply == (if o.save && !HasRecord(w.rows, stage.row.instanceID) then Provisioned(!stage.plan.shared) else Failed(NotRecorded))
            && (reply.Provisioned? ==> w'.servers == w.servers && w'.log == w.log)
  {
    var (w1, next) := ProvisionStep(cfg, w, req, o, stage);
    ProvisionUnfold(cfg, w, req, o, stage);
    ProvisionUnfold(cfg, w1, req, o, next);
    if next.Undo? {
      UndoAnswers(cfg, w1, req, o, next);
    }
  }

  lemma UndoAnswers(cfg: Config, w: World, req: ProvisionRequest, o: ProvisionCalls, stage: Stage)
    requires stage.Undo?
    ensures ProvisionFrom(cfg, w, req, o, stage).1 == Failed(stage.failure)
  {
    var (w1, next) := ProvisionStep(cfg, w, req, o, stage);
    ProvisionUnfold(cfg, w, req, o, stage);
    ProvisionUnfold(cfg, w1, req, o, next);
  }

  lemma FromClusterAnswers(cfg: Config, w: World, req: ProvisionRequest, o: ProvisionCalls, stage: Stage)
    requires stage.ClusterUp?
    ensures var (w', reply) := ProvisionFrom(cfg, w, req, o, stage);
            && reply == (if !o.createInstance || InstanceServer(cfg, stage.row) in w.servers then Failed(CallFailed)
                         else if o.save && !HasRecord(w.rows, stage.row.instanceID) then Provisioned(!stage.plan.shared)
                         else Failed(NotRecorded))
            && (reply.Provisioned? ==> w'.servers == w.servers[InstanceServer(cfg, stage.row) := NewServer({})] && w'.log == w.log)
  {
    var (w1, next) := ProvisionStep(cfg, w, req, o, stage);
    ProvisionUnfold(cfg, w, req, o, stage);
    if next.Undo? {
      UndoAnswers(cfg, w1, req, o, next);
    } else {
      FromBuiltAnswers(cfg, w1, req, o, next);
    }
  }

  lemma FromCheckedAnswers(cfg: Config, w: World, req: ProvisionRequest, o: ProvisionCalls, stage: Stage)
    requires stage.Checked? && stage.row == RowOf(cfg, req)
    ensures ProvisionFrom(cfg, w, req, o, stage).1
            == if Creates(cfg, w, req, o, stage.plan)
               then if o.save && !HasRecord(w.rows, req.instanceID) then Provisioned(!stage.plan.shared) else Failed(NotRecorded)
               else Failed(if stage.plan.shared && stage.plan.engine != "postgres" && stage.plan.engine != "mysql" then Crashed else CallFailed)
    ensures ProvisionFrom(cfg, w, req, o, stage).1.Provisioned? ==> IsBuilt(cfg, w, ProvisionFrom(cfg, w, req, o, stage).0, stage.row, stage.plan)
  {
    var (w1, next) := ProvisionStep(cfg, w, req, o, stage);
    ProvisionUnfold(cfg, w, req, o, stage);
    if next.ClusterUp? {
      FromClusterAnswers(cfg, w1, req, o, next);
    } else if next.Built? {
      FromBuiltAnswers(cfg, w1, req, o, next);
    } else {
      ProvisionUnfold(cfg, w1, req, o, next);
    }
  }

  /** When exactly `Provision` succeeds, and that its answer is asynchronous exactly for a plan that is not
      shared. */
  lemma ProvisionAnswersIff(cfg: Config, w: World, req: ProvisionRequest, o: ProvisionCalls)
    ensures var reply := Provision(cfg, w, req, o).1;
            && (reply.Provisioned? <==> Provisions(cfg, w, req, o))
            && (reply.Provisioned? ==> reply.isAsync == !FindServicePlan(cfg.services, req.serviceID, req.planID).value.shared)
            && (!reply.Provisioned? ==> reply.Failed?)
  {
    var first := ProvisionCheck(cfg, w.rows, req, o);
    CheckIff(cfg, w, req, o);
    ProvisionUnfold(cfg, w, req, o, Begin);
    ProvisionUnfold(cfg, w, req, o, first);
    if first.Checked? {
      FromCheckedAnswers(cfg, w, req, o, first);
    }
  }

  /** And with which error it fails otherwise. */
  lemma ProvisionFailsIff(cfg: Config, w: World, req: ProvisionRequest, o: ProvisionCalls, f: Failure)
    ensures Provision(cfg, w, req, o).1 == Failed(f) <==> ProvisionFails(cfg, w, req, o, f)
  {
    var first := ProvisionCheck(cfg, w.rows, req, o);
    CheckIff(cfg, w, req, o);
    ProvisionUnfold(cfg, w, req, o, Begin);
    ProvisionUnfold(cfg, w, req, o, first);
    if first.Checked? {
      FromCheckedAnswers(cfg, w, req, o, first);
    }
  }

  /** What success means, from any state: the record is stored with a master user whose password opens, and what
      the plan needs is built and nothing else. */
  lemma ProvisionedMeans(cfg: Config, w: World, req: ProvisionRequest, o: ProvisionCalls)
    requires Provision(cfg, w, req, o).1.Provisioned?
    ensures var (w', r) := (Provision(cfg, w, req, o).0, w.rows.nextID);
            && w'.rows.instances == w.rows.instances[r := RowOf(cfg, req)] && r + 1 in w'.rows.users
            && w'.rows.users == w.rows.users[r + 1 := w'.rows.users[r + 1]] && w'.rows.bindings == w.rows.bindings
            && w'.rows.users[r + 1].kind == Master && w'.rows.users[r + 1].instance == r
            && Password(w'.rows.users[r + 1], cfg.key) == Some(RandPassword(o.entropy.value.password))
            && IsBuilt(cfg, w, w', RowOf(cfg, req), FindServicePlan(cfg.services, req.serviceID, req.planID).value)
  {
    var first := ProvisionCheck(cfg, w.rows, req, o);
    CheckIff(cfg, w, req, o);
    ProvisionUnfold(cfg, w, req, o, Begin);
    ProvisionUnfold(cfg, w, req, o, first);
    FromCheckedAnswers(cfg, w, req, o, first);
    ProvisionFromMaster(cfg, w, req, o, Begin);
    NewUserOpens(Master, cfg.key, o.entropy.value, 0);
  }

  // ---- Deprovision ---------------------------------------------------------

  /** The database of a shared instance is dropped, or RDS accepts the deletion of an RDS instance that is
      there. How the drops of users, the deletions of rows and the deletion of a cluster go does not matter. */
  predicate Deprovisions(cfg: Config, w: World, req: DeprovisionRequest, o: DeprovisionCalls) {
    var found := FindObjects(cfg, w.rows, req.instanceID, o.find);
    && req.asyncAllowed && found.Ok?
    && var (i, _, plan) := found.value;
       if plan.shared then (plan.engine == "postgres" || plan.engine == "mysql") && Shared(plan.engine) in w.servers && o.dropDB
       else o.deleteInstance && InstanceServer(cfg, i.row) in w.servers
  }

  predicate DeprovisionFails(cfg: Config, w: World, req: DeprovisionRequest, o: DeprovisionCalls, f: Failure) {
    var found := FindObjects(cfg, w.rows, req.instanceID, o.find);
    if !req.asyncAllowed then f == AsyncRequired
    else if found.Err? then LookUpFails(cfg, w.rows, req.instanceID, o.find, f)
    else
      var (i, _, plan) := found.value;
      match f
      case Crashed => plan.shared && plan.engine != "postgres" && plan.engine != "mysql"
      case InstanceDoesNotExist => !plan.shared && o.deleteInstance && InstanceServer(cfg, i.row) !in w.servers
      case CallFailed =>
        if plan.shared then (plan.engine == "postgres" || plan.engine == "mysql") && !(Shared(plan.engine) in w.servers && o.dropDB)
        else !o.deleteInstance
      case _ => false
  }

  /** When exactly `Deprovision` succeeds, and that its answer is asynchronous exactly for an instance that is
      not shared; any other answer leaves everything as it was. */
  lemma DeprovisionAnswersIff(cfg: Config, w: World, req: DeprovisionRequest, o: DeprovisionCalls)
    ensures var (w', reply) := Deprovision(cfg, w, req, o);
            && (reply.Deprovisioned? <==> Deprovisions(cfg, w, req, o))
            && (reply.Deprovisioned? ==> reply.isAsync == !FindObjects(cfg, w.rows, req.instanceID, o.find).value.2.shared)
            && (!reply.Deprovisioned? ==> reply.Failed? && w' == w)
  {
  }

  /** And with which error it fails otherwise. */
  lemma DeprovisionFailsIff(cfg: Config, w: World, req: DeprovisionRequest, o: DeprovisionCalls, f: Failure)
    ensures Deprovision(cfg, w, req, o).1 == Failed(f) <==> DeprovisionFails(cfg, w, req, o, f)
  {
    LookUpFailsIff(cfg, w.rows, req.instanceID, o.find, f);
  }

  /** What an asynchronous answer means: the deletion of the RDS instance has begun, and that of the cluster if
      RDS accepts it; the record and all databases, roles and grants are still there. */
  lemma DeletionHasBegun(cfg: Config, w: World, req: DeprovisionRequest, o: DeprovisionCalls)
    requires Deprovision(cfg, w, req, o).1 == Deprovisioned(true)
    ensures var w' := Deprovision(cfg, w, req, o).0;
            var (i, _, plan) := FindObjects(cfg, w.rows, req.instanceID, o.find).value;
            var (instance, cluster) := (InstanceServer(cfg, i.row), ClusterServer(cfg, i.row));
            && w'.rows == w.rows && w'.servers.Keys == w.servers.Keys && instance in w.servers
            && (forall sid :: sid in w.servers ==>
                  w'.servers[sid] == w.servers[sid].(deleting := w.servers[sid].deleting || sid == instance
                                                                 || (sid == cluster && IsAurora(plan) && o.deleteCluster)))
            && w'.log == w.log + (if IsAurora(plan) then [ClusterDeleteIssued(cluster.identifier)] else [])
  {
  }

  /** What a synchronous answer means: the database is gone from the shared server with its extensions, and all
      rows of the instance are if no deletion fails; no other server changes and no database else goes. */
  lemma SharedIsGone(cfg: Config, w: World, req: DeprovisionRequest, o: DeprovisionCalls)
    requires Deprovision(cfg, w, req, o).1 == Deprovisioned(false)
    ensures var w' := Deprovision(cfg, w, req, o).0;
            var (i, _, plan) := FindObjects(cfg, w.rows, req.instanceID, o.find).value;
            var home := Shared(plan.engine);
            && home in w.servers && home in w'.servers && w'.servers == w.servers[home := w'.servers[home]]
            && w'.servers[home].databases == w.servers[home].databases - {i.row.dbName}
            && ExtensionsOf(w'.servers[home], i.row.dbName) == {}
            && (o.deletes.None? ==> i.id !in w'.rows.instances)
            && w'.log == w.log + [DeletionBegun(i.id)]
  {
    var (i, plan) := (FindObjects(cfg, w.rows, req.instanceID, o.find).value.0, FindObjects(cfg, w.rows, req.instanceID, o.find).value.2);
    var (kind, home) := (SharedEngine(plan.engine).value, Shared(plan.engine));
    var dropped := DropDB(kind, w.servers[home], i.row.dbName, o.dropDB).value;
    DropsOnlyUsers(kind, dropped, i.users, o.dropUser);
    if o.deletes.None? {
      var cascade := InstanceCascade(i);
      assert cascade[..|cascade|] == cascade && cascade[|cascade| - 1] == InstanceRef(i.id);
    }
  }

  lemma {:induction false} DropsOnlyUsers(kind: EngineKind, s: Server, users: seq<User>, dropUser: string -> bool)
    ensures var s' := DropUsers(kind, s, users, dropUser); s'.databases == s.databases && s'.extensions == s.extensions
  {
    if users != [] {
      DropsOnlyUsers(kind, s, users[..|users| - 1], dropUser);
    }
  }

  // ---- LastOperation -------------------------------------------------------

  /** The states in which RDS is still at work on an instance. */
  const BUSY: set<string> := {"backing-up", "creating", "deleting", "maintenance", "modifying", "rebooting", "renaming",
                              "resetting-master-credentials", "upgrading"}

  /** RDS describes the instance of a plan that is not shared. */
  predicate Describes(cfg: Config, w: World, id: string, o: LastOperationCalls) {
    var found := FindObjects(cfg, w.rows, id, o.find);
    found.Ok? && !found.value.2.shared && o.describe && InstanceServer(cfg, found.value.0.row) in w.servers
  }

  predicate LastOperationFails(cfg: Config, w: World, id: string, o: LastOperationCalls, f: Failure) {
    var found := FindObjects(cfg, w.rows, id, o.find);
    if found.Err? then LookUpFails(cfg, w.rows, id, o.find, f)
    else
      && !found.value.2.shared
      && match f
         case InstanceDoesNotExist => o.describe && InstanceServer(cfg, found.value.0.row) !in w.servers
         case CallFailed => !o.describe
         case _ => false
  }

  /** When exactly the operation has succeeded, is in progress or has failed: an instance that RDS describes is
      ready exactly when it is available and nothing is pending, and shared instances have no operation. A state
      that is reported changes nothing. */
  lemma LastOperationAnswersIff(cfg: Config, w: World, id: string, o: LastOperationCalls)
    ensures var ((w', reply), found) := (LastOperation(cfg, w, id, o), FindObjects(cfg, w.rows, id, o.find));
            && (reply == Operation(Succeeded) <==> Describes(cfg, w, id, o) && o.status == "available" && !o.pendingModifications)
            && (reply == Operation(InProgress)
                <==> Describes(cfg, w, id, o) && (o.status in BUSY || (o.status == "available" && o.pendingModifications)))
            && (reply == Operation(OperationFailed)
                <==> (found.Ok? && found.value.2.shared)
                     || (Describes(cfg, w, id, o) && o.status != "available" && o.status !in BUSY))
            && (reply.Operation? ==> w' == w) && (!reply.Operation? ==> reply.Failed?)
  {
  }

  /** And with which error it fails otherwise. Only for an instance that RDS reports missing do rows go. */
  lemma LastOperationFailsIff(cfg: Config, w: World, id: string, o: LastOperationCalls, f: Failure)
    ensures var ((w', reply), found) := (LastOperation(cfg, w, id, o), FindObjects(cfg, w.rows, id, o.find));
            && (reply == Failed(f) <==> LastOperationFails(cfg, w, id, o, f))
            && w'.servers == w.servers
            && (w' != w ==> found.Ok? && !found.value.2.shared && reply == Failed(InstanceDoesNotExist))
            && (reply == Failed(InstanceDoesNotExist) && found.Ok? && o.deletes.None? ==> found.value.0.id !in w'.rows.instances)
  {
    var found := FindObjects(cfg, w.rows, id, o.find);
    LookUpFailsIff(cfg, w.rows, id, o.find, f);
    if found.Ok? && o.deletes.None? {
      var cascade := InstanceCascade(found.value.0);
      assert cascade[..|cascade|] == cascade && cascade[|cascade| - 1] == InstanceRef(found.value.0.id);
    }
  }
}
