/** rdsbroker/broker.go as functions: what each handler makes of the three stores, given how every
    external call of that handler goes. The class in RDSBroker.dfy is proved to do exactly this. */
module Broker {
  import opened Wrappers
  import opened Strings
  import opened Utils
  import opened Models
  import opened Names
  import opened Catalog
  import opened SqlServers
  import Extensions

  // ---- State ---------------------------------------------------------------

  datatype Config = Config(dbPrefix: string, services: Services, key: Bytes, allowProvisionParameters: bool, allowUpdateParameters: bool)

  /** Where a database can live: a shared server, an RDS instance, or an Aurora cluster. */
  datatype ServerId = Shared(engine: string) | RdsInstance(identifier: string) | RdsCluster(identifier: string)

  /** What has happened, for statements about whole runs. */
  datatype Effect =
    | ClusterCreated(identifier: string)
    | ClusterDeleteIssued(identifier: string)
    | DeletionBegun(instance: nat)
    | PlanApplied(instance: nat, recorded: InstanceRow, plan: Plan)

  /** The internal rows, the servers that exist, and the history. An RDS instance or cluster exists on
      AWS exactly while it has an entry in `servers`. */
  datatype World = World(rows: Rows, servers: map<ServerId, Server>, log: seq<Effect>)

  datatype Failure =
    | AsyncRequired | BadParameters | InstanceDoesNotExist | InstanceAlreadyExists | ServiceNotFound | PlanNotFound
    | PlanChangeNotSupported | NotBindable | UnknownBindingID | NoMasterUser | EngineNotSupported
    | CallFailed   // an external call returned an error
    | NotRecorded  // "RDS instance created but failed to save reference to local database"
    | Crashed      // a method call on the missing entry of sharedEngines

  datatype Credentials = Credentials(host: ServerId, dbName: string, username: string, password: string)
  datatype OperationState = Succeeded | InProgress | OperationFailed

  datatype Reply =
    | Failed(failure: Failure)
    | Provisioned(isAsync: bool)
    | Updated(isAsync: bool)
    | Deprovisioned(isAsync: bool)
    | BoundTo(credentials: Credentials)
    | UnboundOk
    | Operation(state: OperationState)

  // ---- Requests, and how the calls behind them go ---------------------------

  /** `malformed`: the raw parameters do not parse. */
  datatype ProvisionRequest = ProvisionRequest(instanceID: string, serviceID: string, planID: string, asyncAllowed: bool, malformed: bool)
  datatype ProvisionCalls = ProvisionCalls(find: bool, entropy: Option<Entropy>, createDB: bool, createCluster: bool,
                                           createInstance: bool, save: bool, deleteCluster: bool)

  datatype UpdateRequest = UpdateRequest(instanceID: string, planID: string, asyncAllowed: bool, malformed: bool,
                                         extensions: Option<seq<string>>)
  datatype UpdateCalls = UpdateCalls(find: bool, describe: bool, open: bool, listing: Option<seq<string>>, ddl: Extensions.Oracle,
                                     modifyCluster: bool, modifyInstance: bool)

  datatype DeprovisionRequest = DeprovisionRequest(instanceID: string, asyncAllowed: bool)
  datatype DeprovisionCalls = DeprovisionCalls(find: bool, dropDB: bool, dropUser: string -> bool, deletes: Option<nat>,
                                               deleteInstance: bool, deleteCluster: bool)

  datatype BindRequest = BindRequest(instanceID: string, bindingID: string)
  datatype BindCalls = BindCalls(find: bool, describe: bool, open: bool, name: Option<NameBytes>, entropy: Option<Entropy>,
                                 save: bool, createUser: bool, grant: bool)

  datatype UnbindCalls = UnbindCalls(find: bool, deleteBinding: bool, describe: bool, open: bool, revoke: bool, dropUser: bool,
                                     deletes: Option<nat>)

  datatype LastOperationCalls = LastOperationCalls(find: bool, describe: bool, status: string, pendingModifications: bool, deletes: Option<nat>)

  // ---- Helpers -------------------------------------------------------------

  predicate IsAurora(plan: Plan) {
    ToLower(plan.engine) == "aurora"
  }

  function InstanceServer(cfg: Config, row: InstanceRow): ServerId {
    RdsInstance(Identifier(cfg.dbPrefix, row.instanceID))
  }

  function ClusterServer(cfg: Config, row: InstanceRow): ServerId {
    RdsCluster(Identifier(cfg.dbPrefix, row.instanceID))
  }

  /** The server that holds the database of an instance with that plan. */
  function HomeOf(cfg: Config, row: InstanceRow, plan: Plan): ServerId {
    if plan.shared then Shared(plan.engine) else if IsAurora(plan) then ClusterServer(cfg, row) else InstanceServer(cfg, row)
  }

  function EngineOf(plan: Plan): Option<EngineKind> {
    if plan.shared then SharedEngine(plan.engine) else ProvidedEngine(plan.engine)
  }

  function RecordedPlan(cfg: Config, row: InstanceRow): Option<Plan> {
    FindServicePlan(cfg.services, row.serviceID, row.planID)
  }

  /** `findObjects`; a failed query looks like a missing instance. */
  function FindObjects(cfg: Config, rows: Rows, instanceID: string, find: bool): (r: Result<(Instance, Service, Plan), Failure>)
    ensures r.Ok? ==> find && FindInstance(rows, instanceID) == Some(r.value.0)
                      && FindService(cfg.services, r.value.0.row.serviceID) == Some(r.value.1)
                      && RecordedPlan(cfg, r.value.0.row) == Some(r.value.2)
    ensures r.Ok? <==> find && FindInstance(rows, instanceID).Some? && RecordedPlan(cfg, FindInstance(rows, instanceID).value.row).Some?
    ensures !find || FindInstance(rows, instanceID).None? ==> r == Err(InstanceDoesNotExist)
    ensures find && FindInstance(rows, instanceID).Some? && r.Err?
            ==> r.error == if FindService(cfg.services, FindInstance(rows, instanceID).value.row.serviceID).None? then ServiceNotFound else PlanNotFound
  {
    if !find then Err(InstanceDoesNotExist)
    else match FindInstance(rows, instanceID)
      case None => Err(InstanceDoesNotExist)
      case Some(i) =>
        match FindService(cfg.services, i.row.serviceID)
        case None => Err(ServiceNotFound)
        case Some(service) =>
          match RecordedPlan(cfg, i.row)
          case None => Err(PlanNotFound)
          case Some(plan) => Ok((i, service, plan))
  }

  /** The engine of a handler: the shared one, or a connection to the server of the instance as its
      master user. */
  function OpenEngine(cfg: Config, servers: map<ServerId, Server>, i: Instance, plan: Plan, describe: bool, open: bool)
    : (r: Result<EngineKind, Failure>)
    ensures r.Ok? ==> EngineOf(plan) == Some(r.value)
    ensures r.Ok? <==> EngineOf(plan).Some?
                       && (plan.shared || (describe && open && HomeOf(cfg, i.row, plan) in servers
                                           && MasterUser(i.users).Some? && Password(MasterUser(i.users).value.row, cfg.key).Some?))
  {
    if plan.shared then
      match SharedEngine(plan.engine) case None => Err(Crashed) case Some(kind) => Ok(kind)
    else if !describe then Err(CallFailed)
    else if HomeOf(cfg, i.row, plan) !in servers then
      // only the error of a missing instance is translated, not that of a missing cluster
      Err(if IsAurora(plan) then CallFailed else InstanceDoesNotExist)
    else match MasterUser(i.users)
      case None => Err(NoMasterUser)
      case Some(master) =>
        if Password(master.row, cfg.key).None? then Err(CallFailed)
        else match ProvidedEngine(plan.engine)
          case None => Err(EngineNotSupported)
          case Some(kind) => if open then Ok(kind) else Err(CallFailed)
  }

  function CreateUsername(kind: EngineKind, instanceID: string, name: Option<NameBytes>): Option<string> {
    match kind
    case Postgres => Some(PostgresRole(instanceID))
    case MySQL => match name case None => None case Some(bytes) => Some(RandUsername(bytes))
  }

  /** RDS accepts the deletion of a server that exists. */
  function StartDeleting(servers: map<ServerId, Server>, id: ServerId): map<ServerId, Server> {
    if id in servers then servers[id := servers[id].(deleting := true)] else servers
  }

  // ---- Provision -----------------------------------------------------------

  /** Where a call of `Provision` stands between two external calls. */
  datatype Stage =
    | Begin
    | Checked(plan: Plan, row: InstanceRow, master: UserRow)
    | ClusterUp(plan: Plan, row: InstanceRow, master: UserRow)  // from here on a failure deletes the cluster
    | Built(plan: Plan, row: InstanceRow, master: UserRow, cluster: bool)
    | Undo(row: InstanceRow, failure: Failure)
    | Finished(reply: Reply)

  /** One atomic step of `Provision`: at most one external call. */
  function ProvisionStep(cfg: Config, w: World, req: ProvisionRequest, o: ProvisionCalls, stage: Stage): (World, Stage) {
    match stage
    case Begin => (w, ProvisionCheck(cfg, w.rows, req, o))
    case Checked(plan, row, master) =>
      if plan.shared then
        match SharedEngine(plan.engine)
        case None => (w, Finished(Failed(Crashed)))
        case Some(_) =>
          var id := Shared(plan.engine);
          if id !in w.servers then (w, Finished(Failed(CallFailed)))
          else match CreateDB(w.servers[id], row.dbName, o.createDB)
            case None => (w, Finished(Failed(CallFailed)))
            case Some(s) => (w.(servers := w.servers[id := s]), Built(plan, row, master, false))
      else if IsAurora(plan) then
        var id := ClusterServer(cfg, row);
        if !o.createCluster || id in w.servers then (w, Finished(Failed(CallFailed)))
        else (w.(servers := w.servers[id := NewServer({row.dbName})], log := w.log + [ClusterCreated(id.identifier)]),
              ClusterUp(plan, row, master))
      else
        var id := InstanceServer(cfg, row);
        if !o.createInstance || id in w.servers then (w, Finished(Failed(CallFailed)))
        else (w.(servers := w.servers[id := NewServer({row.dbName})]), Built(plan, row, master, false))
    case ClusterUp(plan, row, master) =>
      var id := InstanceServer(cfg, row);
      if !o.createInstance || id in w.servers then (w, Undo(row, CallFailed))
      else (w.(servers := w.servers[id := NewServer({})]), Built(plan, row, master, true))
    case Built(plan, row, master, cluster) =>
      (match if o.save then InsertInstance(w.rows, row, master) else None
       case None => (w, if cluster then Undo(row, NotRecorded) else Finished(Failed(NotRecorded)))
       case Some(rows) => (w.(rows := rows), Finished(Provisioned(!plan.shared))))
    case Undo(row, failure) =>
      var id := ClusterServer(cfg, row);
      (w.(servers := if o.deleteCluster then StartDeleting(w.servers, id) else w.servers,
          log := w.log + [ClusterDeleteIssued(id.identifier)]),
       Finished(Failed(failure)))
    case Finished(_) => (w, stage)
  }

  /** Everything up to the first external call that changes something. */
  function ProvisionCheck(cfg: Config, rows: Rows, req: ProvisionRequest, o: ProvisionCalls): Stage {
    if !req.asyncAllowed then Finished(Failed(AsyncRequired))
    else if cfg.allowProvisionParameters && req.malformed then Finished(Failed(BadParameters))
    else match FindServicePlan(cfg.services, req.serviceID, req.planID)
      case None => Finished(Failed(PlanNotFound))
      case Some(plan) =>
        if o.find && FindInstance(rows, req.instanceID).Some? then Finished(Failed(InstanceAlreadyExists))
        else match NewInstance(req.serviceID, req.planID, req.instanceID, cfg.dbPrefix, cfg.key, o.entropy)
          case None => Finished(Failed(CallFailed))
          case Some((row, master)) => Checked(plan, row, master)
  }

  function StepsLeft(stage: Stage): nat {
    match stage
    case Begin => 5
    case Checked(_, _, _) => 4
    case ClusterUp(_, _, _) => 3
    case Built(_, _, _, _) => 2
    case Undo(_, _) => 1
    case Finished(_) => 0
  }

  /** The rest of a call that nothing interrupts. */
  function ProvisionFrom(cfg: Config, w: World, req: ProvisionRequest, o: ProvisionCalls, stage: Stage): (World, Reply)
    decreases StepsLeft(stage)
  {
    if stage.Finished? then (w, stage.reply)
    else var (w', next) := ProvisionStep(cfg, w, req, o, stage); ProvisionFrom(cfg, w', req, o, next)
  }

  lemma ProvisionUnfold(cfg: Config, w: World, req: ProvisionRequest, o: ProvisionCalls, stage: Stage)
    ensures var (w', next) := ProvisionStep(cfg, w, req, o, stage);
            ProvisionFrom(cfg, w, req, o, stage) == ProvisionFrom(cfg, w', req, o, next)
    ensures stage.Finished? ==> ProvisionFrom(cfg, w, req, o, stage) == (w, stage.reply)
  {
  }

  function Provision(cfg: Config, w: World, req: ProvisionRequest, o: ProvisionCalls): (World, Reply) {
    ProvisionFrom(cfg, w, req, o, Begin)
  }

  // ---- Update --------------------------------------------------------------

  function Update(cfg: Config, w: World, req: UpdateRequest, o: UpdateCalls): (World, Reply) {
    if !req.asyncAllowed then (w, Failed(AsyncRequired))
    else if cfg.allowUpdateParameters && req.malformed then (w, Failed(BadParameters))
    else match FindObjects(cfg, w.rows, req.instanceID, o.find)
      case Err(e) => (w, Failed(e))
      case Ok((i, service, oldPlan)) =>
        match FindServicePlan(cfg.services, i.row.serviceID, req.planID)
        case None => (w, Failed(PlanNotFound))
        case Some(newPlan) =>
          if !CanUpdate(oldPlan, newPlan, service) then (w, Failed(PlanChangeNotSupported))
          else
            var w1 := w.(log := w.log + [PlanApplied(i.id, i.row, newPlan)]);
            var (servers, failure) := UpdateExtensions(cfg, w.servers, req, o, i, newPlan);
            var w2 := w1.(servers := servers);
            if failure.Some? then (w2, Failed(failure.value))
            else (w2, UpdateRds(cfg, w2.servers, o, i, newPlan))
  }

  /** The extensions part of `Update`: the servers after it, and its failure if it has one. */
  function UpdateExtensions(cfg: Config, servers: map<ServerId, Server>, req: UpdateRequest, o: UpdateCalls, i: Instance, plan: Plan)
    : (map<ServerId, Server>, Option<Failure>)
  {
    if !cfg.allowUpdateParameters || req.extensions.None? then (servers, None)
    else match if plan.shared then ConnectShared(plan, o.open) else OpenEngine(cfg, servers, i, plan, o.describe, o.open)
      case Err(e) => (servers, Some(e))
      case Ok(kind) =>
        if kind == MySQL then (servers, None)  // MySQL has no extensions
        else
          var id := HomeOf(cfg, i.row, plan);
          if id !in servers then (servers, Some(CallFailed))
          else
            var s := servers[id];
            var r := Extensions.SetExtensionsOutcome(ExtensionsOf(s, i.row.dbName), req.extensions.value, o.listing, o.ddl);
            (servers[id := s.(extensions := s.extensions[i.row.dbName := r.installed])], if r.success then None else Some(CallFailed))
  }

  /** `sharedSqlEngine`: a second connection to the shared server. */
  function ConnectShared(plan: Plan, open: bool): Result<EngineKind, Failure> {
    match ProvidedEngine(plan.engine)
    case None => Err(EngineNotSupported)
    case Some(kind) => if SharedEngine(plan.engine).None? then Err(Crashed) else if open then Ok(kind) else Err(CallFailed)
  }

  function ExtensionsOf(s: Server, dbName: string): set<string> {
    if dbName in s.extensions then s.extensions[dbName] else {}
  }

  /** The RDS part of `Update`. */
  function UpdateRds(cfg: Config, servers: map<ServerId, Server>, o: UpdateCalls, i: Instance, plan: Plan): Reply {
    if plan.shared then Updated(false)
    else if IsAurora(plan) && (!o.modifyCluster || ClusterServer(cfg, i.row) !in servers) then Failed(CallFailed)
    else if !o.modifyInstance then Failed(CallFailed)
    else if InstanceServer(cfg, i.row) !in servers then Failed(InstanceDoesNotExist)
    else Updated(true)
  }

  // ---- Deprovision ---------------------------------------------------------

  /** Drops user after user; a failure is logged and passed over. */
  function DropUsers(kind: EngineKind, s: Server, users: seq<User>, dropUser: string -> bool): Server {
    if users == [] then s
    else
      var (before, name) := (DropUsers(kind, s, users[..|users| - 1], dropUser), users[|users| - 1].row.username);
      match DropUser(kind, before, name, dropUser(name)) case Some(after) => after case None => before
  }

  function Deprovision(cfg: Config, w: World, req: DeprovisionRequest, o: DeprovisionCalls): (World, Reply) {
    if !req.asyncAllowed then (w, Failed(AsyncRequired))
    else match FindObjects(cfg, w.rows, req.instanceID, o.find)
      case Err(e) => (w, Failed(e))
      case Ok((i, _, plan)) =>
        if plan.shared then
          match SharedEngine(plan.engine)
          case None => (w, Failed(Crashed))
          case Some(kind) =>
            var id := Shared(plan.engine);
            if id !in w.servers then (w, Failed(CallFailed))
            else match DropDB(kind, w.servers[id], i.row.dbName, o.dropDB)
              case None => (w, Failed(CallFailed))
              case Some(s) =>
                (World(DeleteInstanceRows(w.rows, i, o.deletes), w.servers[id := DropUsers(kind, s, i.users, o.dropUser)],
                       w.log + [DeletionBegun(i.id)]),
                 Deprovisioned(false))
        else if !o.deleteInstance then (w, Failed(CallFailed))
        else if InstanceServer(cfg, i.row) !in w.servers then (w, Failed(InstanceDoesNotExist))
        else
          var servers := StartDeleting(w.servers, InstanceServer(cfg, i.row));
          if !IsAurora(plan) then (w.(servers := servers), Deprovisioned(true))
          else
            var cluster := ClusterServer(cfg, i.row);
            (w.(servers := if o.deleteCluster then StartDeleting(servers, cluster) else servers,
                log := w.log + [ClusterDeleteIssued(cluster.identifier)]),
             Deprovisioned(true))
  }

  // ---- Bind and Unbind -----------------------------------------------------

  function Bind(cfg: Config, w: World, req: BindRequest, o: BindCalls): (World, Reply) {
    match FindObjects(cfg, w.rows, req.instanceID, o.find)
    case Err(e) => (w, Failed(e))
    case Ok((i, service, plan)) =>
      if !service.bindable then (w, Failed(NotBindable))
      else match OpenEngine(cfg, w.servers, i, plan, o.describe, o.open)
        case Err(e) => (w, Failed(e))
        case Ok(kind) =>
          match CreateUsername(kind, i.row.instanceID, o.name)
          case None => (w, Failed(CallFailed))
          case Some(username) => FinishBind(cfg, w, i, plan, kind, username, req.bindingID, o)
  }

  /** What `Bind` does once it has an engine and a username. */
  function FinishBind(cfg: Config, w: World, i: Instance, plan: Plan, kind: EngineKind, username: string, bindingID: string, o: BindCalls)
    : (World, Reply)
  {
    var (rows, r) := BindRows(w.rows, i, bindingID, username, Standard, cfg.key, o.entropy, o.save);
    if r.NotBound? then (w, Failed(CallFailed))
    else
      var w1 := w.(rows := rows);
      match Password(r.user.row, cfg.key)
      case None => (w1, Failed(CallFailed))
      case Some(password) =>
        var id := HomeOf(cfg, i.row, plan);
        var reply := BoundTo(Credentials(id, i.row.dbName, r.user.row.username, password));
        if !r.isNew then (w1, reply)
        else if id !in w.servers then (w1, Failed(CallFailed))
        else
          var (s, done) := EnableUser(kind, w.servers[id], i.row.dbName, r.user.row.username, password, o.createUser, o.grant);
          (w1.(servers := w.servers[id := s]), if done then reply else Failed(CallFailed))
  }

  /** `CreateUser`, then `GrantPrivileges`. */
  function EnableUser(kind: EngineKind, s: Server, dbName: string, username: string, password: string, createUser: bool, grant: bool)
    : (Server, bool)
  {
    match CreateUser(kind, s, username, password, createUser)
    case None => (s, false)
    case Some(created) =>
      match GrantPrivileges(kind, created, dbName, username, grant)
      case None => (created, false)
      case Some(granted) => (granted, true)
  }

  function Unbind(cfg: Config, w: World, req: BindRequest, o: UnbindCalls): (World, Reply) {
    match FindObjects(cfg, w.rows, req.instanceID, o.find)
    case Err(e) => (w, Failed(e))
    case Ok((i, _, plan)) =>
      var (rows, r) := UnbindRows(w.rows, i, req.bindingID, o.deleteBinding);
      match r
      case UnknownBinding => (w, Failed(UnknownBindingID))
      case NotUnbound => (w, Failed(CallFailed))
      case Unbound(user, last) =>
        var w1 := w.(rows := rows);
        if !last then (w1, UnboundOk) else FinishUnbind(cfg, w1, i, plan, user, o)
  }

  /** What `Unbind` does when the last binding of a user is gone. */
  function FinishUnbind(cfg: Config, w: World, i: Instance, plan: Plan, user: User, o: UnbindCalls): (World, Reply) {
    match OpenEngine(cfg, w.servers, i, plan, o.describe, o.open)
    case Err(e) => (w, Failed(e))
    case Ok(kind) =>
      var id := HomeOf(cfg, i.row, plan);
      if id !in w.servers then (w, Failed(CallFailed))
      else
        var (s, done) := DisableUser(kind, w.servers[id], i.row.dbName, user.row.username, o.revoke, o.dropUser);
        var w1 := w.(servers := w.servers[id := s]);
        if !done then (w1, Failed(CallFailed))
        else (w1.(rows := DeleteUserRows(w.rows, user, o.deletes)), UnboundOk)
  }

  /** `RevokePrivileges`, then `DropUser`. */
  function DisableUser(kind: EngineKind, s: Server, dbName: string, username: string, revoke: bool, dropUser: bool): (Server, bool) {
    match RevokePrivileges(kind, s, dbName, username, revoke)
    case None => (s, false)
    case Some(revoked) =>
      match DropUser(kind, revoked, username, dropUser)
      case None => (revoked, false)
      case Some(dropped) => (dropped, true)
  }

  // ---- LastOperation -------------------------------------------------------

  /** `rdsStatus2State`, with `Failed` for a status that is not in the map. */
  function StateOfStatus(status: string): OperationState {
    if status == "available" then Succeeded
    else if status in ["backing-up", "creating", "deleting", "maintenance", "modifying", "rebooting", "renaming",
                       "resetting-master-credentials", "upgrading"] then InProgress
    else OperationFailed
  }

  function LastOperation(cfg: Config, w: World, instanceID: string, o: LastOperationCalls): (World, Reply) {
    match FindObjects(cfg, w.rows, instanceID, o.find)
    case Err(e) => (w, Failed(e))
    case Ok((i, _, plan)) =>
      if plan.shared then (w, Operation(OperationFailed))
      else if !o.describe then (w, Failed(CallFailed))
      else if InstanceServer(cfg, i.row) !in w.servers then
        (w.(rows := DeleteInstanceRows(w.rows, i, o.deletes), log := w.log + [DeletionBegun(i.id)]), Failed(InstanceDoesNotExist))
      else
        var state := StateOfStatus(o.status);
        (w, Operation(if state.Succeeded? && o.pendingModifications then InProgress else state))
  }

  // ---- Runs ----------------------------------------------------------------

  /** A request to the broker with the way its calls go, or the disappearance of a server whose deletion
      RDS has accepted. */
  datatype Step =
    | DoProvision(provision: ProvisionRequest, provisionCalls: ProvisionCalls)
    | DoUpdate(update: UpdateRequest, updateCalls: UpdateCalls)
    | DoDeprovision(deprovision: DeprovisionRequest, deprovisionCalls: DeprovisionCalls)
    | DoBind(bind: BindRequest, bindCalls: BindCalls)
    | DoUnbind(unbind: BindRequest, unbindCalls: UnbindCalls)
    | DoLastOperation(lastOperation: string, lastOperationCalls: LastOperationCalls)
    | Gone(server: ServerId)

  function Next(cfg: Config, w: World, step: Step): World {
    match step
    case DoProvision(req, o) => Provision(cfg, w, req, o).0
    case DoUpdate(req, o) => Update(cfg, w, req, o).0
    case DoDeprovision(req, o) => Deprovision(cfg, w, req, o).0
    case DoBind(req, o) => Bind(cfg, w, req, o).0
    case DoUnbind(req, o) => Unbind(cfg, w, req, o).0
    case DoLastOperation(id, o) => LastOperation(cfg, w, id, o).0
    case Gone(id) => Disappear(w, id)
  }

  function Disappear(w: World, id: ServerId): World {
    if !id.Shared? && id in w.servers && w.servers[id].deleting then w.(servers := w.servers - {id}) else w
  }

  function Run(cfg: Config, w: World, steps: seq<Step>): World {
    if steps == [] then w else Next(cfg, Run(cfg, w, steps[..|steps| - 1]), steps[|steps| - 1])
  }

  /** A broker that has just been set up: no rows, empty shared servers, nothing on AWS. */
  const START := World(NO_ROWS, map[Shared("postgres") := NewServer({}), Shared("mysql") := NewServer({})], [])
}
