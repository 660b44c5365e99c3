/** When exactly `Update` succeeds, which error it gives otherwise, and what it does to extensions, told from the
    rows, the servers, the request and the calls. */
module UpdateAnswers {
  import opened Wrappers
  import opened Models
  import opened Catalog
  import opened SqlServers
  import opened Broker
  import opened Answers
  import Extensions

  // ---- The parts of an Update ----------------------------------------------

  /** The change is let through: the service allows changes of plan, and two plans that are not the same have
      the same engine and the same sharing. */
  predicate MayChange(oldPlan: Plan, newPlan: Plan, service: Service) {
    service.planUpdateable && (oldPlan.id == newPlan.id || (oldPlan.shared == newPlan.shared && oldPlan.engine == newPlan.engine))
  }

  /** The instance and the new plan are found, and the change is let through. */
  predicate Applies(cfg: Config, w: World, req: UpdateRequest, o: UpdateCalls) {
    var found := FindObjects(cfg, w.rows, req.instanceID, o.find);
    && req.asyncAllowed && !(cfg.allowUpdateParameters && req.malformed) && found.Ok?
    && var (i, service, oldPlan) := found.value;
       var newPlan := FindServicePlan(cfg.services, i.row.serviceID, req.planID);
       newPlan.Some? && MayChange(oldPlan, newPlan.value, service)
  }

  /** The instance that the request is about, and its new plan. */
  function Target(cfg: Config, w: World, req: UpdateRequest, o: UpdateCalls): (Instance, Plan)
    requires Applies(cfg, w, req, o)
  {
    var i := FindObjects(cfg, w.rows, req.instanceID, o.find).value.0;
    (i, FindServicePlan(cfg.services, i.row.serviceID, req.planID).value)
  }

  /** A list of extensions comes with the request, and parameters count. */
  predicate Asks(cfg: Config, req: UpdateRequest) {
    cfg.allowUpdateParameters && req.extensions.Some?
  }

  /** The engine can be used: a shared server needs one connection more, and any other is opened as in `Bind`. */
  predicate Connects(cfg: Config, servers: map<ServerId, Server>, i: Instance, plan: Plan, o: UpdateCalls) {
    if plan.shared then (plan.engine == "postgres" || plan.engine == "mysql") && o.open
    else OpenEngine(cfg, servers, i, plan, o.describe, o.open).Ok?
  }

  /** The extensions are set on the database of the instance: on Postgres `SetExtensions` succeeds, and MySQL
      has none. */
  predicate SetsExtensions(cfg: Config, servers: map<ServerId, Server>, req: UpdateRequest, o: UpdateCalls, i: Instance, plan: Plan)
    requires Asks(cfg, req)
  {
    && Connects(cfg, servers, i, plan, o)
    && (EngineOf(plan) == Some(Postgres)
        ==> HomeOf(cfg, i.row, plan) in servers
            && Extensions.SetExtensionsOutcome(ExtensionsOf(servers[HomeOf(cfg, i.row, plan)], i.row.dbName), req.extensions.value,
                                               o.listing, o.ddl).success)
  }

  /** RDS accepts the modification of the instance, and of its cluster, where there are any. */
  predicate Modifies(cfg: Config, servers: map<ServerId, Server>, o: UpdateCalls, i: Instance, plan: Plan) {
    || plan.shared
    || ((IsAurora(plan) ==> o.modifyCluster && ClusterServer(cfg, i.row) in servers)
        && o.modifyInstance && InstanceServer(cfg, i.row) in servers)
  }

  predicate Updates(cfg: Config, w: World, req: UpdateRequest, o: UpdateCalls) {
    && Applies(cfg, w, req, o)
    && var (i, plan) := Target(cfg, w, req, o);
       (Asks(cfg, req) ==> SetsExtensions(cfg, w.servers, req, o, i, plan)) && Modifies(cfg, w.servers, o, i, plan)
  }

  /** The error before anything is done. */
  predicate Refuses(cfg: Config, w: World, req: UpdateRequest, o: UpdateCalls, f: Failure) {
    var found := FindObjects(cfg, w.rows, req.instanceID, o.find);
    if !req.asyncAllowed then f == AsyncRequired
    else if cfg.allowUpdateParameters && req.malformed then f == BadParameters
    else if found.Err? then LookUpFails(cfg, w.rows, req.instanceID, o.find, f)
    else
      f == if FindServicePlan(cfg.services, found.value.0.row.serviceID, req.planID).None? then PlanNotFound else PlanChangeNotSupported
  }

  /** The error of the extensions part. */
  predicate ExtensionsFail(cfg: Config, servers: map<ServerId, Server>, o: UpdateCalls, i: Instance, plan: Plan, f: Failure) {
    if Connects(cfg, servers, i, plan, o) then f == CallFailed
    else if !plan.shared then ConnectFails(cfg, servers, i, plan, o.describe, o.open, f)
    else
      f == if ProvidedEngine(plan.engine).None? then EngineNotSupported
           else if plan.engine != "postgres" && plan.engine != "mysql" then Crashed else CallFailed
  }

  predicate UpdateFails(cfg: Config, w: World, req: UpdateRequest, o: UpdateCalls, f: Failure) {
    if !Applies(cfg, w, req, o) then Refuses(cfg, w, req, o, f)
    else
      var (i, plan) := Target(cfg, w, req, o);
      if Asks(cfg, req) && !SetsExtensions(cfg, w.servers, req, o, i, plan) then ExtensionsFail(cfg, w.servers, o, i, plan, f)
      else
        && !Modifies(cfg, w.servers, o, i, plan)
        && f == if (IsAurora(plan) ==> o.modifyCluster && ClusterServer(cfg, i.row) in w.servers) && o.modifyInstance
                then InstanceDoesNotExist else CallFailed
  }

  // ---- The answer ----------------------------------------------------------

  lemma EnginesProvided()
    ensures ProvidedEngine("postgres") == Some(Postgres) && ProvidedEngine("mysql") == Some(MySQL)
  {
    ToLowerNames();
  }

  lemma ConnectsIff(cfg: Config, servers: map<ServerId, Server>, o: UpdateCalls, i: Instance, plan: Plan)
    ensures var r := if plan.shared then ConnectShared(plan, o.open) else OpenEngine(cfg, servers, i, plan, o.describe, o.open);
            && (r.Ok? <==> Connects(cfg, servers, i, plan, o))
            && (r.Ok? ==> EngineOf(plan) == Some(r.value))
  {
    EnginesProvided();
  }

  lemma ExtensionsPart(cfg: Config, servers: map<ServerId, Server>, req: UpdateRequest, o: UpdateCalls, i: Instance, plan: Plan)
    ensures UpdateExtensions(cfg, servers, req, o, i, plan).1.None? <==> (Asks(cfg, req) ==> SetsExtensions(cfg, servers, req, o, i, plan))
    ensures UpdateExtensions(cfg, servers, req, o, i, plan).0.Keys == servers.Keys
  {
    ConnectsIff(cfg, servers, o, i, plan);
  }

  lemma ExtensionsFailIff(cfg: Config, servers: map<ServerId, Server>, req: UpdateRequest, o: UpdateCalls, i: Instance, plan: Plan, f: Failure)
    requires Asks(cfg, req) && !SetsExtensions(cfg, servers, req, o, i, plan)
    ensures UpdateExtensions(cfg, servers, req, o, i, plan).1 == Some(f) <==> ExtensionsFail(cfg, servers, o, i, plan, f)
  {
    ConnectsIff(cfg, servers, o, i, plan);
    ConnectFailsIff(cfg, servers, i, plan, o.describe, o.open, f);
    EnginesProvided();
  }

  lemma RefusesIff(cfg: Config, w: World, req: UpdateRequest, o: UpdateCalls, f: Failure)
    requires !Applies(cfg, w, req, o)
    ensures Update(cfg, w, req, o).0 == w && Update(cfg, w, req, o).1.Failed?
    ensures Update(cfg, w, req, o).1 == Failed(f) <==> Refuses(cfg, w, req, o, f)
  {
    LookUpFailsIff(cfg, w.rows, req.instanceID, o.find, f);
  }

  lemma ApplyingUpdate(cfg: Config, w: World, req: UpdateRequest, o: UpdateCalls)
    requires Applies(cfg, w, req, o)
    ensures var (i, plan) := Target(cfg, w, req, o);
            var (servers, failure) := UpdateExtensions(cfg, w.servers, req, o, i, plan);
            Update(cfg, w, req, o) == (World(w.rows, servers, w.log + [PlanApplied(i.id, i.row, plan)]),
                                       if failure.Some? then Failed(failure.value) else UpdateRds(cfg, servers, o, i, plan))
  {
  }

  /** When exactly `Update` succeeds, and that its answer is asynchronous exactly for a plan that is not shared. */
  lemma UpdateAnswersIff(cfg: Config, w: World, req: UpdateRequest, o: UpdateCalls)
    ensures var reply := Update(cfg, w, req, o).1;
            && (reply.Updated? <==> Updates(cfg, w, req, o))
            && (reply.Updated? ==> reply.isAsync == !Target(cfg, w, req, o).1.shared)
            && (!reply.Updated? ==> reply.Failed?)
  {
    if Applies(cfg, w, req, o) {
      var (i, plan) := Target(cfg, w, req, o);
      ApplyingUpdate(cfg, w, req, o);
      ExtensionsPart(cfg, w.servers, req, o, i, plan);
    } else {
      RefusesIff(cfg, w, req, o, AsyncRequired);
    }
  }

  /** And with which error it fails otherwise. */
  lemma UpdateFailsIff(cfg: Config, w: World, req: UpdateRequest, o: UpdateCalls, f: Failure)
    ensures Update(cfg, w, req, o).1 == Failed(f) <==> UpdateFails(cfg, w, req, o, f)
  {
    if !Applies(cfg, w, req, o) {
      RefusesIff(cfg, w, req, o, f);
    } else {
      var (i, plan) := Target(cfg, w, req, o);
      ApplyingUpdate(cfg, w, req, o);
      ExtensionsPart(cfg, w.servers, req, o, i, plan);
      if Asks(cfg, req) && !SetsExtensions(cfg, w.servers, req, o, i, plan) {
        ExtensionsFailIff(cfg, w.servers, req, o, i, plan, f);
      } else {
        ModifiesIff(cfg, w.servers, UpdateExtensions(cfg, w.servers, req, o, i, plan).0, o, i, plan, f);
      }
    }
  }

  lemma ModifiesIff(cfg: Config, before: map<ServerId, Server>, servers: map<ServerId, Server>, o: UpdateCalls, i: Instance, plan: Plan, f: Failure)
    requires servers.Keys == before.Keys
    ensures UpdateRds(cfg, servers, o, i, plan) == Failed(f)
            <==> !Modifies(cfg, before, o, i, plan)
                 && f == if (IsAurora(plan) ==> o.modifyCluster && ClusterServer(cfg, i.row) in before) && o.modifyInstance
                         then InstanceDoesNotExist else CallFailed
  {
  }

  // ---- The extensions ------------------------------------------------------

  /** The extensions of the database that the request is about. */
  function Installed(cfg: Config, servers: map<ServerId, Server>, i: Instance, plan: Plan): set<string> {
    var home := HomeOf(cfg, i.row, plan);
    if home in servers then ExtensionsOf(servers[home], i.row.dbName) else {}
  }

  /** What an `Update` changes, whatever fails: the rows never; one entry of the history when the change is let
      through; and on the servers at most the extensions of that one database, and those only when a list comes
      with the request and the engine is Postgres. */
  lemma UpdateChanges(cfg: Config, w: World, req: UpdateRequest, o: UpdateCalls)
    ensures var w' := Update(cfg, w, req, o).0;
            && w'.rows == w.rows
            && (if Applies(cfg, w, req, o) then
                  var (i, plan) := Target(cfg, w, req, o);
                  var home := HomeOf(cfg, i.row, plan);
                  && w'.log == w.log + [PlanApplied(i.id, i.row, plan)] && w'.servers.Keys == w.servers.Keys
                  && (forall sid :: sid in w.servers && sid != home ==> w'.servers[sid] == w.servers[sid])
                  && (home in w.servers
                      ==> w'.servers[home] == w.servers[home].(extensions := w'.servers[home].extensions)
                          && w'.servers[home].extensions - {i.row.dbName} == w.servers[home].extensions - {i.row.dbName})
                  && (!(Asks(cfg, req) && EngineOf(plan) == Some(Postgres)) ==> w'.servers == w.servers)
                else w' == w)
  {
    if Applies(cfg, w, req, o) {
      var (i, plan) := Target(cfg, w, req, o);
      ApplyingUpdate(cfg, w, req, o);
      ConnectsIff(cfg, w.servers, o, i, plan);
    } else {
      RefusesIff(cfg, w, req, o, AsyncRequired);
    }
  }

  /** The extensions after an `Update` of a Postgres plan that asks for some are those that `SetExtensions`
      leaves. */
  lemma InstalledAfter(cfg: Config, w: World, req: UpdateRequest, o: UpdateCalls)
    requires Applies(cfg, w, req, o) && Asks(cfg, req)
    requires var (i, plan) := Target(cfg, w, req, o);
             EngineOf(plan) == Some(Postgres) && HomeOf(cfg, i.row, plan) in w.servers && Connects(cfg, w.servers, i, plan, o)
    ensures var (i, plan) := Target(cfg, w, req, o);
            Installed(cfg, Update(cfg, w, req, o).0.servers, i, plan)
            == Extensions.SetExtensionsOutcome(Installed(cfg, w.servers, i, plan), req.extensions.value, o.listing, o.ddl).installed
  {
    var (i, plan) := Target(cfg, w, req, o);
    ApplyingUpdate(cfg, w, req, o);
    ConnectsIff(cfg, w.servers, o, i, plan);
  }

  /** A successful `Update` of a Postgres plan that asks for extensions leaves exactly those on the database of the
      instance, `plpgsql` apart, if and only if the listing it worked from was complete. */
  lemma UpdateReachesTarget(cfg: Config, w: World, req: UpdateRequest, o: UpdateCalls)
    requires Update(cfg, w, req, o).1.Updated? && Applies(cfg, w, req, o) && Asks(cfg, req)
    requires var (i, plan) := Target(cfg, w, req, o);
             EngineOf(plan) == Some(Postgres)
             && (o.listing.Some? ==> Extensions.IsListing(o.listing.value, Installed(cfg, w.servers, i, plan)))
    ensures var (i, plan) := Target(cfg, w, req, o);
            var (before, after) := (Installed(cfg, w.servers, i, plan), Installed(cfg, Update(cfg, w, req, o).0.servers, i, plan));
            && o.listing.Some?
            && ((forall x :: x != Extensions.PLPGSQL ==> (x in after <==> x in req.extensions.value))
                <==> Extensions.IsComplete(o.listing.value, before))
  {
    var (i, plan) := Target(cfg, w, req, o);
    UpdateAnswersIff(cfg, w, req, o);
    InstalledAfter(cfg, w, req, o);
    Extensions.SucceedsIff(Installed(cfg, w.servers, i, plan), req.extensions.value, o.listing, o.ddl);
    Extensions.TargetReachedIff(Installed(cfg, w.servers, i, plan), req.extensions.value, o.listing, o.ddl);
  }

  /** Whatever fails, and wherever it stops: an extension that was there and is requested stays, and what is there
      afterwards was there before or is requested. */
  lemma UpdateStaysBetween(cfg: Config, w: World, req: UpdateRequest, o: UpdateCalls)
    requires Applies(cfg, w, req, o) && Asks(cfg, req)
    requires var (i, plan) := Target(cfg, w, req, o);
             o.listing.Some? ==> Extensions.IsListing(o.listing.value, Installed(cfg, w.servers, i, plan))
    ensures var (i, plan) := Target(cfg, w, req, o);
            var (before, after) := (Installed(cfg, w.servers, i, plan), Installed(cfg, Update(cfg, w, req, o).0.servers, i, plan));
            && (forall x :: x in before && (x in req.extensions.value || x == Extensions.PLPGSQL) ==> x in after)
            && (forall x :: x in after ==> x in before || x in req.extensions.value)
  {
    var (i, plan) := Target(cfg, w, req, o);
    if EngineOf(plan) == Some(Postgres) && HomeOf(cfg, i.row, plan) in w.servers && Connects(cfg, w.servers, i, plan, o) {
      InstalledAfter(cfg, w, req, o);
      Extensions.StoppedAnywhere(Installed(cfg, w.servers, i, plan), req.extensions.value, o.listing, o.ddl);
    } else {
      UpdateChanges(cfg, w, req, o);
      ApplyingUpdate(cfg, w, req, o);
      ConnectsIff(cfg, w.servers, o, i, plan);
    }
  }

  /** The extensions come first: when they cannot be set the answer is an error, and no call to RDS makes a
      difference to it or to anything else. */
  lemma ExtensionsComeFirst(cfg: Config, w: World, req: UpdateRequest, o: UpdateCalls, modifyCluster: bool, modifyInstance: bool)
    requires Applies(cfg, w, req, o) && Asks(cfg, req)
    requires var (i, plan) := Target(cfg, w, req, o); !SetsExtensions(cfg, w.servers, req, o, i, plan)
    ensures Update(cfg, w, req, o).1.Failed?
    ensures Update(cfg, w, req, o.(modifyCluster := modifyCluster, modifyInstance := modifyInstance)) == Update(cfg, w, req, o)
  {
    var (i, plan) := Target(cfg, w, req, o);
    var other := o.(modifyCluster := modifyCluster, modifyInstance := modifyInstance);
    ExtensionsPart(cfg, w.servers, req, o, i, plan);
    ExtensionsPart(cfg, w.servers, req, other, i, plan);
    ApplyingUpdate(cfg, w, req, o);
    ApplyingUpdate(cfg, w, req, other);
  }
}
