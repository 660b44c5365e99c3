/** What the answers of all handlers begin with: when exactly the look-up and the connection to the engine
    fail, and with which error. */
module Answers {
  import opened Wrappers
  import opened Strings
  import opened Utils
  import opened Models
  import opened Catalog
  import opened SqlServers
  import opened Broker

  /** The look-up of the instance, its service and its plan fails with that error. A query that fails is taken
      for a missing instance. */
  predicate LookUpFails(cfg: Config, rows: Rows, instanceID: string, find: bool, f: Failure) {
    var i := FindInstance(rows, instanceID);
    match f
    case InstanceDoesNotExist => !find || i.None?
    case ServiceNotFound => find && i.Some? && FindService(cfg.services, i.value.row.serviceID).None?
    case PlanNotFound =>
      find && i.Some? && FindService(cfg.services, i.value.row.serviceID).Some? && RecordedPlan(cfg, i.value.row).None?
    case _ => false
  }

  lemma LookUpFailsIff(cfg: Config, rows: Rows, instanceID: string, find: bool, f: Failure)
    ensures FindObjects(cfg, rows, instanceID, find) == Err(f) <==> LookUpFails(cfg, rows, instanceID, find, f)
  {
  }

  /** The engine of a handler cannot be used, with that error: a shared plan needs the entry for its engine; any
      other plan the server, the master user with its password, an engine that is provided, and a connection.
      Only the error of a missing RDS instance is translated, not that of a missing cluster. */
  predicate ConnectFails(cfg: Config, servers: map<ServerId, Server>, i: Instance, plan: Plan, describe: bool, open: bool, f: Failure) {
    if plan.shared then f == Crashed && plan.engine != "postgres" && plan.engine != "mysql"
    else
      var up := describe && HomeOf(cfg, i.row, plan) in servers;
      var master := MasterUser(i.users);
      var opens := master.Some? && Password(master.value.row, cfg.key).Some?;
      match f
      case InstanceDoesNotExist => describe && !IsAurora(plan) && InstanceServer(cfg, i.row) !in servers
      case NoMasterUser => up && master.None?
      case EngineNotSupported => up && opens && ProvidedEngine(plan.engine).None?
      case CallFailed =>
        || !describe || (IsAurora(plan) && ClusterServer(cfg, i.row) !in servers)
        || (up && master.Some? && !opens) || (up && opens && ProvidedEngine(plan.engine).Some? && !open)
      case _ => false
  }

  lemma ConnectFailsIff(cfg: Config, servers: map<ServerId, Server>, i: Instance, plan: Plan, describe: bool, open: bool, f: Failure)
    ensures OpenEngine(cfg, servers, i, plan, describe, open) == Err(f) <==> ConnectFails(cfg, servers, i, plan, describe, open, f)
  {
  }

  /** The case of an engine's name does not matter, and Aurora is used with the MySQL engine. */
  lemma EnginesInAnyCase(p: Plan, q: Plan)
    requires ToLower(p.engine) == ToLower(q.engine)
    ensures (IsAurora(p) <==> IsAurora(q)) && ProvidedEngine(p.engine) == ProvidedEngine(q.engine)
    ensures IsAurora(p) ==> ProvidedEngine(p.engine) == Some(MySQL)
    ensures p.engine == "aurora" ==> IsAurora(p)
  {
    assert ToLower("aurora") == "aurora";
  }

  /** A user can be made: there are random bytes, and the key is an AES key. */
  predicate CanMakeUser(cfg: Config, entropy: Option<Entropy>) {
    ValidKey(cfg.key) && entropy.Some?
  }
}
