/** Reference counting over whole runs, and which calls it rests on. */
module RefCountRuns {
  import opened Catalog
  import opened Broker
  import opened RunReferences
  import opened RefCount
  import opened RefCountProvision
  import opened RefCountDelete
  import opened Failures
  import opened DeletionFailures

  /** The ID that a step provisions is one of `ids`, and the random names it stores are fresh. */
  predicate Fresh(ids: set<string>, w: World, step: Step) {
    match step
    case DoProvision(req, o) => req.instanceID in ids && (!HasRecord(w.rows, req.instanceID) ==> FreshMaster(ids, w.rows, o))
    case DoBind(req, o) => FreshBindName(w.rows, o)
    case _ => true
  }

  /** What must not happen in a step, told from the state, the request and the calls. Anything else may fail. */
  ghost predicate GoesWell(cfg: Config, w: World, step: Step) {
    match step
    case DoProvision(req, o) => !SpoilsHome(cfg, w, req, o)
    case DoUpdate(req, o) => true
    case DoDeprovision(req, o) => CarefulDeprovision(cfg, w, req, o)
    case DoBind(req, o) => !AddsUser(cfg, w, req, o) || (o.createUser && o.grant)
    case DoUnbind(req, o) => !TakesLastBinding(cfg, w, req, o) || GoesThrough(cfg, w, req, o)
    case DoLastOperation(id, o) => !HalfForgotten(cfg, w, id, o)
    case Gone(id) => true
  }

  ghost predicate Careful(cfg: Config, ids: set<string>, w: World, step: Step) {
    Fresh(ids, w, step) && GoesWell(cfg, w, step)
  }

  ghost predicate CarefulRun(cfg: Config, ids: set<string>, w: World, steps: seq<Step>) {
    if steps == [] then true
    else
      var init := steps[..|steps| - 1];
      CarefulRun(cfg, ids, w, init) && Careful(cfg, ids, Run(cfg, w, init), steps[|steps| - 1])
  }

  /** One step, of any handler and with any pattern of failures: exactly when it keeps the invariant. */
  lemma NextCountedIff(cfg: Config, ids: set<string>, w: World, step: Step)
    requires ValidServices(cfg.services) && RolesApart(ids) && Counted(cfg, ids, w) && Fresh(ids, w, step)
    ensures Counted(cfg, ids, Next(cfg, w, step)) <==> GoesWell(cfg, w, step)
  {
    match step
    case DoProvision(req, o) => ProvisionCountedIff(cfg, ids, w, req, o);
    case DoUpdate(req, o) => UpdateCounted(cfg, ids, w, req, o);
    case DoDeprovision(req, o) => DeprovisionCountedIff(cfg, ids, w, req, o);
    case DoBind(req, o) => BindInStepIff(cfg, ids, w, req, o);
    case DoUnbind(req, o) => UnbindInStepIff(cfg, ids, w, req, o);
    case DoLastOperation(id, o) => LastOperationCountedIff(cfg, ids, w, id, o);
    case Gone(id) => DisappearCounted(cfg, ids, w, id);
  }

  lemma StartCounted(cfg: Config, ids: set<string>)
    ensures Counted(cfg, ids, START)
  {
  }

  lemma {:induction false} RunCounted(cfg: Config, ids: set<string>, w: World, steps: seq<Step>)
    requires ValidServices(cfg.services) && RolesApart(ids) && Counted(cfg, ids, w) && CarefulRun(cfg, ids, w, steps)
    ensures Counted(cfg, ids, Run(cfg, w, steps))
  {
    if steps != [] {
      RunCounted(cfg, ids, w, steps[..|steps| - 1]);
      NextCountedIff(cfg, ids, Run(cfg, w, steps[..|steps| - 1]), steps[|steps| - 1]);
    }
  }

  /** Reference counting. After any careful run, of every instance whose database server exists: a user is
      a standard one exactly while it has a binding, the roles that can log in and hold its database are
      exactly its standard users, and each role has the password that the stored row opens to. */
  lemma UsersStayInStep(cfg: Config, ids: set<string>, steps: seq<Step>)
    requires ValidServices(cfg.services) && RolesApart(ids) && CarefulRun(cfg, ids, START, steps)
    ensures AllInStep(cfg, Run(cfg, START, steps))
  {
    StartCounted(cfg, ids);
    RunCounted(cfg, ids, START, steps);
    CountedIsInStep(cfg, ids, Run(cfg, START, steps));
  }
}
