/** rdsbroker/catalog.go and rdsbroker/broker_helpers.go: plans, how they are found and validated, and
    which plan changes are allowed. */
module Catalog {
  import opened Wrappers
  import opened Strings

  /** A plan with the properties the handlers branch on. */
  datatype Plan = Plan(id: string, name: string, description: string, engine: string, dbInstanceClass: string, shared: bool)

  datatype Service = Service(id: string, name: string, description: string, bindable: bool, planUpdateable: bool, plans: seq<Plan>)

  type Services = seq<Service>

  function FindService(services: Services, serviceID: string): (r: Option<Service>)
    ensures r.Some? ==> r.value in services && r.value.id == serviceID
    ensures r.None? <==> forall s :: s in services ==> s.id != serviceID
  {
    if services == [] then None
    else if services[0].id == serviceID then Some(services[0])
    else FindService(services[1..], serviceID)
  }

  function PlanNamed(plans: seq<Plan>, planID: string): (r: Option<Plan>)
    ensures r.Some? ==> r.value in plans && r.value.id == planID
    ensures r.None? <==> forall p :: p in plans ==> p.id != planID
  {
    if plans == [] then None
    else if plans[0].id == planID then Some(plans[0])
    else PlanNamed(plans[1..], planID)
  }

  function FindServicePlan(services: Services, serviceID: string, planID: string): Option<Plan> {
    match FindService(services, serviceID)
    case None => None
    case Some(service) => PlanNamed(service.plans, planID)
  }

  /** `Validate` of the catalog, of a service, of a plan and of its RDS properties. */
  predicate ValidServices(services: Services) {
    forall s :: s in services ==> ValidService(s)
  }

  predicate ValidService(s: Service) {
    s.id != "" && s.name != "" && s.description != "" && forall p :: p in s.plans ==> ValidPlan(p)
  }

  predicate ValidPlan(p: Plan) {
    p.id != "" && p.name != "" && p.description != "" && ValidProperties(p)
  }

  predicate ValidProperties(p: Plan) {
    && (p.shared || p.dbInstanceClass != "")
    && p.engine != ""
    && (ToLower(p.engine) == "aurora" || ToLower(p.engine) == "mariadb" || ToLower(p.engine) == "mysql" || ToLower(p.engine) == "postgres")
    && (p.shared ==> ToLower(p.engine) == "mysql" || ToLower(p.engine) == "postgres")
  }

  /** `CanUpdate`; the update parameters are not looked at. */
  predicate CanUpdate(oldPlan: Plan, newPlan: Plan, service: Service) {
    service.planUpdateable
    && (oldPlan.id != newPlan.id ==> oldPlan.shared == newPlan.shared && oldPlan.engine == newPlan.engine)
  }

  /** An update that is let through changes neither the engine nor the sharing, also when both plans
      carry the same ID: then the lookup under one service finds the same plan twice. */
  lemma AllowedUpdateKeepsEngine(services: Services, serviceID: string, oldPlanID: string, newPlanID: string, service: Service)
    requires FindServicePlan(services, serviceID, oldPlanID).Some? && FindServicePlan(services, serviceID, newPlanID).Some?
    requires CanUpdate(FindServicePlan(services, serviceID, oldPlanID).value, FindServicePlan(services, serviceID, newPlanID).value, service)
    ensures var (o, n) := (FindServicePlan(services, serviceID, oldPlanID).value, FindServicePlan(services, serviceID, newPlanID).value);
            o.engine == n.engine && o.shared == n.shared
  {
    var (o, n) := (FindServicePlan(services, serviceID, oldPlanID).value, FindServicePlan(services, serviceID, newPlanID).value);
    if o.id == n.id {
      assert oldPlanID == newPlanID;
    }
  }

  /** The two engines behind `sqlengine.SQLEngine`. */
  datatype EngineKind = Postgres | MySQL

  /** `sharedEngines[engine]`, a map with two keys. */
  function SharedEngine(engine: string): Option<EngineKind> {
    if engine == "postgres" then Some(Postgres) else if engine == "mysql" then Some(MySQL) else None
  }

  /** `GetSQLEngine`. */
  function ProvidedEngine(engine: string): Option<EngineKind> {
    var e := ToLower(engine);
    if e == "aurora" || e == "mariadb" || e == "mysql" then Some(MySQL)
    else if e == "postgres" || e == "postgresql" then Some(Postgres)
    else None
  }

  lemma ToLowerNames()
    ensures ToLower("postgres") == "postgres" && ToLower("mysql") == "mysql"
  {
  }

  /** Validation lower-cases the engine and the lookup of the shared engine does not: a shared plan that
      passes validation finds its engine if and only if its engine name is written in lower case. */
  lemma SharedEngineFoundIff(p: Plan)
    requires ValidPlan(p) && p.shared
    ensures SharedEngine(p.engine).Some? <==> ToLower(p.engine) == p.engine
  {
    ToLowerNames();
  }

  /** A valid plan with a capital letter whose engine is not found. */
  lemma CapitalEngineIsLost()
    ensures var p := Plan("id", "name", "text", "Postgres", "", true);
            ValidPlan(p) && SharedEngine(p.engine).None?
  {
    assert ToLower("Postgres") == "postgres";
  }

  /** Validation and `GetSQLEngine` agree on engines but for one name: a plan is valid exactly when its texts are
      there, an instance of its own has a class, and its engine is provided, is not written `postgresql`, and is
      one of the two shared ones where the plan is shared. */
  lemma ValidPlanIff(p: Plan)
    ensures ValidPlan(p)
            <==> && "" !in [p.id, p.name, p.description] && (p.dbInstanceClass == "" ==> p.shared)
                 && ProvidedEngine(p.engine).Some? && ToLower(p.engine) != "postgresql"
                 && (p.shared ==> SharedEngine(ToLower(p.engine)).Some?)
  {
    assert p.engine == "" ==> ToLower(p.engine) == "";
    assert [p.id, p.name, p.description][0] == p.id && [p.id, p.name, p.description][1] == p.name;
    assert [p.id, p.name, p.description][2] == p.description;
  }

  /** The engine of every valid plan is provided, whatever its case: Postgres for that name, and otherwise
      MySQL. */
  lemma ValidPlanIsProvided(p: Plan)
    requires ValidPlan(p)
    ensures ProvidedEngine(p.engine) == Some(if ToLower(p.engine) == "postgres" then Postgres else MySQL)
    ensures SharedEngine(p.engine).Some? ==> SharedEngine(p.engine) == ProvidedEngine(p.engine)
  {
    ToLowerNames();
  }
}
