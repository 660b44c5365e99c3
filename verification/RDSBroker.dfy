/** rdsbroker/broker.go: the broker with its handlers, each proved to do what its function in
    Broker.dfy says. */
module RDSBroker {
  import opened Wrappers
  import opened Models
  import opened Names
  import opened Catalog
  import opened SqlServers
  import opened Broker
  import Extensions

  class RDSBroker {
    const cfg: Config
    const internalDB: Database
    var servers: map<ServerId, Server>
    var log: seq<Effect>

    constructor (cfg: Config, internalDB: Database, servers: map<ServerId, Server>)
      ensures this.cfg == cfg && this.internalDB == internalDB
      ensures State() == World(internalDB.rows, servers, [])
    {
      this.cfg, this.internalDB, this.servers, this.log := cfg, internalDB, servers, [];
    }

    function State(): World
      reads this, internalDB
    {
      World(internalDB.rows, servers, log)
    }

    method Provision(req: ProvisionRequest, o: ProvisionCalls) returns (reply: Reply)
      modifies this, internalDB
      ensures (State(), reply) == Broker.Provision(cfg, old(State()), req, o)
    {
      if !req.asyncAllowed {
        return Failed(AsyncRequired);
      }
      if cfg.allowProvisionParameters && req.malformed {
        return Failed(BadParameters);
      }
      var servicePlan := FindServicePlan(cfg.services, req.serviceID, req.planID);
      if servicePlan.None? {
        return Failed(PlanNotFound);
      }
      var plan := servicePlan.value;
      if o.find && FindInstance(internalDB.rows, req.instanceID).Some? {
        return Failed(InstanceAlreadyExists);
      }
      var made := NewInstance(req.serviceID, req.planID, req.instanceID, cfg.dbPrefix, cfg.key, o.entropy);
      if made.None? {
        return Failed(CallFailed);
      }
      var (row, master) := made.value;
      ProvisionUnfold(cfg, State(), req, o, Begin);
      var failure, cluster := Build(req, o, plan, row, master);
      if failure.Some? {
        return Failed(failure.value);
      }
      ProvisionUnfold(cfg, State(), req, o, Built(plan, row, master, cluster));
      var saved := internalDB.SaveInstance(row, master, o.save);
      if !saved {
        if cluster {
          ProvisionUnfold(cfg, State(), req, o, Undo(row, NotRecorded));
          DeleteCluster(row, o.deleteCluster);
        }
        return Failed(NotRecorded);
      }
      reply := Provisioned(!plan.shared);
    }

    /** The part of `Provision` that creates the database, the cluster or the instance; `cluster` is set
        once there is a cluster to delete if the call fails. */
    method Build(req: ProvisionRequest, o: ProvisionCalls, plan: Plan, row: InstanceRow, master: UserRow)
      returns (failure: Option<Failure>, cluster: bool)
      modifies this
      ensures failure.Some? ==>
                ProvisionFrom(cfg, old(State()), req, o, Checked(plan, row, master)) == (State(), Failed(failure.value))
      ensures failure.None? ==>
                ProvisionFrom(cfg, old(State()), req, o, Checked(plan, row, master))
                == ProvisionFrom(cfg, State(), req, o, Built(plan, row, master, cluster))
    {
      cluster := false;
      ProvisionUnfold(cfg, State(), req, o, Checked(plan, row, master));
      if plan.shared {
        if SharedEngine(plan.engine).None? {
          return Some(Crashed), false;
        }
        var ok := OnServer(Shared(plan.engine), s => CreateDB(s, row.dbName, o.createDB));
        return if ok then None else Some(CallFailed), false;
      }
      if IsAurora(plan) {
        var ok := CreateServer(ClusterServer(cfg, row), {row.dbName}, o.createCluster);
        if !ok {
          return Some(CallFailed), false;
        }
        log := log + [ClusterCreated(Identifier(cfg.dbPrefix, row.instanceID))];
        cluster := true;
        ProvisionUnfold(cfg, State(), req, o, ClusterUp(plan, row, master));
      }
      var ok := CreateServer(InstanceServer(cfg, row), if cluster then {} else {row.dbName}, o.createInstance);
      if !ok && cluster {
        ProvisionUnfold(cfg, State(), req, o, Undo(row, CallFailed));
        DeleteCluster(row, o.deleteCluster);
      }
      failure := if ok then None else Some(CallFailed);
    }

    /** A statement on a server that may not be there; an error leaves the server as it was. */
    method OnServer(id: ServerId, statement: Server -> Option<Server>) returns (ok: bool)
      modifies this`servers
      ensures ok <==> id in old(servers) && statement(old(servers)[id]).Some?
      ensures servers == if ok then old(servers)[id := statement(old(servers)[id]).value] else old(servers)
    {
      ok := id in servers;
      if ok {
        var after := statement(servers[id]);
        ok := after.Some?;
        if ok {
          servers := servers[id := after.value];
        }
      }
    }

    /** `Create` of an RDS instance or cluster: RDS refuses an identifier that is taken. */
    method CreateServer(id: ServerId, databases: set<string>, accepted: bool) returns (ok: bool)
      modifies this`servers
      ensures ok <==> accepted && id !in old(servers)
      ensures servers == if ok then old(servers)[id := NewServer(databases)] else old(servers)
    {
      ok := accepted && id !in servers;
      if ok {
        servers := servers[id := NewServer(databases)];
      }
    }

    /** `dbCluster.Delete`, whose error is ignored. */
    method DeleteCluster(row: InstanceRow, accepted: bool)
      modifies this
      ensures servers == if accepted then StartDeleting(old(servers), ClusterServer(cfg, row)) else old(servers)
      ensures log == old(log) + [ClusterDeleteIssued(Identifier(cfg.dbPrefix, row.instanceID))]
    {
      log := log + [ClusterDeleteIssued(Identifier(cfg.dbPrefix, row.instanceID))];
      if accepted {
        servers := StartDeleting(servers, ClusterServer(cfg, row));
      }
    }

    method Update(req: UpdateRequest, o: UpdateCalls) returns (reply: Reply)
      modifies this
      ensures (State(), reply) == Broker.Update(cfg, old(State()), req, o)
    {
      if !req.asyncAllowed {
        return Failed(AsyncRequired);
      }
      if cfg.allowUpdateParameters && req.malformed {
        return Failed(BadParameters);
      }
      var found := FindObjects(cfg, internalDB.rows, req.instanceID, o.find);
      if found.Err? {
        return Failed(found.error);
      }
      var (instance, service, oldPlan) := found.value;
      var lookup := FindServicePlan(cfg.services, instance.row.serviceID, req.planID);
      if lookup.None? {
        return Failed(PlanNotFound);
      }
      var newPlan := lookup.value;
      if !CanUpdate(oldPlan, newPlan, service) {
        return Failed(PlanChangeNotSupported);
      }
      log := log + [PlanApplied(instance.id, instance.row, newPlan)];
      if cfg.allowUpdateParameters && req.extensions.Some? {
        var connection := if newPlan.shared then ConnectShared(newPlan, o.open)
                      else OpenEngine(cfg, servers, instance, newPlan, o.describe, o.open);
        if connection.Err? {
          return Failed(connection.error);
        }
        if connection.value == Postgres {
          var id := HomeOf(cfg, instance.row, newPlan);
          if id !in servers {
            return Failed(CallFailed);
          }
          var db := new Extensions.PostgresDatabase(ExtensionsOf(servers[id], instance.row.dbName));
          var ok := db.SetExtensions(req.extensions.value, o.listing, o.ddl);
          servers := servers[id := servers[id].(extensions := servers[id].extensions[instance.row.dbName := db.installed])];
          if !ok {
            return Failed(CallFailed);
          }
        }
      }
      if newPlan.shared {
        return Updated(false);
      }
      if IsAurora(newPlan) && (!o.modifyCluster || ClusterServer(cfg, instance.row) !in servers) {
        return Failed(CallFailed);
      }
      if !o.modifyInstance {
        return Failed(CallFailed);
      }
      if InstanceServer(cfg, instance.row) !in servers {
        return Failed(InstanceDoesNotExist);
      }
      reply := Updated(true);
    }

    method Deprovision(req: DeprovisionRequest, o: DeprovisionCalls) returns (reply: Reply)
      modifies this, internalDB
      ensures (State(), reply) == Broker.Deprovision(cfg, old(State()), req, o)
    {
      if !req.asyncAllowed {
        return Failed(AsyncRequired);
      }
      var found := FindObjects(cfg, internalDB.rows, req.instanceID, o.find);
      if found.Err? {
        return Failed(found.error);
      }
      var (i, _, plan) := found.value;
      if plan.shared {
        var engine := SharedEngine(plan.engine);
        if engine.None? {
          return Failed(Crashed);
        }
        var (kind, id) := (engine.value, Shared(plan.engine));
        var ok := OnServer(id, s => DropDB(kind, s, i.row.dbName, o.dropDB));
        if !ok {
          return Failed(CallFailed);
        }
        ghost var dropped := servers[id];
        DropUsers(id, kind, i.users, o.dropUser);
        assert servers == old(servers)[id := Broker.DropUsers(kind, dropped, i.users, o.dropUser)];
        var instance := new DBInstance(i);
        var _ := instance.Delete(internalDB, o.deletes);
        log := log + [DeletionBegun(i.id)];
        return Deprovisioned(false);
      }
      if !o.deleteInstance {
        return Failed(CallFailed);
      }
      if InstanceServer(cfg, i.row) !in servers {
        return Failed(InstanceDoesNotExist);
      }
      servers := StartDeleting(servers, InstanceServer(cfg, i.row));
      if IsAurora(plan) {
        DeleteCluster(i.row, o.deleteCluster);
      }
      reply := Deprovisioned(true);
    }

    /** The loop of `Deprovision` over the users; an error is logged and passed over. */
    method DropUsers(id: ServerId, kind: EngineKind, users: seq<User>, dropUser: string -> bool)
      requires id in servers
      modifies this`servers
      ensures servers == old(servers)[id := Broker.DropUsers(kind, old(servers)[id], users, dropUser)]
    {
      assert users[..0] == [];
      for n := 0 to |users|
        invariant servers == old(servers)[id := Broker.DropUsers(kind, old(servers)[id], users[..n], dropUser)]
      {
        assert users[..n + 1][..n] == users[..n];
        var name := users[n].row.username;
        var _ := OnServer(id, s => DropUser(kind, s, name, dropUser(name)));
      }
      assert users[..|users|] == users;
    }

    method Bind(req: BindRequest, o: BindCalls) returns (reply: Reply)
      modifies this, internalDB
      ensures (State(), reply) == Broker.Bind(cfg, old(State()), req, o)
    {
      var found := FindObjects(cfg, internalDB.rows, req.instanceID, o.find);
      if found.Err? {
        return Failed(found.error);
      }
      var (i, service, plan) := found.value;
      if !service.bindable {
        return Failed(NotBindable);
      }
      var connection := OpenEngine(cfg, servers, i, plan, o.describe, o.open);
      if connection.Err? {
        return Failed(connection.error);
      }
      var kind := connection.value;
      var username := CreateUsername(kind, i.row.instanceID, o.name);
      if username.None? {
        return Failed(CallFailed);
      }
      var instance := new DBInstance(i);
      var r := instance.Bind(internalDB, req.bindingID, username.value, Standard, cfg.key, o.entropy, o.save);
      if r.NotBound? {
        return Failed(CallFailed);
      }
      var password := Password(r.user.row, cfg.key);
      if password.None? {
        return Failed(CallFailed);
      }
      var (id, db, name) := (HomeOf(cfg, i.row, plan), i.row.dbName, r.user.row.username);
      if r.isNew {
        var ok := EnableUser(id, kind, db, name, password.value, o.createUser, o.grant);
        if !ok {
          return Failed(CallFailed);
        }
      }
      reply := BoundTo(Credentials(id, db, name, password.value));
    }

    method EnableUser(id: ServerId, kind: EngineKind, db: string, name: string, password: string, createUser: bool, grant: bool)
      returns (ok: bool)
      modifies this`servers
      ensures id !in old(servers) ==> !ok && servers == old(servers)
      ensures id in old(servers) ==> var (s, done) := Broker.EnableUser(kind, old(servers)[id], db, name, password, createUser, grant);
                                     servers == old(servers)[id := s] && ok == done
    {
      ok := OnServer(id, s => CreateUser(kind, s, name, password, createUser));
      if ok {
        ok := OnServer(id, s => GrantPrivileges(kind, s, db, name, grant));
      }
    }

    method DisableUser(id: ServerId, kind: EngineKind, db: string, name: string, revoke: bool, dropUser: bool)
      returns (ok: bool)
      modifies this`servers
      ensures id !in old(servers) ==> !ok && servers == old(servers)
      ensures id in old(servers) ==> var (s, done) := Broker.DisableUser(kind, old(servers)[id], db, name, revoke, dropUser);
                                     servers == old(servers)[id := s] && ok == done
    {
      ok := OnServer(id, s => RevokePrivileges(kind, s, db, name, revoke));
      if ok {
        ok := OnServer(id, s => DropUser(kind, s, name, dropUser));
      }
    }

    method Unbind(req: BindRequest, o: UnbindCalls) returns (reply: Reply)
      modifies this, internalDB
      ensures (State(), reply) == Broker.Unbind(cfg, old(State()), req, o)
    {
      var found := FindObjects(cfg, internalDB.rows, req.instanceID, o.find);
      if found.Err? {
        return Failed(found.error);
      }
      var (i, _, plan) := found.value;
      var instance := new DBInstance(i);
      var r := instance.Unbind(internalDB, req.bindingID, o.deleteBinding);
      if r.UnknownBinding? {
        return Failed(UnknownBindingID);
      }
      if r.NotUnbound? {
        return Failed(CallFailed);
      }
      if r.last {
        var connection := OpenEngine(cfg, servers, i, plan, o.describe, o.open);
        if connection.Err? {
          return Failed(connection.error);
        }
        var (kind, id, name) := (connection.value, HomeOf(cfg, i.row, plan), r.user.row.username);
        var ok := DisableUser(id, kind, i.row.dbName, name, o.revoke, o.dropUser);
        if !ok {
          return Failed(CallFailed);
        }
        var _ := DeleteUser(internalDB, r.user, 0, o.deletes);
      }
      reply := UnboundOk;
    }

    method LastOperation(instanceID: string, o: LastOperationCalls) returns (reply: Reply)
      modifies this, internalDB
      ensures (State(), reply) == Broker.LastOperation(cfg, old(State()), instanceID, o)
    {
      var found := FindObjects(cfg, internalDB.rows, instanceID, o.find);
      if found.Err? {
        return Failed(found.error);
      }
      var (i, _, plan) := found.value;
      if plan.shared {
        return Operation(OperationFailed);
      }
      if !o.describe {
        return Failed(CallFailed);
      }
      if InstanceServer(cfg, i.row) !in servers {
        var instance := new DBInstance(i);
        var _ := instance.Delete(internalDB, o.deletes);
        log := log + [DeletionBegun(i.id)];
        return Failed(InstanceDoesNotExist);
      }
      var state := StateOfStatus(o.status);
      if state == Succeeded && o.pendingModifications {
        state := InProgress;
      }
      reply := Operation(state);
    }
  }
}
