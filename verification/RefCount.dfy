/** Reference counting over whole runs: the users with bindings are the roles that can use the database. */
module RefCount {
  import opened Wrappers
  import opened Models
  import opened Records
  import opened Names
  import opened Catalog
  import opened SqlServers
  import opened Broker
  import opened RunRecords

  // ---- Where users live ----------------------------------------------------

  function Home(cfg: Config, row: InstanceRow): Option<ServerId> {
    match RecordedPlan(cfg, row) case None => None case Some(plan) => Some(HomeOf(cfg, row, plan))
  }

  function Kind(cfg: Config, row: InstanceRow): Option<EngineKind> {
    match RecordedPlan(cfg, row) case None => None case Some(plan) => EngineOf(plan)
  }

  predicate At(cfg: Config, rows: Rows, r: nat, sid: ServerId) {
    r in rows.instances && Home(cfg, rows.instances[r]) == Some(sid)
  }

  predicate UserAt(cfg: Config, rows: Rows, u: nat, sid: ServerId) {
    u in rows.users && At(cfg, rows, rows.users[u].instance, sid)
  }

  predicate StandardAt(cfg: Config, rows: Rows, u: nat, sid: ServerId) {
    UserAt(cfg, rows, u, sid) && rows.users[u].kind == Standard
  }

  /** The name belongs to a standard user on that server. */
  ghost predicate LiveName(cfg: Config, rows: Rows, sid: ServerId, name: string) {
    exists u :: StandardAt(cfg, rows, u, sid) && rows.users[u].username == name
  }

  /** A standard user on that server has that name and that database. */
  ghost predicate LiveGrant(cfg: Config, rows: Rows, sid: ServerId, g: (string, string)) {
    exists u :: StandardAt(cfg, rows, u, sid) && rows.users[u].username == g.1
                && rows.instances[rows.users[u].instance].dbName == g.0
  }

  /** No stored user has that name. */
  predicate FreshName(rows: Rows, name: string) {
    forall u :: u in rows.users ==> rows.users[u].username != name
  }

  predicate StandardOf(rows: Rows, i: nat, u: nat) {
    u in rows.users && rows.users[u].instance == i && rows.users[u].kind == Standard
  }

  predicate HasStandard(rows: Rows, r: nat) {
    exists u :: u in rows.users && rows.users[u].instance == r && rows.users[u].kind == Standard
  }

  predicate HasBinding(rows: Rows, u: nat) {
    exists b :: b in rows.bindings && rows.bindings[b].user == u
  }

  // ---- The property --------------------------------------------------------

  predicate CanUse(s: Server, dbname: string, name: string) {
    name in s.roles && s.roles[name].login && (dbname, name) in s.grants
  }

  predicate HasStandardUser(rows: Rows, r: nat, name: string) {
    exists u :: u in rows.users && rows.users[u].instance == r && rows.users[u].kind == Standard && rows.users[u].username == name
  }

  /** The users of an instance are in step with its database: a user is a standard one exactly while it
      has a binding; the roles that can log in and hold the database are exactly the standard users; and
      each of them has the password that the stored row opens to. */
  ghost predicate InStep(cfg: Config, rows: Rows, r: nat, s: Server)
    requires r in rows.instances
  {
    && (forall u :: u in rows.users && rows.users[u].instance == r ==> (rows.users[u].kind == Standard <==> HasBinding(rows, u)))
    && (forall name :: CanUse(s, rows.instances[r].dbName, name) <==> HasStandardUser(rows, r, name))
    && (forall u :: u in rows.users && rows.users[u].instance == r && rows.users[u].kind == Standard
          ==> rows.users[u].username in s.roles
              && Password(rows.users[u], cfg.key) == Some(s.roles[rows.users[u].username].password))
  }

  /** Every instance whose database server still exists. */
  ghost predicate AllInStep(cfg: Config, w: World) {
    forall r, sid :: At(cfg, w.rows, r, sid) && sid in w.servers ==> InStep(cfg, w.rows, r, w.servers[sid])
  }

  // ---- The invariant -------------------------------------------------------

  /** No two of the instance IDs give the same Postgres role name; then no two give the same database
      name or RDS identifier either. */
  predicate RolesApart(ids: set<string>) {
    forall a, b :: a in ids && b in ids && PostgresRole(a) == PostgresRole(b) ==> a == b
  }

  lemma RolesApartNames(cfg: Config, ids: set<string>, a: string, b: string)
    requires RolesApart(ids) && a in ids && b in ids
    requires DBName(cfg.dbPrefix, a) == DBName(cfg.dbPrefix, b) || Identifier(cfg.dbPrefix, a) == Identifier(cfg.dbPrefix, b)
    ensures a == b
  {
    NamesCollideIff(cfg.dbPrefix, a, b);
    RolesCollideIff(a, b);
  }

  predicate IsRoleOf(ids: set<string>, name: string) {
    exists id :: id in ids && PostgresRole(id) == name
  }

  ghost predicate InstanceFits(cfg: Config, ids: set<string>, row: InstanceRow) {
    && row.instanceID in ids && row.dbName == DBName(cfg.dbPrefix, row.instanceID)
    && RecordedPlan(cfg, row).Some? && Kind(cfg, row).Some?
  }

  ghost predicate UserFits(cfg: Config, ids: set<string>, rows: Rows, user: UserRow) {
    && Password(user, cfg.key).Some?
    && (user.kind == Master ==> !IsRoleOf(ids, user.username))
    && (user.kind == Standard && user.instance in rows.instances && Kind(cfg, rows.instances[user.instance]) == Some(Postgres)
        ==> user.username == PostgresRole(rows.instances[user.instance].instanceID))
    && user.kind != SuperUser
  }

  /** Two users on one server never have the same name. */
  ghost predicate NamesApart(cfg: Config, rows: Rows) {
    forall u, v, sid :: UserAt(cfg, rows, u, sid) && UserAt(cfg, rows, v, sid) && rows.users[u].username == rows.users[v].username
      ==> u == v
  }

  ghost predicate InstancesFit(cfg: Config, ids: set<string>, rows: Rows) {
    forall r :: r in rows.instances ==> InstanceFits(cfg, ids, rows.instances[r])
  }

  ghost predicate UsersFit(cfg: Config, ids: set<string>, rows: Rows) {
    forall u :: u in rows.users ==> UserFits(cfg, ids, rows, rows.users[u])
  }

  /** Only standard users have bindings. */
  ghost predicate BindingsFit(rows: Rows) {
    forall b :: b in rows.bindings ==> rows.bindings[b].user in rows.users && rows.users[rows.bindings[b].user].kind == Standard
  }

  ghost predicate RowsFit(cfg: Config, ids: set<string>, rows: Rows) {
    RecordsOk(rows, {}) && InstancesFit(cfg, ids, rows) && UsersFit(cfg, ids, rows) && BindingsFit(rows) && NamesApart(cfg, rows)
  }

  /** The server is used with that engine: a shared one always, another one while it has an instance. */
  ghost predicate Serves(cfg: Config, rows: Rows, sid: ServerId, kind: EngineKind) {
    (sid.Shared? && SharedEngine(sid.engine) == Some(kind))
    || exists r :: At(cfg, rows, r, sid) && Kind(cfg, rows.instances[r]) == Some(kind)
  }

  /** On MySQL every role is a standard user's and can log in. A Postgres role may outlive its user: without a
      grant it can use nothing, and a new user of that name takes it over. */
  ghost predicate RolesLive(cfg: Config, rows: Rows, sid: ServerId, s: Server, kind: EngineKind) {
    kind == MySQL ==> forall name :: name in s.roles ==> s.roles[name].login && LiveName(cfg, rows, sid, name)
  }

  ghost predicate GrantsLive(cfg: Config, rows: Rows, sid: ServerId, s: Server) {
    forall g :: g in s.grants ==> LiveGrant(cfg, rows, sid, g)
  }

  ghost predicate AllServed(cfg: Config, rows: Rows, sid: ServerId, s: Server) {
    forall u :: StandardAt(cfg, rows, u, sid) ==> UserServed(cfg, rows, u, s)
  }

  ghost predicate DatabasesThere(cfg: Config, rows: Rows, sid: ServerId, s: Server) {
    forall r :: At(cfg, rows, r, sid) ==> rows.instances[r].dbName in s.databases
  }

  /** The roles and grants of a server are exactly those of the standard users on it. */
  ghost predicate ServerFits(cfg: Config, rows: Rows, sid: ServerId, s: Server, kind: EngineKind) {
    RolesLive(cfg, rows, sid, s, kind) && GrantsLive(cfg, rows, sid, s) && AllServed(cfg, rows, sid, s) && DatabasesThere(cfg, rows, sid, s)
  }

  ghost predicate UserServed(cfg: Config, rows: Rows, u: nat, s: Server)
    requires u in rows.users && rows.users[u].instance in rows.instances
  {
    var name := rows.users[u].username;
    && name in s.roles && s.roles[name].login
    && Password(rows.users[u], cfg.key) == Some(s.roles[name].password)
    && (rows.instances[rows.users[u].instance].dbName, name) in s.grants
  }

  ghost predicate ServersFit(cfg: Config, w: World) {
    forall sid, kind :: sid in w.servers && Serves(cfg, w.rows, sid, kind) ==> ServerFits(cfg, w.rows, sid, w.servers[sid], kind)
  }

  /** Standard users on servers that exist have bindings. */
  ghost predicate UsersBound(cfg: Config, w: World) {
    forall u, sid :: StandardAt(cfg, w.rows, u, sid) && sid in w.servers ==> HasBinding(w.rows, u)
  }

  ghost predicate SharedUp(servers: map<ServerId, Server>) {
    Shared("postgres") in servers && Shared("mysql") in servers
  }

  ghost predicate Counted(cfg: Config, ids: set<string>, w: World) {
    RowsFit(cfg, ids, w.rows) && ServersFit(cfg, w) && UsersBound(cfg, w) && SharedUp(w.servers)
  }

  lemma CountedIsInStep(cfg: Config, ids: set<string>, w: World)
    requires RolesApart(ids) && Counted(cfg, ids, w)
    ensures AllInStep(cfg, w)
  {
    forall r, sid | At(cfg, w.rows, r, sid) && sid in w.servers
      ensures InStep(cfg, w.rows, r, w.servers[sid])
    {
      assert Serves(cfg, w.rows, sid, Kind(cfg, w.rows.instances[r]).value);
      InstanceInStep(cfg, ids, w, r, sid, Kind(cfg, w.rows.instances[r]).value);
    }
  }

  lemma OutOfStepNotCounted(cfg: Config, ids: set<string>, w: World)
    requires RolesApart(ids) && !AllInStep(cfg, w)
    ensures !Counted(cfg, ids, w)
  {
    if Counted(cfg, ids, w) {
      CountedIsInStep(cfg, ids, w);
    }
  }

  lemma InstanceInStep(cfg: Config, ids: set<string>, w: World, r: nat, sid: ServerId, kind: EngineKind)
    requires RolesApart(ids) && Counted(cfg, ids, w)
    requires At(cfg, w.rows, r, sid) && sid in w.servers && ServerFits(cfg, w.rows, sid, w.servers[sid], kind)
    ensures InStep(cfg, w.rows, r, w.servers[sid])
  {
    var (rows, s) := (w.rows, w.servers[sid]);
    forall u | u in rows.users && rows.users[u].instance == r
      ensures rows.users[u].kind == Standard <==> HasBinding(rows, u)
      ensures rows.users[u].kind == Standard ==> UserServed(cfg, rows, u, s)
    {
      if rows.users[u].kind == Standard {
        assert StandardAt(cfg, rows, u, sid);
      }
    }
    forall name
      ensures CanUse(s, rows.instances[r].dbName, name) <==> HasStandardUser(rows, r, name)
    {
      UsesIff(cfg, ids, rows, r, sid, s, name);
    }
  }

  lemma UsesIff(cfg: Config, ids: set<string>, rows: Rows, r: nat, sid: ServerId, s: Server, name: string)
    requires RolesApart(ids) && UniqueInstanceIDs(rows) && InstancesFit(cfg, ids, rows) && At(cfg, rows, r, sid)
    requires GrantsLive(cfg, rows, sid, s) && AllServed(cfg, rows, sid, s)
    ensures CanUse(s, rows.instances[r].dbName, name) <==> HasStandardUser(rows, r, name)
  {
    if CanUse(s, rows.instances[r].dbName, name) {
      GrantIsOfInstance(cfg, ids, rows, r, sid, name);
    }
    if HasStandardUser(rows, r, name) {
      var u :| u in rows.users && rows.users[u].instance == r && rows.users[u].kind == Standard && rows.users[u].username == name;
      assert StandardAt(cfg, rows, u, sid) && UserServed(cfg, rows, u, s);
    }
  }

  lemma GrantIsOfInstance(cfg: Config, ids: set<string>, rows: Rows, r: nat, sid: ServerId, name: string)
    requires RolesApart(ids) && UniqueInstanceIDs(rows) && InstancesFit(cfg, ids, rows) && At(cfg, rows, r, sid)
    requires LiveGrant(cfg, rows, sid, (rows.instances[r].dbName, name))
    ensures HasStandardUser(rows, r, name)
  {
    var u :| StandardAt(cfg, rows, u, sid) && rows.users[u].username == name
             && rows.instances[rows.users[u].instance].dbName == rows.instances[r].dbName;
    assert InstanceFits(cfg, ids, rows.instances[r]) && InstanceFits(cfg, ids, rows.instances[rows.users[u].instance]);
    RolesApartNames(cfg, ids, rows.instances[rows.users[u].instance].instanceID, rows.instances[r].instanceID);
    assert rows.users[u].instance == r;
  }

  // ---- Standard users that are the same before and after --------------------

  /** On that server the standard users are the same, and so are their instances. */
  ghost predicate AgreeAt(cfg: Config, rows: Rows, rows': Rows, sid: ServerId) {
    && (forall u :: StandardAt(cfg, rows', u, sid) <==> StandardAt(cfg, rows, u, sid))
    && (forall u :: StandardAt(cfg, rows, u, sid)
          ==> rows'.users[u] == rows.users[u] && rows'.instances[rows.users[u].instance] == rows.instances[rows.users[u].instance])
  }

  lemma LiveAgrees(cfg: Config, rows: Rows, rows': Rows, sid: ServerId)
    requires AgreeAt(cfg, rows, rows', sid)
    ensures forall name :: LiveName(cfg, rows, sid, name) ==> LiveName(cfg, rows', sid, name)
    ensures forall g :: LiveGrant(cfg, rows, sid, g) ==> LiveGrant(cfg, rows', sid, g)
  {
    forall name | LiveName(cfg, rows, sid, name)
      ensures LiveName(cfg, rows', sid, name)
    {
      var u :| StandardAt(cfg, rows, u, sid) && rows.users[u].username == name;
      assert StandardAt(cfg, rows', u, sid);
    }
    forall g | LiveGrant(cfg, rows, sid, g)
      ensures LiveGrant(cfg, rows', sid, g)
    {
      var u :| StandardAt(cfg, rows, u, sid) && rows.users[u].username == g.1 && rows.instances[rows.users[u].instance].dbName == g.0;
      assert StandardAt(cfg, rows', u, sid);
    }
  }

  lemma AgreeingFits(cfg: Config, rows: Rows, rows': Rows, sid: ServerId, s: Server, kind: EngineKind)
    requires ServerFits(cfg, rows, sid, s, kind) && AgreeAt(cfg, rows, rows', sid)
    requires forall r :: At(cfg, rows', r, sid) ==> rows'.instances[r].dbName in s.databases
    ensures ServerFits(cfg, rows', sid, s, kind)
  {
    LiveAgrees(cfg, rows, rows', sid);
    forall u | StandardAt(cfg, rows', u, sid)
      ensures UserServed(cfg, rows', u, s)
    {
      assert UserServed(cfg, rows, u, s);
    }
  }

  // ---- Steps that leave users and roles alone ------------------------------

  /** The server has the roles and grants it had, and at least the databases. */
  predicate SameUsers(s: Server, s': Server) {
    s'.roles == s.roles && s'.grants == s.grants && s.databases <= s'.databases
  }

  /** On a server that was there an instance stays in step when roles and grants stay. */
  lemma SameUsersInStep(cfg: Config, rows: Rows, r: nat, s: Server, s': Server)
    requires r in rows.instances && InStep(cfg, rows, r, s) && SameUsers(s, s')
    ensures InStep(cfg, rows, r, s')
  {
    assert forall name :: CanUse(s', rows.instances[r].dbName, name) <==> CanUse(s, rows.instances[r].dbName, name);
  }

  /** A server that serves an instance is an old one with the same users. */
  ghost predicate Calm(cfg: Config, w: World, servers: map<ServerId, Server>) {
    forall sid, kind :: sid in servers && Serves(cfg, w.rows, sid, kind) ==> sid in w.servers && SameUsers(w.servers[sid], servers[sid])
  }

  lemma CalmKeeps(cfg: Config, ids: set<string>, w: World, w': World)
    requires Counted(cfg, ids, w) && w'.rows == w.rows && Calm(cfg, w, w'.servers) && SharedUp(w'.servers)
    ensures Counted(cfg, ids, w')
  {
    forall sid, kind | sid in w'.servers && Serves(cfg, w'.rows, sid, kind)
      ensures ServerFits(cfg, w'.rows, sid, w'.servers[sid], kind)
    {
      assert ServerFits(cfg, w.rows, sid, w.servers[sid], kind);
      SameUsersFit(cfg, w.rows, sid, w.servers[sid], w'.servers[sid], kind);
    }
    forall u, sid | StandardAt(cfg, w'.rows, u, sid) && sid in w'.servers
      ensures HasBinding(w'.rows, u)
    {
      var r := w.rows.users[u].instance;
      assert Serves(cfg, w.rows, sid, Kind(cfg, w.rows.instances[r]).value);
    }
  }

  lemma SameUsersFit(cfg: Config, rows: Rows, sid: ServerId, s: Server, s': Server, kind: EngineKind)
    requires ServerFits(cfg, rows, sid, s, kind) && SameUsers(s, s')
    ensures ServerFits(cfg, rows, sid, s', kind)
  {
    forall u | StandardAt(cfg, rows, u, sid)
      ensures UserServed(cfg, rows, u, s')
    {
      assert UserServed(cfg, rows, u, s);
    }
  }

  lemma UpdateCalm(cfg: Config, w: World, req: UpdateRequest, o: UpdateCalls)
    ensures var w' := Update(cfg, w, req, o).0;
            w'.rows == w.rows && w'.servers.Keys == w.servers.Keys && forall sid :: sid in w.servers ==> SameUsers(w.servers[sid], w'.servers[sid])
  {
    UpdateShape(cfg, w, req, o);
    var i, plan := UpdateServers(cfg, w, req, o);
    ExtensionsCalm(cfg, w.servers, req, o, i, plan);
  }

  lemma ExtensionsCalm(cfg: Config, servers: map<ServerId, Server>, req: UpdateRequest, o: UpdateCalls, i: Instance, plan: Plan)
    ensures var servers' := UpdateExtensions(cfg, servers, req, o, i, plan).0;
            servers'.Keys == servers.Keys && forall sid :: sid in servers ==> SameUsers(servers[sid], servers'[sid])
  {
    ExtensionsOnly(cfg, servers, req, o, i, plan);
    forall sid | sid in servers
      ensures SameUsers(servers[sid], UpdateExtensions(cfg, servers, req, o, i, plan).0[sid])
    {
      assert servers[sid].roles == UpdateExtensions(cfg, servers, req, o, i, plan).0[sid].roles;
    }
  }

  lemma UpdateCounted(cfg: Config, ids: set<string>, w: World, req: UpdateRequest, o: UpdateCalls)
    requires Counted(cfg, ids, w)
    ensures Counted(cfg, ids, Update(cfg, w, req, o).0)
  {
    UpdateCalm(cfg, w, req, o);
    CalmKeeps(cfg, ids, w, Update(cfg, w, req, o).0);
  }

  lemma DisappearCounted(cfg: Config, ids: set<string>, w: World, id: ServerId)
    requires Counted(cfg, ids, w)
    ensures Counted(cfg, ids, Disappear(w, id))
  {
    CalmKeeps(cfg, ids, w, Disappear(w, id));
  }

  /** A server of an instance's own has its identifier; a shared one has the engine of its name. */
  lemma HomeShape(cfg: Config, row: InstanceRow, sid: ServerId)
    requires Home(cfg, row) == Some(sid)
    ensures !sid.Shared? ==> sid.identifier == Identifier(cfg.dbPrefix, row.instanceID)
    ensures sid.Shared? ==> Kind(cfg, row) == SharedEngine(sid.engine)
  {
  }

  /** Instances on one server are used with one engine. */
  lemma OneKind(cfg: Config, ids: set<string>, rows: Rows, r: nat, q: nat, sid: ServerId)
    requires RolesApart(ids) && RowsFit(cfg, ids, rows) && At(cfg, rows, r, sid) && At(cfg, rows, q, sid)
    ensures Kind(cfg, rows.instances[r]) == Kind(cfg, rows.instances[q])
    ensures !sid.Shared? ==> r == q
  {
    HomeShape(cfg, rows.instances[r], sid);
    HomeShape(cfg, rows.instances[q], sid);
    if !sid.Shared? {
      OneRow(cfg, ids, rows, r, q);
    }
  }

  lemma OneRow(cfg: Config, ids: set<string>, rows: Rows, r: nat, q: nat)
    requires RolesApart(ids) && UniqueInstanceIDs(rows) && InstancesFit(cfg, ids, rows) && r in rows.instances && q in rows.instances
    requires Identifier(cfg.dbPrefix, rows.instances[r].instanceID) == Identifier(cfg.dbPrefix, rows.instances[q].instanceID)
    ensures r == q
  {
    assert InstanceFits(cfg, ids, rows.instances[r]) && InstanceFits(cfg, ids, rows.instances[q]);
    RolesApartNames(cfg, ids, rows.instances[r].instanceID, rows.instances[q].instanceID);
  }

  lemma SameInstancesServe(cfg: Config, rows: Rows, rows': Rows, sid: ServerId, kind: EngineKind)
    requires rows'.instances == rows.instances && Serves(cfg, rows', sid, kind)
    ensures Serves(cfg, rows, sid, kind)
  {
    if !(sid.Shared? && SharedEngine(sid.engine) == Some(kind)) {
      var r :| At(cfg, rows', r, sid) && Kind(cfg, rows'.instances[r]) == Some(kind);
      assert At(cfg, rows, r, sid);
    }
  }

  // ---- Steps that change bindings only -------------------------------------

  lemma SameUsersRowsFit(cfg: Config, ids: set<string>, rows: Rows, rows': Rows)
    requires RowsFit(cfg, ids, rows) && RecordsOk(rows', {}) && BindingsFit(rows')
    requires rows'.instances == rows.instances && rows'.users == rows.users
    ensures RowsFit(cfg, ids, rows')
  {
    forall u | u in rows'.users
      ensures UserFits(cfg, ids, rows', rows'.users[u])
    {
      assert UserFits(cfg, ids, rows, rows.users[u]);
    }
    forall u, v, sid | UserAt(cfg, rows', u, sid) && UserAt(cfg, rows', v, sid) && rows'.users[u].username == rows'.users[v].username
      ensures u == v
    {
      assert UserAt(cfg, rows, u, sid) && UserAt(cfg, rows, v, sid);
    }
  }

  lemma SameUsersCounted(cfg: Config, ids: set<string>, w: World, w': World)
    requires Counted(cfg, ids, w) && RecordsOk(w'.rows, {}) && BindingsFit(w'.rows) && w'.servers == w.servers
    requires w'.rows.instances == w.rows.instances && w'.rows.users == w.rows.users
    requires UsersBound(cfg, w')
    ensures Counted(cfg, ids, w')
  {
    SameUsersRowsFit(cfg, ids, w.rows, w'.rows);
    forall sid, kind | sid in w'.servers && Serves(cfg, w'.rows, sid, kind)
      ensures ServerFits(cfg, w'.rows, sid, w'.servers[sid], kind)
    {
      SameInstancesServe(cfg, w.rows, w'.rows, sid, kind);
      assert AgreeAt(cfg, w.rows, w'.rows, sid);
      AgreeingFits(cfg, w.rows, w'.rows, sid, w.servers[sid], kind);
    }
  }
}
