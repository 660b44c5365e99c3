/** When exactly `Bind` and `Unbind` succeed, and which error they give otherwise, told from the rows, the
    servers, the request and the calls. */
module BindingAnswers {
  import opened Wrappers
  import opened Utils
  import opened Models
  import opened Names
  import opened Records
  import opened Catalog
  import opened SqlServers
  import opened Broker
  import opened RunRecords
  import opened RefCount
  import opened Answers

  // ---- Bind ----------------------------------------------------------------

  /** The server takes the new account and its grant: MySQL has no account of that name yet, and on Postgres,
      where a role of that name is taken over, the database is there. */
  predicate Accepts(kind: EngineKind, s: Server, dbName: string, name: string) {
    if kind == MySQL then name !in s.roles else dbName in s.databases
  }

  /** A user of that name is loaded, the binding is saved, and the stored password opens. */
  predicate BindsOld(cfg: Config, i: Instance, name: string, o: BindCalls) {
    UserNamed(i.users, name).Some? && o.save && Password(UserNamed(i.users, name).value.row, cfg.key).Some?
  }

  /** No user of that name is loaded; one is made and saved, and both SQL statements go through. */
  predicate BindsNew(cfg: Config, w: World, i: Instance, plan: Plan, kind: EngineKind, name: string, o: BindCalls) {
    var home := HomeOf(cfg, i.row, plan);
    && UserNamed(i.users, name).None? && CanMakeUser(cfg, o.entropy) && o.save
    && o.createUser && o.grant && home in w.servers && Accepts(kind, w.servers[home], i.row.dbName, name)
  }

  predicate Binds(cfg: Config, w: World, req: BindRequest, o: BindCalls) {
    var found := FindObjects(cfg, w.rows, req.instanceID, o.find);
    && found.Ok? && found.value.1.bindable
    && var (i, _, plan) := found.value;
       var engine := OpenEngine(cfg, w.servers, i, plan, o.describe, o.open);
       && engine.Ok?
       && var name := CreateUsername(engine.value, i.row.instanceID, o.name);
          name.Some? && (BindsOld(cfg, i, name.value, o) || BindsNew(cfg, w, i, plan, engine.value, name.value, o))
  }

  predicate BindFails(cfg: Config, w: World, req: BindRequest, o: BindCalls, f: Failure) {
    var found := FindObjects(cfg, w.rows, req.instanceID, o.find);
    if found.Err? then LookUpFails(cfg, w.rows, req.instanceID, o.find, f)
    else if !found.value.1.bindable then f == NotBindable
    else
      var (i, _, plan) := found.value;
      if OpenEngine(cfg, w.servers, i, plan, o.describe, o.open).Err? then ConnectFails(cfg, w.servers, i, plan, o.describe, o.open, f)
      else f == CallFailed && !Binds(cfg, w, req, o)
  }

  lemma EnablesIff(kind: EngineKind, s: Server, dbName: string, name: string, password: string, createUser: bool, grant: bool)
    requires '\0' !in password
    ensures var (s', done) := EnableUser(kind, s, dbName, name, password, createUser, grant);
            && (done <==> createUser && grant && Accepts(kind, s, dbName, name))
            && (done ==> Usable(s', dbName, name, password))
  {
    SentPasswordIs(kind, password);
  }

  lemma FinishBindAnswers(cfg: Config, w: World, i: Instance, plan: Plan, kind: EngineKind, name: string, bindingID: string, o: BindCalls)
    ensures var reply := FinishBind(cfg, w, i, plan, kind, name, bindingID, o).1;
            && (reply.BoundTo? || reply == Failed(CallFailed))
            && (reply.BoundTo? <==> BindsOld(cfg, i, name, o) || BindsNew(cfg, w, i, plan, kind, name, o))
  {
    if CanMakeUser(cfg, o.entropy) {
      NewUserOpens(Standard, cfg.key, o.entropy.value, i.id);
      RandPasswordWellFormed(o.entropy.value.password);
      var home := HomeOf(cfg, i.row, plan);
      if home in w.servers {
        EnablesIff(kind, w.servers[home], i.row.dbName, name, RandPassword(o.entropy.value.password), o.createUser, o.grant);
      }
    }
  }

  /** A `Bind` that has everything in hand. */
  lemma ReachedBindAnswers(cfg: Config, w: World, req: BindRequest, o: BindCalls, i: Instance, plan: Plan, kind: EngineKind, name: string)
    requires FindObjects(cfg, w.rows, req.instanceID, o.find).Ok?
    requires var found := FindObjects(cfg, w.rows, req.instanceID, o.find).value; found.0 == i && found.1.bindable && found.2 == plan
    requires OpenEngine(cfg, w.servers, i, plan, o.describe, o.open) == Ok(kind)
    requires CreateUsername(kind, i.row.instanceID, o.name) == Some(name)
    ensures var reply := Bind(cfg, w, req, o).1;
            (reply.BoundTo? || reply == Failed(CallFailed)) && (reply.BoundTo? <==> Binds(cfg, w, req, o))
  {
    BindIsFinish(cfg, w, req, o, i, plan, kind, name);
    FinishBindAnswers(cfg, w, i, plan, kind, name, req.bindingID, o);
  }

  /** And one that gives up before. */
  lemma GivesUpIff(cfg: Config, w: World, req: BindRequest, o: BindCalls, f: Failure)
    requires var found := FindObjects(cfg, w.rows, req.instanceID, o.find);
             found.Ok? && found.value.1.bindable
             ==> var engine := OpenEngine(cfg, w.servers, found.value.0, found.value.2, o.describe, o.open);
                 engine.Ok? ==> CreateUsername(engine.value, found.value.0.row.instanceID, o.name).None?
    ensures Bind(cfg, w, req, o).1.Failed? && !Binds(cfg, w, req, o)
    ensures Bind(cfg, w, req, o).1 == Failed(f) <==> BindFails(cfg, w, req, o, f)
  {
    var found := FindObjects(cfg, w.rows, req.instanceID, o.find);
    LookUpFailsIff(cfg, w.rows, req.instanceID, o.find, f);
    if found.Ok? && found.value.1.bindable {
      ConnectFailsIff(cfg, w.servers, found.value.0, found.value.2, o.describe, o.open, f);
    }
  }

  lemma BindIff(cfg: Config, w: World, req: BindRequest, o: BindCalls, f: Failure)
    ensures var reply := Bind(cfg, w, req, o).1;
            && (reply.BoundTo? || reply.Failed?)
            && (reply.BoundTo? <==> Binds(cfg, w, req, o))
            && (reply == Failed(f) <==> BindFails(cfg, w, req, o, f))
  {
    var found := FindObjects(cfg, w.rows, req.instanceID, o.find);
    if found.Ok? && found.value.1.bindable {
      var (i, plan) := (found.value.0, found.value.2);
      var engine := OpenEngine(cfg, w.servers, i, plan, o.describe, o.open);
      if engine.Ok? && CreateUsername(engine.value, i.row.instanceID, o.name).Some? {
        ReachedBindAnswers(cfg, w, req, o, i, plan, engine.value, CreateUsername(engine.value, i.row.instanceID, o.name).value);
      } else {
        GivesUpIff(cfg, w, req, o, f);
      }
    } else {
      GivesUpIff(cfg, w, req, o, f);
    }
  }

  /** When exactly `Bind` answers with credentials, on every engine. */
  lemma BindAnswersIff(cfg: Config, w: World, req: BindRequest, o: BindCalls)
    ensures var reply := Bind(cfg, w, req, o).1;
            && (reply.BoundTo? <==> Binds(cfg, w, req, o))
            && (!reply.BoundTo? ==> reply.Failed?)
  {
    BindIff(cfg, w, req, o, CallFailed);
  }

  /** And with which error otherwise. */
  lemma BindFailsIff(cfg: Config, w: World, req: BindRequest, o: BindCalls, f: Failure)
    ensures Bind(cfg, w, req, o).1 == Failed(f) <==> BindFails(cfg, w, req, o, f)
  {
    BindIff(cfg, w, req, o, f);
  }

  /** A stored user of the instance with that name and password holds the binding. */
  ghost predicate Holds(cfg: Config, rows: Rows, i: nat, bindingID: string, name: string, password: string) {
    exists b :: b in rows.bindings && rows.bindings[b].bindingID == bindingID && rows.bindings[b].user in rows.users
      && var user := rows.users[rows.bindings[b].user];
         user.instance == i && user.username == name && Password(user, cfg.key) == Some(password)
  }

  lemma OldBindAnswers(cfg: Config, w: World, i: Instance, plan: Plan, kind: EngineKind, name: string, bindingID: string, o: BindCalls)
    requires Loads(w.rows, i) && BindsOld(cfg, i, name, o)
    ensures var (w', reply) := FinishBind(cfg, w, i, plan, kind, name, bindingID, o);
            && reply.BoundTo? && reply.credentials.host == HomeOf(cfg, i.row, plan) && reply.credentials.dbName == i.row.dbName
            && reply.credentials.username == name && Holds(cfg, w'.rows, i.id, bindingID, name, reply.credentials.password)
            && w'.servers == w.servers
  {
    var user := UserNamed(i.users, name).value;
    assert LoadsUser(w.rows, user) && user.row.instance == i.id;
    var rows' := AddBinding(w.rows, user, bindingID);
    assert rows'.bindings[w.rows.nextID] == BindingRow(user.id, bindingID) && rows'.users[user.id] == user.row;
  }

  lemma NewBindAnswers(cfg: Config, w: World, i: Instance, plan: Plan, kind: EngineKind, name: string, bindingID: string, o: BindCalls)
    requires BindsNew(cfg, w, i, plan, kind, name, o)
    ensures var (w', reply) := FinishBind(cfg, w, i, plan, kind, name, bindingID, o);
            var (home, password) := (HomeOf(cfg, i.row, plan), RandPassword(o.entropy.value.password));
            && reply == BoundTo(Credentials(home, i.row.dbName, name, password))
            && Holds(cfg, w'.rows, i.id, bindingID, name, password)
            && home in w'.servers && Usable(w'.servers[home], i.row.dbName, name, password)
            && w'.servers == w.servers[home := w'.servers[home]]
  {
    NewUserOpens(Standard, cfg.key, o.entropy.value, i.id);
    RandPasswordWellFormed(o.entropy.value.password);
    EnablesIff(kind, w.servers[HomeOf(cfg, i.row, plan)], i.row.dbName, name, RandPassword(o.entropy.value.password), o.createUser, o.grant);
    var user := NewUser(Standard, cfg.key, o.entropy, i.id).value.(username := name);
    var rows' := InsertUser(w.rows, user, bindingID);
    assert rows'.bindings[w.rows.nextID + 1] == BindingRow(w.rows.nextID, bindingID) && rows'.users[w.rows.nextID] == user;
  }

  /** What an answer means, from any state: the credentials name the database of the instance on its server
      and a stored user of it that now holds the binding and whose row opens to that password; its name is
      that of the instance on Postgres and a random one on MySQL. For a new user the password is the random
      one, and the account can use the database; for an old one no server changes. */
  lemma BoundMeans(cfg: Config, w: World, req: BindRequest, o: BindCalls)
    requires Bind(cfg, w, req, o).1.BoundTo?
    ensures var (w', reply) := Bind(cfg, w, req, o);
            var (i, _, plan) := FindObjects(cfg, w.rows, req.instanceID, o.find).value;
            var (c, home) := (reply.credentials, HomeOf(cfg, i.row, plan));
            && c.host == home && c.dbName == i.row.dbName && Holds(cfg, w'.rows, i.id, req.bindingID, c.username, c.password)
            && (EngineOf(plan) == Some(Postgres) ==> c.username == PostgresRole(i.row.instanceID))
            && (EngineOf(plan) == Some(MySQL) ==> o.name.Some? && c.username == RandUsername(o.name.value))
            && (if UserNamed(i.users, c.username).Some? then w'.servers == w.servers
                else && o.entropy.Some? && c.password == RandPassword(o.entropy.value.password)
                     && home in w'.servers && Usable(w'.servers[home], c.dbName, c.username, c.password)
                     && w'.servers == w.servers[home := w'.servers[home]])
  {
    BindAnswersIff(cfg, w, req, o);
    FoundLoads(cfg, w.rows, req.instanceID, o.find);
    var (i, plan) := (FindObjects(cfg, w.rows, req.instanceID, o.find).value.0, FindObjects(cfg, w.rows, req.instanceID, o.find).value.2);
    var kind := OpenEngine(cfg, w.servers, i, plan, o.describe, o.open).value;
    var name := CreateUsername(kind, i.row.instanceID, o.name).value;
    if BindsOld(cfg, i, name, o) {
      OldBindAnswers(cfg, w, i, plan, kind, name, req.bindingID, o);
    } else {
      NewBindAnswers(cfg, w, i, plan, kind, name, req.bindingID, o);
    }
  }

  // ---- Unbind --------------------------------------------------------------

  /** A standard user of the instance has the binding, in the tables. */
  ghost predicate IsBound(rows: Rows, i: nat, bindingID: string) {
    exists b :: b in rows.bindings && rows.bindings[b].bindingID == bindingID && StandardOf(rows, i, rows.bindings[b].user)
  }

  lemma BindingUserIff(rows: Rows, i: Instance, bindingID: string)
    requires Loads(rows, i)
    ensures BindingUser(i.users, bindingID).Some? <==> IsBound(rows, i.id, bindingID)
  {
    if IsBound(rows, i.id, bindingID) {
      var b :| b in rows.bindings && rows.bindings[b].bindingID == bindingID && StandardOf(rows, i.id, rows.bindings[b].user);
      assert HasUser(i.users, rows.bindings[b].user);
      var u :| u in i.users && u.id == rows.bindings[b].user;
      assert LoadsUser(rows, u) && Binding(b, bindingID) in u.bindings;
    }
    if BindingUser(i.users, bindingID).Some? {
      var (u, b) := BindingUser(i.users, bindingID).value;
      assert LoadsUser(rows, u);
      assert rows.bindings[b.id].bindingID == bindingID && StandardOf(rows, i.id, rows.bindings[b.id].user);
    }
  }

  /** The server takes both statements: the role is there, on Postgres the database is too, and on MySQL the
      grant. */
  predicate Removes(kind: EngineKind, s: Server, dbName: string, name: string) {
    name in s.roles && if kind == Postgres then dbName in s.databases else (dbName, name) in s.grants
  }

  /** The second half of `Unbind`, for the last binding of a user: the engine is there and both SQL statements
      go through. How the deletion of the user's row goes does not matter. */
  predicate RemovesUser(cfg: Config, w: World, i: Instance, plan: Plan, user: User, o: UnbindCalls) {
    var (engine, home) := (OpenEngine(cfg, w.servers, i, plan, o.describe, o.open), HomeOf(cfg, i.row, plan));
    && engine.Ok? && home in w.servers && o.revoke && o.dropUser
    && Removes(engine.value, w.servers[home], i.row.dbName, user.row.username)
  }

  predicate Unbinds(cfg: Config, w: World, req: BindRequest, o: UnbindCalls) {
    var found := FindObjects(cfg, w.rows, req.instanceID, o.find);
    && found.Ok?
    && var (i, _, plan) := found.value;
       var held := BindingUser(i.users, req.bindingID);
       && held.Some? && o.deleteBinding
       && (|held.value.0.bindings| == 1 ==> RemovesUser(cfg, w, i, plan, held.value.0, o))
  }

  predicate UnbindFails(cfg: Config, w: World, req: BindRequest, o: UnbindCalls, f: Failure) {
    var found := FindObjects(cfg, w.rows, req.instanceID, o.find);
    if found.Err? then LookUpFails(cfg, w.rows, req.instanceID, o.find, f)
    else
      var (i, _, plan) := found.value;
      var held := BindingUser(i.users, req.bindingID);
      if held.None? then f == UnknownBindingID
      else if !o.deleteBinding then f == CallFailed
      else
        && |held.value.0.bindings| == 1
        && if OpenEngine(cfg, w.servers, i, plan, o.describe, o.open).Err? then ConnectFails(cfg, w.servers, i, plan, o.describe, o.open, f)
           else f == CallFailed && !Unbinds(cfg, w, req, o)
  }

  lemma DisablesIff(kind: EngineKind, s: Server, dbName: string, name: string, revoke: bool, dropUser: bool)
    ensures DisableUser(kind, s, dbName, name, revoke, dropUser).1 <==> revoke && dropUser && Removes(kind, s, dbName, name)
  {
  }

  lemma FinishUnbindAnswers(cfg: Config, w: World, rows: Rows, i: Instance, plan: Plan, user: User, o: UnbindCalls)
    ensures var reply := FinishUnbind(cfg, w.(rows := rows), i, plan, user, o).1;
            var engine := OpenEngine(cfg, w.servers, i, plan, o.describe, o.open);
            && (reply == UnboundOk <==> RemovesUser(cfg, w, i, plan, user, o))
            && (reply != UnboundOk ==> reply == Failed(if engine.Err? then engine.error else CallFailed))
  {
    var engine := OpenEngine(cfg, w.servers, i, plan, o.describe, o.open);
    var home := HomeOf(cfg, i.row, plan);
    if engine.Ok? && home in w.servers {
      DisablesIff(engine.value, w.servers[home], i.row.dbName, user.row.username, o.revoke, o.dropUser);
    }
  }

  /** A binding that is not the last of its user: when it is deleted nothing else is done, and the answer is
      success. */
  lemma OneBindingOfMore(cfg: Config, w: World, req: BindRequest, o: UnbindCalls, i: Instance)
    requires FindObjects(cfg, w.rows, req.instanceID, o.find).Ok? && FindObjects(cfg, w.rows, req.instanceID, o.find).value.0 == i
    requires BindingUser(i.users, req.bindingID).Some? && o.deleteBinding
    ensures var (user, binding) := BindingUser(i.users, req.bindingID).value;
            |user.bindings| != 1 ==> Unbind(cfg, w, req, o) == (w.(rows := Erase(w.rows, [BindingRef(binding.id)])), UnboundOk)
  {
  }

  /** When exactly `Unbind` succeeds. */
  lemma UnbindAnswersIff(cfg: Config, w: World, req: BindRequest, o: UnbindCalls)
    ensures var reply := Unbind(cfg, w, req, o).1;
            && (reply == UnboundOk <==> Unbinds(cfg, w, req, o))
            && (reply != UnboundOk ==> reply.Failed?)
  {
    var found := FindObjects(cfg, w.rows, req.instanceID, o.find);
    if found.Ok? && BindingUser(found.value.0.users, req.bindingID).Some? && o.deleteBinding {
      var i := found.value.0;
      if |BindingUser(i.users, req.bindingID).value.0.bindings| != 1 {
        OneBindingOfMore(cfg, w, req, o, i);
      } else {
        FinishesLast(cfg, w, req, o, i, found.value.2);
      }
    }
  }

  /** The last binding: the answer is that of the second half. */
  lemma FinishesLast(cfg: Config, w: World, req: BindRequest, o: UnbindCalls, i: Instance, plan: Plan)
    requires FindObjects(cfg, w.rows, req.instanceID, o.find).Ok?
    requires var found := FindObjects(cfg, w.rows, req.instanceID, o.find).value; found.0 == i && found.2 == plan
    requires BindingUser(i.users, req.bindingID).Some? && o.deleteBinding && |BindingUser(i.users, req.bindingID).value.0.bindings| == 1
    ensures var (reply, user) := (Unbind(cfg, w, req, o).1, BindingUser(i.users, req.bindingID).value.0);
            var engine := OpenEngine(cfg, w.servers, i, plan, o.describe, o.open);
            && (reply == UnboundOk <==> RemovesUser(cfg, w, i, plan, user, o))
            && (reply != UnboundOk ==> reply == Failed(if engine.Err? then engine.error else CallFailed))
  {
    var rows := UnbindRows(w.rows, i, req.bindingID, o.deleteBinding).0;
    var user := BindingUser(i.users, req.bindingID).value.0;
    UnbindIsFinish(cfg, w, req, o, i, plan);
    FinishUnbindAnswers(cfg, w, rows, i, plan, user, o);
  }

  lemma UnbindIsFinish(cfg: Config, w: World, req: BindRequest, o: UnbindCalls, i: Instance, plan: Plan)
    requires FindObjects(cfg, w.rows, req.instanceID, o.find).Ok?
    requires var found := FindObjects(cfg, w.rows, req.instanceID, o.find).value; found.0 == i && found.2 == plan
    requires BindingUser(i.users, req.bindingID).Some? && o.deleteBinding && |BindingUser(i.users, req.bindingID).value.0.bindings| == 1
    ensures Unbind(cfg, w, req, o)
            == FinishUnbind(cfg, w.(rows := UnbindRows(w.rows, i, req.bindingID, o.deleteBinding).0), i, plan,
                            BindingUser(i.users, req.bindingID).value.0, o)
  {
  }

  /** And with which error it fails otherwise. */
  lemma UnbindFailsIff(cfg: Config, w: World, req: BindRequest, o: UnbindCalls, f: Failure)
    ensures Unbind(cfg, w, req, o).1 == Failed(f) <==> UnbindFails(cfg, w, req, o, f)
  {
    var found := FindObjects(cfg, w.rows, req.instanceID, o.find);
    if found.Ok? && BindingUser(found.value.0.users, req.bindingID).Some? && o.deleteBinding {
      LastUnbindFailsIff(cfg, w, found.value.0, found.value.2, req, o, f);
    } else {
      NothingDeleted(cfg, w, req, o, f);
    }
  }

  /** An `Unbind` that deletes no binding. */
  lemma NothingDeleted(cfg: Config, w: World, req: BindRequest, o: UnbindCalls, f: Failure)
    requires var found := FindObjects(cfg, w.rows, req.instanceID, o.find);
             found.Ok? ==> BindingUser(found.value.0.users, req.bindingID).None? || !o.deleteBinding
    ensures Unbind(cfg, w, req, o).0 == w
    ensures Unbind(cfg, w, req, o).1 == Failed(f) <==> UnbindFails(cfg, w, req, o, f)
  {
    LookUpFailsIff(cfg, w.rows, req.instanceID, o.find, f);
  }

  lemma LastUnbindFailsIff(cfg: Config, w: World, i: Instance, plan: Plan, req: BindRequest, o: UnbindCalls, f: Failure)
    requires FindObjects(cfg, w.rows, req.instanceID, o.find).Ok?
    requires var found := FindObjects(cfg, w.rows, req.instanceID, o.find).value; found.0 == i && found.2 == plan
    requires BindingUser(i.users, req.bindingID).Some? && o.deleteBinding
    ensures Unbind(cfg, w, req, o).1 == Failed(f) <==> UnbindFails(cfg, w, req, o, f)
  {
    if |BindingUser(i.users, req.bindingID).value.0.bindings| != 1 {
      OneBindingOfMore(cfg, w, req, o, i);
    } else {
      ConnectFailsIff(cfg, w.servers, i, plan, o.describe, o.open, f);
      FinishesLast(cfg, w, req, o, i, plan);
    }
  }

  /** The binding is unknown exactly when no standard user of the found instance has it in the tables; then
      nothing changes. */
  lemma UnknownBindingIff(cfg: Config, w: World, req: BindRequest, o: UnbindCalls)
    ensures var ((w', reply), found) := (Unbind(cfg, w, req, o), FindObjects(cfg, w.rows, req.instanceID, o.find));
            && (reply == Failed(UnknownBindingID) <==> found.Ok? && !IsBound(w.rows, found.value.0.id, req.bindingID))
            && (reply == Failed(UnknownBindingID) ==> w' == w)
  {
    var found := FindObjects(cfg, w.rows, req.instanceID, o.find);
    UnbindFailsIff(cfg, w, req, o, UnknownBindingID);
    FoundLoads(cfg, w.rows, req.instanceID, o.find);
    if found.Ok? {
      BindingUserIff(w.rows, found.value.0, req.bindingID);
      ConnectErrors(cfg, w.servers, found.value.0, found.value.2, o.describe, o.open);
    }
  }

  /** No connection fails with the error of an unknown binding. */
  lemma ConnectErrors(cfg: Config, servers: map<ServerId, Server>, i: Instance, plan: Plan, describe: bool, open: bool)
    ensures !ConnectFails(cfg, servers, i, plan, describe, open, UnknownBindingID)
  {
  }

  /** What success means: that binding is gone and no other, unless it was the last of its user; then the user
      is gone too if no deletion of a row fails. */
  lemma UnboundMeans(cfg: Config, w: World, req: BindRequest, o: UnbindCalls)
    requires Unbind(cfg, w, req, o).1 == UnboundOk
    ensures var w' := Unbind(cfg, w, req, o).0;
            var (user, binding) := BindingUser(FindObjects(cfg, w.rows, req.instanceID, o.find).value.0.users, req.bindingID).value;
            && binding.id !in w'.rows.bindings && w'.rows.instances == w.rows.instances
            && (forall b :: b in w.rows.bindings && b != binding.id && w.rows.bindings[b].user != user.id
                  ==> b in w'.rows.bindings && w'.rows.bindings[b] == w.rows.bindings[b])
            && (|user.bindings| != 1 ==> w'.rows.users == w.rows.users && w'.rows.bindings == w.rows.bindings - {binding.id}
                                         && w'.servers == w.servers)
            && (|user.bindings| == 1 && o.deletes.None? ==> w'.rows.users == w.rows.users - {user.id})
  {
    UnbindAnswersIff(cfg, w, req, o);
    FoundLoads(cfg, w.rows, req.instanceID, o.find);
    var (i, plan) := (FindObjects(cfg, w.rows, req.instanceID, o.find).value.0, FindObjects(cfg, w.rows, req.instanceID, o.find).value.2);
    var (user, binding) := BindingUser(i.users, req.bindingID).value;
    assert LoadsUser(w.rows, user);
    UnboundRows(w.rows, user, binding, o.deletes);
  }

  lemma UnboundRows(rows: Rows, user: User, binding: Binding, deletes: Option<nat>)
    requires LoadsUser(rows, user) && binding in user.bindings
    ensures var one := Erase(rows, [BindingRef(binding.id)]);
            one.instances == rows.instances && one.users == rows.users && one.bindings == rows.bindings - {binding.id}
    ensures var all := DeleteUserRows(Erase(rows, [BindingRef(binding.id)]), user, deletes);
            && all.instances == rows.instances && binding.id !in all.bindings
            && (forall b :: b in rows.bindings && b != binding.id && rows.bindings[b].user != user.id
                  ==> b in all.bindings && all.bindings[b] == rows.bindings[b])
            && (deletes.None? ==> all.users == rows.users - {user.id})
  {
    var (refs, cascade) := ([BindingRef(binding.id)], UserCascade(user));
    var n := GoThrough(|cascade|, 0, deletes);
    var one := Erase(rows, refs);
    assert one.instances == rows.instances && one.users == rows.users && one.bindings == rows.bindings - {binding.id};
    UserCascadeAt(user);
    CascadeBindings(rows, user, n);
    var all := Erase(one, cascade[..n]);
    assert all.instances == rows.instances;
    if deletes.None? {
      assert cascade[..n] == cascade && cascade[|cascade| - 1] == UserRef(user.id);
      assert all.users == rows.users - {user.id};
    }
  }

  lemma CascadeBindings(rows: Rows, user: User, n: nat)
    requires LoadsUser(rows, user) && n <= |UserCascade(user)|
    ensures forall b :: b in rows.bindings && rows.bindings[b].user != user.id ==> BindingRef(b) !in UserCascade(user)[..n]
    ensures forall r :: InstanceRef(r) !in UserCascade(user)[..n]
    ensures forall u :: u != user.id ==> UserRef(u) !in UserCascade(user)[..n]
  {
    UserCascadeAt(user);
    var cascade := UserCascade(user);
    forall k | 0 <= k < n
      ensures cascade[k] == UserRef(user.id) || (k < |user.bindings| && cascade[k] == BindingRef(user.bindings[k].id))
    {
    }
    forall k | 0 <= k < |user.bindings|
      ensures rows.bindings[user.bindings[k].id].user == user.id
    {
      assert user.bindings[k] in user.bindings;
    }
  }
}
