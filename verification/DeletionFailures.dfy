/** What an interrupted `Deprovision` or `LastOperation` leaves behind: exactly when they put users and roles
    out of step, and exactly when they keep the invariant of reference counting. */
module DeletionFailures {
  import opened Wrappers
  import opened Models
  import opened Records
  import opened Catalog
  import opened SqlServers
  import opened Broker
  import opened RunRecords
  import opened RefCount
  import opened RefCountDelete

  // ---- The rows after a deletion that may stop half-way ---------------------

  /** The rows that go through when the deletion of the instance is interrupted. */
  function Refs(i: Instance, deletes: Option<nat>): seq<RowRef> {
    InstanceCascade(i)[..GoThrough(|InstanceCascade(i)|, 0, deletes)]
  }

  lemma WholeIff(i: Instance, deletes: Option<nat>)
    ensures Whole(i, deletes) <==> InstanceRef(i.id) in Refs(i, deletes)
  {
    var cascade := InstanceCascade(i);
    UsersCascadeMembers(i.users);
    if Whole(i, deletes) {
      assert cascade[|cascade| - 1] == InstanceRef(i.id) && Refs(i, deletes) == cascade;
    } else {
      assert forall k :: 0 <= k < |Refs(i, deletes)| ==> Refs(i, deletes)[k] in UsersCascade(i.users);
    }
  }

  /** A binding of the user is not among the deleted rows. */
  predicate KeepsBinding(rows: Rows, refs: seq<RowRef>, u: nat) {
    exists b :: b in rows.bindings && rows.bindings[b].user == u && BindingRef(b) !in refs
  }

  /** The last binding of some standard user is among the deleted rows. */
  ghost predicate LosesUser(rows: Rows, i: nat, refs: seq<RowRef>) {
    exists u :: StandardOf(rows, i, u) && !KeepsBinding(rows, refs, u)
  }

  /** Rows go that belong to one instance, in any number, and the foreign keys hold. */
  ghost predicate PartlyGone(rows: Rows, rows': Rows, i: nat, refs: seq<RowRef>) {
    && Integrity(rows) && Integrity(rows') && rows' == Erase(rows, refs)
    && (forall r :: InstanceRef(r) in refs ==> r == i)
    && (forall u :: u in rows.users && UserRef(u) in refs ==> rows.users[u].instance == i)
    && (forall b :: b in rows.bindings && BindingRef(b) in refs ==> rows.users[rows.bindings[b].user].instance == i)
  }

  lemma DeletionIsPartial(rows: Rows, i: Instance, deletes: Option<nat>)
    requires Integrity(rows) && Loads(rows, i)
    ensures PartlyGone(rows, DeleteInstanceRows(rows, i, deletes), i.id, Refs(i, deletes))
  {
    var (cascade, n) := (InstanceCascade(i), GoThrough(|InstanceCascade(i)|, 0, deletes));
    LoadsCovers(rows, i);
    InstanceCascadeKeepsIntegrity(rows, i, n);
    UsersCascadeMembers(i.users);
    forall ref | ref in Refs(i, deletes)
      ensures ref in cascade
    {
    }
    forall u | u in rows.users && UserRef(u) in Refs(i, deletes)
      ensures rows.users[u].instance == i.id
    {
      InstanceCascadeHasUser(rows, i, u);
    }
    forall b | b in rows.bindings && BindingRef(b) in Refs(i, deletes)
      ensures rows.users[rows.bindings[b].user].instance == i.id
    {
      InstanceCascadeHasBinding(rows, i, b);
    }
  }

  /** A kept binding keeps its user. */
  lemma KeptIsBound(rows: Rows, rows': Rows, i: nat, refs: seq<RowRef>, u: nat)
    requires PartlyGone(rows, rows', i, refs)
    ensures KeepsBinding(rows, refs, u) <==> HasBinding(rows', u)
    ensures KeepsBinding(rows, refs, u) ==> u in rows'.users
  {
    if KeepsBinding(rows, refs, u) {
      var b :| b in rows.bindings && rows.bindings[b].user == u && BindingRef(b) !in refs;
      assert b in rows'.bindings && rows'.bindings[b].user == u;
    }
    if HasBinding(rows', u) {
      var b :| b in rows'.bindings && rows'.bindings[b].user == u;
      assert b in rows.bindings && BindingRef(b) !in refs;
    }
  }

  /** The users and bindings of another instance are untouched. */
  lemma OthersUntouched(rows: Rows, rows': Rows, i: nat, refs: seq<RowRef>, r: nat)
    requires PartlyGone(rows, rows', i, refs) && r != i && r in rows.instances
    ensures r in rows'.instances && rows'.instances[r] == rows.instances[r]
    ensures forall u :: (u in rows'.users && rows'.users[u].instance == r) <==> (u in rows.users && rows.users[u].instance == r)
    ensures forall u :: u in rows.users && rows.users[u].instance == r
              ==> rows'.users[u] == rows.users[u] && (HasBinding(rows', u) <==> HasBinding(rows, u))
    ensures forall name :: HasStandardUser(rows', r, name) <==> HasStandardUser(rows, r, name)
  {
    forall u | u in rows.users && rows.users[u].instance == r
      ensures HasBinding(rows', u) <==> HasBinding(rows, u)
    {
      if HasBinding(rows, u) {
        var b :| b in rows.bindings && rows.bindings[b].user == u;
        assert b in rows'.bindings && rows'.bindings[b].user == u;
      }
    }
    forall name
      ensures HasStandardUser(rows', r, name) <==> HasStandardUser(rows, r, name)
    {
      if HasStandardUser(rows, r, name) {
        var u :| u in rows.users && rows.users[u].instance == r && rows.users[u].kind == Standard && rows.users[u].username == name;
        assert u in rows'.users && rows'.users[u] == rows.users[u];
      }
    }
  }

  /** On a server that gives it the same roles another instance stays in step. */
  lemma OtherInStep(cfg: Config, rows: Rows, rows': Rows, i: nat, refs: seq<RowRef>, r: nat, s: Server, s': Server)
    requires PartlyGone(rows, rows', i, refs) && r != i && r in rows.instances && InStep(cfg, rows, r, s)
    requires forall name :: CanUse(s', rows.instances[r].dbName, name) <==> CanUse(s, rows.instances[r].dbName, name)
    requires forall u :: StandardOf(rows, r, u) && rows.users[u].username in s.roles
               ==> rows.users[u].username in s'.roles && s'.roles[rows.users[u].username] == s.roles[rows.users[u].username]
    ensures r in rows'.instances && InStep(cfg, rows', r, s')
  {
    OthersUntouched(rows, rows', i, refs, r);
    forall u | u in rows'.users && rows'.users[u].instance == r && rows'.users[u].kind == Standard
      ensures rows'.users[u].username in s'.roles
      ensures Password(rows'.users[u], cfg.key) == Some(s'.roles[rows'.users[u].username].password)
    {
      assert StandardOf(rows, r, u);
    }
  }

  // ---- The instance itself -------------------------------------------------

  /** Whether a standard user is still in step: where its role can still use the database it has to keep a
      binding, and where it cannot, its row has to be gone. */
  predicate UserInStep(rows: Rows, refs: seq<RowRef>, u: nat, usable: bool) {
    if usable then KeepsBinding(rows, refs, u) else UserRef(u) in refs
  }

  /** The instance is still recorded, and its roles are as `usable` says, those that are with their
      passwords. */
  ghost predicate Interrupted(cfg: Config, rows: Rows, i: nat, refs: seq<RowRef>, s': Server, usable: string -> bool) {
    && i in rows.instances && InstanceRef(i) !in refs
    && (forall name :: CanUse(s', rows.instances[i].dbName, name) <==> HasStandardUser(rows, i, name) && usable(name))
    && (forall u :: StandardOf(rows, i, u) && usable(rows.users[u].username)
          ==> rows.users[u].username in s'.roles
              && Password(rows.users[u], cfg.key) == Some(s'.roles[rows.users[u].username].password))
  }

  lemma InterruptedInStep(cfg: Config, rows: Rows, rows': Rows, i: nat, refs: seq<RowRef>, s': Server, usable: string -> bool)
    requires UniqueUsernames(rows) && BindingsFit(rows) && PartlyGone(rows, rows', i, refs)
    requires forall u :: u in rows.users ==> rows.users[u].kind != SuperUser
    requires Interrupted(cfg, rows, i, refs, s', usable)
    requires forall u :: StandardOf(rows, i, u) ==> UserInStep(rows, refs, u, usable(rows.users[u].username))
    ensures i in rows'.instances && InStep(cfg, rows', i, s')
  {
    forall u | u in rows'.users && rows'.users[u].instance == i
      ensures rows'.users[u].kind == Standard <==> HasBinding(rows', u)
      ensures rows'.users[u].kind == Standard ==> usable(rows'.users[u].username)
    {
      KeptIsBound(rows, rows', i, refs, u);
      if rows'.users[u].kind == Standard {
        assert StandardOf(rows, i, u);
      }
    }
    forall name
      ensures CanUse(s', rows'.instances[i].dbName, name) <==> HasStandardUser(rows', i, name)
    {
      if HasStandardUser(rows, i, name) && usable(name) {
        var u :| u in rows.users && rows.users[u].instance == i && rows.users[u].kind == Standard && rows.users[u].username == name;
        assert StandardOf(rows, i, u);
        KeptIsBound(rows, rows', i, refs, u);
        assert u in rows'.users;
      }
      if HasStandardUser(rows', i, name) {
        var u :| u in rows'.users && rows'.users[u].instance == i && rows'.users[u].kind == Standard && rows'.users[u].username == name;
        assert StandardOf(rows, i, u);
      }
    }
  }

  lemma InterruptedOutOfStep(cfg: Config, rows: Rows, rows': Rows, i: nat, refs: seq<RowRef>, s': Server, usable: string -> bool, u: nat)
    requires UniqueUsernames(rows) && PartlyGone(rows, rows', i, refs) && Interrupted(cfg, rows, i, refs, s', usable)
    requires StandardOf(rows, i, u) && !UserInStep(rows, refs, u, usable(rows.users[u].username))
    ensures i in rows'.instances && !InStep(cfg, rows', i, s')
  {
    var name := rows.users[u].username;
    assert HasStandardUser(rows, i, name);
    KeptIsBound(rows, rows', i, refs, u);
    if u in rows'.users {
      assert HasStandardUser(rows', i, name);
    }
  }

  // ---- LastOperation -------------------------------------------------------

  /** RDS reports the instance gone, its database server is still there, as a cluster can be, and the
      deletion of the rows stops before the instance and after the last binding of a standard user. */
  ghost predicate LeavesUsersBehind(cfg: Config, w: World, id: string, o: LastOperationCalls) {
    var found := FindObjects(cfg, w.rows, id, o.find);
    && found.Ok?
    && var (i, plan) := (found.value.0, found.value.2);
       && !plan.shared && o.describe && InstanceServer(cfg, i.row) !in w.servers && HomeOf(cfg, i.row, plan) in w.servers
       && !Whole(i, o.deletes) && LosesUser(w.rows, i.id, Refs(i, o.deletes))
  }

  lemma LastOperationDeletes(cfg: Config, w: World, id: string, o: LastOperationCalls)
    ensures var found := FindObjects(cfg, w.rows, id, o.find);
            var w' := LastOperation(cfg, w, id, o).0;
            && w'.servers == w.servers
            && (if found.Ok? && !found.value.2.shared && o.describe && InstanceServer(cfg, found.value.0.row) !in w.servers
                then w'.rows == DeleteInstanceRows(w.rows, found.value.0, o.deletes)
                else w'.rows == w.rows)
  {
  }

  /** With the roles as they were, all standard users of the instance can use the database. */
  lemma AllUsable(cfg: Config, ids: set<string>, w: World, i: nat, sid: ServerId, refs: seq<RowRef>)
    requires RolesApart(ids) && Counted(cfg, ids, w) && At(cfg, w.rows, i, sid) && sid in w.servers && InstanceRef(i) !in refs
    ensures Interrupted(cfg, w.rows, i, refs, w.servers[sid], (name: string) => true)
  {
    CountedIsInStep(cfg, ids, w);
    InStepIsUsable(cfg, w.rows, i, refs, w.servers[sid]);
  }

  lemma InStepIsUsable(cfg: Config, rows: Rows, i: nat, refs: seq<RowRef>, s: Server)
    requires i in rows.instances && InStep(cfg, rows, i, s) && InstanceRef(i) !in refs
    ensures Interrupted(cfg, rows, i, refs, s, (name: string) => true)
  {
  }

  /** The instances besides the one that goes. */
  lemma OthersInStep(cfg: Config, ids: set<string>, w: World, w': World, i: nat, refs: seq<RowRef>, r: nat, sid: ServerId)
    requires RolesApart(ids) && Counted(cfg, ids, w) && PartlyGone(w.rows, w'.rows, i, refs)
    requires r != i && At(cfg, w'.rows, r, sid) && sid in w.servers && sid in w'.servers && w'.servers[sid] == w.servers[sid]
    ensures InStep(cfg, w'.rows, r, w'.servers[sid])
  {
    CountedIsInStep(cfg, ids, w);
    assert At(cfg, w.rows, r, sid);
    OtherInStep(cfg, w.rows, w'.rows, i, refs, r, w.servers[sid], w'.servers[sid]);
  }

  /** The deletion of an instance's rows on unchanged servers. */
  lemma DeletionIff(cfg: Config, ids: set<string>, w: World, w': World, i: Instance, home: ServerId, refs: seq<RowRef>)
    requires RolesApart(ids) && Counted(cfg, ids, w) && PartlyGone(w.rows, w'.rows, i.id, refs) && w'.servers == w.servers
    requires At(cfg, w.rows, i.id, home)
    ensures AllInStep(cfg, w')
            <==> !(home in w.servers && InstanceRef(i.id) !in refs && LosesUser(w.rows, i.id, refs))
  {
    if home in w.servers && InstanceRef(i.id) !in refs {
      AllUsable(cfg, ids, w, i.id, home, refs);
      if u :| StandardOf(w.rows, i.id, u) && !KeepsBinding(w.rows, refs, u) {
        InterruptedOutOfStep(cfg, w.rows, w'.rows, i.id, refs, w.servers[home], (name: string) => true, u);
        assert At(cfg, w'.rows, i.id, home);
      } else {
        NoSuperUsers(cfg, ids, w.rows);
        InterruptedInStep(cfg, w.rows, w'.rows, i.id, refs, w.servers[home], (name: string) => true);
        OthersDecide(cfg, ids, w, w', i.id, home, refs);
      }
    } else {
      OthersDecide(cfg, ids, w, w', i.id, home, refs);
    }
  }

  lemma NoSuperUsers(cfg: Config, ids: set<string>, rows: Rows)
    requires UsersFit(cfg, ids, rows)
    ensures forall u :: u in rows.users ==> rows.users[u].kind != SuperUser
  {
    assert forall u :: u in rows.users ==> UserFits(cfg, ids, rows, rows.users[u]);
  }

  /** All is in step if the instance itself is, where it is still there. */
  lemma OthersDecide(cfg: Config, ids: set<string>, w: World, w': World, i: nat, home: ServerId, refs: seq<RowRef>)
    requires RolesApart(ids) && Counted(cfg, ids, w) && PartlyGone(w.rows, w'.rows, i, refs) && w'.servers == w.servers
    requires At(cfg, w.rows, i, home)
    requires home in w.servers && i in w'.rows.instances ==> InStep(cfg, w'.rows, i, w.servers[home])
    ensures AllInStep(cfg, w')
  {
    forall r, sid | At(cfg, w'.rows, r, sid) && sid in w'.servers
      ensures InStep(cfg, w'.rows, r, w'.servers[sid])
    {
      if r != i {
        OthersInStep(cfg, ids, w, w', i, refs, r, sid);
      }
    }
  }

  /** When exactly a `LastOperation` keeps users and roles in step. */
  lemma LastOperationInStepIff(cfg: Config, ids: set<string>, w: World, id: string, o: LastOperationCalls)
    requires RolesApart(ids) && Counted(cfg, ids, w)
    ensures AllInStep(cfg, LastOperation(cfg, w, id, o).0) <==> !LeavesUsersBehind(cfg, w, id, o)
  {
    var w' := LastOperation(cfg, w, id, o).0;
    var found := FindObjects(cfg, w.rows, id, o.find);
    FoundLoads(cfg, w.rows, id, o.find);
    LastOperationDeletes(cfg, w, id, o);
    CountedIsInStep(cfg, ids, w);
    if found.Ok? && !found.value.2.shared && o.describe && InstanceServer(cfg, found.value.0.row) !in w.servers {
      var (i, plan) := (found.value.0, found.value.2);
      WholeIff(i, o.deletes);
      DeletionIsPartial(w.rows, i, o.deletes);
      DeletionIff(cfg, ids, w, w', i, HomeOf(cfg, i.row, plan), Refs(i, o.deletes));
    } else {
      SameIsInStep(cfg, w, w');
    }
  }

  lemma SameIsInStep(cfg: Config, w: World, w': World)
    requires AllInStep(cfg, w) && w'.rows == w.rows && w'.servers == w.servers
    ensures AllInStep(cfg, w')
  {
  }

  // ---- Deprovision ---------------------------------------------------------

  /** After `Deprovision` the role of a user of the instance can use its database only on MySQL, which keeps
      the grants on a dropped database, and only if the drop of that user failed. */
  function StillUsable(kind: EngineKind, dropUser: string -> bool): string -> bool {
    name => kind == MySQL && !dropUser(name)
  }

  /** The database of a shared instance is dropped, and the deletion of its rows stops before the instance,
      with a standard user that is not in step: one whose role still works and which has lost its last
      binding, or one whose role does not work and which is still there. */
  ghost predicate HalfDeprovisioned(cfg: Config, w: World, req: DeprovisionRequest, o: DeprovisionCalls) {
    var found := FindObjects(cfg, w.rows, req.instanceID, o.find);
    && DropsDatabase(cfg, w, req, o) && !Whole(found.value.0, o.deletes)
    && AUserOutOfStep(w.rows, found.value.0.id, Refs(found.value.0, o.deletes),
                      StillUsable(SharedEngine(found.value.2.engine).value, o.dropUser))
  }

  ghost predicate AUserOutOfStep(rows: Rows, i: nat, refs: seq<RowRef>, usable: string -> bool) {
    exists u :: StandardOf(rows, i, u) && !UserInStep(rows, refs, u, usable(rows.users[u].username))
  }

  lemma StandardIsNamed(rows: Rows, i: Instance, name: string)
    requires Loads(rows, i) && HasStandardUser(rows, i.id, name)
    ensures Named(i.users, name)
  {
    var u :| u in rows.users && rows.users[u].instance == i.id && rows.users[u].kind == Standard && rows.users[u].username == name;
    NameOfGone(rows, i, u);
  }

  lemma DroppedInterrupted(cfg: Config, rows: Rows, i: Instance, kind: EngineKind, s: Server, s': Server, refs: seq<RowRef>, dropUser: string -> bool)
    requires Loads(rows, i) && InStep(cfg, rows, i.id, s) && InstanceRef(i.id) !in refs && ServerDropped(kind, s, s', i, dropUser)
    ensures Interrupted(cfg, rows, i.id, refs, s', StillUsable(kind, dropUser))
  {
    forall name
      ensures CanUse(s', i.row.dbName, name) <==> HasStandardUser(rows, i.id, name) && StillUsable(kind, dropUser)(name)
    {
      if HasStandardUser(rows, i.id, name) {
        StandardIsNamed(rows, i, name);
      }
      assert CanUse(s, i.row.dbName, name) <==> HasStandardUser(rows, i.id, name);
    }
    forall u | StandardOf(rows, i.id, u) && StillUsable(kind, dropUser)(rows.users[u].username)
      ensures rows.users[u].username in s'.roles
      ensures Password(rows.users[u], cfg.key) == Some(s'.roles[rows.users[u].username].password)
    {
      assert s'.roles[rows.users[u].username] == s.roles[rows.users[u].username];
    }
  }

  /** Another instance on the server keeps its roles and grants. */
  lemma DroppedOther(cfg: Config, ids: set<string>, rows: Rows, i: Instance, kind: EngineKind, sid: ServerId, s: Server, s': Server,
                     dropUser: string -> bool, r: nat)
    requires RolesApart(ids) && RowsFit(cfg, ids, rows) && Loads(rows, i) && At(cfg, rows, i.id, sid) && At(cfg, rows, r, sid) && r != i.id
    requires InStep(cfg, rows, r, s) && GrantsLive(cfg, rows, sid, s) && ServerDropped(kind, s, s', i, dropUser)
    ensures forall name :: CanUse(s', rows.instances[r].dbName, name) <==> CanUse(s, rows.instances[r].dbName, name)
    ensures forall u :: StandardOf(rows, r, u) && rows.users[u].username in s.roles
              ==> rows.users[u].username in s'.roles && s'.roles[rows.users[u].username] == s.roles[rows.users[u].username]
  {
    OtherDatabase(cfg, ids, rows, r, i.id);
    forall u | StandardOf(rows, r, u)
      ensures !Named(i.users, rows.users[u].username)
    {
      NameOfOther(cfg, rows, i, sid, u);
    }
    forall name
      ensures CanUse(s', rows.instances[r].dbName, name) <==> CanUse(s, rows.instances[r].dbName, name)
    {
      if (rows.instances[r].dbName, name) in s.grants {
        GrantIsOfInstance(cfg, ids, rows, r, sid, name);
        var u :| u in rows.users && rows.users[u].instance == r && rows.users[u].kind == Standard && rows.users[u].username == name;
        assert StandardOf(rows, r, u);
      }
    }
  }

  /** All but the instance that goes are in step. */
  lemma OthersAfterDrop(cfg: Config, ids: set<string>, w: World, w': World, i: Instance, kind: EngineKind, home: ServerId,
                        refs: seq<RowRef>, dropUser: string -> bool, r: nat, sid: ServerId)
    requires RolesApart(ids) && Counted(cfg, ids, w) && Loads(w.rows, i) && At(cfg, w.rows, i.id, home) && Kind(cfg, i.row) == Some(kind)
    requires PartlyGone(w.rows, w'.rows, i.id, refs) && home in w.servers && home in w'.servers
    requires w'.servers == w.servers[home := w'.servers[home]] && ServerDropped(kind, w.servers[home], w'.servers[home], i, dropUser)
    requires r != i.id && At(cfg, w'.rows, r, sid) && sid in w'.servers
    ensures InStep(cfg, w'.rows, r, w'.servers[sid])
  {
    if sid != home {
      OthersInStep(cfg, ids, w, w', i.id, refs, r, sid);
    } else {
      assert At(cfg, w.rows, r, home);
      assert GrantsLive(cfg, w.rows, home, w.servers[home]) by {
        assert Serves(cfg, w.rows, home, kind);
      }
      CountedIsInStep(cfg, ids, w);
      DroppedOther(cfg, ids, w.rows, i, kind, home, w.servers[home], w'.servers[home], dropUser, r);
      OtherInStep(cfg, w.rows, w'.rows, i.id, refs, r, w.servers[home], w'.servers[home]);
    }
  }

  lemma DropIff(cfg: Config, ids: set<string>, w: World, w': World, i: Instance, kind: EngineKind, home: ServerId,
                refs: seq<RowRef>, dropUser: string -> bool)
    requires RolesApart(ids) && Counted(cfg, ids, w) && Loads(w.rows, i) && At(cfg, w.rows, i.id, home) && Kind(cfg, i.row) == Some(kind)
    requires PartlyGone(w.rows, w'.rows, i.id, refs) && home in w.servers && home in w'.servers
    requires w'.servers == w.servers[home := w'.servers[home]] && ServerDropped(kind, w.servers[home], w'.servers[home], i, dropUser)
    ensures AllInStep(cfg, w')
            <==> !(InstanceRef(i.id) !in refs && AUserOutOfStep(w.rows, i.id, refs, StillUsable(kind, dropUser)))
  {
    var usable := StillUsable(kind, dropUser);
    CountedIsInStep(cfg, ids, w);
    if InstanceRef(i.id) !in refs && AUserOutOfStep(w.rows, i.id, refs, usable) {
      DroppedInterrupted(cfg, w.rows, i, kind, w.servers[home], w'.servers[home], refs, dropUser);
      var u :| StandardOf(w.rows, i.id, u) && !UserInStep(w.rows, refs, u, usable(w.rows.users[u].username));
      InterruptedOutOfStep(cfg, w.rows, w'.rows, i.id, refs, w'.servers[home], usable, u);
      assert At(cfg, w'.rows, i.id, home);
    } else {
      if InstanceRef(i.id) !in refs {
        DroppedInterrupted(cfg, w.rows, i, kind, w.servers[home], w'.servers[home], refs, dropUser);
        NoSuperUsers(cfg, ids, w.rows);
        InterruptedInStep(cfg, w.rows, w'.rows, i.id, refs, w'.servers[home], usable);
      }
      forall r, sid | At(cfg, w'.rows, r, sid) && sid in w'.servers
        ensures InStep(cfg, w'.rows, r, w'.servers[sid])
      {
        if r != i.id {
          OthersAfterDrop(cfg, ids, w, w', i, kind, home, refs, dropUser, r, sid);
        }
      }
    }
  }

  /** When exactly users and roles are in step right after a `Deprovision`. What it leaves behind can still put
      a later step out of step: see `DeprovisionCountedIff`. */
  lemma DeprovisionInStepIff(cfg: Config, ids: set<string>, w: World, req: DeprovisionRequest, o: DeprovisionCalls)
    requires RolesApart(ids) && Counted(cfg, ids, w)
    ensures AllInStep(cfg, Deprovision(cfg, w, req, o).0) <==> !HalfDeprovisioned(cfg, w, req, o)
  {
    var w' := Deprovision(cfg, w, req, o).0;
    var found := FindObjects(cfg, w.rows, req.instanceID, o.find);
    FoundLoads(cfg, w.rows, req.instanceID, o.find);
    if DropsDatabase(cfg, w, req, o) {
      var (i, plan) := (found.value.0, found.value.2);
      WholeIff(i, o.deletes);
      SharedDeprovisionEffect(cfg, w, req, o, i, plan);
      DeletionIsPartial(w.rows, i, o.deletes);
      DropIff(cfg, ids, w, w', i, SharedEngine(plan.engine).value, Shared(plan.engine), Refs(i, o.deletes), o.dropUser);
    } else {
      OtherwiseCalm(cfg, w, req, o);
      CalmKeeps(cfg, ids, w, w');
      CountedIsInStep(cfg, ids, w');
    }
  }

  // ---- When they keep the invariant ----------------------------------------

  /** The instance is recorded, and its database is dropped. */
  lemma WithoutDatabase(cfg: Config, w: World, w': World, i: Instance, plan: Plan, deletes: Option<nat>, s': Server)
    requires Loads(w.rows, i) && RecordedPlan(cfg, i.row) == Some(plan) && plan.shared && SharedEngine(plan.engine).Some?
    requires w'.rows == DeleteInstanceRows(w.rows, i, deletes) && !Whole(i, deletes)
    requires Shared(plan.engine) in w'.servers && i.row.dbName !in w'.servers[Shared(plan.engine)].databases
    ensures !ServersFit(cfg, w')
  {
    WholeIff(i, deletes);
    assert At(cfg, w'.rows, i.id, Shared(plan.engine));
    assert Serves(cfg, w'.rows, Shared(plan.engine), SharedEngine(plan.engine).value);
  }

  /** The account of a deleted user is left on a MySQL server. */
  lemma AccountLeft(cfg: Config, ids: set<string>, w: World, w': World, i: Instance, sid: ServerId, u: nat, dropUser: string -> bool)
    requires RowsFit(cfg, ids, w.rows) && ServersFit(cfg, w) && Loads(w.rows, i) && At(cfg, w.rows, i.id, sid) && StandardOf(w.rows, i.id, u)
    requires sid.Shared? && SharedEngine(sid.engine) == Some(MySQL) && sid in w.servers && sid in w'.servers
    requires InstanceGone(w.rows, w'.rows, i.id) && ServerDropped(MySQL, w.servers[sid], w'.servers[sid], i, dropUser)
    requires !dropUser(w.rows.users[u].username)
    ensures !ServersFit(cfg, w')
  {
    var name := w.rows.users[u].username;
    assert StandardAt(cfg, w.rows, u, sid) && ServerFits(cfg, w.rows, sid, w.servers[sid], MySQL);
    assert UserServed(cfg, w.rows, u, w.servers[sid]);
    assert name in w'.servers[sid].roles;
    assert Serves(cfg, w'.rows, sid, MySQL);
    assert !LiveName(cfg, w'.rows, sid, name) by {
      forall v | StandardAt(cfg, w'.rows, v, sid)
        ensures w'.rows.users[v].username != name
      {
        assert UserAt(cfg, w.rows, v, sid) && UserAt(cfg, w.rows, u, sid);
      }
    }
  }

  /** When exactly a `Deprovision` keeps the invariant, and with it every later careful run in step: when it does
      not drop a database, or deletes all rows of that instance and leaves no MySQL account. User drops on
      Postgres may fail. */
  lemma DeprovisionCountedIff(cfg: Config, ids: set<string>, w: World, req: DeprovisionRequest, o: DeprovisionCalls)
    requires RolesApart(ids) && Counted(cfg, ids, w)
    ensures Counted(cfg, ids, Deprovision(cfg, w, req, o).0) <==> CarefulDeprovision(cfg, w, req, o)
  {
    var w' := Deprovision(cfg, w, req, o).0;
    if CarefulDeprovision(cfg, w, req, o) {
      DeprovisionCounted(cfg, ids, w, req, o);
    } else {
      FoundLoads(cfg, w.rows, req.instanceID, o.find);
      var (i, plan) := (FindObjects(cfg, w.rows, req.instanceID, o.find).value.0, FindObjects(cfg, w.rows, req.instanceID, o.find).value.2);
      var sid := Shared(plan.engine);
      SharedDeprovisionEffect(cfg, w, req, o, i, plan);
      if !Whole(i, o.deletes) {
        WithoutDatabase(cfg, w, w', i, plan, o.deletes, w'.servers[sid]);
      } else {
        var u :| StandardOf(w.rows, i.id, u) && !o.dropUser(w.rows.users[u].username);
        WholeIsAll(w.rows, i, o.deletes);
        DeletedInstanceGone(w.rows, i);
        AccountLeft(cfg, ids, w, w', i, sid, u, o.dropUser);
      }
    }
  }

  /** The row of the master user is among the deleted ones. */
  predicate LosesMaster(rows: Rows, i: nat, refs: seq<RowRef>) {
    exists u :: u in rows.users && rows.users[u].instance == i && rows.users[u].kind == Master && UserRef(u) in refs
  }

  /** RDS reports the instance gone, and the deletion of its rows stops before the last and after the master
      user, or after the last binding of a standard user whose database server is still there. */
  ghost predicate HalfForgotten(cfg: Config, w: World, id: string, o: LastOperationCalls) {
    var found := FindObjects(cfg, w.rows, id, o.find);
    && found.Ok?
    && var (i, plan) := (found.value.0, found.value.2);
       && !plan.shared && o.describe && InstanceServer(cfg, i.row) !in w.servers && !Whole(i, o.deletes)
       && (LosesMaster(w.rows, i.id, Refs(i, o.deletes))
           || (HomeOf(cfg, i.row, plan) in w.servers && LosesUser(w.rows, i.id, Refs(i, o.deletes))))
  }

  /** The rows that are left still fit when the instance keeps its row and its master. */
  lemma PartRecordsOk(rows: Rows, rows': Rows, i: nat, refs: seq<RowRef>)
    requires RecordsOk(rows, {}) && PartlyGone(rows, rows', i, refs) && !LosesMaster(rows, i, refs)
    ensures RecordsOk(rows', {})
  {
    EraseKeeps(rows, {}, refs);
  }

  lemma PartRowsFit(cfg: Config, ids: set<string>, rows: Rows, rows': Rows, i: nat, refs: seq<RowRef>)
    requires RowsFit(cfg, ids, rows) && PartlyGone(rows, rows', i, refs) && !LosesMaster(rows, i, refs)
    ensures RowsFit(cfg, ids, rows')
  {
    PartRecordsOk(rows, rows', i, refs);
    forall u | u in rows'.users
      ensures UserFits(cfg, ids, rows', rows'.users[u])
    {
      assert UserFits(cfg, ids, rows, rows.users[u]);
    }
    forall u, v, sid | UserAt(cfg, rows', u, sid) && UserAt(cfg, rows', v, sid) && rows'.users[u].username == rows'.users[v].username
      ensures u == v
    {
      assert UserAt(cfg, rows, u, sid) && UserAt(cfg, rows, v, sid);
    }
  }

  /** On a server where no standard user is lost, the standard users are the same and have bindings. */
  lemma PartAgrees(cfg: Config, rows: Rows, rows': Rows, i: nat, refs: seq<RowRef>, sid: ServerId)
    requires PartlyGone(rows, rows', i, refs) && InstanceRef(i) !in refs
    requires At(cfg, rows, i, sid) ==> !LosesUser(rows, i, refs)
    ensures AgreeAt(cfg, rows, rows', sid)
    ensures forall u :: StandardAt(cfg, rows, u, sid) && HasBinding(rows, u) ==> HasBinding(rows', u)
  {
    forall u | StandardAt(cfg, rows, u, sid)
      ensures StandardAt(cfg, rows', u, sid) && (HasBinding(rows, u) ==> HasBinding(rows', u))
    {
      if rows.users[u].instance == i {
        assert StandardOf(rows, i, u);
        KeptIsBound(rows, rows', i, refs, u);
      } else {
        OthersUntouched(rows, rows', i, refs, rows.users[u].instance);
      }
    }
  }

  lemma PartCounted(cfg: Config, ids: set<string>, w: World, w': World, i: nat, refs: seq<RowRef>, home: ServerId)
    requires Counted(cfg, ids, w) && PartlyGone(w.rows, w'.rows, i, refs) && w'.servers == w.servers && At(cfg, w.rows, i, home)
    requires InstanceRef(i) !in refs && !LosesMaster(w.rows, i, refs) && (home in w.servers ==> !LosesUser(w.rows, i, refs))
    ensures Counted(cfg, ids, w')
  {
    PartRowsFit(cfg, ids, w.rows, w'.rows, i, refs);
    forall sid, kind | sid in w'.servers && Serves(cfg, w'.rows, sid, kind)
      ensures ServerFits(cfg, w'.rows, sid, w'.servers[sid], kind)
    {
      PartAgrees(cfg, w.rows, w'.rows, i, refs, sid);
      PartServes(cfg, w.rows, w'.rows, sid, kind);
      AgreeingFits(cfg, w.rows, w'.rows, sid, w.servers[sid], kind);
    }
    forall u, sid | StandardAt(cfg, w'.rows, u, sid) && sid in w'.servers
      ensures HasBinding(w'.rows, u)
    {
      PartAgrees(cfg, w.rows, w'.rows, i, refs, sid);
    }
  }

  lemma PartServes(cfg: Config, rows: Rows, rows': Rows, sid: ServerId, kind: EngineKind)
    requires forall r :: At(cfg, rows', r, sid) ==> At(cfg, rows, r, sid) && rows'.instances[r] == rows.instances[r]
    requires Serves(cfg, rows', sid, kind)
    ensures Serves(cfg, rows, sid, kind)
  {
    if !(sid.Shared? && SharedEngine(sid.engine) == Some(kind)) {
      var r :| At(cfg, rows', r, sid) && Kind(cfg, rows'.instances[r]) == Some(kind);
      assert At(cfg, rows, r, sid);
    }
  }

  /** An instance without its master user. */
  lemma MasterLost(rows: Rows, rows': Rows, i: nat, refs: seq<RowRef>)
    requires AtMostOneMaster(rows) && PartlyGone(rows, rows', i, refs) && i in rows.instances && InstanceRef(i) !in refs
    requires LosesMaster(rows, i, refs)
    ensures !RecordsOk(rows', {})
  {
    var u :| u in rows.users && rows.users[u].instance == i && rows.users[u].kind == Master && UserRef(u) in refs;
    assert i in rows'.instances && u !in rows'.users;
    forall v | v in rows'.users && rows'.users[v].instance == i
      ensures rows'.users[v].kind != Master
    {
      assert v in rows.users && v != u;
    }
  }

  /** When exactly a `LastOperation` keeps the invariant. */
  lemma LastOperationCountedIff(cfg: Config, ids: set<string>, w: World, id: string, o: LastOperationCalls)
    requires RolesApart(ids) && Counted(cfg, ids, w)
    ensures Counted(cfg, ids, LastOperation(cfg, w, id, o).0) <==> !HalfForgotten(cfg, w, id, o)
  {
    var w' := LastOperation(cfg, w, id, o).0;
    var found := FindObjects(cfg, w.rows, id, o.find);
    FoundLoads(cfg, w.rows, id, o.find);
    LastOperationDeletes(cfg, w, id, o);
    if found.Ok? && !found.value.2.shared && o.describe && InstanceServer(cfg, found.value.0.row) !in w.servers {
      ForgottenIff(cfg, ids, w, w', found.value.0, found.value.2, id, o);
    } else {
      CalmKeeps(cfg, ids, w, w');
    }
  }

  lemma ForgottenIff(cfg: Config, ids: set<string>, w: World, w': World, i: Instance, plan: Plan, id: string, o: LastOperationCalls)
    requires RolesApart(ids) && Counted(cfg, ids, w) && w' == LastOperation(cfg, w, id, o).0 && w'.servers == w.servers
    requires FindObjects(cfg, w.rows, id, o.find).Ok? && Loads(w.rows, i) && RecordedPlan(cfg, i.row) == Some(plan)
    requires var found := FindObjects(cfg, w.rows, id, o.find).value; found.0 == i && found.2 == plan
    requires !plan.shared && o.describe && InstanceServer(cfg, i.row) !in w.servers && w'.rows == DeleteInstanceRows(w.rows, i, o.deletes)
    ensures Counted(cfg, ids, w') <==> !HalfForgotten(cfg, w, id, o)
  {
    var (refs, home) := (Refs(i, o.deletes), HomeOf(cfg, i.row, plan));
    WholeIff(i, o.deletes);
    DeletionIsPartial(w.rows, i, o.deletes);
    if Whole(i, o.deletes) {
      WholeIsAll(w.rows, i, o.deletes);
      DedicatedGone(cfg, ids, w, w', i, plan);
    } else if LosesMaster(w.rows, i.id, refs) {
      MasterLost(w.rows, w'.rows, i.id, refs);
    } else if home in w.servers && LosesUser(w.rows, i.id, refs) {
      LastOperationInStepIff(cfg, ids, w, id, o);
      OutOfStepNotCounted(cfg, ids, w');
    } else {
      PartCounted(cfg, ids, w, w', i.id, refs, home);
    }
  }
}
