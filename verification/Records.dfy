/** What the operations of internaldb/models.go keep true of the tables, wherever a failure stops them. */
module Records {
  import opened Wrappers
  import opened Utils
  import opened Models

  /** No binding row names a missing user and no user row names a missing instance. */
  ghost predicate Integrity(rows: Rows) {
    && (forall b :: b in rows.bindings ==> rows.bindings[b].user in rows.users)
    && (forall u :: u in rows.users ==> rows.users[u].instance in rows.instances)
  }

  // ---- Cascades ------------------------------------------------------------

  /** The loaded user shows every binding row the tables hold for it. */
  ghost predicate CoversUser(rows: Rows, u: User) {
    forall b :: b in rows.bindings && rows.bindings[b].user == u.id ==> BindingRef(b) in UserCascade(u)
  }

  ghost predicate Covers(rows: Rows, i: Instance) {
    && (forall u :: u in i.users ==> CoversUser(rows, u))
    && (forall u :: u in rows.users && rows.users[u].instance == i.id ==> HasUser(i.users, u))
  }

  lemma UserCascadeAt(u: User)
    ensures |UserCascade(u)| == |u.bindings| + 1 && UserCascade(u)[|u.bindings|] == UserRef(u.id)
    ensures forall k :: 0 <= k < |u.bindings| ==> UserCascade(u)[k] == BindingRef(u.bindings[k].id)
  {
  }

  lemma LoadsUserCovers(rows: Rows, u: User)
    requires LoadsUser(rows, u)
    ensures CoversUser(rows, u)
  {
    UserCascadeAt(u);
    forall b | b in rows.bindings && rows.bindings[b].user == u.id
      ensures BindingRef(b) in UserCascade(u)
    {
      var k :| 0 <= k < |u.bindings| && u.bindings[k] == Binding(b, rows.bindings[b].bindingID);
      assert UserCascade(u)[k] == BindingRef(b);
    }
  }

  lemma LoadsCovers(rows: Rows, i: Instance)
    requires Loads(rows, i)
    ensures Covers(rows, i)
  {
    forall u | u in i.users
      ensures CoversUser(rows, u)
    {
      LoadsUserCovers(rows, u);
    }
  }

  /** Each loaded user that is deleted within the first n deletions has lost its loaded bindings before. */
  lemma {:induction false} BindingsGoFirst(users: seq<User>, n: nat, id: nat) returns (u: User)
    requires n <= |UsersCascade(users)| && UserRef(id) in UsersCascade(users)[..n]
    ensures u in users && u.id == id
    ensures forall ref :: ref in UserCascade(u) ==> ref in UsersCascade(users)[..n]
  {
    var (init, last) := (users[..|users| - 1], users[|users| - 1]);
    var (earlier, mine) := (UsersCascade(init), UserCascade(last));
    UserCascadeAt(last);
    if UserRef(id) in earlier[..if n <= |earlier| then n else |earlier|] {
      u := BindingsGoFirst(init, if n <= |earlier| then n else |earlier|, id);
      assert UsersCascade(users)[..n] == if n <= |earlier| then earlier[..n] else earlier + mine[..n - |earlier|];
    } else {
      u := last;
      assert UsersCascade(users)[..n] == earlier + mine[..n - |earlier|];
      assert UserRef(id) in mine[..n - |earlier|];
      assert n - |earlier| == |mine| && mine[..|mine|] == mine;
    }
  }

  /** What the cascade over users deletes: these users and their loaded bindings, and no instance. */
  lemma {:induction false} UsersCascadeMembers(users: seq<User>)
    ensures forall ref :: ref in UsersCascade(users) <==> exists u :: u in users && ref in UserCascade(u)
    ensures forall id :: InstanceRef(id) !in UsersCascade(users)
  {
    if users != [] {
      var (init, last) := (users[..|users| - 1], users[|users| - 1]);
      UsersCascadeMembers(init);
      UserCascadeAt(last);
      assert users == init + [last];
    }
  }

  /** However far `DBInstance.Delete` gets, the foreign keys hold. */
  lemma InstanceCascadeKeepsIntegrity(rows: Rows, i: Instance, n: nat)
    requires Integrity(rows) && Covers(rows, i) && n <= |InstanceCascade(i)|
    ensures Integrity(Erase(rows, InstanceCascade(i)[..n]))
  {
    var (refs, users) := (InstanceCascade(i)[..n], UsersCascade(i.users));
    UsersCascadeMembers(i.users);
    var m := if n <= |users| then n else |users|;
    assert refs == users[..m] + if n <= |users| then [] else [InstanceRef(i.id)];
    forall b | b in rows.bindings && UserRef(rows.bindings[b].user) in refs
      ensures BindingRef(b) in refs
    {
      var u := BindingsGoFirst(i.users, m, rows.bindings[b].user);
      assert CoversUser(rows, u);
    }
    forall u | u in rows.users && InstanceRef(rows.users[u].instance) in refs
      ensures UserRef(u) in refs
    {
      assert users[..m] == users;
      assert HasUser(i.users, u);
      var loaded :| loaded in i.users && loaded.id == u;
      UserCascadeAt(loaded);
      assert UserRef(u) in UserCascade(loaded);
    }
  }

  /** However far `DBUser.Delete` gets, the foreign keys hold. */
  lemma UserCascadeKeepsIntegrity(rows: Rows, u: User, n: nat)
    requires Integrity(rows) && CoversUser(rows, u) && n <= |UserCascade(u)|
    ensures Integrity(Erase(rows, UserCascade(u)[..n]))
  {
    UserCascadeAt(u);
    var refs := UserCascade(u)[..n];
    forall b | b in rows.bindings && UserRef(rows.bindings[b].user) in refs
      ensures BindingRef(b) in refs
    {
      assert n == |UserCascade(u)| && refs == UserCascade(u);
      assert rows.bindings[b].user == u.id;
    }
  }

  /** A cascade that runs to its end removes the instance, its users and their bindings, and no other row. */
  lemma InstanceCascadeRemovesExactly(rows: Rows, i: Instance)
    requires Integrity(rows) && Loads(rows, i)
    ensures var after := Erase(rows, InstanceCascade(i));
            && (forall k :: k in after.instances <==> k in rows.instances && k != i.id)
            && (forall u :: u in after.users <==> u in rows.users && rows.users[u].instance != i.id)
            && (forall b :: b in after.bindings <==> b in rows.bindings && rows.users[rows.bindings[b].user].instance != i.id)
  {
    LoadsCovers(rows, i);
    UsersCascadeMembers(i.users);
    forall u | u in rows.users
      ensures UserRef(u) in InstanceCascade(i) <==> rows.users[u].instance == i.id
    {
      InstanceCascadeHasUser(rows, i, u);
    }
    forall b | b in rows.bindings
      ensures BindingRef(b) in InstanceCascade(i) <==> rows.users[rows.bindings[b].user].instance == i.id
    {
      InstanceCascadeHasBinding(rows, i, b);
    }
  }

  lemma InstanceCascadeHasUser(rows: Rows, i: Instance, id: nat)
    requires Loads(rows, i) && id in rows.users
    ensures UserRef(id) in InstanceCascade(i) <==> rows.users[id].instance == i.id
  {
    UsersCascadeMembers(i.users);
    if rows.users[id].instance == i.id {
      assert HasUser(i.users, id);
      var u :| u in i.users && u.id == id;
      UserCascadeAt(u);
      assert UserRef(id) in UserCascade(u);
    }
    if UserRef(id) in InstanceCascade(i) {
      var u :| u in i.users && UserRef(id) in UserCascade(u);
      UserCascadeAt(u);
    }
  }

  lemma InstanceCascadeHasBinding(rows: Rows, i: Instance, id: nat)
    requires Integrity(rows) && Loads(rows, i) && id in rows.bindings
    ensures BindingRef(id) in InstanceCascade(i) <==> rows.users[rows.bindings[id].user].instance == i.id
  {
    UsersCascadeMembers(i.users);
    LoadsCovers(rows, i);
    var owner := rows.bindings[id].user;
    if rows.users[owner].instance == i.id {
      assert HasUser(i.users, owner);
      var u :| u in i.users && u.id == owner;
      assert CoversUser(rows, u);
    }
    if BindingRef(id) in InstanceCascade(i) {
      var u :| u in i.users && BindingRef(id) in UserCascade(u);
      UserCascadeAt(u);
      var k :| 0 <= k < |UserCascade(u)| && UserCascade(u)[k] == BindingRef(id);
      assert u.bindings[k] in u.bindings && u.bindings[k].id == id;
    }
  }

  // ---- The invariant of the tables -----------------------------------------

  ghost predicate HasMaster(rows: Rows, i: nat) {
    exists u :: u in rows.users && rows.users[u].instance == i && rows.users[u].kind == Master
  }

  ghost predicate UniqueInstanceIDs(rows: Rows) {
    forall i, j :: i in rows.instances && j in rows.instances && rows.instances[i].instanceID == rows.instances[j].instanceID
      ==> i == j
  }

  ghost predicate UniqueUsernames(rows: Rows) {
    forall u, v :: u in rows.users && v in rows.users && rows.users[u].instance == rows.users[v].instance
      && rows.users[u].username == rows.users[v].username
      ==> u == v
  }

  ghost predicate AtMostOneMaster(rows: Rows) {
    forall u, v :: u in rows.users && v in rows.users && rows.users[u].instance == rows.users[v].instance
      && rows.users[u].kind == Master && rows.users[v].kind == Master
      ==> u == v
  }

  /** What holds of every reachable store, whatever fails: the foreign keys, one row for an instance ID,
      one user for a username within an instance, at most one master for an instance, and exactly one
      unless the deletion of that instance has begun. */
  ghost predicate RecordsOk(rows: Rows, begun: set<nat>) {
    && Integrity(rows)
    && KeysUsed(rows)
    && UniqueInstanceIDs(rows)
    && UniqueUsernames(rows)
    && AtMostOneMaster(rows)
    && (forall i :: i in rows.instances && i !in begun ==> HasMaster(rows, i))
  }

  ghost predicate KeysUsed(rows: Rows) {
    && (forall i :: i in rows.instances ==> i < rows.nextID)
    && (forall u :: u in rows.users ==> u < rows.nextID)
    && (forall b :: b in rows.bindings ==> b < rows.nextID)
  }

  lemma InsertInstanceKeeps(rows: Rows, begun: set<nat>, row: InstanceRow, master: UserRow)
    requires RecordsOk(rows, begun) && master.kind == Master
    requires InsertInstance(rows, row, master).Some?
    ensures RecordsOk(InsertInstance(rows, row, master).value, begun)
  {
    var after := InsertInstance(rows, row, master).value;
    assert after.users[rows.nextID + 1].kind == Master && after.users[rows.nextID + 1].instance == rows.nextID;
    forall i | i in after.instances && i !in begun
      ensures HasMaster(after, i)
    {
      if i != rows.nextID {
        var u :| u in rows.users && rows.users[u].instance == i && rows.users[u].kind == Master;
        assert after.users[u] == rows.users[u];
      }
    }
  }

  lemma InsertUserKeeps(rows: Rows, begun: set<nat>, row: UserRow, bindingID: string)
    requires RecordsOk(rows, begun) && row.kind != Master && row.instance in rows.instances
    requires forall u :: u in rows.users && rows.users[u].instance == row.instance ==> rows.users[u].username != row.username
    ensures RecordsOk(InsertUser(rows, row, bindingID), begun)
  {
    var after := InsertUser(rows, row, bindingID);
    forall i | i in after.instances && i !in begun
      ensures HasMaster(after, i)
    {
      var u :| u in rows.users && rows.users[u].instance == i && rows.users[u].kind == Master;
      assert after.users[u] == rows.users[u];
    }
  }

  lemma AddBindingKeeps(rows: Rows, begun: set<nat>, user: User, bindingID: string)
    requires RecordsOk(rows, begun) && user.id in rows.users && rows.users[user.id] == user.row
    ensures AddBinding(rows, user, bindingID).users == rows.users
    ensures RecordsOk(AddBinding(rows, user, bindingID), begun)
  {
    var after := AddBinding(rows, user, bindingID);
    assert after.users == rows.users;
    assert forall i :: HasMaster(after, i) <==> HasMaster(rows, i);
  }

  lemma BindKeeps(rows: Rows, begun: set<nat>, i: Instance, bindingID: string, username: string, key: Bytes,
                  entropy: Option<Entropy>, saveOk: bool)
    requires RecordsOk(rows, begun) && Loads(rows, i)
    ensures RecordsOk(BindRows(rows, i, bindingID, username, Standard, key, entropy, saveOk).0, begun)
  {
    var r := BindRows(rows, i, bindingID, username, Standard, key, entropy, saveOk).1;
    if r.Bound? && r.isNew {
      forall u | u in rows.users && rows.users[u].instance == i.id
        ensures rows.users[u].username != username
      {
        assert HasUser(i.users, u);
      }
      InsertUserKeeps(rows, begun, r.user.row, bindingID);
    } else if r.Bound? {
      var user := UserNamed(i.users, username).value;
      assert LoadsUser(rows, user);
      AddBindingKeeps(rows, begun, user, bindingID);
    }
  }

  /** Deleting rows keeps the invariant when the foreign keys survive and no master goes whose instance
      stays and is not being deleted. */
  lemma EraseKeeps(rows: Rows, begun: set<nat>, refs: seq<RowRef>)
    requires RecordsOk(rows, begun) && Integrity(Erase(rows, refs))
    requires forall u :: u in rows.users && UserRef(u) in refs && rows.users[u].kind == Master ==> rows.users[u].instance in begun
    ensures RecordsOk(Erase(rows, refs), begun)
  {
    var after := Erase(rows, refs);
    forall i | i in after.instances && i !in begun
      ensures HasMaster(after, i)
    {
      var u :| u in rows.users && rows.users[u].instance == i && rows.users[u].kind == Master;
      assert u in after.users;
    }
  }

  lemma DeleteInstanceKeeps(rows: Rows, begun: set<nat>, i: Instance, deletes: Option<nat>)
    requires RecordsOk(rows, begun) && Loads(rows, i) && i.id in begun
    ensures RecordsOk(DeleteInstanceRows(rows, i, deletes), begun)
  {
    var n := GoThrough(|InstanceCascade(i)|, 0, deletes);
    LoadsCovers(rows, i);
    InstanceCascadeKeepsIntegrity(rows, i, n);
    forall u | u in rows.users && UserRef(u) in InstanceCascade(i)[..n]
      ensures rows.users[u].instance == i.id
    {
      InstanceCascadeHasUser(rows, i, u);
    }
    EraseKeeps(rows, begun, InstanceCascade(i)[..n]);
  }

  lemma EraseBindingKeeps(rows: Rows, begun: set<nat>, id: nat)
    requires RecordsOk(rows, begun)
    ensures Erase(rows, [BindingRef(id)]).users == rows.users
    ensures RecordsOk(Erase(rows, [BindingRef(id)]), begun)
  {
    assert UserRef(0) !in [BindingRef(id)];
    EraseKeeps(rows, begun, [BindingRef(id)]);
    assert Erase(rows, [BindingRef(id)]).users == rows.users;
  }

  lemma DeleteUserKeeps(rows: Rows, begun: set<nat>, u: User, deletes: Option<nat>)
    requires RecordsOk(rows, begun) && CoversUser(rows, u)
    requires u.id in rows.users ==> rows.users[u.id].kind != Master
    ensures RecordsOk(DeleteUserRows(rows, u, deletes), begun)
  {
    var n := GoThrough(|UserCascade(u)|, 0, deletes);
    UserCascadeAt(u);
    UserCascadeKeepsIntegrity(rows, u, n);
    EraseKeeps(rows, begun, UserCascade(u)[..n]);
  }

  /** `Unbind` followed by as much of the deletion of the user as goes through. */
  lemma UnbindKeeps(rows: Rows, begun: set<nat>, i: Instance, bindingID: string, deleteOk: bool, deletes: Option<nat>)
    requires RecordsOk(rows, begun) && Loads(rows, i)
    ensures var (after, r) := UnbindRows(rows, i, bindingID, deleteOk);
            RecordsOk(after, begun) && (r.Unbound? ==> RecordsOk(DeleteUserRows(after, r.user, deletes), begun))
  {
    var (after, r) := UnbindRows(rows, i, bindingID, deleteOk);
    if r.Unbound? {
      EraseBindingKeeps(rows, begun, BindingUser(i.users, bindingID).value.1.id);
      LoadsUserCovers(rows, r.user);
      assert CoversUser(after, r.user);
      DeleteUserKeeps(after, begun, r.user, deletes);
    }
  }

  /** Neither `Unbind` nor the deletion after it ever removes a master user. */
  lemma UnbindSparesMasters(rows: Rows, i: Instance, bindingID: string, deleteOk: bool, deletes: Option<nat>, u: nat)
    requires Loads(rows, i)
    requires u in rows.users && rows.users[u].kind == Master
    ensures var (after, r) := UnbindRows(rows, i, bindingID, deleteOk);
            && u in after.users && after.users[u] == rows.users[u]
            && (r.Unbound? ==> u in DeleteUserRows(after, r.user, deletes).users
                               && DeleteUserRows(after, r.user, deletes).users[u] == rows.users[u])
  {
    var (after, r) := UnbindRows(rows, i, bindingID, deleteOk);
    if r.Unbound? {
      UserCascadeAt(r.user);
      assert LoadsUser(rows, r.user);
      assert UserRef(u) !in UserCascade(r.user);
    }
  }
}
