/** internaldb/models.go: the broker's own records, three tables tied by ids, and the operations that
    change them. Every call on the database can fail; a failed call changes nothing. */
module Models {
  import opened Wrappers
  import opened Strings
  import opened Utils

  // ---- Tables --------------------------------------------------------------

  datatype UserType = Master | SuperUser | Standard

  datatype InstanceRow = InstanceRow(instanceID: string, dbName: string, serviceID: string, planID: string)
  datatype UserRow = UserRow(instance: nat, username: string, encryptedPassword: Cipher, iv: Nonce, kind: UserType)
  datatype BindingRow = BindingRow(user: nat, bindingID: string)

  /** The tables by primary key. The foreign keys are `UserRow.instance` and `BindingRow.user`. */
  datatype Rows = Rows(instances: map<nat, InstanceRow>, users: map<nat, UserRow>, bindings: map<nat, BindingRow>, nextID: nat)

  const NO_ROWS := Rows(map[], map[], map[], 1)

  // ---- Loaded records ------------------------------------------------------

  datatype Binding = Binding(id: nat, bindingID: string)
  datatype User = User(id: nat, row: UserRow, bindings: seq<Binding>)
  datatype Instance = Instance(id: nat, row: InstanceRow, users: seq<User>)

  /** What `Password` returns: the stored password opened under `key`. */
  function Password(row: UserRow, key: Bytes): Option<string> {
    Decrypt(row.encryptedPassword, key, row.iv)
  }

  /** The random bytes behind one new user. */
  datatype Entropy = Entropy(name: NameBytes, password: PasswordBytes, iv: Nonce)

  /** `NewUser`: None when reading random bytes fails or the key is not an AES key. */
  function NewUser(kind: UserType, key: Bytes, entropy: Option<Entropy>, instance: nat): Option<UserRow> {
    match entropy
    case None => None
    case Some(e) =>
      match Encrypt(RandPassword(e.password), key, e.iv)
      case None => None
      case Some(sealed) => Some(UserRow(instance, RandUsername(e.name), sealed, e.iv, kind))
  }

  function DBName(dbPrefix: string, instanceID: string): string {
    dbPrefix + "_" + Replace(instanceID, '-', "_")
  }

  /** `NewInstance`: an unsaved instance and its master user. */
  function NewInstance(serviceID: string, planID: string, instanceID: string, dbPrefix: string, key: Bytes, entropy: Option<Entropy>)
    : Option<(InstanceRow, UserRow)>
  {
    match NewUser(Master, key, entropy, 0)
    case None => None
    case Some(master) => Some((InstanceRow(instanceID, DBName(dbPrefix, instanceID), serviceID, planID), master))
  }

  /** A new user opens under the key it was made with, to its random password. */
  lemma NewUserOpens(kind: UserType, key: Bytes, e: Entropy, instance: nat)
    requires ValidKey(key)
    ensures NewUser(kind, key, Some(e), instance).Some?
    ensures Password(NewUser(kind, key, Some(e), instance).value, key) == Some(RandPassword(e.password))
  {
  }

  // ---- Loading -------------------------------------------------------------

  /** Primary keys in ascending order, the order in which `First` and `Preload` return rows. */
  function Ascending(ids: set<nat>): (s: seq<nat>)
    ensures forall id :: id in ids ==> id in s
    ensures forall i :: 0 <= i < |s| ==> s[i] in ids
    ensures forall i, j :: 0 <= i < j < |s| ==> s[i] != s[j]
  {
    if ids == {} then []
    else
      HasLeast(ids);
      var least :| IsLeast(ids, least);
      [least] + Ascending(ids - {least})
  }

  predicate IsLeast(ids: set<nat>, least: nat) {
    least in ids && forall id :: id in ids ==> least <= id
  }

  lemma HasLeast(ids: set<nat>)
    requires ids != {}
    ensures exists least :: IsLeast(ids, least)
  {
    var some :| some in ids;
    var rest := ids - {some};
    assert forall id :: id in ids ==> id == some || id in rest;
    if rest == {} {
      assert IsLeast(ids, some);
    } else {
      HasLeast(rest);
      var least :| IsLeast(rest, least);
      assert IsLeast(ids, if some < least then some else least);
    }
  }

  function LoadUser(rows: Rows, id: nat): User
    requires id in rows.users
  {
    var ids := Ascending(set b | b in rows.bindings && rows.bindings[b].user == id);
    User(id, rows.users[id], seq(|ids|, i requires 0 <= i < |ids| => Binding(ids[i], rows.bindings[ids[i]].bindingID)))
  }

  function LoadInstance(rows: Rows, id: nat): Instance
    requires id in rows.instances
  {
    var ids := Ascending(set u | u in rows.users && rows.users[u].instance == id);
    Instance(id, rows.instances[id], seq(|ids|, i requires 0 <= i < |ids| => LoadUser(rows, ids[i])))
  }

  /** `FindInstance`: the first row with that instance ID, its users and their bindings. */
  function FindInstance(rows: Rows, instanceID: string): (r: Option<Instance>)
    ensures r.Some? ==> r.value.id in rows.instances && rows.instances[r.value.id].instanceID == instanceID
                        && r.value == LoadInstance(rows, r.value.id)
    ensures r.None? ==> forall id :: id in rows.instances ==> rows.instances[id].instanceID != instanceID
  {
    var ids := Ascending(set i | i in rows.instances && rows.instances[i].instanceID == instanceID);
    if ids == [] then
      assert forall id :: id in rows.instances && rows.instances[id].instanceID == instanceID ==> id in ids;
      None
    else
      assert ids[0] in ids;
      Some(LoadInstance(rows, ids[0]))
  }

  /** The loaded user is the stored one, with each of its bindings exactly once, in whatever order. */
  ghost predicate LoadsUser(rows: Rows, u: User) {
    && u.id in rows.users && rows.users[u.id] == u.row
    && (forall b :: b in u.bindings ==> b.id in rows.bindings && rows.bindings[b.id] == BindingRow(u.id, b.bindingID))
    && (forall b :: b in rows.bindings && rows.bindings[b].user == u.id ==> Binding(b, rows.bindings[b].bindingID) in u.bindings)
    && (forall i, j :: 0 <= i < j < |u.bindings| ==> u.bindings[i].id != u.bindings[j].id)
  }

  ghost predicate HasUser(users: seq<User>, id: nat) {
    exists u :: u in users && u.id == id
  }

  /** The loaded instance is the stored one, with each of its users exactly once, in whatever order. */
  ghost predicate Loads(rows: Rows, i: Instance) {
    && i.id in rows.instances && rows.instances[i.id] == i.row
    && (forall u :: u in i.users ==> LoadsUser(rows, u) && u.row.instance == i.id)
    && (forall u :: u in rows.users && rows.users[u].instance == i.id ==> HasUser(i.users, u))
    && (forall j, k :: 0 <= j < k < |i.users| ==> i.users[j].id != i.users[k].id)
  }

  lemma LoadUserLoads(rows: Rows, id: nat)
    requires id in rows.users
    ensures LoadsUser(rows, LoadUser(rows, id))
  {
    var ids := Ascending(set b | b in rows.bindings && rows.bindings[b].user == id);
    var u := LoadUser(rows, id);
    forall b | b in rows.bindings && rows.bindings[b].user == id
      ensures Binding(b, rows.bindings[b].bindingID) in u.bindings
    {
      assert b in ids;
      var k :| 0 <= k < |ids| && ids[k] == b;
      assert u.bindings[k] == Binding(b, rows.bindings[b].bindingID);
    }
  }

  lemma LoadInstanceLoads(rows: Rows, id: nat)
    requires id in rows.instances
    ensures Loads(rows, LoadInstance(rows, id))
  {
    var ids := Ascending(set u | u in rows.users && rows.users[u].instance == id);
    var i := LoadInstance(rows, id);
    forall u | u in i.users
      ensures LoadsUser(rows, u) && u.row.instance == id
    {
      var k :| 0 <= k < |i.users| && i.users[k] == u;
      assert ids[k] in ids;
      LoadUserLoads(rows, ids[k]);
    }
    forall u | u in rows.users && rows.users[u].instance == id
      ensures HasUser(i.users, u)
    {
      assert u in ids;
      var k :| 0 <= k < |ids| && ids[k] == u;
      assert i.users[k] in i.users && i.users[k].id == u;
    }
  }

  // ---- Searching a loaded instance -----------------------------------------

  function MasterUser(users: seq<User>): (r: Option<User>)
    ensures r.Some? ==> r.value in users && r.value.row.kind == Master
    ensures r.None? <==> forall u :: u in users ==> u.row.kind != Master
  {
    if users == [] then None
    else if users[0].row.kind == Master then Some(users[0])
    else MasterUser(users[1..])
  }

  function UserNamed(users: seq<User>, username: string): (r: Option<User>)
    ensures r.Some? ==> r.value in users && r.value.row.username == username
    ensures r.None? <==> forall u :: u in users ==> u.row.username != username
  {
    if users == [] then None
    else if users[0].row.username == username then Some(users[0])
    else UserNamed(users[1..], username)
  }

  lemma UserNamedAppend(users: seq<User>, u: User, username: string)
    ensures UserNamed(users + [u], username).Some? <==> UserNamed(users, username).Some? || u.row.username == username
  {
    assert u in users + [u];
    if UserNamed(users, username).Some? {
      assert UserNamed(users, username).value in users + [u];
    }
  }

  function BindingNamed(bindings: seq<Binding>, bindingID: string): (r: Option<Binding>)
    ensures r.Some? ==> r.value in bindings && r.value.bindingID == bindingID
    ensures r.None? <==> forall b :: b in bindings ==> b.bindingID != bindingID
  {
    if bindings == [] then None
    else if bindings[0].bindingID == bindingID then Some(bindings[0])
    else BindingNamed(bindings[1..], bindingID)
  }

  /** `BindingUser`: the standard user that holds the binding. */
  function BindingUser(users: seq<User>, bindingID: string): (r: Option<(User, Binding)>)
    ensures r.Some? ==> r.value.0 in users && r.value.0.row.kind == Standard
                        && r.value.1 in r.value.0.bindings && r.value.1.bindingID == bindingID
    ensures r.None? <==> forall u, b :: u in users && u.row.kind == Standard && b in u.bindings ==> b.bindingID != bindingID
  {
    if users == [] then None
    else if users[0].row.kind == Standard && BindingNamed(users[0].bindings, bindingID).Some? then
      Some((users[0], BindingNamed(users[0].bindings, bindingID).value))
    else
      BindingUser(users[1..], bindingID)
  }

  // ---- Changing the tables -------------------------------------------------

  /** Saving a new instance with its master user; the unique index refuses a second row with the same
      instance ID. */
  function InsertInstance(rows: Rows, row: InstanceRow, master: UserRow): Option<Rows> {
    if exists id :: id in rows.instances && rows.instances[id].instanceID == row.instanceID then None
    else
      Some(rows.(instances := rows.instances[rows.nextID := row],
                 users := rows.users[rows.nextID + 1 := master.(instance := rows.nextID)],
                 nextID := rows.nextID + 2))
  }

  /** Saving a new user with its first binding. */
  function InsertUser(rows: Rows, row: UserRow, bindingID: string): Rows {
    rows.(users := rows.users[rows.nextID := row],
          bindings := rows.bindings[rows.nextID + 1 := BindingRow(rows.nextID, bindingID)],
          nextID := rows.nextID + 2)
  }

  /** Saving a stored user to which one binding was added. */
  function AddBinding(rows: Rows, user: User, bindingID: string): Rows {
    rows.(users := rows.users[user.id := user.row],
          bindings := rows.bindings[rows.nextID := BindingRow(user.id, bindingID)],
          nextID := rows.nextID + 1)
  }

  datatype RowRef = BindingRef(id: nat) | UserRef(id: nat) | InstanceRef(id: nat)

  /** The tables without the rows in `refs`. */
  function Erase(rows: Rows, refs: seq<RowRef>): Rows {
    rows.(instances := map id | id in rows.instances && InstanceRef(id) !in refs :: rows.instances[id],
          users := map id | id in rows.users && UserRef(id) !in refs :: rows.users[id],
          bindings := map id | id in rows.bindings && BindingRef(id) !in refs :: rows.bindings[id])
  }

  lemma EraseInSteps(rows: Rows, refs: seq<RowRef>, more: seq<RowRef>)
    ensures Erase(Erase(rows, refs), more) == Erase(rows, refs + more)
  {
  }

  lemma EraseNothing(rows: Rows)
    ensures Erase(rows, []) == rows
  {
  }

  /** The rows `DBUser.Delete` deletes, in its order: the loaded bindings, then the user. */
  function UserCascade(u: User): seq<RowRef> {
    seq(|u.bindings|, i requires 0 <= i < |u.bindings| => BindingRef(u.bindings[i].id)) + [UserRef(u.id)]
  }

  function UsersCascade(users: seq<User>): seq<RowRef> {
    if users == [] then [] else UsersCascade(users[..|users| - 1]) + UserCascade(users[|users| - 1])
  }

  /** The rows `DBInstance.Delete` deletes, in its order: user after user, then the instance. */
  function InstanceCascade(i: Instance): seq<RowRef> {
    UsersCascade(i.users) + [InstanceRef(i.id)]
  }

  /** How many of `n` deletions, the first of them number `start`, go through when deletion number
      `deletes` is the one that fails. */
  function GoThrough(n: nat, start: nat, deletes: Option<nat>): (r: nat)
    ensures r <= n
  {
    match deletes
    case None => n
    case Some(d) => if d <= start then 0 else if d - start < n then d - start else n
  }

  // ---- The database handle -------------------------------------------------

  /** The gorm handle. `ok` is false when the call fails; a failed call leaves the tables alone. */
  class Database {
    var rows: Rows

    constructor (rows: Rows)
      ensures this.rows == rows
    {
      this.rows := rows;
    }

    method SaveInstance(row: InstanceRow, master: UserRow, ok: bool) returns (saved: bool)
      modifies this
      ensures saved <==> ok && InsertInstance(old(rows), row, master).Some?
      ensures rows == if saved then InsertInstance(old(rows), row, master).value else old(rows)
    {
      var after := InsertInstance(rows, row, master);
      saved := ok && after.Some?;
      if saved {
        rows := after.value;
      }
    }

    method SaveNewUser(row: UserRow, bindingID: string, ok: bool)
      modifies this
      ensures rows == if ok then InsertUser(old(rows), row, bindingID) else old(rows)
    {
      if ok {
        rows := InsertUser(rows, row, bindingID);
      }
    }

    method SaveBinding(user: User, bindingID: string, ok: bool)
      modifies this
      ensures rows == if ok then AddBinding(old(rows), user, bindingID) else old(rows)
    {
      if ok {
        rows := AddBinding(rows, user, bindingID);
      }
    }

    method SaveUserRow(id: nat, row: UserRow, ok: bool)
      modifies this
      ensures rows == if ok then old(rows).(users := old(rows).users[id := row]) else old(rows)
    {
      if ok {
        rows := rows.(users := rows.users[id := row]);
      }
    }

    method Delete(ref: RowRef, ok: bool)
      modifies this
      ensures rows == if ok then Erase(old(rows), [ref]) else old(rows)
    {
      if ok {
        rows := Erase(rows, [ref]);
      }
    }
  }

  /** `DBUser.Delete`, whose deletions are numbered from `start`. */
  method DeleteUser(db: Database, u: User, start: nat, deletes: Option<nat>) returns (ok: bool)
    modifies db
    ensures var n := GoThrough(|UserCascade(u)|, start, deletes);
            db.rows == Erase(old(db.rows), UserCascade(u)[..n]) && (ok <==> n == |UserCascade(u)|)
  {
    ghost var cascade := UserCascade(u);
    EraseNothing(db.rows);
    for i := 0 to |u.bindings|
      invariant GoThrough(i, start, deletes) == i
      invariant db.rows == Erase(old(db.rows), cascade[..i])
    {
      ok := deletes.None? || start + i < deletes.value;
      if !ok {
        return;
      }
      db.Delete(BindingRef(u.bindings[i].id), true);
      EraseInSteps(old(db.rows), cascade[..i], [BindingRef(u.bindings[i].id)]);
      assert cascade[..i + 1] == cascade[..i] + [BindingRef(u.bindings[i].id)];
    }
    ok := deletes.None? || start + |u.bindings| < deletes.value;
    if ok {
      db.Delete(UserRef(u.id), true);
      EraseInSteps(old(db.rows), cascade[..|u.bindings|], [UserRef(u.id)]);
      assert cascade[..|cascade|] == cascade[..|u.bindings|] + [UserRef(u.id)];
    }
  }

  datatype BindResult = NotBound | Bound(user: User, isNew: bool)
  datatype UnbindResult = UnknownBinding | NotUnbound | Unbound(user: User, last: bool)

  /** A loaded instance; `users` is the in-memory copy that `Bind` appends to. */
  class DBInstance {
    const id: nat
    const row: InstanceRow
    var users: seq<User>

    constructor (i: Instance)
      ensures View() == i
    {
      id, row, users := i.id, i.row, i.users;
    }

    function View(): Instance
      reads this
    {
      Instance(id, row, users)
    }

    method Bind(db: Database, bindingID: string, username: string, kind: UserType, key: Bytes, entropy: Option<Entropy>, saveOk: bool)
      returns (r: BindResult)
      modifies this, db
      ensures (db.rows, r) == BindRows(old(db.rows), old(View()), bindingID, username, kind, key, entropy, saveOk)
      ensures users == BindUsers(old(users), username, NewUser(kind, key, entropy, id))
    {
      var current := UserNamed(users, username);
      if current.None? {
        var made := NewUser(kind, key, entropy, id);
        if made.None? {
          return NotBound;
        }
        users := users + [User(0, made.value, [])];
        var named := made.value.(username := username);
        var (uid, bid) := (db.rows.nextID, db.rows.nextID + 1);
        db.SaveNewUser(named, bindingID, saveOk);
        r := if saveOk then Bound(User(uid, named, [Binding(bid, bindingID)]), true) else NotBound;
      } else {
        var user := current.value;
        var bid := db.rows.nextID;
        db.SaveBinding(user, bindingID, saveOk);
        r := if saveOk then Bound(user.(bindings := user.bindings + [Binding(bid, bindingID)]), false) else NotBound;
      }
    }

    method Unbind(db: Database, bindingID: string, deleteOk: bool) returns (r: UnbindResult)
      modifies db
      ensures (db.rows, r) == UnbindRows(old(db.rows), old(View()), bindingID, deleteOk)
    {
      var found := BindingUser(users, bindingID);
      if found.None? {
        return UnknownBinding;
      }
      var (user, binding) := found.value;
      db.Delete(BindingRef(binding.id), deleteOk);
      r := if deleteOk then Unbound(user, |user.bindings| == 1) else NotUnbound;
    }

    /** Deletes user after user, then the instance; `deletes` numbers the first deletion that fails. */
    method Delete(db: Database, deletes: Option<nat>) returns (ok: bool)
      modifies db
      ensures var n := GoThrough(|InstanceCascade(View())|, 0, deletes);
              db.rows == Erase(old(db.rows), InstanceCascade(View())[..n]) && (ok <==> n == |InstanceCascade(View())|)
    {
      ghost var (start, inst) := (db.rows, View());
      EraseUsersAndInstance(start, inst);
      for i := 0 to |users|
        invariant GoThrough(|UsersCascade(users[..i])|, 0, deletes) == |UsersCascade(users[..i])|
        invariant db.rows == Erase(start, UsersCascade(users[..i]))
      {
        var done := |UsersCascade(users[..i])|;
        ok := DeleteUser(db, users[i], done, deletes);
        DeleteTurn(start, db.rows, inst, i, GoThrough(|UserCascade(users[i])|, done, deletes), deletes);
        if !ok {
          return;
        }
      }
      assert users[..|users|] == users;
      DeleteEnd(inst, deletes);
      ok := deletes.None? || |UsersCascade(users)| < deletes.value;
      if ok {
        db.Delete(InstanceRef(id), true);
        assert db.rows == Erase(start, InstanceCascade(inst)[..|InstanceCascade(inst)|]);
      } else {
        assert db.rows == Erase(start, InstanceCascade(inst)[..|UsersCascade(inst.users)|]);
      }
    }
  }

  /** One turn of the loop in `DBInstance.Delete`: user number i goes, or the deletions stop inside it. */
  lemma DeleteTurn(rows: Rows, after: Rows, inst: Instance, i: nat, n: nat, deletes: Option<nat>)
    requires i < |inst.users|
    requires GoThrough(|UsersCascade(inst.users[..i])|, 0, deletes) == |UsersCascade(inst.users[..i])|
    requires n == GoThrough(|UserCascade(inst.users[i])|, |UsersCascade(inst.users[..i])|, deletes)
    requires after == Erase(Erase(rows, UsersCascade(inst.users[..i])), UserCascade(inst.users[i])[..n])
    ensures if n == |UserCascade(inst.users[i])| then
              GoThrough(|UsersCascade(inst.users[..i + 1])|, 0, deletes) == |UsersCascade(inst.users[..i + 1])|
              && after == Erase(rows, UsersCascade(inst.users[..i + 1]))
            else
              GoThrough(|InstanceCascade(inst)|, 0, deletes) != |InstanceCascade(inst)|
              && after == Erase(rows, InstanceCascade(inst)[..GoThrough(|InstanceCascade(inst)|, 0, deletes)])
  {
    ErasePartOfUser(rows, inst, i, n);
    assert n != |UserCascade(inst.users[i])|
      ==> GoThrough(|InstanceCascade(inst)|, 0, deletes) == |UsersCascade(inst.users[..i])| + n;
  }

  /** The last deletion, that of the instance. */
  lemma DeleteEnd(inst: Instance, deletes: Option<nat>)
    requires GoThrough(|UsersCascade(inst.users)|, 0, deletes) == |UsersCascade(inst.users)|
    ensures var (users, all) := (|UsersCascade(inst.users)|, |InstanceCascade(inst)|);
            GoThrough(all, 0, deletes) == if deletes.None? || users < deletes.value then all else users
  {
  }

  lemma {:induction false} UsersCascadePrefix(users: seq<User>, i: nat)
    requires i < |users|
    ensures UsersCascade(users[..i + 1]) == UsersCascade(users[..i]) + UserCascade(users[i])
    ensures UsersCascade(users[..i + 1]) <= UsersCascade(users)
    decreases |users| - i
  {
    assert users[..i + 1][..i] == users[..i];
    if i + 1 < |users| {
      UsersCascadePrefix(users, i + 1);
    } else {
      assert users[..i + 1] == users;
    }
  }

  lemma ErasePartOfUser(rows: Rows, inst: Instance, i: nat, n: nat)
    requires i < |inst.users| && n <= |UserCascade(inst.users[i])|
    ensures var (earlier, mine) := (UsersCascade(inst.users[..i]), UserCascade(inst.users[i]));
            && |earlier| + |mine| < |InstanceCascade(inst)|
            && Erase(Erase(rows, earlier), mine[..n]) == Erase(rows, InstanceCascade(inst)[..|earlier| + n])
            && |UsersCascade(inst.users[..i + 1])| == |earlier| + |mine|
            && (n == |mine| ==> Erase(Erase(rows, earlier), mine[..n]) == Erase(rows, UsersCascade(inst.users[..i + 1])))
  {
    var (earlier, mine) := (UsersCascade(inst.users[..i]), UserCascade(inst.users[i]));
    UsersCascadePrefix(inst.users, i);
    EraseInSteps(rows, earlier, mine[..n]);
    assert InstanceCascade(inst)[..|earlier| + n] == earlier + mine[..n];
    assert mine[..|mine|] == mine;
  }

  lemma EraseUsersAndInstance(rows: Rows, inst: Instance)
    ensures Erase(rows, UsersCascade(inst.users[..0])) == rows
    ensures |InstanceCascade(inst)| == |UsersCascade(inst.users)| + 1
    ensures Erase(rows, UsersCascade(inst.users)) == Erase(rows, InstanceCascade(inst)[..|UsersCascade(inst.users)|])
    ensures Erase(Erase(rows, UsersCascade(inst.users)), [InstanceRef(inst.id)])
            == Erase(rows, InstanceCascade(inst)[..|InstanceCascade(inst)|])
  {
    EraseNothing(rows);
    EraseInSteps(rows, UsersCascade(inst.users), [InstanceRef(inst.id)]);
    var cascade := InstanceCascade(inst);
    assert cascade[..|UsersCascade(inst.users)|] == UsersCascade(inst.users);
    assert cascade[..|cascade|] == UsersCascade(inst.users) + [InstanceRef(inst.id)];
  }

  // ---- Specifications ------------------------------------------------------

  function BindRows(rows: Rows, i: Instance, bindingID: string, username: string, kind: UserType, key: Bytes,
                    entropy: Option<Entropy>, saveOk: bool): (Rows, BindResult)
  {
    match UserNamed(i.users, username)
    case None =>
      (match NewUser(kind, key, entropy, i.id)
       case None => (rows, NotBound)
       case Some(made) =>
         var named := made.(username := username);
         if saveOk then
           (InsertUser(rows, named, bindingID), Bound(User(rows.nextID, named, [Binding(rows.nextID + 1, bindingID)]), true))
         else (rows, NotBound))
    case Some(user) =>
      if saveOk then
        (AddBinding(rows, user, bindingID),
         Bound(user.(bindings := user.bindings + [Binding(rows.nextID, bindingID)]), false))
      else (rows, NotBound)
  }

  /** The copy in memory after `DBInstance.Bind`, whether or not its save succeeds: a new user that could be
      made is appended under its random name, before the requested name is set. */
  function BindUsers(users: seq<User>, username: string, made: Option<UserRow>): seq<User> {
    if UserNamed(users, username).None? && made.Some? then users + [User(0, made.value, [])] else users
  }

  /** So the copy shows the requested name afterwards if and only if it did before, or the random name happens
      to be the requested one: a caller that wants the stored name has to read the store again. */
  lemma CopyShowsNameIff(users: seq<User>, username: string, kind: UserType, key: Bytes, entropy: Option<Entropy>, id: nat)
    ensures var (made, after) := (NewUser(kind, key, entropy, id), BindUsers(users, username, NewUser(kind, key, entropy, id)));
            && (UserNamed(after, username).Some?
                <==> UserNamed(users, username).Some? || (made.Some? && RandUsername(entropy.value.name) == username))
            && (UserNamed(users, username).None? && made.Some?
                ==> |after| == |users| + 1 && after[|users|].row.username == RandUsername(entropy.value.name))
  {
    var made := NewUser(kind, key, entropy, id);
    if UserNamed(users, username).None? && made.Some? {
      UserNamedAppend(users, User(0, made.value, []), username);
    }
  }

  function UnbindRows(rows: Rows, i: Instance, bindingID: string, deleteOk: bool): (Rows, UnbindResult) {
    match BindingUser(i.users, bindingID)
    case None => (rows, UnknownBinding)
    case Some((user, binding)) =>
      if deleteOk then (Erase(rows, [BindingRef(binding.id)]), Unbound(user, |user.bindings| == 1))
      else (rows, NotUnbound)
  }

  function DeleteInstanceRows(rows: Rows, i: Instance, deletes: Option<nat>): Rows {
    Erase(rows, InstanceCascade(i)[..GoThrough(|InstanceCascade(i)|, 0, deletes)])
  }

  function DeleteUserRows(rows: Rows, u: User, deletes: Option<nat>): Rows {
    Erase(rows, UserCascade(u)[..GoThrough(|UserCascade(u)|, 0, deletes)])
  }
}
