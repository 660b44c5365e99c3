/** internaldb/manage.go: `RotateKey`, which seals every stored password again under a new key. */
module KeyRotation {
  import opened Wrappers
  import opened Utils
  import opened Models

  /** How the calls behind one user go: the fresh nonce, None when reading random bytes fails, and
      whether saving the row succeeds. */
  datatype Attempt = Attempt(iv: Option<Nonce>, saveOk: bool)

  /** One invocation of the tool. Each row is tried at most once, so attempts go by row id. */
  datatype Rotation = Rotation(oldKey: Bytes, newKey: Bytes, failFast: bool, attempts: nat -> Attempt)

  /** `Aborted`: the instances could not be loaded and the process exits. `Stopped`: fail-fast mode. */
  datatype Report = Done | Stopped | Errors(count: nat) | Aborted

  /** The row `RotateOne` saves, None when it fails at any of its steps. */
  function RotateRow(row: UserRow, r: Rotation, a: Attempt): Option<UserRow> {
    match Password(row, r.oldKey)
    case None => None
    case Some(password) =>
      if a.iv.None? then None
      else match Encrypt(password, r.newKey, a.iv.value)
        case None => None
        case Some(sealed) => if a.saveOk then Some(row.(encryptedPassword := sealed, iv := a.iv.value)) else None
  }

  /** The users of all loaded instances, in the order of the nested loops. */
  function AllUsers(instances: seq<Instance>): seq<User> {
    if instances == [] then [] else AllUsers(instances[..|instances| - 1]) + instances[|instances| - 1].users
  }

  datatype Progress = Progress(rows: Rows, errors: nat, stopped: bool)

  /** One turn of the inner loop. */
  function Turn(before: Progress, u: User, r: Rotation): Progress {
    match RotateRow(u.row, r, r.attempts(u.id))
    case Some(row) => before.(rows := before.rows.(users := before.rows.users[u.id := row]))
    case None => if r.failFast then before.(stopped := true) else before.(errors := before.errors + 1)
  }

  /** The loops over `users`, which were loaded before the first of them is saved. */
  function Rotate(rows: Rows, users: seq<User>, r: Rotation): Progress {
    if users == [] then Progress(rows, 0, false)
    else
      var before := Rotate(rows, users[..|users| - 1], r);
      if before.stopped then before else Turn(before, users[|users| - 1], r)
  }

  function ReportOf(p: Progress): Report {
    if p.stopped then Stopped else if p.errors != 0 then Errors(p.errors) else Done
  }

  method RotateOne(db: Database, user: User, r: Rotation) returns (ok: bool)
    modifies db
    ensures var row := RotateRow(user.row, r, r.attempts(user.id));
            && ok == row.Some?
            && db.rows == if ok then old(db.rows).(users := old(db.rows).users[user.id := row.value]) else old(db.rows)
  {
    var password := Password(user.row, r.oldKey);
    if password.None? {
      return false;
    }
    var a := r.attempts(user.id);
    if a.iv.None? {
      return false;
    }
    var sealed := Encrypt(password.value, r.newKey, a.iv.value);
    if sealed.None? {
      return false;
    }
    db.SaveUserRow(user.id, user.row.(encryptedPassword := sealed.value, iv := a.iv.value), a.saveOk);
    ok := a.saveOk;
  }

  /** `loaded` is what the query for all instances returns, None when it fails. */
  method RotateKey(db: Database, loaded: Option<seq<Instance>>, r: Rotation) returns (report: Report)
    modifies db
    ensures loaded.None? ==> report == Aborted && db.rows == old(db.rows)
    ensures loaded.Some? ==> var p := Rotate(old(db.rows), AllUsers(loaded.value), r);
                             db.rows == p.rows && report == ReportOf(p)
  {
    if loaded.None? {
      return Aborted;
    }
    var instances := loaded.value;
    var errCount := 0;
    for i := 0 to |instances|
      invariant Progress(db.rows, errCount, false) == Rotate(old(db.rows), AllUsers(instances[..i]), r)
    {
      var users := instances[i].users;
      ghost var earlier := AllUsers(instances[..i]);
      AroundInnerLoop(instances, i);
      for j := 0 to |users|
        invariant Progress(db.rows, errCount, false) == Rotate(old(db.rows), earlier + users[..j], r)
      {
        RotateInnerStep(old(db.rows), earlier, users, j, r);
        var ok := RotateOne(db, users[j], r);
        if !ok {
          if r.failFast {
            StopsInside(old(db.rows), instances, i, j, r);
            return Stopped;
          } else {
            errCount := errCount + 1;
          }
        }
      }
    }
    assert instances[..|instances|] == instances;
    report := if errCount != 0 then Errors(errCount) else Done;
  }

  lemma AroundInnerLoop(instances: seq<Instance>, i: nat)
    requires i < |instances|
    ensures var (earlier, users) := (AllUsers(instances[..i]), instances[i].users);
            earlier + users[..0] == earlier && earlier + users[..|users|] == AllUsers(instances[..i + 1])
  {
    AllUsersOneMore(instances, i);
    var users := instances[i].users;
    assert users[..|users|] == users;
  }

  lemma RotateInnerStep(rows: Rows, earlier: seq<User>, users: seq<User>, j: nat, r: Rotation)
    requires j < |users| && !Rotate(rows, earlier + users[..j], r).stopped
    ensures Rotate(rows, earlier + users[..j + 1], r) == Turn(Rotate(rows, earlier + users[..j], r), users[j], r)
  {
    var done := earlier + users[..j];
    assert earlier + users[..j + 1] == done + [users[j]];
    RotateOneMore(rows, done, users[j], r);
  }

  lemma StopsInside(rows: Rows, instances: seq<Instance>, i: nat, j: nat, r: Rotation)
    requires i < |instances| && j < |instances[i].users|
    requires Rotate(rows, AllUsers(instances[..i]) + instances[i].users[..j + 1], r).stopped
    ensures Rotate(rows, AllUsers(instances), r) == Rotate(rows, AllUsers(instances[..i]) + instances[i].users[..j + 1], r)
  {
    AllUsersOneMore(instances, i);
    RotateStops(rows, AllUsers(instances[..i]) + instances[i].users[..j + 1], AllUsers(instances), r);
  }

  lemma {:induction false} AllUsersOneMore(instances: seq<Instance>, i: nat)
    requires i < |instances|
    ensures AllUsers(instances[..i + 1]) == AllUsers(instances[..i]) + instances[i].users
    ensures AllUsers(instances[..i + 1]) <= AllUsers(instances)
    decreases |instances| - i
  {
    assert instances[..i + 1][..i] == instances[..i];
    if i + 1 < |instances| {
      AllUsersOneMore(instances, i + 1);
    } else {
      assert instances[..i + 1] == instances;
    }
  }

  lemma RotateOneMore(rows: Rows, users: seq<User>, u: User, r: Rotation)
    requires !Rotate(rows, users, r).stopped
    ensures Rotate(rows, users + [u], r) == Turn(Rotate(rows, users, r), u, r)
  {
    assert (users + [u])[..|users|] == users;
  }

  lemma {:induction false} RotateStops(rows: Rows, prefix: seq<User>, users: seq<User>, r: Rotation)
    requires prefix <= users && Rotate(rows, prefix, r).stopped
    ensures Rotate(rows, users, r) == Rotate(rows, prefix, r)
  {
    if |prefix| < |users| {
      RotateStops(rows, prefix, users[..|users| - 1], r);
    } else {
      assert prefix == users;
    }
  }

  // ---- Safety of one run ---------------------------------------------------

  /** What the loading query shows: stored rows, each once, in any order. */
  ghost predicate Shows(rows: Rows, users: seq<User>) {
    && (forall k :: 0 <= k < |users| ==> users[k].id in rows.users && rows.users[users[k].id] == users[k].row)
    && (forall j, k :: 0 <= j < k < |users| ==> users[j].id != users[k].id)
  }

  /** The row opens under the new key, to what it held under the old one. */
  predicate Rotated(before: UserRow, after: UserRow, r: Rotation) {
    Password(before, r.oldKey).Some? && Password(after, r.newKey) == Password(before, r.oldKey)
  }

  /** Only the sealed password and its nonce may differ. */
  predicate SameUser(before: UserRow, after: UserRow) {
    after == before.(encryptedPassword := after.encryptedPassword, iv := after.iv)
  }

  lemma RotateRowRotates(row: UserRow, r: Rotation, a: Attempt)
    requires RotateRow(row, r, a).Some?
    ensures Rotated(row, RotateRow(row, r, a).value, r) && SameUser(row, RotateRow(row, r, a).value)
  {
  }

  function RowAfter(row: UserRow, r: Rotation, a: Attempt): UserRow {
    match RotateRow(row, r, a) case Some(after) => after case None => row
  }

  /** How many of the first users to be tried go through before fail-fast mode stops. */
  function Tried(users: seq<User>, r: Rotation): (n: nat)
    ensures n <= |users|
  {
    if !r.failFast || users == [] then |users|
    else
      var n := Tried(users[..|users| - 1], r);
      var u := users[|users| - 1];
      if n == |users| - 1 && RotateRow(u.row, r, r.attempts(u.id)).Some? then n + 1 else n
  }

  function FailedCount(users: seq<User>, r: Rotation): nat {
    if users == [] then 0
    else
      var u := users[|users| - 1];
      FailedCount(users[..|users| - 1], r) + if RotateRow(u.row, r, r.attempts(u.id)).Some? then 0 else 1
  }

  lemma TurnFrame(before: Progress, u: User, r: Rotation)
    requires u.id in before.rows.users
    ensures var after := Turn(before, u, r).rows;
            && after == before.rows.(users := after.users)
            && after.users.Keys == before.rows.users.Keys
            && (forall id :: id in after.users && id != u.id ==> after.users[id] == before.rows.users[id])
  {
  }

  /** A run touches no row but those it tries. */
  lemma {:induction false} RotateFrame(rows: Rows, users: seq<User>, r: Rotation)
    requires Shows(rows, users)
    ensures var after := Rotate(rows, users, r).rows;
            && after == rows.(users := after.users)
            && after.users.Keys == rows.users.Keys
            && (forall id :: id in rows.users && !HasUser(users, id) ==> after.users[id] == rows.users[id])
  {
    if users != [] {
      var n := |users| - 1;
      var (init, u) := (users[..n], users[n]);
      assert forall k :: 0 <= k < n ==> init[k] == users[k];
      RotateFrame(rows, init, r);
      TurnFrame(Rotate(rows, init, r), u, r);
      assert u in users && forall v :: v in init ==> v in users;
    }
  }

  /** Where a run stops and how many errors it counts. */
  lemma {:induction false} RotateCounts(rows: Rows, users: seq<User>, r: Rotation)
    ensures var p := Rotate(rows, users, r);
            && (p.stopped <==> Tried(users, r) < |users|)
            && p.errors == (if r.failFast then 0 else FailedCount(users, r))
  {
    if users != [] {
      RotateCounts(rows, users[..|users| - 1], r);
    }
  }

  /** Fail-fast mode stops at the first user whose rotation fails. */
  lemma {:induction false} TriedIsFirstFailure(users: seq<User>, r: Rotation)
    ensures r.failFast ==> forall k :: 0 <= k < Tried(users, r) ==> RotateRow(users[k].row, r, r.attempts(users[k].id)).Some?
    ensures r.failFast && Tried(users, r) < |users| ==>
              var u := users[Tried(users, r)]; RotateRow(u.row, r, r.attempts(u.id)).None?
  {
    if users != [] {
      var n := |users| - 1;
      assert forall k :: 0 <= k < n ==> users[..n][k] == users[k];
      TriedIsFirstFailure(users[..n], r);
    }
  }

  /** The row of the k-th user after a run: rotated or, if that failed or was not tried, as before. */
  lemma {:induction false} RotateRows(rows: Rows, users: seq<User>, r: Rotation, k: nat)
    requires Shows(rows, users) && k < |users|
    ensures var after := Rotate(rows, users, r).rows.users;
            && users[k].id in after
            && after[users[k].id]
               == if k < Tried(users, r) then RowAfter(users[k].row, r, r.attempts(users[k].id)) else users[k].row
  {
    var init := users[..|users| - 1];
    BeforeLast(rows, users, r);
    if k < |users| - 1 {
      RotateRows(rows, init, r, k);
      TriedEarlier(users, r, k);
      LastTouchesNoOther(rows, users, r, k);
    } else {
      LastRow(rows, users, r);
    }
  }

  lemma TriedEarlier(users: seq<User>, r: Rotation, k: nat)
    requires k < |users| - 1
    ensures k < Tried(users, r) <==> k < Tried(users[..|users| - 1], r)
  {
  }

  /** Before the turn of the last user its row is as it was, and no other row is gone. */
  lemma BeforeLast(rows: Rows, users: seq<User>, r: Rotation)
    requires Shows(rows, users) && users != []
    ensures var (u, init) := (users[|users| - 1], users[..|users| - 1]);
            var p := Rotate(rows, init, r);
            && Shows(rows, init) && p.rows.users.Keys == rows.users.Keys
            && u.id in p.rows.users && p.rows.users[u.id] == u.row && (p.stopped <==> Tried(init, r) < |init|)
  {
    var init := users[..|users| - 1];
    assert forall j :: 0 <= j < |init| ==> init[j] == users[j];
    RotateFrame(rows, init, r);
    RotateCounts(rows, init, r);
    assert !HasUser(init, users[|users| - 1].id);
  }

  /** The turn of the last user, whose row is untouched before. */
  lemma LastRow(rows: Rows, users: seq<User>, r: Rotation)
    requires users != []
    requires var (u, p) := (users[|users| - 1], Rotate(rows, users[..|users| - 1], r));
             u.id in p.rows.users && p.rows.users[u.id] == u.row && (p.stopped <==> Tried(users[..|users| - 1], r) < |users| - 1)
    ensures var (u, after) := (users[|users| - 1], Rotate(rows, users, r).rows.users);
            && u.id in after
            && after[u.id] == if |users| - 1 < Tried(users, r) then RowAfter(u.row, r, r.attempts(u.id)) else u.row
  {
  }

  /** The turn of the last user leaves the rows of the others. */
  lemma LastTouchesNoOther(rows: Rows, users: seq<User>, r: Rotation, k: nat)
    requires users != [] && k < |users| - 1 && users[k].id != users[|users| - 1].id
    requires var before := Rotate(rows, users[..|users| - 1], r).rows.users; users[k].id in before && users[|users| - 1].id in before
    ensures var (before, after) := (Rotate(rows, users[..|users| - 1], r).rows.users, Rotate(rows, users, r).rows.users);
            users[k].id in after && after[users[k].id] == before[users[k].id]
  {
    TurnFrame(Rotate(rows, users[..|users| - 1], r), users[|users| - 1], r);
  }

  /** The store after a run, row by row. */
  lemma RotateExactly(rows: Rows, users: seq<User>, r: Rotation)
    requires Shows(rows, users)
    ensures var after := Rotate(rows, users, r).rows;
            && after == rows.(users := after.users)
            && after.users.Keys == rows.users.Keys
            && (forall id :: id in rows.users && !HasUser(users, id) ==> after.users[id] == rows.users[id])
            && (forall k :: 0 <= k < |users| ==>
                  after.users[users[k].id]
                  == if k < Tried(users, r) then RowAfter(users[k].row, r, r.attempts(users[k].id)) else users[k].row)
  {
    RotateFrame(rows, users, r);
    forall k | 0 <= k < |users| {
      RotateRows(rows, users, r, k);
    }
  }

  /** Rotation is safe whatever fails: each row ends either unchanged, or opening under the new key to
      the very password it had under the old key. No other column and no other table changes. */
  lemma RotationIsSafe(rows: Rows, users: seq<User>, r: Rotation)
    requires Shows(rows, users)
    ensures var after := Rotate(rows, users, r).rows;
            && after == rows.(users := after.users)
            && after.users.Keys == rows.users.Keys
            && (forall id :: id in rows.users ==>
                  after.users[id] == rows.users[id]
                  || (Rotated(rows.users[id], after.users[id], r) && SameUser(rows.users[id], after.users[id])))
  {
    RotateExactly(rows, users, r);
    var after := Rotate(rows, users, r).rows;
    forall id | id in rows.users
      ensures after.users[id] == rows.users[id]
              || (Rotated(rows.users[id], after.users[id], r) && SameUser(rows.users[id], after.users[id]))
    {
      if HasUser(users, id) {
        var k :| 0 <= k < |users| && users[k].id == id;
        if RotateRow(users[k].row, r, r.attempts(id)).Some? {
          RotateRowRotates(users[k].row, r, r.attempts(id));
        }
      }
    }
  }

  /** The rows among `users` that are not rotated in `after`. */
  function NotRotated(users: seq<User>, after: map<nat, UserRow>, r: Rotation): nat
    requires forall k :: 0 <= k < |users| ==> users[k].id in after
  {
    if users == [] then 0
    else
      var u := users[|users| - 1];
      NotRotated(users[..|users| - 1], after, r) + if Rotated(u.row, after[u.id], r) then 0 else 1
  }

  lemma RotatedIff(row: UserRow, r: Rotation, a: Attempt)
    requires r.oldKey != r.newKey
    ensures Rotated(row, RowAfter(row, r, a), r) <==> RotateRow(row, r, a).Some?
    ensures !Rotated(row, row, r)
  {
  }

  lemma {:induction false} NotRotatedIsFailed(users: seq<User>, after: map<nat, UserRow>, r: Rotation)
    requires r.oldKey != r.newKey
    requires forall k :: 0 <= k < |users| ==> users[k].id in after && after[users[k].id] == RowAfter(users[k].row, r, r.attempts(users[k].id))
    ensures NotRotated(users, after, r) == FailedCount(users, r)
  {
    if users != [] {
      var u := users[|users| - 1];
      RotatedIff(u.row, r, r.attempts(u.id));
      NotRotatedIsFailed(users[..|users| - 1], after, r);
    }
  }

  lemma {:induction false} NoneFailed(users: seq<User>, r: Rotation)
    ensures FailedCount(users, r) == 0
            <==> forall k :: 0 <= k < |users| ==> RotateRow(users[k].row, r, r.attempts(users[k].id)).Some?
  {
    if users != [] {
      var n := |users| - 1;
      assert forall k :: 0 <= k < n ==> users[..n][k] == users[k];
      NoneFailed(users[..n], r);
    }
  }

  /** The report is exact: without fail-fast it gives the number of rows that are not rotated, and in
      either mode the run ends without an error if and only if every row is rotated. */
  lemma ReportIsExact(rows: Rows, users: seq<User>, r: Rotation)
    requires Shows(rows, users) && r.oldKey != r.newKey
    ensures var p := Rotate(rows, users, r);
            && (forall k :: 0 <= k < |users| ==> users[k].id in p.rows.users)
            && (!r.failFast ==> p.errors == NotRotated(users, p.rows.users, r) && !p.stopped)
            && (ReportOf(p) == Done <==> forall k :: 0 <= k < |users| ==> Rotated(users[k].row, p.rows.users[users[k].id], r))
  {
    RotateExactly(rows, users, r);
    RotateCounts(rows, users, r);
    TriedIsFirstFailure(users, r);
    var p := Rotate(rows, users, r);
    forall k | 0 <= k < |users|
      ensures Rotated(users[k].row, p.rows.users[users[k].id], r)
              <==> k < Tried(users, r) && RotateRow(users[k].row, r, r.attempts(users[k].id)).Some?
    {
      RotatedIff(users[k].row, r, r.attempts(users[k].id));
    }
    if !r.failFast {
      NotRotatedIsFailed(users, p.rows.users, r);
      NoneFailed(users, r);
    } else if p.stopped {
      assert !Rotated(users[Tried(users, r)].row, p.rows.users[users[Tried(users, r)].id], r);
    }
  }

  // ---- Every row is reached ------------------------------------------------

  /** What the query for all instances returns: each instance row once, each with its users once, in any
      order. Bindings are not loaded. */
  ghost predicate LoadsAll(rows: Rows, instances: seq<Instance>) {
    && (forall i :: 0 <= i < |instances| ==> LoadsUsersOf(rows, instances[i]))
    && (forall i, j :: 0 <= i < j < |instances| ==> instances[i].id != instances[j].id)
    && (forall id :: id in rows.instances ==> exists i :: 0 <= i < |instances| && instances[i].id == id)
  }

  ghost predicate LoadsUsersOf(rows: Rows, i: Instance) {
    && Shows(rows, i.users)
    && (forall k :: 0 <= k < |i.users| ==> i.users[k].row.instance == i.id)
    && (forall u :: u in rows.users && rows.users[u].instance == i.id ==> HasUser(i.users, u))
  }

  lemma {:induction false} AllUsersShown(rows: Rows, instances: seq<Instance>, n: nat)
    requires LoadsAll(rows, instances) && n <= |instances|
    ensures Shows(rows, AllUsers(instances[..n]))
    ensures forall k :: 0 <= k < |AllUsers(instances[..n])| ==>
              exists i :: 0 <= i < n && instances[i].id == AllUsers(instances[..n])[k].row.instance
    ensures forall i, u :: 0 <= i < n && u in rows.users && rows.users[u].instance == instances[i].id
              ==> HasUser(AllUsers(instances[..n]), u)
  {
    if n > 0 {
      AllUsersShown(rows, instances, n - 1);
      AllUsersOneMore(instances, n - 1);
      assert LoadsUsersOf(rows, instances[n - 1]);
    }
  }

  /** When the foreign keys hold, no user row escapes the loops. */
  lemma EveryUserIsReached(rows: Rows, instances: seq<Instance>)
    requires LoadsAll(rows, instances)
    requires forall u :: u in rows.users ==> rows.users[u].instance in rows.instances
    ensures Shows(rows, AllUsers(instances))
    ensures forall u :: u in rows.users ==> HasUser(AllUsers(instances), u)
  {
    AllUsersShown(rows, instances, |instances|);
    assert instances[..|instances|] == instances;
  }

  // ---- Many runs -----------------------------------------------------------

  /** What a stored password says, under whichever key it is sealed. */
  function Content(row: UserRow): Option<string> {
    if row.encryptedPassword.Sealed? && row.encryptedPassword.iv == row.iv then Some(row.encryptedPassword.msg) else None
  }

  /** A run together with the order in which its query returns the rows. */
  datatype Run = Run(order: seq<nat>, rotation: Rotation)

  ghost predicate ValidOrder(rows: Rows, order: seq<nat>) {
    && (forall k :: 0 <= k < |order| ==> order[k] in rows.users)
    && (forall j, k :: 0 <= j < k < |order| ==> order[j] != order[k])
  }

  function Loaded(rows: Rows, order: seq<nat>): seq<User>
    requires forall k :: 0 <= k < |order| ==> order[k] in rows.users
  {
    seq(|order|, k requires 0 <= k < |order| => User(order[k], rows.users[order[k]], []))
  }

  lemma LoadedShows(rows: Rows, order: seq<nat>)
    requires ValidOrder(rows, order)
    ensures Shows(rows, Loaded(rows, order))
    ensures forall id :: HasUser(Loaded(rows, order), id) <==> id in order
  {
    var users := Loaded(rows, order);
    forall id | id in order
      ensures HasUser(users, id)
    {
      var k :| 0 <= k < |order| && order[k] == id;
      assert users[k] in users && users[k].id == id;
    }
  }

  ghost predicate ValidRuns(rows: Rows, runs: seq<Run>) {
    forall n :: 0 <= n < |runs| ==> ValidOrder(rows, runs[n].order)
  }

  /** The store after all the runs. */
  ghost function AfterRuns(rows: Rows, runs: seq<Run>): (after: Rows)
    requires ValidRuns(rows, runs)
    ensures after.users.Keys == rows.users.Keys
  {
    if runs == [] then rows
    else
      var before := AfterRuns(rows, runs[..|runs| - 1]);
      var run := runs[|runs| - 1];
      LoadedShows(before, run.order);
      RotateExactly(before, Loaded(before, run.order), run.rotation);
      Rotate(before, Loaded(before, run.order), run.rotation).rows
  }

  /** Across any sequence of runs, under any keys, in any mode and with any failures, what each stored
      password says never changes, and neither does anything else about its user. */
  lemma {:induction false} ContentsSurviveRuns(rows: Rows, runs: seq<Run>)
    requires ValidRuns(rows, runs)
    ensures var after := AfterRuns(rows, runs);
            forall id :: id in rows.users ==> Content(after.users[id]) == Content(rows.users[id])
                                              && SameUser(rows.users[id], after.users[id])
  {
    if runs != [] {
      var (init, run) := (runs[..|runs| - 1], runs[|runs| - 1]);
      ContentsSurviveRuns(rows, init);
      var before := AfterRuns(rows, init);
      LoadedShows(before, run.order);
      RotationIsSafe(before, Loaded(before, run.order), run.rotation);
    }
  }

  /** Every run of `runs` rotates from `oldKey` to `newKey`. */
  ghost predicate SameKeys(runs: seq<Run>, oldKey: Bytes, newKey: Bytes) {
    forall n :: 0 <= n < |runs| ==> runs[n].rotation.oldKey == oldKey && runs[n].rotation.newKey == newKey
  }

  /** A row that was sealed under the old key is, after any number of runs, still under the old key or
      already under the new one. */
  lemma {:induction false} UnderOneOfTheKeys(rows: Rows, runs: seq<Run>, oldKey: Bytes, newKey: Bytes, id: nat)
    requires ValidRuns(rows, runs) && SameKeys(runs, oldKey, newKey)
    requires id in rows.users && Password(rows.users[id], oldKey).Some?
    ensures var row := AfterRuns(rows, runs).users[id];
            Password(row, oldKey) == Password(rows.users[id], oldKey) || Password(row, newKey) == Password(rows.users[id], oldKey)
  {
    if runs != [] {
      var (init, run) := (runs[..|runs| - 1], runs[|runs| - 1]);
      UnderOneOfTheKeys(rows, init, oldKey, newKey, id);
      var before := AfterRuns(rows, init);
      LoadedShows(before, run.order);
      RotationIsSafe(before, Loaded(before, run.order), run.rotation);
      ContentsSurviveRuns(rows, init);
    }
  }

  /** No call of the run fails. */
  ghost predicate Unhindered(r: Rotation) {
    ValidKey(r.newKey) && forall id :: r.attempts(id).iv.Some? && r.attempts(id).saveOk
  }

  /** A rerun without fail-fast in which no call fails rotates exactly the rows still under the old key
      and reports one error for each of the others. */
  lemma RerunRotatesTheRest(rows: Rows, users: seq<User>, r: Rotation)
    requires Shows(rows, users) && r.oldKey != r.newKey && !r.failFast && Unhindered(r)
    ensures var after := Rotate(rows, users, r).rows;
            forall k :: 0 <= k < |users| ==>
              && users[k].id in after.users
              && (Password(users[k].row, r.oldKey).Some? ==> Rotated(users[k].row, after.users[users[k].id], r))
              && (Password(users[k].row, r.oldKey).None? ==> after.users[users[k].id] == users[k].row)
    ensures Rotate(rows, users, r).errors == CountNotUnder(users, r.oldKey)
  {
    RotateExactly(rows, users, r);
    RotateCounts(rows, users, r);
    TriedIsFirstFailure(users, r);
    UnhinderedFailures(users, r);
  }

  function CountNotUnder(users: seq<User>, key: Bytes): nat {
    if users == [] then 0
    else CountNotUnder(users[..|users| - 1], key) + if Password(users[|users| - 1].row, key).Some? then 0 else 1
  }

  lemma {:induction false} UnhinderedFailures(users: seq<User>, r: Rotation)
    requires Unhindered(r)
    ensures FailedCount(users, r) == CountNotUnder(users, r.oldKey)
  {
    if users != [] {
      UnhinderedFailures(users[..|users| - 1], r);
      var u := users[|users| - 1];
      assert r.attempts(u.id).iv.Some?;
    }
  }

  /** Rotation can be resumed: however earlier runs between the two keys were cut short, one more run
      without fail-fast in which no call fails leaves every row that the query shows and that was under
      the old key at the start opening under the new key, to the password it had then. */
  lemma OneMoreRunCompletes(rows: Rows, runs: seq<Run>, last: Run, id: nat)
    requires ValidRuns(rows, runs + [last]) && SameKeys(runs, last.rotation.oldKey, last.rotation.newKey)
    requires last.rotation.oldKey != last.rotation.newKey && !last.rotation.failFast && Unhindered(last.rotation)
    requires id in last.order && id in rows.users && Password(rows.users[id], last.rotation.oldKey).Some?
    ensures Password(AfterRuns(rows, runs + [last]).users[id], last.rotation.newKey) == Password(rows.users[id], last.rotation.oldKey)
  {
    var r := last.rotation;
    assert (runs + [last])[..|runs|] == runs && (runs + [last])[|runs|] == last;
    assert forall n :: 0 <= n < |runs| ==> (runs + [last])[n] == runs[n];
    var before := AfterRuns(rows, runs);
    var users := Loaded(before, last.order);
    LoadedShows(before, last.order);
    UnderOneOfTheKeys(rows, runs, r.oldKey, r.newKey, id);
    RerunRotatesTheRest(before, users, r);
    var k :| 0 <= k < |last.order| && last.order[k] == id;
    assert users[k].id == id && users[k].row == before.users[id];
  }

  /** A fail-fast run stops at the first row that does not open under the old key, such as one that is
      already rotated, and changes nothing from that row on. */
  lemma FailFastStopsAtRotated(rows: Rows, users: seq<User>, r: Rotation, k: nat)
    requires Shows(rows, users) && r.failFast
    requires k < |users| && Password(users[k].row, r.oldKey).None?
    ensures var p := Rotate(rows, users, r);
            ReportOf(p) == Stopped
            && forall j :: k <= j < |users| ==> users[j].id in p.rows.users && p.rows.users[users[j].id] == users[j].row
  {
    RotateExactly(rows, users, r);
    RotateCounts(rows, users, r);
    TriedIsFirstFailure(users, r);
    assert Tried(users, r) <= k;
  }

  // ---- Nonces --------------------------------------------------------------

  predicate SealedUnder(row: UserRow, key: Bytes) {
    row.encryptedPassword.Sealed? && row.encryptedPassword.key == key
  }

  /** No two rows are sealed under the key with the same nonce; section 8 of NIST SP 800-38D asks for this. */
  ghost predicate NoncesApart(rows: Rows, key: Bytes) {
    forall u, v :: u in rows.users && v in rows.users && u != v && SealedUnder(rows.users[u], key) && SealedUnder(rows.users[v], key)
      ==> rows.users[u].encryptedPassword.iv != rows.users[v].encryptedPassword.iv
  }

  /** The nonces drawn in a run are different from each other and from those of all stored rows. */
  ghost predicate FreshNonces(rows: Rows, r: Rotation) {
    && (forall u, v :: u in rows.users && v in rows.users && u != v && r.attempts(u).iv.Some? ==> r.attempts(u).iv != r.attempts(v).iv)
    && (forall u, v :: u in rows.users && v in rows.users && r.attempts(u).iv.Some? && rows.users[v].encryptedPassword.Sealed?
          ==> r.attempts(u).iv.value != rows.users[v].encryptedPassword.iv)
  }

  /** A row is sealed again with the nonce drawn for it, or is as it was. */
  lemma SealedWithItsNonce(rows: Rows, users: seq<User>, r: Rotation, id: nat)
    requires Shows(rows, users) && id in rows.users
    ensures var after := Rotate(rows, users, r).rows;
            && id in after.users
            && (after.users[id] == rows.users[id]
                || (r.attempts(id).iv.Some? && after.users[id].iv == r.attempts(id).iv.value && SealedUnder(after.users[id], r.newKey)
                    && after.users[id].encryptedPassword.iv == r.attempts(id).iv.value))
  {
    RotateExactly(rows, users, r);
    if HasUser(users, id) {
      var k :| 0 <= k < |users| && users[k].id == id;
    }
  }

  /** Rotation never uses a nonce twice under a key: whatever fails, if the nonces it draws are fresh and no two
      rows shared one under a key before, none do afterwards, under the old key, the new one or any other. */
  lemma RotationKeepsNoncesApart(rows: Rows, users: seq<User>, r: Rotation, key: Bytes)
    requires Shows(rows, users) && FreshNonces(rows, r) && NoncesApart(rows, key)
    ensures NoncesApart(Rotate(rows, users, r).rows, key)
  {
    var after := Rotate(rows, users, r).rows;
    RotateExactly(rows, users, r);
    forall u, v | u in after.users && v in after.users && u != v && SealedUnder(after.users[u], key) && SealedUnder(after.users[v], key)
      ensures after.users[u].encryptedPassword.iv != after.users[v].encryptedPassword.iv
    {
      SealedWithItsNonce(rows, users, r, u);
      SealedWithItsNonce(rows, users, r, v);
    }
  }
}
