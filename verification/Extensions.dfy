/** sqlengine/postgres_engine.go: `SetExtensions`, which turns the installed extensions of a database
    into the requested ones with one DDL statement per difference. */
module Extensions {
  import opened Wrappers
  import opened Utils

  datatype Ddl = Drop(name: string) | Create(name: string)

  const PLPGSQL := "plpgsql"

  /** How the n-th statement sent to the server goes: false when the server refuses it for a reason of
      its own (a dependent object, a lost connection, a missing package). */
  type Oracle = nat -> bool

  /** PostgreSQL runs `DROP EXTENSION` only on an installed extension and `CREATE EXTENSION` only on one
      that is not installed. */
  predicate Runs(installed: set<string>, ddl: Ddl, ok: bool) {
    ok && match ddl case Drop(name) => name in installed case Create(name) => name !in installed
  }

  function Effect(installed: set<string>, ddl: Ddl): set<string> {
    match ddl case Drop(name) => installed - {name} case Create(name) => installed + {name}
  }

  /** The database of one engine connection: the extensions it has and every statement sent to it. */
  class PostgresDatabase {
    var installed: set<string>
    var issued: seq<Ddl>

    constructor (installed: set<string>)
      ensures this.installed == installed && issued == []
    {
      this.installed := installed;
      issued := [];
    }

    method Exec(ddl: Ddl, ok: bool) returns (success: bool)
      modifies this
      ensures success == Runs(old(installed), ddl, ok)
      ensures installed == if success then Effect(old(installed), ddl) else old(installed)
      ensures issued == old(issued) + [ddl]
    {
      success := Runs(installed, ddl, ok);
      issued := issued + [ddl];
      if success {
        installed := Effect(installed, ddl);
      }
    }

    /** `listing` is what the query for the current extensions hands back, None when the query itself
        fails. The statements sent are those of `Plan`, in its order, until one is refused. */
    method SetExtensions(extensions: seq<string>, listing: Option<seq<string>>, ok: Oracle) returns (success: bool)
      requires issued == []
      modifies this
      ensures Outcome(installed, issued, success) == SetExtensionsOutcome(old(installed), extensions, listing, ok)
    {
      for i := 0 to |extensions|
        invariant installed == old(installed) && issued == []
        invariant forall j :: 0 <= j < i ==> IsValidExtensionName(extensions[j])
      {
        if !IsValidExtensionName(extensions[i]) {
          return false;
        }
      }
      if listing.None? {
        return false;
      }
      ghost var drops := Drops(listing.value, extensions);
      success := DropUnwanted(listing.value, extensions, ok);
      if success {
        success := CreateMissing(listing.value, extensions, old(installed), ok);
      } else {
        RunAllStops(old(installed), drops, Plan(listing.value, extensions), ok);
      }
    }

    /** The first pair of loops: drop what is installed and not requested. */
    method DropUnwanted(oldExtensions: seq<string>, extensions: seq<string>, ok: Oracle) returns (success: bool)
      requires issued == []
      modifies this
      ensures Outcome(installed, issued, success) == RunAll(old(installed), Drops(oldExtensions, extensions), ok)
    {
      for i := 0 to |oldExtensions|
        invariant issued == Drops(oldExtensions[..i], extensions)
        invariant Outcome(installed, issued, true) == RunAll(old(installed), issued, ok)
      {
        DropsOneMore(oldExtensions, i, extensions);
        var found := Contains(extensions, oldExtensions[i]);
        if !found {
          RunAllOneMore(old(installed), issued, Drop(oldExtensions[i]), ok);
          success := Exec(Drop(oldExtensions[i]), ok(|issued|));
          if !success {
            DropsPrefix(oldExtensions, i + 1, extensions);
            RunAllStops(old(installed), issued, Drops(oldExtensions, extensions), ok);
            return false;
          }
        }
      }
      assert oldExtensions[..|oldExtensions|] == oldExtensions;
      success := true;
    }

    /** The second pair of loops: create what is requested and was not installed. */
    method CreateMissing(oldExtensions: seq<string>, extensions: seq<string>, ghost start: set<string>, ok: Oracle) returns (success: bool)
      requires issued == Drops(oldExtensions, extensions)
      requires Outcome(installed, issued, true) == RunAll(start, issued, ok)
      modifies this
      ensures Outcome(installed, issued, success) == RunAll(start, Plan(oldExtensions, extensions), ok)
    {
      ghost var drops := issued;
      assert drops + Creates(extensions[..0], oldExtensions) == drops;
      for i := 0 to |extensions|
        invariant issued == drops + Creates(extensions[..i], oldExtensions)
        invariant Outcome(installed, issued, true) == RunAll(start, drops + Creates(extensions[..i], oldExtensions), ok)
      {
        CreatesOneMore(extensions, i, oldExtensions);
        if extensions[i] == PLPGSQL {
          continue;
        }
        var found := Contains(oldExtensions, extensions[i]);
        if !found {
          RunsOneMoreCreate(start, oldExtensions, extensions, i, ok);
          success := Exec(Create(extensions[i]), ok(|issued|));
          if !success {
            StopsInCreates(start, oldExtensions, extensions, i + 1, ok);
            return false;
          }
        }
      }
      assert extensions[..|extensions|] == extensions;
      success := true;
    }
  }

  /** The inner search loops. */
  method Contains(names: seq<string>, name: string) returns (found: bool)
    ensures found <==> name in names
  {
    found := false;
    for i := 0 to |names|
      invariant !found && name !in names[..i]
    {
      if name == names[i] {
        found := true;
        break;
      }
    }
  }

  // ---- Specification -------------------------------------------------------

  datatype Outcome = Outcome(installed: set<string>, issued: seq<Ddl>, success: bool)

  ghost predicate Distinct(names: seq<string>) {
    forall i, j :: 0 <= i < j < |names| ==> names[i] != names[j]
  }

  /** What the query can hand back: installed names other than `plpgsql`, each once, in any order. The
      code never asks `rows.Err()`, so a connection lost while reading leaves a shorter list. */
  ghost predicate IsListing(listing: seq<string>, installed: set<string>) {
    Distinct(listing) && forall name :: name in listing ==> name in installed && name != PLPGSQL
  }

  ghost predicate IsComplete(listing: seq<string>, installed: set<string>) {
    IsListing(listing, installed) && forall name :: name in installed && name != PLPGSQL ==> name in listing
  }

  /** One drop for each listed name that is not requested. */
  function Drops(listing: seq<string>, wanted: seq<string>): seq<Ddl> {
    if listing == [] then []
    else
      var last := listing[|listing| - 1];
      Drops(listing[..|listing| - 1], wanted) + if last in wanted then [] else [Drop(last)]
  }

  /** One create for each requested name that is not listed, `plpgsql` excepted. */
  function Creates(wanted: seq<string>, listing: seq<string>): seq<Ddl> {
    if wanted == [] then []
    else
      var last := wanted[|wanted| - 1];
      Creates(wanted[..|wanted| - 1], listing) + if last in listing || last == PLPGSQL then [] else [Create(last)]
  }

  function Plan(listing: seq<string>, wanted: seq<string>): seq<Ddl> {
    Drops(listing, wanted) + Creates(wanted, listing)
  }

  /** Sends the statements one after the other and stops at the first that is refused. */
  function RunAll(installed: set<string>, plan: seq<Ddl>, ok: Oracle): Outcome {
    if plan == [] then Outcome(installed, [], true)
    else
      var before := RunAll(installed, plan[..|plan| - 1], ok);
      var ddl := plan[|plan| - 1];
      if !before.success then before
      else if Runs(before.installed, ddl, ok(|plan| - 1)) then Outcome(Effect(before.installed, ddl), plan, true)
      else Outcome(before.installed, plan, false)
  }

  function SetExtensionsOutcome(installed: set<string>, wanted: seq<string>, listing: Option<seq<string>>, ok: Oracle): Outcome {
    if (exists i :: 0 <= i < |wanted| && !IsValidExtensionName(wanted[i])) || listing.None?
    then Outcome(installed, [], false)
    else RunAll(installed, Plan(listing.value, wanted), ok)
  }

  lemma TakeOneMore(s: seq<string>, i: nat)
    requires i < |s|
    ensures s[..i + 1][..i] == s[..i] && s[..i + 1][i] == s[i]
    ensures forall x :: x in s[..i + 1] <==> x in s[..i] || x == s[i]
  {
    assert s[..i + 1] == s[..i] + [s[i]];
  }

  lemma DropsOneMore(s: seq<string>, i: nat, wanted: seq<string>)
    requires i < |s|
    ensures Drops(s[..i + 1], wanted) == Drops(s[..i], wanted) + if s[i] in wanted then [] else [Drop(s[i])]
  {
    TakeOneMore(s, i);
  }

  lemma CreatesOneMore(s: seq<string>, i: nat, listing: seq<string>)
    requires i < |s|
    ensures Creates(s[..i + 1], listing)
            == Creates(s[..i], listing) + if s[i] in listing || s[i] == PLPGSQL then [] else [Create(s[i])]
  {
    TakeOneMore(s, i);
  }

  /** The plan drops exactly what is listed and not requested. */
  lemma {:induction false} DropsMembers(listing: seq<string>, wanted: seq<string>)
    ensures forall name :: Drop(name) in Drops(listing, wanted) <==> name in listing && name !in wanted
    ensures forall i :: 0 <= i < |Drops(listing, wanted)| ==> Drops(listing, wanted)[i].Drop?
    ensures (forall x :: x in listing ==> x in wanted) ==> Drops(listing, wanted) == []
  {
    if listing != [] {
      var n := |listing| - 1;
      DropsMembers(listing[..n], wanted);
      assert listing == listing[..n] + [listing[n]];
    }
  }

  /** The plan creates exactly what is requested and not listed, `plpgsql` excepted. */
  lemma {:induction false} CreatesMembers(wanted: seq<string>, listing: seq<string>)
    ensures forall name :: Create(name) in Creates(wanted, listing) <==> name in wanted && name !in listing && name != PLPGSQL
    ensures forall i :: 0 <= i < |Creates(wanted, listing)| ==> Creates(wanted, listing)[i].Create?
    ensures (forall x :: x in wanted ==> x in listing || x == PLPGSQL) ==> Creates(wanted, listing) == []
  {
    if wanted != [] {
      var n := |wanted| - 1;
      CreatesMembers(wanted[..n], listing);
      assert wanted == wanted[..n] + [wanted[n]];
    }
  }

  lemma {:induction false} DropsPrefix(s: seq<string>, n: nat, wanted: seq<string>)
    requires n <= |s|
    ensures Drops(s[..n], wanted) <= Drops(s, wanted)
    decreases |s| - n
  {
    if n == |s| {
      assert s[..n] == s;
    } else {
      DropsOneMore(s, n, wanted);
      DropsPrefix(s, n + 1, wanted);
    }
  }

  lemma {:induction false} CreatesPrefix(s: seq<string>, n: nat, listing: seq<string>)
    requires n <= |s|
    ensures Creates(s[..n], listing) <= Creates(s, listing)
    decreases |s| - n
  {
    if n == |s| {
      assert s[..n] == s;
    } else {
      CreatesOneMore(s, n, listing);
      CreatesPrefix(s, n + 1, listing);
    }
  }

  lemma RunAllOneMore(installed: set<string>, plan: seq<Ddl>, ddl: Ddl, ok: Oracle)
    requires RunAll(installed, plan, ok).success
    ensures var before := RunAll(installed, plan, ok);
            RunAll(installed, plan + [ddl], ok)
            == if Runs(before.installed, ddl, ok(|plan|)) then Outcome(Effect(before.installed, ddl), plan + [ddl], true)
               else Outcome(before.installed, plan + [ddl], false)
  {
    assert (plan + [ddl])[..|plan|] == plan;
  }

  /** Nothing is sent after a refusal. */
  lemma {:induction false} RunAllStops(installed: set<string>, prefix: seq<Ddl>, plan: seq<Ddl>, ok: Oracle)
    requires prefix <= plan
    requires !RunAll(installed, prefix, ok).success
    ensures RunAll(installed, plan, ok) == RunAll(installed, prefix, ok)
  {
    if |prefix| < |plan| {
      RunAllStops(installed, prefix, plan[..|plan| - 1], ok);
    } else {
      assert prefix == plan;
    }
  }

  lemma RunsOneMoreCreate(installed: set<string>, listing: seq<string>, wanted: seq<string>, n: nat, ok: Oracle)
    requires n < |wanted| && wanted[n] !in listing && wanted[n] != PLPGSQL
    requires RunAll(installed, Drops(listing, wanted) + Creates(wanted[..n], listing), ok).success
    ensures var sent := Drops(listing, wanted) + Creates(wanted[..n], listing);
            var before := RunAll(installed, sent, ok);
            var ddl := Create(wanted[n]);
            && Drops(listing, wanted) + Creates(wanted[..n + 1], listing) == sent + [ddl]
            && RunAll(installed, Drops(listing, wanted) + Creates(wanted[..n + 1], listing), ok)
               == if Runs(before.installed, ddl, ok(|sent|)) then Outcome(Effect(before.installed, ddl), sent + [ddl], true)
                  else Outcome(before.installed, sent + [ddl], false)
  {
    var sent := Drops(listing, wanted) + Creates(wanted[..n], listing);
    CreatesOneMore(wanted, n, listing);
    RunAllOneMore(installed, sent, Create(wanted[n]), ok);
    assert Drops(listing, wanted) + Creates(wanted[..n + 1], listing) == sent + [Create(wanted[n])];
  }

  lemma StopsInCreates(installed: set<string>, listing: seq<string>, wanted: seq<string>, n: nat, ok: Oracle)
    requires n <= |wanted|
    requires !RunAll(installed, Drops(listing, wanted) + Creates(wanted[..n], listing), ok).success
    ensures RunAll(installed, Plan(listing, wanted), ok)
            == RunAll(installed, Drops(listing, wanted) + Creates(wanted[..n], listing), ok)
  {
    CreatesPrefix(wanted, n, listing);
    RunAllStops(installed, Drops(listing, wanted) + Creates(wanted[..n], listing), Plan(listing, wanted), ok);
  }

  // ---- What SetExtensions promises -----------------------------------------

  /** A run sends a prefix of the plan, all of it on success. */
  lemma {:induction false} IssuedIsPrefix(installed: set<string>, plan: seq<Ddl>, ok: Oracle)
    ensures RunAll(installed, plan, ok).issued <= plan
    ensures RunAll(installed, plan, ok).success ==> RunAll(installed, plan, ok).issued == plan
  {
    if plan != [] {
      IssuedIsPrefix(installed, plan[..|plan| - 1], ok);
    }
  }

  /** Whatever is refused and wherever the run stops, only dropped names are lost and only created names
      are gained. */
  lemma {:induction false} RunAllBounds(installed: set<string>, plan: seq<Ddl>, ok: Oracle)
    ensures forall x :: x in installed && Drop(x) !in plan ==> x in RunAll(installed, plan, ok).installed
    ensures forall x :: x in RunAll(installed, plan, ok).installed ==> x in installed || Create(x) in plan
  {
    if plan != [] {
      RunAllBounds(installed, plan[..|plan| - 1], ok);
      assert plan == plan[..|plan| - 1] + [plan[|plan| - 1]];
    }
  }

  lemma PlanMembers(listing: seq<string>, wanted: seq<string>, x: string)
    ensures Drop(x) in Plan(listing, wanted) <==> x in listing && x !in wanted
    ensures Create(x) in Plan(listing, wanted) <==> x in wanted && x !in listing && x != PLPGSQL
  {
    DropsMembers(listing, wanted);
    CreatesMembers(wanted, listing);
  }

  /** A database stopped at any statement still holds everything that was installed and is requested,
      and nothing that is neither. */
  lemma StoppedAnywhere(installed: set<string>, wanted: seq<string>, listing: Option<seq<string>>, ok: Oracle)
    requires listing.Some? ==> IsListing(listing.value, installed)
    ensures var r := SetExtensionsOutcome(installed, wanted, listing, ok);
            && (forall x :: x in installed && (x in wanted || x == PLPGSQL) ==> x in r.installed)
            && (forall x :: x in r.installed ==> x in installed || x in wanted)
  {
    if listing.Some? {
      RunAllBounds(installed, Plan(listing.value, wanted), ok);
      forall x {
        PlanMembers(listing.value, wanted, x);
      }
    }
  }

  /** Nothing is created before every drop is done. */
  lemma DropsComeFirst(installed: set<string>, wanted: seq<string>, listing: seq<string>, ok: Oracle, i: nat)
    requires var r := RunAll(installed, Plan(listing, wanted), ok);
             i < |r.issued| && r.issued[i].Create?
    ensures Drops(listing, wanted) <= RunAll(installed, Plan(listing, wanted), ok).issued[..i]
  {
    DropsMembers(listing, wanted);
    IssuedIsPrefix(installed, Plan(listing, wanted), ok);
    assert i >= |Drops(listing, wanted)|;
  }

  /** An invalid name leaves the database untouched and sends nothing. */
  lemma InvalidNameTouchesNothing(installed: set<string>, wanted: seq<string>, listing: Option<seq<string>>, ok: Oracle)
    requires exists name :: name in wanted && !IsValidExtensionName(name)
    ensures SetExtensionsOutcome(installed, wanted, listing, ok) == Outcome(installed, [], false)
  {
    var name :| name in wanted && !IsValidExtensionName(name);
    var i :| 0 <= i < |wanted| && wanted[i] == name;
    assert !IsValidExtensionName(wanted[i]);
  }

  /** No name that has yet to be created is requested twice, and none is installed without being
      listed. The second half holds of every complete listing. */
  ghost predicate Creatable(installed: set<string>, wanted: seq<string>, listing: seq<string>) {
    && (forall i, j :: 0 <= i < j < |wanted| && wanted[i] == wanted[j] ==> wanted[i] in listing || wanted[i] == PLPGSQL)
    && (forall x :: x in wanted && x in installed ==> x in listing || x == PLPGSQL)
  }

  /** The drops of a listing all run unless the server refuses one. */
  lemma {:induction false} DropsRun(installed: set<string>, listing: seq<string>, wanted: seq<string>, ok: Oracle, n: nat)
    requires IsListing(listing, installed) && n <= |listing|
    requires forall k: nat :: k < |Drops(listing[..n], wanted)| ==> ok(k)
    ensures var r := RunAll(installed, Drops(listing[..n], wanted), ok);
            r.success && (forall x :: x in r.installed <==> x in installed && (x !in listing[..n] || x in wanted))
  {
    if n > 0 {
      TakeOneMore(listing, n - 1);
      DropsOneMore(listing, n - 1, wanted);
      DropsRun(installed, listing, wanted, ok, n - 1);
      var (name, shorter) := (listing[n - 1], Drops(listing[..n - 1], wanted));
      if name !in wanted {
        RunAllOneMore(installed, shorter, Drop(name), ok);
        assert name in listing && name !in listing[..n - 1];
        assert Runs(RunAll(installed, shorter, ok).installed, Drop(name), ok(|shorter|));
      } else {
        assert Drops(listing[..n], wanted) == shorter;
      }
    }
  }

  /** The outcome of the drops and of the creates of the first n requested names. */
  ghost predicate CreatesDone(installed: set<string>, listing: seq<string>, wanted: seq<string>, n: nat, r: Outcome)
    requires n <= |wanted|
  {
    && (r.success <==> Creatable(installed, wanted[..n], listing))
    && (r.success ==> (forall x :: x in r.installed <==>
                         || (x in installed && (x !in listing || x in wanted))
                         || (x in wanted[..n] && x !in listing && x != PLPGSQL)))
  }

  /** What one more requested name makes of an outcome. */
  lemma CreateStep(installed: set<string>, listing: seq<string>, wanted: seq<string>, n: nat, before: Outcome, after: Outcome)
    requires IsListing(listing, installed) && 0 < n <= |wanted| && CreatesDone(installed, listing, wanted, n - 1, before)
    requires var name := wanted[n - 1];
             if name in listing || name == PLPGSQL then after == before
             else if !before.success then !after.success
             else if name in before.installed then !after.success
             else after.success && after.installed == before.installed + {name}
    ensures CreatesDone(installed, listing, wanted, n, after)
  {
    TakeOneMore(wanted, n - 1);
    CreatableOneMore(installed, wanted, listing, n);
  }

  /** After the drops, the creates of the first n requested names run exactly when none of them is
      already there, unless the server refuses one. */
  lemma {:induction false} CreatesRun(installed: set<string>, listing: seq<string>, wanted: seq<string>, ok: Oracle, n: nat)
    requires IsListing(listing, installed) && n <= |wanted|
    requires forall k: nat :: k < |Drops(listing, wanted)| + |Creates(wanted[..n], listing)| ==> ok(k)
    ensures CreatesDone(installed, listing, wanted, n, RunAll(installed, Drops(listing, wanted) + Creates(wanted[..n], listing), ok))
  {
    var drops := Drops(listing, wanted);
    if n == 0 {
      assert listing[..|listing|] == listing && wanted[..0] == [];
      assert drops + Creates(wanted[..0], listing) == drops;
      DropsRun(installed, listing, wanted, ok, |listing|);
    } else {
      var (before, name) := (drops + Creates(wanted[..n - 1], listing), wanted[n - 1]);
      var plan := drops + Creates(wanted[..n], listing);
      assert plan == before + if name in listing || name == PLPGSQL then [] else [Create(name)] by {
        CreatesOneMore(wanted, n - 1, listing);
      }
      CreatesRun(installed, listing, wanted, ok, n - 1);
      if name in listing || name == PLPGSQL {
        assert plan == before;
      } else if RunAll(installed, before, ok).success {
        RunAllOneMore(installed, before, Create(name), ok);
      } else {
        RunAllStops(installed, before, plan, ok);
      }
      CreateStep(installed, listing, wanted, n, RunAll(installed, before, ok), RunAll(installed, plan, ok));
    }
  }

  lemma CreatableOneMore(installed: set<string>, wanted: seq<string>, listing: seq<string>, n: nat)
    requires 0 < n <= |wanted|
    ensures var name := wanted[n - 1];
            Creatable(installed, wanted[..n], listing)
            <==> Creatable(installed, wanted[..n - 1], listing)
                 && (name in listing || name == PLPGSQL || (name !in installed && name !in wanted[..n - 1]))
  {
    var (longer, shorter) := (wanted[..n], wanted[..n - 1]);
    TakeOneMore(wanted, n - 1);
    assert forall i :: 0 <= i < n - 1 ==> longer[i] == shorter[i];
    assert longer[n - 1] == wanted[n - 1];
  }

  /** Success, exactly: every name is valid, the query answers, the server refuses no statement that is
      sent, and nothing that has yet to be created is requested twice or hidden from the listing. */
  lemma SucceedsIff(installed: set<string>, wanted: seq<string>, listing: Option<seq<string>>, ok: Oracle)
    requires listing.Some? ==> IsListing(listing.value, installed)
    ensures var r := SetExtensionsOutcome(installed, wanted, listing, ok);
            r.success <==> && (forall i :: 0 <= i < |wanted| ==> IsValidExtensionName(wanted[i]))
                           && listing.Some?
                           && (forall k: nat :: k < |r.issued| ==> ok(k))
                           && Creatable(installed, wanted, listing.value)
  {
    if listing.Some? {
      var plan := Plan(listing.value, wanted);
      var r := RunAll(installed, plan, ok);
      assert wanted[..|wanted|] == wanted;
      IssuedIsPrefix(installed, plan, ok);
      if forall k: nat :: k < |plan| ==> ok(k) {
        CreatesRun(installed, listing.value, wanted, ok, |wanted|);
      } else {
        RefusalFails(installed, plan, ok);
        if (forall k: nat :: k < |r.issued| ==> ok(k)) {
          SameAnswersSameRun(installed, plan, ok, ALL_YES);
          CreatesRun(installed, listing.value, wanted, ALL_YES, |wanted|);
        }
      }
    }
  }

  /** The server that refuses nothing of its own accord. */
  const ALL_YES: Oracle := n => true

  lemma {:induction false} RefusalFails(installed: set<string>, plan: seq<Ddl>, ok: Oracle)
    requires exists k: nat :: k < |plan| && !ok(k)
    ensures !RunAll(installed, plan, ok).success
  {
    var shorter := plan[..|plan| - 1];
    if exists k: nat :: k < |shorter| && !ok(k) {
      RefusalFails(installed, shorter, ok);
    } else {
      var k: nat :| k < |plan| && !ok(k);
      assert k == |plan| - 1;
    }
  }

  /** A run to which the server gave only yes answers is the run of a server that always says yes. */
  lemma {:induction false} SameAnswersSameRun(installed: set<string>, plan: seq<Ddl>, ok: Oracle, yes: Oracle)
    requires forall k :: yes(k)
    requires forall k: nat :: k < |RunAll(installed, plan, ok).issued| ==> ok(k)
    ensures RunAll(installed, plan, yes) == RunAll(installed, plan, ok)
  {
    if plan != [] {
      IssuedIsPrefix(installed, plan[..|plan| - 1], ok);
      SameAnswersSameRun(installed, plan[..|plan| - 1], ok, yes);
    }
  }

  /** On success every statement of the plan has been sent and the installed set is the requested one,
      together with whatever the listing failed to show. `plpgsql` is left as it was. */
  lemma SuccessReachesTarget(installed: set<string>, wanted: seq<string>, listing: Option<seq<string>>, ok: Oracle)
    requires listing.Some? ==> IsListing(listing.value, installed)
    requires SetExtensionsOutcome(installed, wanted, listing, ok).success
    ensures var r := SetExtensionsOutcome(installed, wanted, listing, ok);
            && r.issued == Plan(listing.value, wanted)
            && (PLPGSQL in r.installed <==> PLPGSQL in installed)
            && (forall x :: x != PLPGSQL ==> (x in r.installed <==> x in wanted || (x in installed && x !in listing.value)))
  {
    SucceedsIff(installed, wanted, listing, ok);
    IssuedIsPrefix(installed, Plan(listing.value, wanted), ok);
    assert wanted[..|wanted|] == wanted;
    assert Plan(listing.value, wanted) == Drops(listing.value, wanted) + Creates(wanted[..|wanted|], listing.value);
    CreatesRun(installed, listing.value, wanted, ok, |wanted|);
  }

  /** So success means that exactly the requested extensions are installed if and only if the listing
      was complete: a listing cut short by a lost connection goes unnoticed. */
  lemma TargetReachedIff(installed: set<string>, wanted: seq<string>, listing: Option<seq<string>>, ok: Oracle)
    requires listing.Some? ==> IsListing(listing.value, installed)
    requires SetExtensionsOutcome(installed, wanted, listing, ok).success
    ensures (forall x :: x != PLPGSQL ==> (x in SetExtensionsOutcome(installed, wanted, listing, ok).installed <==> x in wanted))
            <==> IsComplete(listing.value, installed)
  {
    SuccessReachesTarget(installed, wanted, listing, ok);
    SucceedsIff(installed, wanted, listing, ok);
  }

  /** Such a run: "a" is installed, nothing is requested, and the connection is lost before the first row
      arrives. Success is reported, and "a" is still installed. */
  lemma TruncatedListingHappens()
    ensures var (installed, wanted, listing) := ({"a"}, [], []);
            var r := SetExtensionsOutcome(installed, wanted, Some(listing), ALL_YES);
            && IsListing(listing, installed) && !IsComplete(listing, installed)
            && r.success && "a" in r.installed && "a" !in wanted && "a" != PLPGSQL
  {
    var installed: set<string> := {"a"};
    var wanted: seq<string> := [];
    var listing: seq<string> := [];
    assert Plan(listing, wanted) == [];
    assert "a" in installed && "a" !in listing;
  }

  /** Recovery: after a run stopped anywhere, a run with the same list without duplicates, complete
      listings and a server that refuses nothing reaches the target, and a run after that one finds
      nothing to do. */
  lemma RerunConverges(installed: set<string>, wanted: seq<string>, listing: Option<seq<string>>, ok: Oracle,
                       again: seq<string>, once: seq<string>)
    requires listing.Some? ==> IsListing(listing.value, installed)
    requires Distinct(wanted) && forall i :: 0 <= i < |wanted| ==> IsValidExtensionName(wanted[i])
    requires IsComplete(again, SetExtensionsOutcome(installed, wanted, listing, ok).installed)
    requires var stopped := SetExtensionsOutcome(installed, wanted, listing, ok).installed;
             IsComplete(once, SetExtensionsOutcome(stopped, wanted, Some(again), ALL_YES).installed)
    ensures var stopped := SetExtensionsOutcome(installed, wanted, listing, ok).installed;
            var second := SetExtensionsOutcome(stopped, wanted, Some(again), ALL_YES);
            && second.success
            && (forall x :: x != PLPGSQL ==> (x in second.installed <==> x in wanted))
            && SetExtensionsOutcome(second.installed, wanted, Some(once), ALL_YES) == Outcome(second.installed, [], true)
  {
    var stopped := SetExtensionsOutcome(installed, wanted, listing, ok).installed;
    SucceedsIff(stopped, wanted, Some(again), ALL_YES);
    TargetReachedIff(stopped, wanted, Some(again), ALL_YES);
    var second := SetExtensionsOutcome(stopped, wanted, Some(again), ALL_YES);
    assert forall x :: x != PLPGSQL ==> (x in second.installed <==> x in wanted);
    NothingIsDone(second.installed, wanted, once);
  }

  lemma NothingIsDone(installed: set<string>, wanted: seq<string>, once: seq<string>)
    requires forall i :: 0 <= i < |wanted| ==> IsValidExtensionName(wanted[i])
    requires IsComplete(once, installed) && forall x :: x != PLPGSQL ==> (x in installed <==> x in wanted)
    ensures SetExtensionsOutcome(installed, wanted, Some(once), ALL_YES) == Outcome(installed, [], true)
  {
    assert forall x :: x != PLPGSQL ==> (x in once <==> x in wanted);
    NothingToDo(once, wanted);
  }

  lemma NothingToDo(listing: seq<string>, wanted: seq<string>)
    requires forall x :: x != PLPGSQL ==> (x in listing <==> x in wanted)
    requires PLPGSQL !in listing
    ensures Plan(listing, wanted) == []
  {
    DropsMembers(listing, wanted);
    CreatesMembers(wanted, listing);
  }
}
