/** awsrds/rds_db_instance.go: how a modification treats storage and versions. */
module AwsRds {
  import opened Wrappers
  import opened Strings

  // ---- Versions ------------------------------------------------------------

  /** Go's `>` on strings. */
  predicate Greater(a: string, b: string) {
    a != "" && (b == "" || a[0] > b[0] || (a[0] == b[0] && Greater(a[1..], b[1..])))
  }

  /** `allowMajorVersionUpgrade`; None stands for the index panic on a version without a minor part. */
  function AllowMajorVersionUpgrade(newVersion: string, oldVersion: string): Option<bool> {
    var (n, o) := (Split(newVersion, '.'), Split(oldVersion, '.'));
    if |n| < 2 || |o| < 2 then None
    else Some(Greater(n[0] + ":" + n[1], o[0] + ":" + o[1]))
  }

  /** A decimal number without leading zeros. */
  predicate IsNumeral(s: string) {
    s != "" && IsDigits(s) && (|s| > 1 ==> s[0] != '0')
  }

  predicate IsDigits(s: string) {
    forall i :: 0 <= i < |s| ==> '0' <= s[i] <= '9'
  }

  function NumberOf(s: string): nat
    requires IsDigits(s)
  {
    if s == "" then 0 else NumberOf(s[..|s| - 1]) * 10 + (s[|s| - 1] as int - '0' as int)
  }

  /** A version with a decimal major and minor number, whatever follows them. */
  predicate IsVersion(v: string) {
    var parts := Split(v, '.');
    |parts| >= 2 && IsNumeral(parts[0]) && IsNumeral(parts[1])
  }

  /** Whether the new version is greater than the old one on (major, minor), as numbers. */
  predicate IsMajorUpgrade(newVersion: string, oldVersion: string)
    requires IsVersion(newVersion) && IsVersion(oldVersion)
  {
    var (n, o) := (Split(newVersion, '.'), Split(oldVersion, '.'));
    NumberOf(n[0]) > NumberOf(o[0]) || (NumberOf(n[0]) == NumberOf(o[0]) && NumberOf(n[1]) > NumberOf(o[1]))
  }

  function Pow10(n: nat): nat {
    if n == 0 then 1 else 10 * Pow10(n - 1)
  }

  lemma {:induction false} NumberBelow(s: string)
    requires IsDigits(s)
    ensures NumberOf(s) < Pow10(|s|)
  {
    if s != "" {
      NumberBelow(s[..|s| - 1]);
    }
  }

  lemma {:induction false} NumberAbove(s: string)
    requires IsDigits(s) && s != "" && s[0] != '0'
    ensures NumberOf(s) >= Pow10(|s| - 1)
  {
    if |s| > 1 {
      NumberAbove(s[..|s| - 1]);
    } else {
      assert s[..0] == "";
    }
  }

  lemma {:induction false} Pow10Monotone(m: nat, n: nat)
    requires m <= n
    ensures Pow10(m) <= Pow10(n)
  {
    if m < n {
      Pow10Monotone(m, n - 1);
    }
  }

  /** More digits make a greater number. */
  lemma LongerIsGreater(a: string, b: string)
    requires IsNumeral(a) && IsNumeral(b) && |a| > |b|
    ensures NumberOf(a) > NumberOf(b)
  {
    NumberAbove(a);
    NumberBelow(b);
    Pow10Monotone(|b|, |a| - 1);
  }

  /** String order on equally long texts, seen from the last character. */
  lemma {:induction false} GreaterFromTheEnd(a: string, b: string)
    requires |a| == |b| > 0
    ensures var n := |a| - 1;
            Greater(a, b) <==> Greater(a[..n], b[..n]) || (a[..n] == b[..n] && a[n] > b[n])
  {
    var n := |a| - 1;
    if n == 0 {
      assert a[..0] == "" && b[..0] == "" && a[1..] == "" && b[1..] == "";
    } else {
      GreaterFromTheEnd(a[1..], b[1..]);
      assert a[1..][..n - 1] == a[..n][1..] && b[1..][..n - 1] == b[..n][1..];
      assert a[..n] == b[..n] <==> a[0] == b[0] && a[..n][1..] == b[..n][1..] by {
        if a[0] == b[0] && a[..n][1..] == b[..n][1..] {
          assert a[..n] == [a[0]] + a[..n][1..] && b[..n] == [b[0]] + b[..n][1..];
        }
      }
    }
  }

  /** On equally many digits string order is numeric order. */
  lemma {:induction false} SameLengthOrder(a: string, b: string)
    requires IsDigits(a) && IsDigits(b) && |a| == |b|
    ensures Greater(a, b) <==> NumberOf(a) > NumberOf(b)
    ensures a == b <==> NumberOf(a) == NumberOf(b)
  {
    if a != "" {
      var n := |a| - 1;
      GreaterFromTheEnd(a, b);
      SameLengthOrder(a[..n], b[..n]);
      assert a == a[..n] + [a[n]] && b == b[..n] + [b[n]];
    }
  }

  /** The joined texts compare by their first differing component; where one major number extends the
      other, the colon, which sorts after the digits, makes the shorter one greater. */
  lemma {:induction false} GreaterJoined(a: string, c: string, b: string, d: string)
    requires IsDigits(a) && IsDigits(b)
    ensures Greater(a + ":" + c, b + ":" + d) <==>
            if a == b then Greater(c, d) else if a < b then true else if b < a then false else Greater(a, b)
  {
    var (x, y) := (a + ":" + c, b + ":" + d);
    if a == "" || b == "" {
      assert a == "" ==> x[0] == ':' && x[1..] == c;
      assert b == "" ==> y[0] == ':' && y[1..] == d;
      assert a != "" ==> x[0] == a[0];
      assert b != "" ==> y[0] == b[0];
    } else {
      GreaterJoined(a[1..], c, b[1..], d);
      assert x[1..] == a[1..] + ":" + c && y[1..] == b[1..] + ":" + d;
      assert a == [a[0]] + a[1..] && b == [b[0]] + b[1..];
    }
  }

  /** A difference of two numerals on which string order and numeric order agree: equally many digits,
      or the longer one is also the greater string and, for major numbers, no mere extension. */
  predicate OrdersAgree(a: string, b: string, isMajor: bool) {
    || |a| == |b|
    || (|a| > |b| && Greater(a, b) && !(isMajor && b < a))
    || (|a| < |b| && Greater(b, a) && !(isMajor && a < b))
  }

  lemma {:induction false} GreaterIsAntisymmetric(a: string, b: string)
    ensures !(Greater(a, b) && Greater(b, a))
    ensures a != b ==> Greater(a, b) || Greater(b, a)
    ensures b < a ==> Greater(a, b)
  {
    if a != "" && b != "" {
      GreaterIsAntisymmetric(a[1..], b[1..]);
      assert a == [a[0]] + a[1..] && b == [b[0]] + b[1..];
    }
  }

  /** The string comparison decides like the numbers if and only if the orders agree on the first of
      the two components that differs. */
  lemma AllowMajorVersionUpgradeIff(newVersion: string, oldVersion: string)
    requires IsVersion(newVersion) && IsVersion(oldVersion)
    ensures var (n, o) := (Split(newVersion, '.'), Split(oldVersion, '.'));
            AllowMajorVersionUpgrade(newVersion, oldVersion) == Some(IsMajorUpgrade(newVersion, oldVersion))
            <==> if n[0] != o[0] then OrdersAgree(n[0], o[0], true) else OrdersAgree(n[1], o[1], false)
  {
    var (n, o) := (Split(newVersion, '.'), Split(oldVersion, '.'));
    GreaterJoined(n[0], n[1], o[0], o[1]);
    NumeralsOrder(n[0], o[0]);
    NumeralsOrder(n[1], o[1]);
  }

  lemma NumeralsOrder(a: string, b: string)
    requires IsNumeral(a) && IsNumeral(b)
    ensures |a| > |b| ==> NumberOf(a) > NumberOf(b)
    ensures |a| < |b| ==> NumberOf(a) < NumberOf(b)
    ensures |a| == |b| ==> (Greater(a, b) <==> NumberOf(a) > NumberOf(b))
    ensures a == b <==> NumberOf(a) == NumberOf(b)
    ensures !(Greater(a, b) && Greater(b, a)) && (a != b ==> Greater(a, b) || Greater(b, a))
    ensures b < a ==> Greater(a, b)
    ensures a < b ==> Greater(b, a)
  {
    GreaterIsAntisymmetric(a, b);
    GreaterIsAntisymmetric(b, a);
    if |a| > |b| {
      LongerIsGreater(a, b);
    } else if |a| < |b| {
      LongerIsGreater(b, a);
    } else {
      SameLengthOrder(a, b);
    }
  }

  /** In particular they decide alike when corresponding components have equally many digits. */
  lemma SameDigitCounts(newVersion: string, oldVersion: string)
    requires IsVersion(newVersion) && IsVersion(oldVersion)
    requires |Split(newVersion, '.')[0]| == |Split(oldVersion, '.')[0]| && |Split(newVersion, '.')[1]| == |Split(oldVersion, '.')[1]|
    ensures AllowMajorVersionUpgrade(newVersion, oldVersion) == Some(IsMajorUpgrade(newVersion, oldVersion))
  {
    AllowMajorVersionUpgradeIff(newVersion, oldVersion);
  }

  /** From 9.6 to 10.1 the upgrade is taken for a minor one. */
  lemma NineToTenIsMissed()
    ensures Split("10.1", '.') == ["10", "1"] && Split("9.6", '.') == ["9", "6"]
    ensures AllowMajorVersionUpgrade("10.1", "9.6") == Some(false)
    ensures IsVersion("10.1") && IsVersion("9.6") && IsMajorUpgrade("10.1", "9.6")
  {
    SplitTwo("10", "1", '.');
    SplitTwo("9", "6", '.');
    assert "10" + ['.'] + "1" == "10.1" && "9" + ['.'] + "6" == "9.6";
    assert ("10" + ":" + "1")[0] == '1' && ("9" + ":" + "6")[0] == '9';
    assert "10"[..1] == "1" && "1"[..0] == "" && "9"[..0] == "";
    assert NumberOf("10") == 10 && NumberOf("9") == 9;
  }

  // ---- Modifications -------------------------------------------------------

  datatype Details = Details(engine: string, engineVersion: string, allocatedStorage: int)

  datatype ModifyInput = ModifyInput(allocatedStorage: Option<int>, engineVersion: Option<string>, allowMajorVersionUpgrade: bool)

  /** The storage and version parts of `buildModifyDBInstanceInput`; None when it panics. */
  function BuildModifyInput(wanted: Details, current: Details): Option<ModifyInput> {
    var storage := if wanted.allocatedStorage <= 0 then None
                   else if wanted.allocatedStorage < current.allocatedStorage then Some(current.allocatedStorage)
                   else Some(wanted.allocatedStorage);
    if wanted.engineVersion == "" || wanted.engineVersion == current.engineVersion then Some(ModifyInput(storage, None, false))
    else match AllowMajorVersionUpgrade(wanted.engineVersion, current.engineVersion)
      case None => None
      case Some(allow) => Some(ModifyInput(storage, Some(wanted.engineVersion), allow))
  }

  datatype ModifyResult = Modified | DescribeFailed | EngineMigration | ModifyPanicked | ModifyRefused

  /** What RDS knows of one instance: its details, and the storage and version a modification that was
      accepted but not applied yet will give it. */
  datatype RdsState = RdsState(details: Details, pendingStorage: Option<int>, pendingVersion: Option<string>)

  /** RDS takes a modification over into the pending values, the latest value of a field winning. */
  function Accept(s: RdsState, input: ModifyInput): RdsState {
    s.(pendingStorage := if input.allocatedStorage.Some? then input.allocatedStorage else s.pendingStorage,
       pendingVersion := if input.engineVersion.Some? then input.engineVersion else s.pendingVersion)
  }

  /** RDS applies the pending values. */
  function ApplyPending(s: RdsState): RdsState {
    RdsState(s.details.(allocatedStorage := if s.pendingStorage.Some? then s.pendingStorage.value else s.details.allocatedStorage,
                        engineVersion := if s.pendingVersion.Some? then s.pendingVersion.value else s.details.engineVersion),
             None, None)
  }

  class RdsInstance {
    var state: RdsState

    constructor (details: Details)
      ensures state == RdsState(details, None, None)
    {
      state := RdsState(details, None, None);
    }

    /** `Modify`; `describeOk` and `modifyOk` tell whether the two RDS calls succeed. */
    method Modify(wanted: Details, applyImmediately: bool, describeOk: bool, modifyOk: bool) returns (r: ModifyResult)
      modifies this
      ensures (state, r) == ModifyState(old(state), wanted, applyImmediately, describeOk, modifyOk)
    {
      if !describeOk {
        return DescribeFailed;
      }
      var current := state.details;
      if wanted.engine != "" && ToLower(current.engine) != ToLower(wanted.engine) {
        return EngineMigration;
      }
      var input := BuildModifyInput(wanted, current);
      if input.None? {
        return ModifyPanicked;
      }
      if !modifyOk {
        return ModifyRefused;
      }
      state := Accept(state, input.value);
      if applyImmediately {
        state := ApplyPending(state);
      }
      r := Modified;
    }

    /** The maintenance window, in which RDS applies what is pending. */
    method MaintenanceWindow()
      modifies this
      ensures state == ApplyPending(old(state))
    {
      state := ApplyPending(state);
    }
  }

  function ModifyState(s: RdsState, wanted: Details, applyImmediately: bool, describeOk: bool, modifyOk: bool): (RdsState, ModifyResult) {
    if !describeOk then (s, DescribeFailed)
    else if wanted.engine != "" && ToLower(s.details.engine) != ToLower(wanted.engine) then (s, EngineMigration)
    else match BuildModifyInput(wanted, s.details)
      case None => (s, ModifyPanicked)
      case Some(input) =>
        if !modifyOk then (s, ModifyRefused)
        else (if applyImmediately then ApplyPending(Accept(s, input)) else Accept(s, input), Modified)
  }

  /** What can happen to an instance: a call of `Modify`, or the maintenance window. */
  datatype Event = Modification(wanted: Details, applyImmediately: bool, describeOk: bool, modifyOk: bool) | Window

  function After(s: RdsState, events: seq<Event>): RdsState {
    if events == [] then s
    else
      var before := After(s, events[..|events| - 1]);
      match events[|events| - 1]
      case Window => ApplyPending(before)
      case Modification(w, now, d, m) => ModifyState(before, w, now, d, m).0
  }

  predicate NothingShrinks(s: RdsState) {
    s.pendingStorage.Some? ==> s.pendingStorage.value >= s.details.allocatedStorage
  }

  /** Storage never shrinks: over any sequence of modifications, deferred, immediate or refused, and
      maintenance windows in between, each state has at least the storage of the one before, and so
      will the pending modification when it is applied. The engine never changes. */
  lemma {:induction false} StorageNeverShrinks(s: RdsState, events: seq<Event>, n: nat)
    requires NothingShrinks(s) && n <= |events|
    ensures NothingShrinks(After(s, events))
    ensures After(s, events[..n]).details.allocatedStorage <= After(s, events).details.allocatedStorage
    ensures After(s, events).details.engine == s.details.engine
  {
    if n == |events| {
      assert events[..n] == events;
      if events != [] {
        StorageNeverShrinks(s, events[..|events| - 1], 0);
      }
    } else {
      StorageNeverShrinks(s, events[..|events| - 1], n);
      assert events[..|events| - 1][..n] == events[..n];
    }
  }

  /** The greatest of a size and the sizes asked for by the modifications that RDS accepted. */
  function GreatestAccepted(s: RdsState, events: seq<Event>): int {
    if events == [] then s.details.allocatedStorage
    else
      var (init, last) := (events[..|events| - 1], events[|events| - 1]);
      var soFar := GreatestAccepted(s, init);
      if last.Modification?
         && ModifyState(After(s, init), last.wanted, last.applyImmediately, last.describeOk, last.modifyOk).1 == Modified
         && last.wanted.allocatedStorage > soFar
      then last.wanted.allocatedStorage else soFar
  }

  /** The storage once what is pending has been applied. */
  function Eventual(s: RdsState): int {
    ApplyPending(s).details.allocatedStorage
  }

  /** Event number n is a modification that RDS accepts and that asks for a size. */
  predicate AsksForSize(s: RdsState, events: seq<Event>, n: nat)
    requires n < |events|
  {
    var e := events[n];
    e.Modification? && e.wanted.allocatedStorage > 0
    && ModifyState(After(s, events[..n]), e.wanted, e.applyImmediately, e.describeOk, e.modifyOk).1 == Modified
  }

  /** No modification asks for less than a size that is still pending, and would enlarge the storage. */
  predicate NoneUndercuts(s: RdsState, events: seq<Event>) {
    forall n :: 0 <= n < |events| && AsksForSize(s, events, n) ==> !Undercuts(After(s, events[..n]), events[n].wanted.allocatedStorage)
  }

  predicate Undercuts(s: RdsState, size: int) {
    s.pendingStorage.Some? && size < s.pendingStorage.value && s.details.allocatedStorage < s.pendingStorage.value
  }

  predicate IsGreatest(s: RdsState, events: seq<Event>) {
    Eventual(After(s, events)) == GreatestAccepted(s, events)
  }

  /** At every moment, what the storage will be is the greatest size so far. */
  predicate GreatestThroughout(s: RdsState, events: seq<Event>) {
    forall n :: 0 <= n <= |events| ==> IsGreatest(s, events[..n])
  }

  /** One more event keeps the greatest size unless it undercuts a pending one, and then it loses it. */
  lemma OneMoreEvent(s: RdsState, events: seq<Event>)
    requires events != [] && NothingShrinks(s) && s.details.allocatedStorage >= 0
    requires IsGreatest(s, events[..|events| - 1])
    ensures var (n, init) := (|events| - 1, events[..|events| - 1]);
            IsGreatest(s, events)
            <==> !(AsksForSize(s, events, n) && Undercuts(After(s, init), events[n].wanted.allocatedStorage))
  {
    var (init, last) := (events[..|events| - 1], events[|events| - 1]);
    StorageNeverShrinks(s, init, 0);
    assert init[..0] == [];
    var before := After(s, init);
    assert before.details.allocatedStorage >= 0 && NothingShrinks(before);
    assert After(s, events) == (match last case Window => ApplyPending(before)
                                case Modification(w, now, d, m) => ModifyState(before, w, now, d, m).0);
  }

  lemma UndercutsEarlier(s: RdsState, events: seq<Event>)
    requires events != []
    ensures var init := events[..|events| - 1];
            NoneUndercuts(s, events)
            <==> NoneUndercuts(s, init)
                 && !(AsksForSize(s, events, |init|) && Undercuts(After(s, init), events[|init|].wanted.allocatedStorage))
  {
    var init := events[..|events| - 1];
    forall n | 0 <= n < |init|
      ensures events[..n] == init[..n] && (AsksForSize(s, events, n) <==> AsksForSize(s, init, n))
    {
      assert events[..n] == init[..n];
    }
  }

  lemma GreatestEarlier(s: RdsState, events: seq<Event>)
    requires events != []
    ensures GreatestThroughout(s, events) <==> GreatestThroughout(s, events[..|events| - 1]) && IsGreatest(s, events)
  {
    var init := events[..|events| - 1];
    assert events[..|events|] == events;
    forall n | 0 <= n <= |init|
      ensures IsGreatest(s, events[..n]) <==> IsGreatest(s, init[..n])
    {
      assert events[..n] == init[..n];
    }
  }

  /** The storage that an instance has or is about to get is at every moment the greatest of the initial
      size and all the sizes RDS accepted, if and only if no modification undercuts a pending one. */
  lemma {:induction false} MaximumIff(s: RdsState, events: seq<Event>)
    requires NothingShrinks(s) && s.pendingStorage.None? && s.details.allocatedStorage >= 0
    ensures GreatestThroughout(s, events) <==> NoneUndercuts(s, events)
  {
    if events == [] {
      assert events[..0] == [];
    } else {
      var init := events[..|events| - 1];
      MaximumIff(s, init);
      UndercutsEarlier(s, events);
      GreatestEarlier(s, events);
      if GreatestThroughout(s, init) {
        assert init[..|init|] == init;
        OneMoreEvent(s, events);
      }
    }
  }

  /** When each modification is applied, at once or in a maintenance window, before RDS accepts the next one
      that asks for a size, the storage once the last is applied is the greatest of the initial size and
      all the sizes RDS accepted. */
  lemma AppliedBeforeNextGivesMaximum(s: RdsState, events: seq<Event>)
    requires s.pendingStorage.None? && s.details.allocatedStorage >= 0
    requires forall n :: 0 <= n < |events| && AsksForSize(s, events, n) ==> After(s, events[..n]).pendingStorage.None?
    ensures Eventual(After(s, events)) == GreatestAccepted(s, events)
  {
    assert NoneUndercuts(s, events);
    MaximumIff(s, events);
    assert events[..|events|] == events;
  }

  /** In particular when each modification is applied at once; then nothing is ever pending. */
  lemma {:induction false} AppliedAtOnceGivesMaximum(s: RdsState, events: seq<Event>)
    requires s.pendingStorage.None? && s.details.allocatedStorage >= 0
    requires forall e :: e in events && e.Modification? ==> e.applyImmediately
    ensures After(s, events).pendingStorage.None?
    ensures After(s, events).details.allocatedStorage == GreatestAccepted(s, events) >= 0
  {
    if events != [] {
      var last := events[|events| - 1];
      assert last in events;
      AppliedAtOnceGivesMaximum(s, events[..|events| - 1]);
    }
  }

  /** A size is lost otherwise: 100 is accepted for the next window, and 80 is then applied at once. */
  lemma PendingSizeIsLost()
    ensures var s := RdsState(Details("postgres", "9.6", 50), None, None);
            var (later, now) := (Modification(Details("", "", 100), false, true, true), Modification(Details("", "", 80), true, true, true));
            Eventual(After(s, [later, now])) == 80 && GreatestAccepted(s, [later, now]) == 100
  {
    var s := RdsState(Details("postgres", "9.6", 50), None, None);
    var (later, now) := (Modification(Details("", "", 100), false, true, true), Modification(Details("", "", 80), true, true, true));
    assert [later, now][..1] == [later] && [later][..0] == [];
    assert After(s, [later]) == s.(pendingStorage := Some(100));
    assert After(s, [later, now]) == s.(details := s.details.(allocatedStorage := 80));
    assert GreatestAccepted(s, [later]) == 100;
  }
}
