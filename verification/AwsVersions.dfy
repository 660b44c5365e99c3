/** What becomes of the versions that modifications ask for, and what `Modify` answers. */
module AwsVersions {
  import opened Wrappers
  import opened Strings
  import opened AwsRds

  // ---- The answer of Modify ------------------------------------------------

  /** The engine is another one, whatever its case. */
  predicate Migrates(s: RdsState, wanted: Details) {
    wanted.engine != "" && ToLower(wanted.engine) != ToLower(s.details.engine)
  }

  /** Another version is asked for, and one of the two has no minor part. */
  predicate LacksMinor(s: RdsState, wanted: Details) {
    var version := s.details.engineVersion;
    wanted.engineVersion != "" && wanted.engineVersion != version && ('.' !in wanted.engineVersion || '.' !in version)
  }

  lemma {:induction false} MinorPart(s: string, sep: char)
    ensures |Split(s, sep)| >= 2 <==> sep in s
  {
    if s != "" {
      MinorPart(s[1..], sep);
      assert s == [s[0]] + s[1..];
    }
  }

  /** When exactly a modification is accepted and why it is not; only an accepted one changes anything. */
  lemma ModifyAnswersIff(s: RdsState, wanted: Details, applyImmediately: bool, describeOk: bool, modifyOk: bool)
    ensures var (s', r) := ModifyState(s, wanted, applyImmediately, describeOk, modifyOk);
            && (r == DescribeFailed <==> !describeOk)
            && (r == EngineMigration <==> describeOk && Migrates(s, wanted))
            && (r == ModifyPanicked <==> describeOk && !Migrates(s, wanted) && LacksMinor(s, wanted))
            && (r == ModifyRefused <==> describeOk && !Migrates(s, wanted) && !LacksMinor(s, wanted) && !modifyOk)
            && (r == Modified <==> describeOk && !Migrates(s, wanted) && !LacksMinor(s, wanted) && modifyOk)
            && (r != Modified ==> s' == s)
  {
    MinorPart(wanted.engineVersion, '.');
    MinorPart(s.details.engineVersion, '.');
  }

  /** The flag that allows a major upgrade is sent exactly for a numeric one if and only if the orders agree on
      the first component that differs. */
  lemma UpgradeFlagIff(wanted: Details, current: Details)
    requires IsVersion(wanted.engineVersion) && IsVersion(current.engineVersion)
    ensures var (n, o) := (Split(wanted.engineVersion, '.'), Split(current.engineVersion, '.'));
            var input := BuildModifyInput(wanted, current);
            && input.Some?
            && (input.value.allowMajorVersionUpgrade == IsMajorUpgrade(wanted.engineVersion, current.engineVersion)
                <==> if n[0] != o[0] then OrdersAgree(n[0], o[0], true) else OrdersAgree(n[1], o[1], false))
  {
    MinorPart(wanted.engineVersion, '.');
    AllowMajorVersionUpgradeIff(wanted.engineVersion, current.engineVersion);
  }

  // ---- The version an instance gets ----------------------------------------

  /** The version once what is pending has been applied. */
  function EventualVersion(s: RdsState): string {
    ApplyPending(s).details.engineVersion
  }

  predicate AsksForVersion(s: RdsState, events: seq<Event>, n: nat)
    requires n < |events|
  {
    var e := events[n];
    e.Modification? && e.wanted.engineVersion != ""
    && ModifyState(After(s, events[..n]), e.wanted, e.applyImmediately, e.describeOk, e.modifyOk).1 == Modified
  }

  /** The last version that RDS accepted, or the initial one. */
  function LastVersion(s: RdsState, events: seq<Event>): string {
    if events == [] then s.details.engineVersion
    else if AsksForVersion(s, events, |events| - 1) then events[|events| - 1].wanted.engineVersion
    else LastVersion(s, events[..|events| - 1])
  }

  predicate IsLast(s: RdsState, events: seq<Event>) {
    EventualVersion(After(s, events)) == LastVersion(s, events)
  }

  /** At every moment, the version that will be is the last that was accepted. */
  predicate LastThroughout(s: RdsState, events: seq<Event>) {
    forall n :: 0 <= n <= |events| ==> IsLast(s, events[..n])
  }

  /** The version asked for is the current one, and another one is pending: then no version is sent. */
  predicate Ignored(s: RdsState, version: string) {
    version == s.details.engineVersion && s.pendingVersion.Some? && s.pendingVersion.value != version
  }

  predicate NoneIgnored(s: RdsState, events: seq<Event>) {
    forall n :: 0 <= n < |events| && AsksForVersion(s, events, n) ==> !Ignored(After(s, events[..n]), events[n].wanted.engineVersion)
  }

  lemma OneMoreVersion(s: RdsState, events: seq<Event>)
    requires events != [] && IsLast(s, events[..|events| - 1])
    ensures var (n, init) := (|events| - 1, events[..|events| - 1]);
            IsLast(s, events) <==> !(AsksForVersion(s, events, n) && Ignored(After(s, init), events[n].wanted.engineVersion))
  {
    var (init, last) := (events[..|events| - 1], events[|events| - 1]);
    var before := After(s, init);
    assert After(s, events) == (match last case Window => ApplyPending(before)
                                case Modification(w, now, d, m) => ModifyState(before, w, now, d, m).0);
  }

  lemma VersionsEarlier(s: RdsState, events: seq<Event>)
    requires events != []
    ensures var init := events[..|events| - 1];
            && (LastThroughout(s, events) <==> LastThroughout(s, init) && IsLast(s, events))
            && (NoneIgnored(s, events)
                <==> NoneIgnored(s, init)
                     && !(AsksForVersion(s, events, |init|) && Ignored(After(s, init), events[|init|].wanted.engineVersion)))
  {
    var init := events[..|events| - 1];
    assert events[..|events|] == events;
    forall n | 0 <= n <= |init|
      ensures events[..n] == init[..n]
    {
    }
  }

  /** The version that an instance has or is about to get is at every moment the last that RDS accepted, if and
      only if no modification asks for the current version while another one is pending. */
  lemma {:induction false} LastVersionIff(s: RdsState, events: seq<Event>)
    requires s.pendingVersion.None?
    ensures LastThroughout(s, events) <==> NoneIgnored(s, events)
  {
    if events == [] {
      assert events[..0] == [];
    } else {
      var init := events[..|events| - 1];
      LastVersionIff(s, init);
      VersionsEarlier(s, events);
      if LastThroughout(s, init) {
        assert init[..|init|] == init;
        OneMoreVersion(s, events);
      }
    }
  }

  /** An upgrade that waits for its window is not called off by asking for the current version again. */
  lemma UpgradeIsNotCalledOff()
    ensures var s := RdsState(Details("postgres", "9.5", 50), None, None);
            var (later, back) := (Modification(Details("", "9.6", 0), false, true, true), Modification(Details("", "9.5", 0), true, true, true));
            EventualVersion(After(s, [later, back])) == "9.6" && LastVersion(s, [later, back]) == "9.5"
  {
    var s := RdsState(Details("postgres", "9.5", 50), None, None);
    var (later, back) := (Modification(Details("", "9.6", 0), false, true, true), Modification(Details("", "9.5", 0), true, true, true));
    assert [later, back][..1] == [later] && [later][..0] == [];
    ModifyAnswersIff(s, later.wanted, false, true, true);
    assert '.' == "9.6"[1] == "9.5"[1];
    assert After(s, [later]) == s.(pendingVersion := Some("9.6"));
    ModifyAnswersIff(After(s, [later]), back.wanted, true, true, true);
    assert AsksForVersion(s, [later, back], 1);
  }
}
