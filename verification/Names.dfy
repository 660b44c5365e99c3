/** The names the broker derives from an instance ID: the RDS identifier (rdsbroker/broker.go), the
    database name (internaldb/models.go) and the Postgres role (sqlengine/postgres_engine.go). */
module Names {
  import opened Strings
  import opened Utils
  import opened Models

  /** `dbInstanceIdentifier` and `dbClusterIdentifier`, which are the same text. */
  function Identifier(dbPrefix: string, instanceID: string): string {
    dbPrefix + "-" + Replace(instanceID, '_', "-")
  }

  const MAX_ROLE_NAME := 63

  /** `PostgresEngine.CreateUsername`: one role for all bindings of an instance. */
  function PostgresRole(instanceID: string): string {
    var username := "u" + Replace(instanceID, '-', "_");
    if |username| > MAX_ROLE_NAME then username[..MAX_ROLE_NAME] else username
  }

  /** The IDs agree once `-` and `_` are taken for the same character. */
  predicate SameUpToDash(a: string, b: string) {
    |a| == |b| && forall i :: 0 <= i < |a| ==> a[i] == b[i] || (IsDash(a[i]) && IsDash(b[i]))
  }

  predicate IsDash(c: char) {
    c == '-' || c == '_'
  }

  predicate UnderscoreFree(id: string) {
    '_' !in id
  }

  lemma ReplaceSame(a: string, b: string, from: char, to: char)
    requires {from, to} == {'-', '_'}
    ensures Replace(a, from, [to]) == Replace(b, from, [to]) <==> SameUpToDash(a, b)
  {
    ReplaceCharAt(a, from, to);
    ReplaceCharAt(b, from, to);
    assert from in {'-', '_'} && to in {'-', '_'} && '-' in {from, to} && '_' in {from, to};
    var (x, y) := (Replace(a, from, [to]), Replace(b, from, [to]));
    if SameUpToDash(a, b) {
      assert x == y;
    }
  }

  lemma PrefixCancels(prefix: string, x: string, y: string)
    ensures prefix + x == prefix + y <==> x == y
  {
    if prefix + x == prefix + y {
      assert (prefix + x)[|prefix|..] == x && (prefix + y)[|prefix|..] == y;
    }
  }

  /** Under one prefix two instance IDs share a database name exactly when they share an RDS
      identifier, and both exactly when they agree up to `-` and `_`. */
  lemma NamesCollideIff(dbPrefix: string, a: string, b: string)
    ensures DBName(dbPrefix, a) == DBName(dbPrefix, b) <==> SameUpToDash(a, b)
    ensures Identifier(dbPrefix, a) == Identifier(dbPrefix, b) <==> SameUpToDash(a, b)
  {
    ReplaceSame(a, b, '-', '_');
    ReplaceSame(a, b, '_', '-');
    PrefixCancels(dbPrefix + "_", Replace(a, '-', "_"), Replace(b, '-', "_"));
    PrefixCancels(dbPrefix + "-", Replace(a, '_', "-"), Replace(b, '_', "-"));
  }

  lemma UnderscoreFreeIdsDiffer(a: string, b: string)
    requires UnderscoreFree(a) && UnderscoreFree(b)
    ensures SameUpToDash(a, b) <==> a == b
  {
    if SameUpToDash(a, b) {
      assert forall i :: 0 <= i < |a| ==> a[i] in a && b[i] in b;
    }
  }

  /** Both maps are injective on underscore-free IDs, such as the GUIDs of Cloud Foundry. */
  lemma UnderscoreFreeNamesDiffer(dbPrefix: string, a: string, b: string)
    requires UnderscoreFree(a) && UnderscoreFree(b) && a != b
    ensures DBName(dbPrefix, a) != DBName(dbPrefix, b) && Identifier(dbPrefix, a) != Identifier(dbPrefix, b)
  {
    UnderscoreFreeIdsDiffer(a, b);
    NamesCollideIff(dbPrefix, a, b);
  }

  /** A role name fits PostgreSQL's limit, and two IDs share one exactly when their first 62 characters
      agree up to `-` and `_`. */
  lemma RolesCollideIff(a: string, b: string)
    ensures |PostgresRole(a)| <= MAX_ROLE_NAME
    ensures PostgresRole(a) == PostgresRole(b) <==> SameUpToDash(Cut62(a), Cut62(b))
  {
    RoleOfCut(a);
    RoleOfCut(b);
    ReplaceSame(Cut62(a), Cut62(b), '-', '_');
    PrefixCancels("u", Replace(Cut62(a), '-', "_"), Replace(Cut62(b), '-', "_"));
  }

  function Cut62(id: string): string {
    if |id| > MAX_ROLE_NAME - 1 then id[..MAX_ROLE_NAME - 1] else id
  }

  lemma RoleOfCut(id: string)
    ensures PostgresRole(id) == "u" + Replace(Cut62(id), '-', "_")
  {
    ReplaceCharAt(id, '-', '_');
    ReplaceCharAt(Cut62(id), '-', '_');
    var (role, other) := (PostgresRole(id), "u" + Replace(Cut62(id), '-', "_"));
    assert |role| == |other|;
    assert forall i :: 0 <= i < |role| ==> role[i] == other[i];
  }

  /** Roles are distinct for underscore-free IDs of at most 62 characters. */
  lemma ShortRolesDiffer(a: string, b: string)
    requires UnderscoreFree(a) && UnderscoreFree(b) && |a| <= 62 && |b| <= 62 && a != b
    ensures PostgresRole(a) != PostgresRole(b)
  {
    UnderscoreFreeIdsDiffer(a, b);
    RolesCollideIff(a, b);
  }

  /** A database name built from a valid prefix and an ID of ASCII letters, digits, `-` and `_` is a
      simple identifier, so MySQL takes it unquoted. */
  lemma DBNameIsIdentifier(dbPrefix: string, id: string)
    requires dbPrefix != "" && IsSimpleIdentifier(dbPrefix)
    requires forall i :: 0 <= i < |id| ==> IsAlnum(id[i]) || IsDash(id[i])
    ensures IsSimpleIdentifier(DBName(dbPrefix, id))
  {
    ReplaceCharAt(id, '-', '_');
    var name := DBName(dbPrefix, id);
    assert name == dbPrefix + ("_" + Replace(id, '-', "_"));
    forall i | 1 <= i < |name|
      ensures name[i] == '_' || IsAlnum(name[i])
    {
      if i < |dbPrefix| {
        assert name[i] == dbPrefix[i];
      } else if i > |dbPrefix| {
        assert name[i] == Replace(id, '-', "_")[i - |dbPrefix| - 1];
      }
    }
  }
}
