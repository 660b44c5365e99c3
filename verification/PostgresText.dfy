/** sqlengine/postgres_engine.go: the text the engine prints, connection strings and SQL string
    literals, each with a reader that follows PostgreSQL's own rules for undoing it. */
module PostgresText {
  import opened Wrappers
  import opened Strings

  /** The fields of config.DBConfig that the connection string uses. */
  datatype DBConfig = DBConfig(url: string, username: string, password: string, dbName: string, sslmode: string, port: int)

  // ---- Printing ------------------------------------------------------------

  /** The text before the first NUL: what both quoting functions keep. */
  function CutAtNul(v: string): (r: string)
    ensures '\0' !in r && r <= v
    ensures r == v <==> '\0' !in v
    ensures |r| < |v| ==> v[|r|] == '\0'
  {
    if v == "" || v[0] == '\0' then "" else [v[0]] + CutAtNul(v[1..])
  }

  function QuoteConnectionStringValue(v: string): string {
    "'" + Replace(Replace(CutAtNul(v), '\\', "\\\\"), '\'', "\\'") + "'"
  }

  function QuoteValue(v: string): string {
    "'" + Replace(CutAtNul(v), '\'', "''") + "'"
  }

  /** Go's `%d`. */
  function Decimal(n: int): string {
    if n < 0 then "-" + Digits(-n) else Digits(n)
  }

  function Digits(n: nat): string {
    if n < 10 then ['0' + n as char] else Digits(n / 10) + ['0' + (n % 10) as char]
  }

  /** The six `key=value` texts, in the order of the format string. */
  function ConnectionSettings(c: DBConfig): seq<string> {
    [KeyValue("host", QuoteConnectionStringValue(c.url)),
     KeyValue("port", Decimal(c.port)),
     KeyValue("dbname", QuoteConnectionStringValue(c.dbName)),
     KeyValue("user", QuoteConnectionStringValue(c.username)),
     KeyValue("password", QuoteConnectionStringValue(c.password)),
     KeyValue("sslmode", QuoteConnectionStringValue(c.sslmode))]
  }

  function KeyValue(key: string, text: string): string {
    key + "=" + text
  }

  function ConnectionString(c: DBConfig): string {
    Join(ConnectionSettings(c), ' ')
  }

  // ---- libpq: Keyword/Value Connection Strings -----------------------------

  datatype Setting = Setting(key: string, value: string)

  predicate IsSpace(c: char) {
    c == ' ' || '\t' <= c <= '\r'
  }

  function SkipSpaces(s: string): (r: string)
    ensures |r| <= |s|
    ensures r != "" ==> !IsSpace(r[0])
  {
    if s != "" && IsSpace(s[0]) then SkipSpaces(s[1..]) else s
  }

  /** A keyword runs to the next `=` or space. */
  function ReadName(s: string): (r: (string, string))
    ensures |r.0| + |r.1| == |s|
  {
    if s == "" || s[0] == '=' || IsSpace(s[0]) then ("", s)
    else var (name, rest) := ReadName(s[1..]); ([s[0]] + name, rest)
  }

  /** A quoted value, after its opening quote: a backslash takes the next character as it is. */
  function ReadQuoted(s: string): (r: Option<(string, string)>)
    ensures r.Some? ==> |r.value.1| < |s|
  {
    if s == "" then None
    else if s[0] == '\'' then Some(("", s[1..]))
    else if s[0] == '\\' then
      if |s| == 1 then None else Prepend(s[1], ReadQuoted(s[2..]))
    else Prepend(s[0], ReadQuoted(s[1..]))
  }

  /** A bare value runs to the next space or the end. */
  function ReadBare(s: string): (r: (string, string))
    ensures |r.1| <= |s|
  {
    if s == "" then ("", "")
    else if IsSpace(s[0]) then ("", s[1..])
    else if s[0] == '\\' then
      if |s| == 1 then ("", "") else var (v, rest) := ReadBare(s[2..]); ([s[1]] + v, rest)
    else var (v, rest) := ReadBare(s[1..]); ([s[0]] + v, rest)
  }

  function Prepend(c: char, r: Option<(string, string)>): Option<(string, string)> {
    match r
    case None => None
    case Some((v, rest)) => Some(([c] + v, rest))
  }

  function ReadSettingValue(s: string): (r: Option<(string, string)>)
    ensures r.Some? ==> |r.value.1| <= |s|
  {
    if s != "" && s[0] == '\'' then ReadQuoted(s[1..]) else Some(ReadBare(s))
  }

  function ParseConnectionString(s: string): Option<seq<Setting>>
    decreases |s|
  {
    if s == "" then Some([])
    else if IsSpace(s[0]) then ParseConnectionString(s[1..])
    else
      var (name, afterName) := ReadName(s);
      var equals := SkipSpaces(afterName);
      if equals == "" || equals[0] != '=' then None
      else match ReadSettingValue(SkipSpaces(equals[1..]))
        case None => None
        case Some((value, rest)) =>
          match ParseConnectionString(rest)
          case None => None
          case Some(more) => Some([Setting(name, value)] + more)
  }

  function DecimalValue(s: string): Option<int> {
    if s != "" && s[0] == '-' then
      match DigitsValue(s[1..]) case None => None case Some(n) => Some(-n)
    else DigitsValue(s)
  }

  function DigitsValue(s: string): Option<int> {
    if s == "" || !('0' <= s[|s| - 1] <= '9') then None
    else
      var d := s[|s| - 1] as int - '0' as int;
      if |s| == 1 then Some(d)
      else match DigitsValue(s[..|s| - 1]) case None => None case Some(n) => Some(n * 10 + d)
  }

  // ---- PostgreSQL manual section 4.1.2.1: string constants -----------------

  /** A string constant with standard-conforming strings: a doubled quote stands for one quote. */
  function ReadLiteral(s: string): Option<(string, string)> {
    if s == "" || s[0] != '\'' then None else ReadLiteralBody(s[1..])
  }

  function ReadLiteralBody(s: string): Option<(string, string)> {
    if s == "" then None
    else if s[0] == '\'' then
      if |s| > 1 && s[1] == '\'' then Prepend('\'', ReadLiteralBody(s[2..])) else Some(("", s[1..]))
    else Prepend(s[0], ReadLiteralBody(s[1..]))
  }

  // ---- The reader undoes the printer ---------------------------------------

  /** One pass that puts a backslash before every backslash and quote. */
  function Escape(v: string): string {
    if v == "" then ""
    else (if v[0] == '\\' || v[0] == '\'' then ['\\', v[0]] else [v[0]]) + Escape(v[1..])
  }

  /** Replacing backslashes first and quotes second does the same as the single pass. */
  lemma {:induction false} TwoPassesAreOne(v: string)
    ensures Replace(Replace(v, '\\', "\\\\"), '\'', "\\'") == Escape(v)
  {
    if v != "" {
      TwoPassesAreOne(v[1..]);
      var head := if v[0] == '\\' then "\\\\" else [v[0]];
      ReplaceConcat(head, Replace(v[1..], '\\', "\\\\"), '\'', "\\'");
      if v[0] == '\\' {
        assert head[1..] == "\\" && head[1..][1..] == "";
      } else {
        assert head[1..] == "";
      }
    }
  }

  lemma {:induction false} ReadQuotedEscape(v: string, rest: string)
    ensures ReadQuoted(Escape(v) + "'" + rest) == Some((v, rest))
  {
    var text := Escape(v) + "'" + rest;
    if v == "" {
      assert text[1..] == rest;
    } else {
      ReadQuotedEscape(v[1..], rest);
      var tail := Escape(v[1..]) + "'" + rest;
      if v[0] == '\\' || v[0] == '\'' {
        assert text[2..] == tail;
      } else {
        assert text[1..] == tail;
      }
      assert [v[0]] + v[1..] == v;
    }
  }

  lemma ReadQuotedValue(v: string, rest: string)
    ensures QuoteConnectionStringValue(v) != "" && QuoteConnectionStringValue(v)[0] == '\''
    ensures ReadSettingValue(QuoteConnectionStringValue(v) + rest) == Some((CutAtNul(v), rest))
  {
    TwoPassesAreOne(CutAtNul(v));
    ReadQuotedEscape(CutAtNul(v), rest);
    DropOpeningQuote(Escape(CutAtNul(v)), rest);
  }

  lemma DropOpeningQuote(text: string, rest: string)
    ensures ("'" + text + "'" + rest)[1..] == text + "'" + rest
  {
  }

  predicate IsKeyword(k: string) {
    k != "" && forall i :: 0 <= i < |k| ==> k[i] != '=' && !IsSpace(k[i])
  }

  lemma {:induction false} ReadNameKeyword(k: string, rest: string)
    requires forall i :: 0 <= i < |k| ==> k[i] != '=' && !IsSpace(k[i])
    requires rest != "" && rest[0] == '='
    ensures ReadName(k + rest) == (k, rest)
  {
    if k == "" {
      assert k + rest == rest;
    } else {
      ReadNameKeyword(k[1..], rest);
      assert (k + rest)[1..] == k[1..] + rest;
      assert [k[0]] + k[1..] == k;
    }
  }

  /** One printed setting, read back in front of whatever follows. */
  lemma ParseSetting(k: string, text: string, value: string, rest: string)
    requires IsKeyword(k)
    requires text != "" && !IsSpace(text[0])
    requires ReadSettingValue(text) == Some((value, rest))
    ensures var tail := ParseConnectionString(rest);
            ParseConnectionString(k + "=" + text)
            == if tail.None? then None else Some([Setting(k, value)] + tail.value)
  {
    var s := k + "=" + text;
    assert s == k + ("=" + text);
    ReadNameKeyword(k, "=" + text);
    assert ("=" + text)[1..] == text;
  }

  lemma ParseQuotedSetting(k: string, v: string, rest: string)
    requires IsKeyword(k)
    ensures var tail := ParseConnectionString(rest);
            ParseConnectionString(k + "=" + QuoteConnectionStringValue(v) + rest)
            == if tail.None? then None else Some([Setting(k, CutAtNul(v))] + tail.value)
  {
    ReadQuotedValue(v, rest);
    ParseSetting(k, QuoteConnectionStringValue(v) + rest, CutAtNul(v), rest);
    assert k + "=" + QuoteConnectionStringValue(v) + rest == k + "=" + (QuoteConnectionStringValue(v) + rest);
  }

  lemma {:induction false} DigitsRead(n: nat)
    ensures Digits(n) != "" && forall i :: 0 <= i < |Digits(n)| ==> '0' <= Digits(n)[i] <= '9'
    ensures DigitsValue(Digits(n)) == Some(n)
  {
    if n >= 10 {
      DigitsRead(n / 10);
      var s := Digits(n);
      assert s[..|s| - 1] == Digits(n / 10);
    }
  }

  lemma DecimalRead(n: int)
    ensures DecimalValue(Decimal(n)) == Some(n)
    ensures Decimal(n) != "" && forall i :: 0 <= i < |Decimal(n)| ==> Decimal(n)[i] == '-' || '0' <= Decimal(n)[i] <= '9'
  {
    DigitsRead(if n < 0 then -n else n);
    if n < 0 {
      assert Decimal(n)[1..] == Digits(-n);
    }
  }

  lemma {:induction false} ReadBareWord(w: string, rest: string)
    requires forall i :: 0 <= i < |w| ==> w[i] == '-' || '0' <= w[i] <= '9'
    ensures ReadBare(w + " " + rest) == (w, rest)
  {
    var s := w + " " + rest;
    if w == "" {
      assert s[1..] == rest;
    } else {
      ReadBareWord(w[1..], rest);
      assert s[1..] == w[1..] + " " + rest;
      assert [w[0]] + w[1..] == w;
    }
  }

  /** What libpq makes of a connection string of the broker: the six settings, in order, the text
      values cut at their first NUL. */
  function SettingsOf(c: DBConfig): seq<Setting> {
    [Setting("host", CutAtNul(c.url)), Setting("port", Decimal(c.port)), Setting("dbname", CutAtNul(c.dbName)),
     Setting("user", CutAtNul(c.username)), Setting("password", CutAtNul(c.password)), Setting("sslmode", CutAtNul(c.sslmode))]
  }

  /** `text`, a space and then settings that read back, read back with `setting` in front. */
  ghost predicate ReadsAs(text: string, setting: Setting) {
    forall rest: string {:trigger text + [' '] + rest} :: ParseConnectionString(rest).Some? ==>
      ParseConnectionString(text + [' '] + rest) == Some([setting] + ParseConnectionString(rest).value)
  }

  lemma QuotedReadsAs(k: string, v: string)
    requires IsKeyword(k)
    ensures ReadsAs(KeyValue(k, QuoteConnectionStringValue(v)), Setting(k, CutAtNul(v)))
  {
    var text := KeyValue(k, QuoteConnectionStringValue(v));
    forall rest | ParseConnectionString(rest).Some?
      ensures ParseConnectionString(text + [' '] + rest) == Some([Setting(k, CutAtNul(v))] + ParseConnectionString(rest).value)
    {
      assert ([' '] + rest)[1..] == rest;
      ParseQuotedSetting(k, v, [' '] + rest);
      assert text + [' '] + rest == k + "=" + QuoteConnectionStringValue(v) + ([' '] + rest);
    }
  }

  lemma KeyValueThen(k: string, text: string, rest: string)
    ensures k + "=" + (text + " " + rest) == KeyValue(k, text) + [' '] + rest
  {
  }

  lemma PortReads(n: int, text: string, rest: string)
    requires text == Decimal(n) && ParseConnectionString(rest).Some?
    ensures ParseConnectionString(KeyValue("port", text) + [' '] + rest) == Some([Setting("port", text)] + ParseConnectionString(rest).value)
  {
    DecimalRead(n);
    ReadBareWord(text, rest);
    ParseSetting("port", text + " " + rest, text, rest);
    KeyValueThen("port", text, rest);
  }

  lemma PortReadsAs(n: int)
    ensures ReadsAs(KeyValue("port", Decimal(n)), Setting("port", Decimal(n)))
  {
    forall rest | ParseConnectionString(rest).Some?
      ensures ParseConnectionString(KeyValue("port", Decimal(n)) + [' '] + rest)
              == Some([Setting("port", Decimal(n))] + ParseConnectionString(rest).value)
    {
      PortReads(n, Decimal(n), rest);
    }
  }

  lemma ParseLastQuoted(k: string, v: string)
    requires IsKeyword(k)
    ensures ParseConnectionString(KeyValue(k, QuoteConnectionStringValue(v))) == Some([Setting(k, CutAtNul(v))])
  {
    ParseQuotedSetting(k, v, "");
    assert ParseConnectionString("") == Some([]);
    assert [Setting(k, CutAtNul(v))] + [] == [Setting(k, CutAtNul(v))];
    assert k + "=" + QuoteConnectionStringValue(v) + "" == KeyValue(k, QuoteConnectionStringValue(v));
  }

  lemma SettingReadsAs(c: DBConfig, n: nat)
    requires n < 5
    ensures ReadsAs(ConnectionSettings(c)[n], SettingsOf(c)[n])
  {
    match n
    case 0 => QuotedReadsAs("host", c.url);
    case 1 => PortReadsAs(c.port);
    case 2 => QuotedReadsAs("dbname", c.dbName);
    case 3 => QuotedReadsAs("user", c.username);
    case _ => QuotedReadsAs("password", c.password);
  }

  lemma ReadsOneMore(parts: seq<string>, setting: Setting, settings: seq<Setting>)
    requires |parts| >= 2 && ReadsAs(parts[0], setting)
    requires ParseConnectionString(Join(parts[1..], ' ')) == Some(settings)
    ensures ParseConnectionString(Join(parts, ' ')) == Some([setting] + settings)
  {
    assert Join(parts, ' ') == parts[0] + [' '] + Join(parts[1..], ' ');
  }

  /** Reading from the n-th setting on. */
  lemma {:induction false} ParseFromSetting(c: DBConfig, n: nat)
    requires n < 6
    ensures ParseConnectionString(Join(ConnectionSettings(c)[n..], ' ')) == Some(SettingsOf(c)[n..])
    decreases 6 - n
  {
    var (parts, all) := (ConnectionSettings(c)[n..], SettingsOf(c));
    if n < 5 {
      ParseFromSetting(c, n + 1);
      SettingReadsAs(c, n);
      assert parts[1..] == ConnectionSettings(c)[n + 1..];
      ReadsOneMore(parts, all[n], all[n + 1..]);
      assert all[n..] == [all[n]] + all[n + 1..];
    } else {
      ParseLastQuoted("sslmode", c.sslmode);
    }
  }

  /** The round trip: for every configuration, reading the printed connection string by libpq's rules
      gives exactly the six settings, whatever quotes, backslashes, spaces and equals signs the values
      hold, and the port reads back as the same number. */
  lemma ConnectionStringRoundTrip(c: DBConfig)
    ensures ParseConnectionString(ConnectionString(c)) == Some(SettingsOf(c))
    ensures DecimalValue(Decimal(c.port)) == Some(c.port)
  {
    ParseFromSetting(c, 0);
    assert ConnectionSettings(c)[0..] == ConnectionSettings(c) && SettingsOf(c)[0..] == SettingsOf(c);
    DecimalRead(c.port);
  }

  predicate NulFree(c: DBConfig) {
    '\0' !in c.url && '\0' !in c.dbName && '\0' !in c.username && '\0' !in c.password && '\0' !in c.sslmode
  }

  /** No two NUL-free configurations, empty values included, print the same connection string. */
  lemma ConnectionStringInjective(c: DBConfig, d: DBConfig)
    requires NulFree(c) && NulFree(d)
    requires ConnectionString(c) == ConnectionString(d)
    ensures c == d
  {
    ConnectionStringRoundTrip(c);
    ConnectionStringRoundTrip(d);
    var (s, t) := (SettingsOf(c), SettingsOf(d));
    assert s[0] == t[0] && s[1] == t[1] && s[2] == t[2] && s[3] == t[3] && s[4] == t[4] && s[5] == t[5];
  }

  lemma {:induction false} ReadDoubledQuotes(v: string, rest: string)
    requires rest == "" || rest[0] != '\''
    ensures ReadLiteralBody(Replace(v, '\'', "''") + "'" + rest) == Some((v, rest))
  {
    var text := Replace(v, '\'', "''") + "'" + rest;
    if v == "" {
      assert text[1..] == rest;
    } else {
      ReadDoubledQuotes(v[1..], rest);
      var tail := Replace(v[1..], '\'', "''") + "'" + rest;
      if v[0] == '\'' {
        assert text[2..] == tail;
      } else {
        assert text[1..] == tail;
      }
      assert [v[0]] + v[1..] == v;
    }
  }

  /** A quoted value is one string constant: the server reads the value back, cut at its first NUL,
      and the statement goes on right after the closing quote. */
  lemma QuoteValueRoundTrip(v: string, rest: string)
    requires rest == "" || rest[0] != '\''
    ensures ReadLiteral(QuoteValue(v) + rest) == Some((CutAtNul(v), rest))
  {
    ReadDoubledQuotes(CutAtNul(v), rest);
    DropOpeningQuote(Replace(CutAtNul(v), '\'', "''"), rest);
  }
}
