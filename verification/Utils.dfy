/** utils/utils.go: sealing of passwords, random names, identifier checks. */
module Utils {
  import opened Wrappers
  import opened Strings

  type Byte = b: int | 0 <= b < 256
  type Bytes = seq<Byte>
  /** What `RandIV` returns: the 12 bytes of a standard GCM nonce. */
  type Nonce = b: Bytes | |b| == 12 witness seq(12, i => 0)

  // ---- Encrypt and Decrypt -------------------------------------------------

  /** A stored ciphertext. `Sealed` is symbolic authenticated encryption (sections 7.1 and 7.2 of
      NIST SP 800-38D): it opens under the key and nonce it was made with and under no other.
      `Forged` stands for stored bytes that no call of `Encrypt` produced. */
  datatype Cipher = Sealed(key: Bytes, iv: Nonce, msg: string) | Forged(bytes: Bytes)

  /** `aes.NewCipher` accepts AES-128, AES-192 and AES-256 keys and nothing else. */
  predicate ValidKey(key: Bytes) {
    |key| == 16 || |key| == 24 || |key| == 32
  }

  function Encrypt(msg: string, key: Bytes, iv: Nonce): Option<Cipher> {
    if ValidKey(key) then Some(Sealed(key, iv, msg)) else None
  }

  function Decrypt(src: Cipher, key: Bytes, iv: Nonce): Option<string> {
    if ValidKey(key) && src.Sealed? && src.key == key && src.iv == iv then Some(src.msg) else None
  }

  /** Sealing works with a key of 128, 192 or 256 bits and no other; what was sealed opens to the same text under
      the same key and nonce, and only there. */
  lemma OpenAfterSeal(msg: string, key: Bytes, iv: Nonce, key': Bytes, iv': Nonce)
    ensures Encrypt(msg, key, iv).Some? <==> |key| * 8 == 128 || |key| * 8 == 192 || |key| * 8 == 256
    ensures Encrypt(msg, key, iv).Some?
            ==> Decrypt(Encrypt(msg, key, iv).value, key', iv') == if key' == key && iv' == iv then Some(msg) else None
  {
  }

  // ---- base64.URLEncoding --------------------------------------------------

  /** The 64 characters of the URL and filename safe alphabet (RFC 4648 section 5). */
  function Digit64(n: int): char
    requires 0 <= n < 64
  {
    if n < 26 then 'A' + n as char
    else if n < 52 then 'a' + (n - 26) as char
    else if n < 62 then '0' + (n - 52) as char
    else if n == 62 then '-' else '_'
  }

  function Value64(c: char): int {
    if 'A' <= c <= 'Z' then c as int - 'A' as int
    else if 'a' <= c <= 'z' then c as int - 'a' as int + 26
    else if '0' <= c <= '9' then c as int - '0' as int + 52
    else if c == '-' then 62
    else if c == '_' then 63
    else -1
  }

  function Group64(a: Byte, b: Byte, c: Byte): string {
    [Digit64(a / 4), Digit64(a % 4 * 16 + b / 16), Digit64(b % 16 * 4 + c / 64), Digit64(c % 64)]
  }

  function Encode64(bytes: Bytes): string {
    if |bytes| == 0 then ""
    else if |bytes| == 1 then Group64(bytes[0], 0, 0)[..2] + "=="
    else if |bytes| == 2 then Group64(bytes[0], bytes[1], 0)[..3] + "="
    else Group64(bytes[0], bytes[1], bytes[2]) + Encode64(bytes[3..])
  }

  /** The three bytes behind four characters. */
  function DecodeGroup64(g: string): Option<Bytes>
    requires |g| == 4
  {
    var (p, q, r, t) := (Value64(g[0]), Value64(g[1]), Value64(g[2]), Value64(g[3]));
    if p < 0 || q < 0 || r < 0 || t < 0 then None
    else Some([p * 4 + q / 16, q % 16 * 16 + r / 4, r % 4 * 64 + t])
  }

  /** Reads unpadded base64url back: the inverse of `Encode64` on whole groups. */
  function Decode64(s: string): Option<Bytes> {
    if s == "" then Some([])
    else if |s| < 4 then None
    else match (DecodeGroup64(s[..4]), Decode64(s[4..]))
      case (Some(group), Some(rest)) => Some(group + rest)
      case _ => None
  }

  predicate IsDigit64(c: char) {
    Value64(c) >= 0
  }

  lemma NotDigits64()
    ensures !IsDigit64('=') && !IsDigit64('\0') && !IsDigit64('\'')
  {
  }

  lemma Digit64Valid(n: int)
    requires 0 <= n < 64
    ensures Value64(Digit64(n)) == n
  {
  }

  lemma SixBits(a: Byte, b: Byte, c: Byte)
    ensures (a % 4 * 16 + b / 16) / 16 == a % 4 && (a % 4 * 16 + b / 16) % 16 == b / 16
    ensures (b % 16 * 4 + c / 64) / 4 == b % 16 && (b % 16 * 4 + c / 64) % 4 == c / 64
  {
  }

  lemma Group64Inverse(a: Byte, b: Byte, c: Byte)
    ensures DecodeGroup64(Group64(a, b, c)) == Some([a, b, c])
  {
    SixBits(a, b, c);
    Digit64Valid(a / 4);
    Digit64Valid(a % 4 * 16 + b / 16);
    Digit64Valid(b % 16 * 4 + c / 64);
    Digit64Valid(c % 64);
  }

  /** Every group, whole or padded, takes four characters. */
  lemma {:induction false} Encode64Length(bytes: Bytes)
    ensures |Encode64(bytes)| == (|bytes| + 2) / 3 * 4
  {
    if |bytes| >= 3 {
      Encode64Length(bytes[3..]);
      assert (|bytes[3..]| + 2) / 3 + 1 == (|bytes| + 2) / 3;
    }
  }

  lemma DecodeOneMoreGroup(g: string, rest: string)
    requires |g| == 4 && DecodeGroup64(g).Some? && Decode64(rest).Some?
    ensures Decode64(g + rest) == Some(DecodeGroup64(g).value + Decode64(rest).value)
  {
    assert (g + rest)[..4] == g && (g + rest)[4..] == rest;
  }

  /** On whole groups encoding is undone by decoding, so no two byte strings share an encoding. */
  lemma {:induction false} Decode64Encode64(bytes: Bytes)
    requires |bytes| % 3 == 0
    ensures Decode64(Encode64(bytes)) == Some(bytes)
  {
    if |bytes| >= 3 {
      var (a, b, c, rest) := (bytes[0], bytes[1], bytes[2], bytes[3..]);
      assert bytes == [a, b, c] + rest;
      Decode64Encode64(rest);
      assert Decode64(Group64(a, b, c) + Encode64(rest)) == Some([a, b, c] + rest) by {
        Group64Inverse(a, b, c);
        DecodeOneMoreGroup(Group64(a, b, c), Encode64(rest));
      }
      assert Encode64(bytes) == Group64(a, b, c) + Encode64(rest);
    }
  }

  /** What decodes holds only characters of the alphabet, and never padding. */
  lemma {:induction false} Decode64Alphabet(s: string)
    requires Decode64(s).Some?
    ensures forall i :: 0 <= i < |s| ==> IsDigit64(s[i])
  {
    if s != "" {
      Decode64Alphabet(s[4..]);
      assert forall i :: 0 <= i < 4 ==> s[..4][i] == s[i];
      assert forall i :: 4 <= i < |s| ==> s[i] == s[4..][i - 4];
    }
  }

  // ---- RandString, RandPassword, RandUsername ------------------------------

  const PASSWORD_LENGTH := 24
  const USERNAME_LENGTH := 13

  /** `rand.Read` fills the whole buffer; `entropy` is what it writes there. */
  method FillRandom(buffer: array<Byte>, entropy: Bytes)
    requires |entropy| == buffer.Length
    modifies buffer
    ensures buffer[..] == entropy
  {
    for i := 0 to buffer.Length
      invariant buffer[..i] == entropy[..i]
    {
      buffer[i] := entropy[i];
    }
  }

  /** `RandString`: `entropy` is None when reading random bytes fails. The text has exactly the
      length asked for when, and only when, that length is a multiple of four; then it has no
      padding and tells every buffer apart. */
  method RandString(length: nat, entropy: Option<Bytes>) returns (r: Option<string>)
    requires entropy.Some? ==> |entropy.value| == length * 3 / 4
    ensures r.None? <==> entropy.None?
    ensures r.Some? ==> r.value == Encode64(entropy.value)
    ensures r.Some? ==> (|r.value| == length <==> length % 4 == 0)
    ensures r.Some? && length % 4 == 0 ==> Decode64(r.value) == entropy && '=' !in r.value
  {
    if entropy.None? {
      return None;
    }
    var bytes := new Byte[length * 3 / 4];
    FillRandom(bytes, entropy.value);
    RandStringFacts(length, entropy.value);
    r := Some(Encode64(bytes[..]));
  }

  lemma RandStringFacts(length: nat, entropy: Bytes)
    requires |entropy| == length * 3 / 4
    ensures |Encode64(entropy)| == length <==> length % 4 == 0
    ensures length % 4 == 0 ==> Decode64(Encode64(entropy)) == Some(entropy)
    ensures length % 4 == 0 ==> '=' !in Encode64(entropy)
  {
    Encode64Length(entropy);
    Thirds(length);
    if length % 4 == 0 {
      Decode64Encode64(entropy);
      Decode64Alphabet(Encode64(entropy));
      NotDigits64();
    }
  }

  lemma Thirds(length: nat)
    ensures (length * 3 / 4 + 2) / 3 * 4 == length <==> length % 4 == 0
    ensures length % 4 == 0 ==> length * 3 / 4 % 3 == 0
  {
    var (k, j) := (length / 4, length % 4);
    assert length == 4 * k + j;
    assert length * 3 / 4 == 3 * k + j * 3 / 4;
  }

  /** The bytes behind one user: 9 for a random name, 18 for a password, 12 for the nonce. */
  type NameBytes = b: Bytes | |b| == 9 witness seq(9, i => 0)
  type PasswordBytes = b: Bytes | |b| == 18 witness seq(18, i => 0)

  function RandPassword(bytes: PasswordBytes): string {
    Encode64(bytes)
  }

  function RandUsername(bytes: NameBytes): string {
    "u" + Replace(Encode64(bytes), '-', "_")
  }

  predicate IsAlpha(c: char) {
    'a' <= c <= 'z' || 'A' <= c <= 'Z'
  }

  predicate IsAlnum(c: char) {
    IsAlpha(c) || '0' <= c <= '9'
  }

  /** `^$|^[[:alpha:]][_[:alnum:]]*$` */
  predicate IsSimpleIdentifier(arg: string) {
    arg == "" || (IsAlpha(arg[0]) && forall i :: 1 <= i < |arg| ==> arg[i] == '_' || IsAlnum(arg[i]))
  }

  /** `^[[:alpha:]][-_[:alnum:]]*$` */
  predicate IsValidExtensionName(arg: string) {
    arg != "" && IsAlpha(arg[0]) && forall i :: 1 <= i < |arg| ==> arg[i] == '-' || arg[i] == '_' || IsAlnum(arg[i])
  }

  /** A valid extension name consists of characters of the base64url alphabet, the first of them one of its
      letters; a simple identifier may also be empty, and has no dash. */
  lemma NamesByAlphabet(arg: string)
    ensures IsValidExtensionName(arg)
            <==> arg != "" && Value64(arg[0]) < 52 && forall i :: 0 <= i < |arg| ==> IsDigit64(arg[i])
    ensures IsSimpleIdentifier(arg) <==> arg == "" || (IsValidExtensionName(arg) && '-' !in arg)
  {
    if arg != "" {
      assert IsAlpha(arg[0]) <==> 0 <= Value64(arg[0]) < 52;
      assert !IsAlnum('-') && !IsAlpha('-');
    }
  }

  lemma DashesReplaced(text: string)
    requires forall i :: 0 <= i < |text| ==> IsDigit64(text[i])
    ensures |"u" + Replace(text, '-', "_")| == |text| + 1 && IsSimpleIdentifier("u" + Replace(text, '-', "_"))
  {
    ReplaceCharAt(text, '-', '_');
  }

  /** Every generated username is 13 characters long, so MySQL accepts it, and is a simple identifier. */
  lemma RandUsernameWellFormed(bytes: NameBytes)
    ensures |RandUsername(bytes)| == USERNAME_LENGTH <= 16
    ensures IsSimpleIdentifier(RandUsername(bytes))
  {
    assert |Encode64(bytes)| == 12 by {
      Encode64Length(bytes);
    }
    Decode64Encode64(bytes);
    Decode64Alphabet(Encode64(bytes));
    DashesReplaced(Encode64(bytes));
  }

  /** Every generated password is 24 characters of the base64url alphabet, in particular free of NUL
      and of quotes, and different random bytes give different passwords. */
  lemma RandPasswordWellFormed(bytes: PasswordBytes)
    ensures |RandPassword(bytes)| == PASSWORD_LENGTH
    ensures forall i :: 0 <= i < PASSWORD_LENGTH ==> IsDigit64(RandPassword(bytes)[i])
    ensures '\0' !in RandPassword(bytes) && '\'' !in RandPassword(bytes)
    ensures Decode64(RandPassword(bytes)) == Some(bytes)
  {
    var text := Encode64(bytes);
    assert |text| == 24 by {
      Encode64Length(bytes);
    }
    Decode64Encode64(bytes);
    Decode64Alphabet(text);
    NotDigits64();
  }
}
