/** The PHC-format password string: printed by HashPassword, read by decodeHash. */
module PasswordHash {
  import opened Wrappers
  import opened Base64
  import Decimal

  const ARGON_VERSION := 19
  const ARGON_KEY_LENGTH := 32

  const UINT32_LIMIT := 0x1_0000_0000
  const UINT8_LIMIT := 0x100
  const INT64_LIMIT := 0x8000_0000_0000_0000

  type UInt32 = x: int | 0 <= x < UINT32_LIMIT
  type UInt8 = x: int | 0 <= x < UINT8_LIMIT

  datatype Params = Params(memory: UInt32, iterations: UInt32, parallelism: UInt8)

  datatype HashError = InvalidHash | VersionMismatch(version: int)

  datatype Decoded = Decoded(params: Params, salt: seq<Byte>, key: seq<Byte>)

  /** The key derivation: password, salt, parameters, key length. Argon2 itself is not modelled. */
  type Kdf = (string, seq<Byte>, Params, nat) -> seq<Byte>

  // --- strings.Split -------------------------------------------------------

  function Split(s: string, sep: char): (parts: seq<string>)
    ensures |parts| > 0
  {
    if s == "" then [""]
    else
      var rest := Split(s[1..], sep);
      if s[0] == sep then [""] + rest else [[s[0]] + rest[0]] + rest[1..]
  }

  function Join(parts: seq<string>, sep: char): string
    requires |parts| > 0
  {
    if |parts| == 1 then parts[0] else parts[0] + [sep] + Join(parts[1..], sep)
  }

  lemma {:induction false} SplitNoSeparator(s: string, sep: char)
    requires sep !in s
    ensures Split(s, sep) == [s]
  {
    if s != "" {
      SplitNoSeparator(s[1..], sep);
      assert [s[0]] + s[1..] == s;
    }
  }

  lemma {:induction false} SplitFirst(head: string, tail: string, sep: char)
    requires sep !in head
    ensures Split(head + [sep] + tail, sep) == [head] + Split(tail, sep)
  {
    var s := head + [sep] + tail;
    if head == "" {
      assert s[1..] == tail;
    } else {
      assert s[1..] == head[1..] + [sep] + tail;
      SplitFirst(head[1..], tail, sep);
      assert [head[0]] + head[1..] == head;
    }
  }

  /** Splitting undoes joining when no part holds the separator. */
  lemma {:induction false} SplitOfJoin(parts: seq<string>, sep: char)
    requires |parts| > 0
    requires forall p :: p in parts ==> sep !in p
    ensures Split(Join(parts, sep), sep) == parts
  {
    if |parts| == 1 {
      SplitNoSeparator(parts[0], sep);
    } else {
      SplitOfJoin(parts[1..], sep);
      SplitFirst(parts[0], Join(parts[1..], sep), sep);
    }
  }

  // --- fmt.Sscanf ----------------------------------------------------------

  /** A literal of the format: the rest of the input, if the input starts with it. */
  function ScanLiteral(s: string, literal: string): Option<string> {
    if literal <= s then Some(s[|literal|..]) else None
  }

  /** %d into an unsigned field: the longest run of digits, refused when empty or too large. */
  function ScanUint(s: string, limit: int): (r: Option<(int, string)>)
    ensures r.Some? ==> 0 <= r.value.0 < limit
  {
    var k := Decimal.DigitRun(s);
    if k == 0 || Decimal.Value(s[..k]) >= limit then None
    else Some((Decimal.Value(s[..k]), s[k..]))
  }

  /** %d into a signed field. */
  function ScanInt(s: string): Option<(int, string)> {
    if s != "" && s[0] == '-' then
      match ScanUint(s[1..], INT64_LIMIT + 1)
      case None => None
      case Some((v, rest)) => Some((-v, rest))
    else
      ScanUint(if s != "" && s[0] == '+' then s[1..] else s, INT64_LIMIT)
  }

  /** Sscanf(s, "v=%d"). Input after the number is ignored. */
  function ScanVersion(s: string): Option<int> {
    match ScanLiteral(s, "v=")
    case None => None
    case Some(rest) =>
      match ScanInt(rest)
      case None => None
      case Some((v, _)) => Some(v)
  }

  /** Sscanf(s, "m=%d,t=%d,p=%d"). */
  function ScanParams(s: string): Option<Params> {
    match ScanField(s, "m=", UINT32_LIMIT)
    case None => None
    case Some((m, afterM)) =>
      match ScanField(afterM, ",t=", UINT32_LIMIT)
      case None => None
      case Some((t, afterT)) =>
        match ScanField(afterT, ",p=", UINT8_LIMIT)
        case None => None
        case Some((p, _)) => Some(Params(m, t, p))
  }

  function ScanField(s: string, literal: string, limit: int): (r: Option<(int, string)>)
    ensures r.Some? ==> 0 <= r.value.0 < limit
  {
    match ScanLiteral(s, literal)
    case None => None
    case Some(rest) => ScanUint(rest, limit)
  }

  lemma ScanPrintedField(literal: string, n: nat, rest: string, limit: int)
    requires n < limit
    requires rest == "" || !Decimal.IsDigit(rest[0])
    ensures ScanField(literal + Decimal.Print(n) + rest, literal, limit) == Some((n, rest))
  {
    var digits := Decimal.Print(n);
    assert (literal + digits + rest)[|literal|..] == digits + rest;
    Decimal.DigitRunStops(digits, rest);
    assert (digits + rest)[..|digits|] == digits;
    assert (digits + rest)[|digits|..] == rest;
    Decimal.ValueOfPrint(n);
  }

  // --- the string ----------------------------------------------------------

  function VersionField(): string { "v=" + Decimal.Print(ARGON_VERSION) }

  function ParamsField(p: Params): string {
    "m=" + Decimal.Print(p.memory) + ",t=" + Decimal.Print(p.iterations) + ",p=" + Decimal.Print(p.parallelism)
  }

  /** The Sprintf at the end of HashPassword. */
  function Format(p: Params, salt: seq<Byte>, key: seq<Byte>): string {
    "$" + ("argon2id$" + (VersionField() + "$" + (ParamsField(p) + "$" + (Encode(salt) + "$" + Encode(key)))))
  }

  function DecodeHash(encoded: string): Result<Decoded, HashError> { DecodeParts(Split(encoded, '$')) }

  function DecodeParts(parts: seq<string>): Result<Decoded, HashError> {
    if |parts| != 6 || parts[1] != "argon2id" then Err(InvalidHash)
    else match ScanVersion(parts[2])
      case None => Err(InvalidHash)
      case Some(version) =>
        if version != ARGON_VERSION then Err(VersionMismatch(version))
        else match ScanParams(parts[3])
          case None => Err(InvalidHash)
          case Some(params) =>
            match (Decode(parts[4]), Decode(parts[5]))
            case (Some(salt), Some(key)) => Ok(Decoded(params, salt, key))
            case _ => Err(InvalidHash)
  }

  /** HashPassword with the parameters and the salt as arguments. */
  function HashPassword(kdf: Kdf, p: Params, password: string, salt: seq<Byte>): string {
    Format(p, salt, kdf(password, salt, p, ARGON_KEY_LENGTH))
  }

  function VerifyPassword(kdf: Kdf, password: string, encoded: string): Result<bool, HashError> {
    match DecodeHash(encoded)
    case Err(e) => Err(e)
    case Ok(d) => Ok(kdf(password, d.salt, d.params, |d.key|) == d.key)
  }

  // --- what the string promises --------------------------------------------

  lemma ScanVersionField()
    ensures ScanVersion(VersionField()) == Some(ARGON_VERSION)
  {
    var digits := Decimal.Print(ARGON_VERSION);
    assert Decimal.IsDigit(digits[0]);
    assert VersionField()[2..] == digits;
    assert digits + "" == digits;
    Decimal.DigitRunStops(digits, "");
    assert digits[..|digits|] == digits;
    Decimal.ValueOfPrint(ARGON_VERSION);
  }

  lemma ScanParamsField(p: Params)
    ensures ScanParams(ParamsField(p)) == Some(p)
  {
    var parallel := ",p=" + Decimal.Print(p.parallelism);
    var iterations := ",t=" + Decimal.Print(p.iterations) + parallel;
    assert ParamsField(p) == "m=" + Decimal.Print(p.memory) + iterations;
    ScanPrintedField("m=", p.memory, iterations, UINT32_LIMIT);
    ScanPrintedField(",t=", p.iterations, parallel, UINT32_LIMIT);
    assert parallel == parallel + "";
    ScanPrintedField(",p=", p.parallelism, "", UINT8_LIMIT);
  }

  lemma DigitsHoldNoDollar(s: string)
    requires Decimal.AllDigits(s)
    ensures '$' !in s
  {
    assert forall c :: c in s ==> Decimal.IsDigit(c);
  }

  lemma EncodedHoldsNoDollar(b: seq<Byte>)
    ensures '$' !in Encode(b)
  {
    EncodeInAlphabet(b);
    assert !InAlphabet('$');
  }

  function Fields(p: Params, salt: seq<Byte>, key: seq<Byte>): seq<string> {
    ["", "argon2id", VersionField(), ParamsField(p), Encode(salt), Encode(key)]
  }

  lemma JoinCons(head: string, tail: seq<string>, sep: char)
    requires |tail| > 0
    ensures Join([head] + tail, sep) == head + [sep] + Join(tail, sep)
  {
    assert ([head] + tail)[1..] == tail;
  }

  lemma FormatIsJoin(p: Params, salt: seq<Byte>, key: seq<Byte>)
    ensures Format(p, salt, key) == Join(Fields(p, salt, key), '$')
  {
    var f := Fields(p, salt, key);
    JoinCons(f[4], f[5..], '$');
    JoinCons(f[3], f[4..], '$');
    JoinCons(f[2], f[3..], '$');
    JoinCons(f[1], f[2..], '$');
    JoinCons(f[0], f[1..], '$');
    assert f == [f[0]] + f[1..];
    assert f[1..] == [f[1]] + f[2..];
    assert f[2..] == [f[2]] + f[3..];
    assert f[3..] == [f[3]] + f[4..];
    assert f[4..] == [f[4]] + f[5..];
    assert "argon2id$" == "argon2id" + "$";
    assert "" + "$" == "$";
  }

  lemma FieldsHoldNoDollar(p: Params, salt: seq<Byte>, key: seq<Byte>)
    ensures forall f :: f in Fields(p, salt, key) ==> '$' !in f
  {
    DigitsHoldNoDollar(Decimal.Print(ARGON_VERSION));
    DigitsHoldNoDollar(Decimal.Print(p.memory));
    DigitsHoldNoDollar(Decimal.Print(p.iterations));
    DigitsHoldNoDollar(Decimal.Print(p.parallelism));
    EncodedHoldsNoDollar(salt);
    EncodedHoldsNoDollar(key);
  }

  lemma SplitOfFormat(p: Params, salt: seq<Byte>, key: seq<Byte>)
    ensures Split(Format(p, salt, key), '$') == Fields(p, salt, key)
  {
    FormatIsJoin(p, salt, key);
    FieldsHoldNoDollar(p, salt, key);
    SplitOfJoin(Fields(p, salt, key), '$');
  }

  lemma DecodeOfFields(parts: seq<string>, p: Params, salt: seq<Byte>, key: seq<Byte>)
    requires |parts| == 6 && parts[1] == "argon2id" && parts[2] == VersionField() && parts[3] == ParamsField(p)
    requires parts[4] == Encode(salt) && parts[5] == Encode(key)
    ensures DecodeParts(parts) == Ok(Decoded(p, salt, key))
  {
    ScanVersionField();
    ScanParamsField(p);
    DecodeOfEncode(salt);
    DecodeOfEncode(key);
  }

  /** What HashPassword prints, decodeHash reads back: every parameter in range, every salt
      and every key. */
  lemma DecodeOfFormat(p: Params, salt: seq<Byte>, key: seq<Byte>)
    ensures DecodeHash(Format(p, salt, key)) == Ok(Decoded(p, salt, key))
  {
    SplitOfFormat(p, salt, key);
    DecodeOfFields(Fields(p, salt, key), p, salt, key);
  }

  /** The reader accepts six fields with the name and the version of the algorithm, and nothing but printed
      salts and keys, give or take line breaks. */
  lemma DecodedFieldsArePrinted(encoded: string)
    requires DecodeHash(encoded).Ok?
    ensures
      var d, parts := DecodeHash(encoded).value, Split(encoded, '$');
      && |parts| == 6 && parts[1] == "argon2id" && ScanVersion(parts[2]) == Some(19)
      && ScanParams(parts[3]) == Some(d.params)
      && StripLineBreaks(parts[4]) == Encode(d.salt)
      && StripLineBreaks(parts[5]) == Encode(d.key)
  {
    var d, parts := DecodeHash(encoded).value, Split(encoded, '$');
    DecodeExactly(parts[4], d.salt);
    DecodeExactly(parts[5], d.key);
  }

  /** A stored string keeps verifying under the parameters it was made with, whatever the
      current constants are: another password passes exactly when it derives the same key. */
  lemma VerifyHashed(kdf: Kdf, p: Params, password: string, attempt: string, salt: seq<Byte>)
    requires |kdf(password, salt, p, ARGON_KEY_LENGTH)| == ARGON_KEY_LENGTH
    ensures VerifyPassword(kdf, attempt, HashPassword(kdf, p, password, salt))
         == Ok(kdf(attempt, salt, p, ARGON_KEY_LENGTH) == kdf(password, salt, p, ARGON_KEY_LENGTH))
  {
    DecodeOfFormat(p, salt, kdf(password, salt, p, ARGON_KEY_LENGTH));
  }

  lemma PrintMore(n: nat, d: nat)
    requires n >= 1 && d < 10
    ensures Decimal.Print(10 * n + d) == Decimal.Print(n) + [Decimal.DigitChar(d)]
  {
  }

  lemma PrintedNumbers()
    ensures Decimal.Print(65536) == "65536" && Decimal.Print(19) == "19"
  {
    PrintMore(6, 5);
    PrintMore(65, 5);
    PrintMore(655, 3);
    PrintMore(6553, 6);
    PrintMore(1, 9);
  }

  lemma WrittenParams()
    ensures VersionField() == "v=19" && ParamsField(Params(65536, 3, 4)) == "m=65536,t=3,p=4"
  {
    PrintedNumbers();
    assert Decimal.Print(3) == "3" && Decimal.Print(4) == "4";
    assert "m=" + "65536" + ",t=" + "3" + ",p=" + "4" == "m=65536,t=3,p=4";
  }

  /** What a stored string looks like between its dollar signs, for the parameters in use: 64 MiB, three
      iterations, four threads, version 19 of Argon2id; the salt is foo here, the key foobar. */
  lemma WrittenForm()
    ensures Split(Format(Params(65536, 3, 4), [102, 111, 111], [102, 111, 111, 98, 97, 114]), '$')
         == ["", "argon2id", "v=19", "m=65536,t=3,p=4", "Zm9v", "Zm9vYmFy"]
  {
    Base64.Examples();
    WrittenParams();
    SplitOfFormat(Params(65536, 3, 4), [102, 111, 111], [102, 111, 111, 98, 97, 114]);
  }
}
