/** Unpadded standard base64 (section 4 of RFC 4648), read strictly: spare bits must be
    zero, and, as Go's reader does even in strict mode, CR and LF are skipped. */
module Base64 {
  import opened Wrappers

  type Byte = x: int | 0 <= x < 256

  type Sextet = v: int | 0 <= v < 64

  // --- bytes and groups of six bits ------------------------------------------

  /** Three bytes make four groups; one or two trailing bytes make two or three, padded
      with zero bits. */
  function Unpack(b: seq<Byte>): seq<Sextet> {
    if |b| == 0 then []
    else if |b| == 1 then [b[0] / 4, b[0] % 4 * 16]
    else if |b| == 2 then [b[0] / 4, b[0] % 4 * 16 + b[1] / 16, b[1] % 16 * 4]
    else [b[0] / 4, b[0] % 4 * 16 + b[1] / 16, b[1] % 16 * 4 + b[2] / 64, b[2] % 64] + Unpack(b[3..])
  }

  /** A single trailing group, or trailing bits that are not zero, are refused. */
  function Pack(v: seq<Sextet>): Option<seq<Byte>> {
    if |v| == 0 then Some([])
    else if |v| == 1 then None
    else if |v| == 2 then
      if v[1] % 16 != 0 then None else Some([v[0] as int * 4 + v[1] as int / 16])
    else if |v| == 3 then
      if v[2] % 4 != 0 then None
      else Some([v[0] as int * 4 + v[1] as int / 16, v[1] as int % 16 * 16 + v[2] as int / 4])
    else
      match Pack(v[4..])
      case None => None
      case Some(rest) =>
        Some([v[0] as int * 4 + v[1] as int / 16, v[1] as int % 16 * 16 + v[2] as int / 4,
              v[2] as int % 4 * 64 + v[3] as int] + rest)
  }

  lemma BytesOfGroup(b0: Byte, b1: Byte, b2: Byte)
    ensures
      var v0, v1, v2, v3 := b0 / 4, b0 % 4 * 16 + b1 / 16, b1 % 16 * 4 + b2 / 64, b2 % 64;
      && v0 < 64 && v1 < 64 && v2 < 64 && v3 < 64
      && v0 * 4 + v1 / 16 == b0 && v1 % 16 * 16 + v2 / 4 == b1 && v2 % 4 * 64 + v3 == b2
  {}

  lemma GroupOfBytes(v0: Sextet, v1: Sextet, v2: Sextet, v3: Sextet)
    ensures
      var b0, b1, b2 := v0 as int * 4 + v1 / 16, v1 as int % 16 * 16 + v2 / 4, v2 as int % 4 * 64 + v3;
      && b0 < 256 && b1 < 256 && b2 < 256
      && b0 / 4 == v0 && b0 % 4 * 16 + b1 / 16 == v1 && b1 % 16 * 4 + b2 / 64 == v2 && b2 % 64 == v3
  {}

  lemma PackGroup(v: seq<Sextet>, b0: Byte, b1: Byte, b2: Byte, rest: seq<Byte>)
    requires |v| >= 4 && Pack(v[4..]) == Some(rest)
    requires v[0] as int * 4 + v[1] as int / 16 == b0 && v[1] as int % 16 * 16 + v[2] as int / 4 == b1
    requires v[2] as int % 4 * 64 + v[3] as int == b2
    ensures Pack(v) == Some([b0, b1, b2] + rest)
  {
  }

  lemma PackTriple(v: seq<Sextet>, b0: Byte, b1: Byte)
    requires |v| == 3 && v[2] % 4 == 0
    requires v[0] as int * 4 + v[1] as int / 16 == b0 && v[1] as int % 16 * 16 + v[2] as int / 4 == b1
    ensures Pack(v) == Some([b0, b1])
  {
  }

  lemma PackPair(v: seq<Sextet>, b0: Byte)
    requires |v| == 2 && v[1] % 16 == 0 && v[0] as int * 4 + v[1] as int / 16 == b0
    ensures Pack(v) == Some([b0])
  {
  }

  lemma {:induction false} PackOfUnpack(b: seq<Byte>)
    ensures Pack(Unpack(b)) == Some(b)
  {
    var v := Unpack(b);
    if |b| == 1 {
      BytesOfGroup(b[0], 0, 0);
      PackPair(v, b[0]);
      assert b == [b[0]];
    } else if |b| == 2 {
      BytesOfGroup(b[0], b[1], 0);
      PackTriple(v, b[0], b[1]);
      assert b == [b[0], b[1]];
    } else if |b| >= 3 {
      PackOfUnpack(b[3..]);
      BytesOfGroup(b[0], b[1], b[2]);
      assert v[4..] == Unpack(b[3..]);
      PackGroup(v, b[0], b[1], b[2], b[3..]);
      assert b == [b[0], b[1], b[2]] + b[3..];
    }
  }

  lemma ByteOfPair(v0: Sextet, v1: Sextet)
    requires v1 % 16 == 0
    ensures
      var b0 := v0 as int * 4 + v1 / 16;
      b0 < 256 && b0 / 4 == v0 && b0 % 4 * 16 == v1
  {}

  lemma BytesOfTriple(v0: Sextet, v1: Sextet, v2: Sextet)
    requires v2 % 4 == 0
    ensures
      var b0, b1 := v0 as int * 4 + v1 / 16, v1 as int % 16 * 16 + v2 / 4;
      b0 < 256 && b1 < 256 && b0 / 4 == v0 && b0 % 4 * 16 + b1 / 16 == v1 && b1 % 16 * 4 == v2
  {}

  lemma UnpackPair(v: seq<Sextet>)
    requires |v| == 2 && Pack(v).Some?
    ensures Unpack(Pack(v).value) == v
  {
    ByteOfPair(v[0], v[1]);
    var b := Pack(v).value;
    assert Unpack(b) == [b[0] / 4, b[0] % 4 * 16];
  }

  lemma UnpackTriple(v: seq<Sextet>)
    requires |v| == 3 && Pack(v).Some?
    ensures Unpack(Pack(v).value) == v
  {
    BytesOfTriple(v[0], v[1], v[2]);
    var b := Pack(v).value;
    assert Unpack(b) == [b[0] / 4, b[0] % 4 * 16 + b[1] / 16, b[1] % 16 * 4];
  }

  lemma {:induction false} UnpackOfPack(v: seq<Sextet>)
    requires Pack(v).Some?
    ensures Unpack(Pack(v).value) == v
  {
    if |v| == 2 {
      UnpackPair(v);
    } else if |v| == 3 {
      UnpackTriple(v);
    } else if |v| >= 4 {
      UnpackOfPack(v[4..]);
      GroupOfBytes(v[0], v[1], v[2], v[3]);
      assert Pack(v).value[3..] == Pack(v[4..]).value;
      assert v == [v[0], v[1], v[2], v[3]] + v[4..];
    }
  }

  // --- groups and characters -------------------------------------------------

  function ToChar(v: Sextet): char {
    if v < 26 then 'A' + v as char
    else if v < 52 then 'a' + (v - 26) as char
    else if v < 62 then '0' + (v - 52) as char
    else if v == 62 then '+'
    else '/'
  }

  predicate InAlphabet(c: char) {
    'A' <= c <= 'Z' || 'a' <= c <= 'z' || '0' <= c <= '9' || c == '+' || c == '/'
  }

  function FromChar(c: char): Sextet
    requires InAlphabet(c)
  {
    if 'A' <= c <= 'Z' then (c - 'A') as int
    else if 'a' <= c <= 'z' then (c - 'a') as int + 26
    else if '0' <= c <= '9' then (c - '0') as int + 52
    else if c == '+' then 62
    else 63
  }

  predicate AllInAlphabet(s: string) { forall i :: 0 <= i < |s| ==> InAlphabet(s[i]) }

  function Chars(v: seq<Sextet>): (s: string)
    ensures |s| == |v|
  {
    seq(|v|, i requires 0 <= i < |v| => ToChar(v[i]))
  }

  function Sextets(s: string): (v: seq<Sextet>)
    requires AllInAlphabet(s)
    ensures |v| == |s|
  {
    seq(|s|, i requires 0 <= i < |s| => FromChar(s[i]))
  }

  lemma ToCharInverse(v: Sextet)
    ensures InAlphabet(ToChar(v)) && FromChar(ToChar(v)) == v
  {
    var c := ToChar(v);
    if v < 26 {
      assert c - 'A' == v as char;
    } else if v < 52 {
      assert c - 'a' == (v - 26) as char;
    } else if v < 62 {
      assert c - '0' == (v - 52) as char;
    }
  }

  lemma SextetsOfChars(v: seq<Sextet>)
    ensures AllInAlphabet(Chars(v)) && Sextets(Chars(v)) == v
  {
    forall i | 0 <= i < |v| ensures InAlphabet(Chars(v)[i]) && FromChar(Chars(v)[i]) == v[i] {
      ToCharInverse(v[i]);
    }
  }

  lemma CharsOfSextets(s: string)
    requires AllInAlphabet(s)
    ensures Chars(Sextets(s)) == s
  {
    forall i | 0 <= i < |s| ensures ToChar(FromChar(s[i])) == s[i] {
      assert InAlphabet(s[i]);
    }
  }

  // --- text -------------------------------------------------------------------

  /** RawStdEncoding.EncodeToString. */
  function Encode(b: seq<Byte>): string { Chars(Unpack(b)) }

  predicate IsLineBreak(c: char) { c == '\r' || c == '\n' }

  function StripLineBreaks(s: string): string {
    if s == "" then ""
    else if IsLineBreak(s[0]) then StripLineBreaks(s[1..])
    else [s[0]] + StripLineBreaks(s[1..])
  }

  /** RawStdEncoding.Strict().DecodeString. */
  function Decode(s: string): Option<seq<Byte>> {
    var t := StripLineBreaks(s);
    if AllInAlphabet(t) then Pack(Sextets(t)) else None
  }

  lemma {:induction false} StripKeepsAlphabet(s: string)
    requires AllInAlphabet(s)
    ensures StripLineBreaks(s) == s
  {
    if s != "" {
      StripKeepsAlphabet(s[1..]);
      assert InAlphabet(s[0]);
    }
  }

  /** Reading is exactly the inverse of printing, up to line breaks: a text is read as b
      if and only if removing its line breaks leaves the printed form of b. */
  lemma DecodeExactly(s: string, b: seq<Byte>)
    ensures Decode(s) == Some(b) <==> StripLineBreaks(s) == Encode(b)
  {
    var t := StripLineBreaks(s);
    if Decode(s) == Some(b) {
      UnpackOfPack(Sextets(t));
      CharsOfSextets(t);
    }
    SextetsOfChars(Unpack(b));
    PackOfUnpack(b);
  }

  /** Printed text is in the alphabet: it holds no separator and no line break. */
  lemma EncodeInAlphabet(b: seq<Byte>)
    ensures AllInAlphabet(Encode(b))
  {
    SextetsOfChars(Unpack(b));
  }

  lemma DecodeOfEncode(b: seq<Byte>)
    ensures Decode(Encode(b)) == Some(b)
  {
    EncodeInAlphabet(b);
    StripKeepsAlphabet(Encode(b));
    DecodeExactly(Encode(b), b);
  }

  lemma Written(b: seq<Byte>, v: seq<Sextet>, s: string)
    requires Unpack(b) == v && |s| == |v| && forall i :: 0 <= i < |v| ==> ToChar(v[i]) == s[i]
    ensures Encode(b) == s
  {
    assert Chars(v) == s;
  }

  lemma GroupWritten(b: seq<Byte>, v: seq<Sextet>, s: string)
    requires |b| == 3 && |v| == 4 && |s| == 4
    requires v == [b[0] / 4, b[0] % 4 * 16 + b[1] / 16, b[1] % 16 * 4 + b[2] / 64, b[2] % 64]
    requires forall i :: 0 <= i < 4 ==> ToChar(v[i]) == s[i]
    ensures Unpack(b) == v && Encode(b) == s
  {
    assert b[3..] == [];
    Written(b, v, s);
  }

  lemma FooWritten()
    ensures Encode([102]) == "Zg" && Encode([102, 111]) == "Zm8" && Encode([102, 111, 111]) == "Zm9v"
    ensures Unpack([102, 111, 111]) == [25, 38, 61, 47]
  {
    Written([102], [25, 32], "Zg");
    Written([102, 111], [25, 38, 60], "Zm8");
    GroupWritten([102, 111, 111], [25, 38, 61, 47], "Zm9v");
  }

  lemma FoobarWritten()
    ensures Encode([102, 111, 111, 98, 97, 114]) == "Zm9vYmFy"
  {
    var foobar := [102, 111, 111, 98, 97, 114];
    GroupWritten([98, 97, 114], [24, 38, 5, 50], "YmFy");
    assert foobar[3..] == [98, 97, 114];
    assert Unpack(foobar) == [25, 38, 61, 47] + Unpack(foobar[3..]);
    Written(foobar, [25, 38, 61, 47, 24, 38, 5, 50], "Zm9vYmFy");
  }

  /** The examples of section 10 of RFC 4648 without their padding, for foobar and its beginnings, and
      one with the two characters that are no letters or digits. */
  lemma Examples()
    ensures Encode([102]) == "Zg" && Encode([102, 111]) == "Zm8" && Encode([102, 111, 111]) == "Zm9v"
    ensures Encode([102, 111, 111, 98, 97, 114]) == "Zm9vYmFy"
    ensures Encode([251, 255, 191]) == "+/+/"
  {
    FooWritten();
    FoobarWritten();
    GroupWritten([251, 255, 191], [62, 63, 62, 63], "+/+/");
  }
}
