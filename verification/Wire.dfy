/** What travels on the topics: envelopes, device readings, dead letters, headers, and how
    a failure is classified. JSON is taken to be lossless, so a value is its own encoding. */
module Wire {
  import opened Wrappers
  import Decimal

  const TYPE_PITCH_RAW := "pitchlab.pitch.raw"
  const REPLAY_COUNT_HEADER := "replay_count"
  const REPLAYED_HEADER := "replayed_from_dlq"

  datatype Header = Header(key: string, value: string)

  /** One device reading, as far as the pipeline looks at it. A zero thrownAt is an absent time. */
  datatype RawPitch = RawPitch(
    gameRef: string, atBat: int, pitchNumber: int,
    sessionUid: string, pitcher: int, thrownAt: int,
    balls: int, strikes: int, outs: int, inning: int,
    pThrows: string, stand: string,
    speed: Option<real>, spin: Option<real>, outcome: string)

  datatype Payload = Undecodable | Decoded(raw: RawPitch)

  datatype Envelope = Envelope(eventType: string, data: Payload)

  datatype ErrorClass =
    | Deserialization | SchemaValidation | UnknownSchemaVersion
    | PersistencePermanent | BusinessRuleViolation | RetryExhausted | Unknown

  /** The classes parseErrorClass gives. */
  type ParseClass = c: ErrorClass | c.Deserialization? || c.SchemaValidation? || c.UnknownSchemaVersion?
    witness Deserialization

  /** The bytes of a message: either an envelope, or bytes events.Parse refuses, with their class. */
  datatype Value =
    | Malformed(bytes: string, parseClass: ParseClass)
    | Parsed(env: Envelope)

  datatype Record = Record(key: string, value: Value, headers: seq<Header>)

  datatype Letter = Letter(
    replayCount: nat, payload: Value, partition: nat, offset: nat, key: string,
    errorClass: ErrorClass, attempts: nat)

  // --- replay counts -------------------------------------------------------

  /** The first replay_count header; absent, unreadable or negative counts as zero. */
  function ReplayCount(headers: seq<Header>): (n: nat) {
    if |headers| == 0 then 0
    else if headers[0].key != REPLAY_COUNT_HEADER then ReplayCount(headers[1..])
    else match Decimal.Atoi(headers[0].value)
      case None => 0
      case Some(n) => if n < 0 then 0 else n
  }

  /** The headers publishRaw puts on a replayed message. */
  function ReplayHeaders(count: nat): seq<Header> {
    [Header(REPLAYED_HEADER, "true"), Header(REPLAY_COUNT_HEADER, Decimal.Print(count))]
  }

  /** The replay tool's count survives the trip through the headers. */
  lemma ReplayCountRoundTrip(count: nat)
    ensures ReplayCount(ReplayHeaders(count)) == count
  {
    Decimal.AtoiOfPrint(count);
    var h := ReplayHeaders(count);
    assert h[1..] == [h[1]];
  }

  /** Any other header is passed over; the first count decides, and one that cannot be read, or is
      negative, makes the message a new one. */
  lemma FirstCountDecides(h: Header, rest: seq<Header>)
    ensures h.key != "replay_count" ==> ReplayCount([h] + rest) == ReplayCount(rest)
    ensures h.key == "replay_count" ==>
      match Decimal.Atoi(h.value)
      case None => ReplayCount([h] + rest) == 0
      case Some(n) => ReplayCount([h] + rest) == if n >= 0 then n else 0
    ensures ReplayCount([]) == 0
  {
    assert ([h] + rest)[1..] == rest;
  }

  // --- natural keys --------------------------------------------------------

  function PitchUid(raw: RawPitch): string
    requires raw.atBat >= 0 && raw.pitchNumber >= 0
  {
    raw.gameRef + ":" + Decimal.Print(raw.atBat) + ":" + Decimal.Print(raw.pitchNumber)
  }

  lemma LastSeparator(a: string, x: string, b: string, y: string)
    requires a + ":" + x == b + ":" + y
    requires ':' !in x && ':' !in y
    ensures a == b && x == y
  {
    var s := a + ":" + x;
    assert s[|a|] == ':' && s[|b|] == ':';
    assert forall i :: |a| < i < |s| ==> s[i] in x;
    assert forall i :: |b| < i < |s| ==> s[i] in y;
    assert a == s[..|a|] && b == s[..|b|];
    assert x == s[|a| + 1..] && y == s[|b| + 1..];
  }

  lemma DigitsHoldNoColon(n: nat)
    ensures ':' !in Decimal.Print(n)
  {
    assert forall c :: c in Decimal.Print(n) ==> Decimal.IsDigit(c);
  }

  /** Game, at-bat and pitch number are what the natural key stands for, even when the game
      reference itself holds colons. */
  lemma PitchUidInjective(a: RawPitch, b: RawPitch)
    requires a.atBat >= 0 && a.pitchNumber >= 0 && b.atBat >= 0 && b.pitchNumber >= 0
    requires PitchUid(a) == PitchUid(b)
    ensures a.gameRef == b.gameRef && a.atBat == b.atBat && a.pitchNumber == b.pitchNumber
  {
    DigitsHoldNoColon(a.atBat);
    DigitsHoldNoColon(b.atBat);
    DigitsHoldNoColon(a.pitchNumber);
    DigitsHoldNoColon(b.pitchNumber);
    LastSeparator(a.gameRef + ":" + Decimal.Print(a.atBat), Decimal.Print(a.pitchNumber),
                  b.gameRef + ":" + Decimal.Print(b.atBat), Decimal.Print(b.pitchNumber));
    LastSeparator(a.gameRef, Decimal.Print(a.atBat), b.gameRef, Decimal.Print(b.atBat));
    Decimal.PrintInjective(a.atBat, b.atBat);
    Decimal.PrintInjective(a.pitchNumber, b.pitchNumber);
  }

  // --- validation ----------------------------------------------------------

  /** validateRaw. */
  predicate ValidRaw(raw: RawPitch) {
    && raw.gameRef != "" && raw.atBat >= 1 && raw.pitchNumber >= 1
    && raw.sessionUid != "" && raw.pitcher != 0 && raw.thrownAt != 0
    && 0 <= raw.balls <= 3 && 0 <= raw.strikes <= 2 && 0 <= raw.outs <= 2 && raw.inning >= 1
    && (raw.pThrows == "L" || raw.pThrows == "R")
    && (raw.stand == "" || raw.stand == "L" || raw.stand == "R")
  }

  /** A value the handler gets as far as storing; every other value fails for ever. */
  predicate Storable(v: Value) {
    && v.Parsed?
    && v.env.eventType == TYPE_PITCH_RAW
    && v.env.data.Decoded?
    && ValidRaw(v.env.data.raw)
  }

  function PitchOf(v: Value): (raw: RawPitch)
    requires Storable(v)
    ensures ValidRaw(raw)
  {
    v.env.data.raw
  }

  // --- failures ------------------------------------------------------------

  /** What Classify and errorClass can tell about an error. */
  datatype Failure = Failure(
    duplicate: bool, permanent: bool, cancelled: bool, network: bool, constraint: bool,
    schema: bool, version: bool)

  /** What Permanent(...) wraps around a reading the handler refuses. */
  const REFUSED := Failure(false, true, false, false, false, false, false)

  datatype Class = Transient | Permanent | Duplicate

  function Classify(f: Failure): Class {
    if f.duplicate then Duplicate
    else if f.permanent then Permanent
    else if f.cancelled then Transient
    else if f.network then Transient
    else if f.constraint then Permanent
    else Transient
  }

  /** Whatever Classify sends to the dead letters has a name other than UNKNOWN there. */
  function ClassOf(f: Failure): (c: ErrorClass)
    ensures Classify(f) == Permanent ==> c != Unknown
  {
    if f.schema then SchemaValidation
    else if f.version then UnknownSchemaVersion
    else if f.constraint then PersistencePermanent
    else if f.permanent then BusinessRuleViolation
    else Unknown
  }
}
