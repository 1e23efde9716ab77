/** The stored columns, the live sums and the refusals, told by the fields of the readings on the logs. */
module IngestReadings {
  import opened Wrappers
  import Decimal
  import opened Wire
  import opened PitchTable
  import opened LiveCounters
  import opened Ingest
  import opened IngestSafety
  import opened IngestIdempotence
  import opened IngestTheorems
  import opened IngestProgress
  import opened IngestRetry

  predicate HasReading(s: State, row: Row) {
    && row.partition < |s.parts| && row.offset < |s.parts[row.partition].log|
    && s.parts[row.partition].log[row.offset].value.Parsed?
    && s.parts[row.partition].log[row.offset].value.env.data.Decoded?
  }

  /** The reading on the log that a row came from. */
  function ReadingOf(s: State, row: Row): RawPitch
    requires HasReading(s, row)
  {
    s.parts[row.partition].log[row.offset].value.env.data.raw
  }

  lemma FaithfulReads(s: State, row: Row)
    requires RowFaithful(s, row)
    ensures HasReading(s, row)
    ensures
      var raw := ReadingOf(s, row);
      && row.speed == raw.speed && row.spin == raw.spin && row.session == raw.sessionUid
      && (row.whiff <==> raw.outcome == "SWINGING_STRIKE")
      && raw.atBat >= 1 && raw.pitchNumber >= 1 && row.uid == PitchUid(raw)
  {
  }

  /** In every reachable table each column of a row is the field of its reading that belongs there,
      and the reading keeps the rules for readings. */
  lemma RowsAreReadings(cfg: Config, events: seq<Event>, i: nat)
    requires ValidConfig(cfg) && i < |Reach(cfg, events).table|
    ensures
      var s := Reach(cfg, events);
      var row := s.table[i];
      && HasReading(s, row)
      && s.parts[row.partition].log[row.offset].value.env.eventType == "pitchlab.pitch.raw"
      && var raw := ReadingOf(s, row);
         && row.speed == raw.speed && row.spin == raw.spin && row.session == raw.sessionUid
         && (row.whiff <==> raw.outcome == "SWINGING_STRIKE")
         && raw.atBat >= 1 && raw.pitchNumber >= 1 && row.uid == PitchUid(raw)
         && raw.gameRef != "" && raw.sessionUid != "" && raw.pitcher != 0 && raw.thrownAt != 0
         && 0 <= raw.balls <= 3 && 0 <= raw.strikes <= 2 && 0 <= raw.outs <= 2 && raw.inning >= 1
         && raw.pThrows in ["L", "R"] && raw.stand in ["", "L", "R"]
  {
    ReachInv(cfg, events);
    FaithfulReads(Reach(cfg, events), Reach(cfg, events).table[i]);
  }

  // --- the live sums -------------------------------------------------------

  function OrZero(reading: Option<real>): real { if reading.Some? then reading.value else 0.0 }

  /** What one pitch should add to a live field: from its reading, and for the scores from what
      inference answered. */
  function Share(raw: RawPitch, answer: Option<Answer>, f: Field): real {
    match f
    case PitchCount => 1.0
    case SumSpeed => OrZero(raw.speed)
    case CountSpeed => if raw.speed == None then 0.0 else 1.0
    case SumSpin => OrZero(raw.spin)
    case CountSpin => if raw.spin == None then 0.0 else 1.0
    case SumScore => if answer == None then 0.0 else answer.value.score
    case CountScore => if answer == None then 0.0 else 1.0
    case WhiffCount => if raw.outcome == "SWINGING_STRIKE" then 1.0 else 0.0
  }

  /** The shares of the readings behind the rows of one session. */
  function ReadingTotal(s: State, t: Table, session: string, f: Field): real
    requires forall i :: 0 <= i < |t| ==> HasReading(s, t[i])
  {
    if t == [] then 0.0
    else
      var row := t[|t| - 1];
      ReadingTotal(s, t[..|t| - 1], session, f)
      + if ReadingOf(s, row).sessionUid == session then Share(ReadingOf(s, row), row.answer, f) else 0.0
  }

  lemma {:induction false} TotalsAgree(s: State, t: Table, session: string, f: Field)
    requires forall i :: 0 <= i < |t| ==> RowFaithful(s, t[i])
    ensures forall i :: 0 <= i < |t| ==> HasReading(s, t[i])
    ensures Total(t, session, f) == ReadingTotal(s, t, session, f)
  {
    forall i | 0 <= i < |t| ensures HasReading(s, t[i]) {
      FaithfulReads(s, t[i]);
    }
    if t != [] {
      TotalsAgree(s, t[..|t| - 1], session, f);
      FaithfulReads(s, t[|t| - 1]);
    }
  }

  /** With nothing lost and nothing pending, each live field of a session is the sum of what the
      readings behind its rows say. */
  lemma LiveSumsReadings(cfg: Config, events: seq<Event>, session: string, f: Field)
    requires ValidConfig(cfg)
    requires session !in Reach(cfg, events).blemished
    requires forall p :: 0 <= p < |Reach(cfg, events).parts| && Reach(cfg, events).parts[p].stage.Stored?
               ==> Reach(cfg, events).parts[p].stage.row.session != session
    ensures forall r :: r in Reach(cfg, events).table ==> HasReading(Reach(cfg, events), r)
    ensures
      var s := Reach(cfg, events);
      Get(HashOf(s.live, session), f) == ReadingTotal(s, s.table, session, f)
  {
    ReachInv(cfg, events);
    LiveEqualsRows(cfg, events, session);
    TotalsAgree(Reach(cfg, events), Reach(cfg, events).table, session, f);
  }

  /** So the averages a client is shown are those of the readings that have a value; none without one. */
  lemma LiveAveragesReadings(cfg: Config, events: seq<Event>, session: string)
    requires ValidConfig(cfg)
    requires session !in Reach(cfg, events).blemished
    requires forall p :: 0 <= p < |Reach(cfg, events).parts| && Reach(cfg, events).parts[p].stage.Stored?
               ==> Reach(cfg, events).parts[p].stage.row.session != session
    ensures forall r :: r in Reach(cfg, events).table ==> HasReading(Reach(cfg, events), r)
    ensures
      var s := Reach(cfg, events);
      var h := HashOf(s.live, session);
      && Average(h, SumSpeed, CountSpeed)
         == Quotient(ReadingTotal(s, s.table, session, SumSpeed), ReadingTotal(s, s.table, session, CountSpeed))
      && Average(h, SumSpin, CountSpin)
         == Quotient(ReadingTotal(s, s.table, session, SumSpin), ReadingTotal(s, s.table, session, CountSpin))
      && Average(h, SumScore, CountScore)
         == Quotient(ReadingTotal(s, s.table, session, SumScore), ReadingTotal(s, s.table, session, CountScore))
  {
    var s := Reach(cfg, events);
    ReachInv(cfg, events);
    LiveEqualsRows(cfg, events, session);
    QuotientsAgree(s, s.table, session, SumSpeed, CountSpeed);
    QuotientsAgree(s, s.table, session, SumSpin, CountSpin);
    QuotientsAgree(s, s.table, session, SumScore, CountScore);
  }

  function Quotient(sum: real, count: real): Option<real> { if count <= 0.0 then None else Some(sum / count) }

  lemma QuotientsAgree(s: State, t: Table, session: string, sum: Field, count: Field)
    requires forall i :: 0 <= i < |t| ==> RowFaithful(s, t[i])
    ensures forall i :: 0 <= i < |t| ==> HasReading(s, t[i])
    ensures RowAverage(t, session, sum, count)
         == Quotient(ReadingTotal(s, t, session, sum), ReadingTotal(s, t, session, count))
  {
    TotalsAgree(s, t, session, sum);
    TotalsAgree(s, t, session, count);
  }

  /** A session whose key was lost starts again from nothing, and the others are not affected. */
  lemma LostKeyStartsAgain(cfg: Config, s: State, session: string, other: string, f: Field)
    ensures
      var t := Apply(cfg, s, LoseLive(session));
      && Get(HashOf(t.live, other), f) == (if other == session then 0.0 else Get(HashOf(s.live, other), f))
      && session in t.blemished && t.table == s.table && t.parts == s.parts
  {
  }

  // --- one reading ---------------------------------------------------------

  /** A reader is about to fetch a value. */
  predicate About(s: State, p: nat, v: Value) {
    && p < |s.parts| && s.parts[p].stage.Idle? && !s.parts[p].cancelled
    && s.parts[p].position < |s.parts[p].log| && s.parts[p].log[s.parts[p].position].value == v
  }

  /** A reading that keeps the rules, is new and finds its session free ends as one row of its fields,
      counted, announced and committed, however many passing failures short of all come before. */
  lemma SoundReadingDelivered(
    cfg: Config, s: State, p: nat, raw: RawPitch, trips: seq<Trip>, answer: Option<Answer>)
    requires About(s, p, Parsed(Envelope("pitchlab.pitch.raw", Decoded(raw))))
    requires raw.atBat >= 1 && raw.pitchNumber >= 1 && raw.gameRef != "" && raw.sessionUid != ""
    requires raw.pitcher != 0 && raw.thrownAt != 0
    requires 0 <= raw.balls <= 3 && 0 <= raw.strikes <= 2 && 0 <= raw.outs <= 2 && raw.inning >= 1
    requires raw.pThrows in ["L", "R"] && raw.stand in ["", "L", "R"]
    requires forall i :: 0 <= i < |s.table| ==> s.table[i].uid != PitchUid(raw)
    requires !HeldElsewhere(s, p, raw.sessionUid)
    requires |trips| < cfg.maxAttempts && forall i :: 0 <= i < |trips| ==> Passing(trips[i].failure)
    ensures
      var t := Run(cfg, s, FetchStep(p) + Rounds(p, trips) + DeliverySteps(p, answer));
      var row := Row(PitchUid(raw), raw.sessionUid, NextIndex(s.table, raw.sessionUid), p, s.parts[p].position,
                     raw.speed, raw.spin, raw.outcome == "SWINGING_STRIKE", answer);
      && t.table == s.table + [row] && t.recorded == s.recorded + [row] && t.published == s.published + [row]
      && t.letters == s.letters && t.unfiled == s.unfiled && t.blemished == s.blemished
      && |t.parts| == |s.parts|
      && t.parts[p].committed == t.parts[p].position == s.parts[p].position + 1 && t.parts[p].stage.Idle?
  {
    assert Ready(s, p);
    RetriedPitchDelivered(cfg, s, p, trips, answer);
  }

  /** Any other reading, or data that cannot be decoded, is refused once and for all by the handler,
      at the first attempt; nothing of it is stored. */
  lemma UnsoundReadingFiled(cfg: Config, s: State, p: nat, v: Value, filed: bool)
    requires v.Parsed? && About(s, p, v)
    requires
      v.env.eventType != "pitchlab.pitch.raw" || v.env.data.Undecodable? ||
      var raw := v.env.data.raw;
      || raw.atBat < 1 || raw.pitchNumber < 1 || raw.gameRef == "" || raw.sessionUid == ""
      || raw.pitcher == 0 || raw.thrownAt == 0 || !(0 <= raw.balls <= 3) || !(0 <= raw.strikes <= 2)
      || !(0 <= raw.outs <= 2) || raw.inning < 1 || raw.pThrows !in ["L", "R"] || raw.stand !in ["", "L", "R"]
    ensures Run(cfg, s, [Advance(p, Proceed, true), Advance(p, Proceed, true), Advance(p, Proceed, filed)])
         == GivenUp(s, p, BusinessRuleViolation, 1, cfg.dlq && filed)
  {
    var t, u := AtStage(s, p, Attempting(1)), AtStage(s, p, Failed(1, REFUSED));
    FetchSucceeds(cfg, s, p);
    Refused(cfg, t, p);
    Restaged(s, p, Attempting(1), Failed(1, REFUSED));
    RefusalFiled(cfg, u, p, filed);
    RunThree(cfg, s, t, u, Advance(p, Proceed, true), Advance(p, Proceed, true), Advance(p, Proceed, filed));
  }

  lemma Refused(cfg: Config, s: State, p: nat)
    requires p < |s.parts| && s.parts[p].stage == Attempting(1) && s.parts[p].position < |s.parts[p].log|
    requires Current(s.parts[p]).value.Parsed? && !Storable(Current(s.parts[p]).value)
    ensures Next(cfg, s, p) == AtStage(s, p, Failed(1, REFUSED))
  {
  }

  lemma RefusalFiled(cfg: Config, s: State, p: nat, filed: bool)
    requires p < |s.parts| && s.parts[p].stage == Failed(1, REFUSED) && s.parts[p].position < |s.parts[p].log|
    ensures Apply(cfg, s, Advance(p, Proceed, filed)) == GivenUp(s, p, BusinessRuleViolation, 1, cfg.dlq && filed)
  {
  }

  /** Bytes that do not parse never reach the handler. */
  lemma UnreadableFiled(cfg: Config, s: State, p: nat, v: Value, filed: bool)
    requires v.Malformed? && About(s, p, v)
    ensures Run(cfg, s, [Advance(p, Proceed, true), Advance(p, Proceed, filed)])
         == GivenUp(s, p, v.parseClass, 1, cfg.dlq && filed)
  {
    FetchSucceeds(cfg, s, p);
    RunTwo(cfg, s, AtStage(s, p, Attempting(1)), Advance(p, Proceed, true), Advance(p, Proceed, filed));
  }

  lemma KnownPitchIndexed(cfg: Config, s: State, p: nat, a: nat, answer: Option<Answer>)
    requires p < |s.parts| && s.parts[p].stage == Attempting(a) && s.parts[p].position < |s.parts[p].log|
    requires Storable(Current(s.parts[p]).value) && !HeldElsewhere(s, p, PitchAt(s, p).sessionUid)
    ensures NextWith(cfg, s, p, answer)
         == AtStage(s, p, Indexed(a, NextIndex(s.table, PitchAt(s, p).sessionUid), answer))
  {
  }

  lemma KnownPitchSkipped(cfg: Config, s: State, p: nat)
    requires p < |s.parts| && s.parts[p].stage.Indexed? && s.parts[p].position < |s.parts[p].log|
    requires InTable(s.table, Current(s.parts[p]).value)
    ensures Next(cfg, s, p) == AtStage(s, p, Finished)
  {
  }

  /** An attempt at a pitch that is in the table already finishes it. */
  lemma KnownPitchRetried(cfg: Config, s: State, p: nat, a: nat, answer: Option<Answer>)
    requires p < |s.parts| && s.parts[p].position < |s.parts[p].log| && InTable(s.table, Current(s.parts[p]).value)
    requires !HeldElsewhere(s, p, PitchAt(s, p).sessionUid)
    ensures Run(cfg, AtStage(s, p, Attempting(a)), StoringSteps(p, answer)) == AtStage(s, p, Finished)
  {
    var t := AtStage(s, p, Attempting(a));
    var indexed := Indexed(a, NextIndex(s.table, PitchAt(s, p).sessionUid), answer);
    var u := AtStage(s, p, indexed);
    assert !HeldElsewhere(t, p, PitchAt(t, p).sessionUid);
    KnownPitchIndexed(cfg, t, p, a, answer);
    Restaged(s, p, Attempting(a), indexed);
    KnownPitchSkipped(cfg, u, p);
    Restaged(s, p, indexed, Finished);
    RunTwo(cfg, t, u, Advance(p, Answers(answer), true), Advance(p, Proceed, true));
  }

  lemma CommittedInOne(cfg: Config, s: State, p: nat)
    requires p < |s.parts| && s.parts[p].stage.Finished? && !s.parts[p].cancelled
    requires s.parts[p].position < |s.parts[p].log|
    ensures Run(cfg, s, [Advance(p, Proceed, true)]) == Past(s, p)
  {
    CommitSucceeds(cfg, s, p);
    RunOne(cfg, s, Advance(p, Proceed, true));
  }

  lemma PastIs(s: State, p: nat)
    requires p < |s.parts| && !s.parts[p].cancelled
    ensures
      var part := s.parts[p];
      Past(AtStage(s, p, Finished), p)
      == s.(parts := s.parts[p := Partition(part.log, part.position + 1, part.position + 1, Idle, false)])
  {
  }

  /** A pitch that is in the table already is passed over: no row, no count, no announcement and no
      letter, and the offset behind it is committed. */
  lemma KnownPitchPassedOver(cfg: Config, s: State, p: nat, v: Value, answer: Option<Answer>)
    requires About(s, p, v) && InTable(s.table, v) && !HeldElsewhere(s, p, PitchOf(v).sessionUid)
    ensures
      var part := s.parts[p];
      Run(cfg, s, FetchStep(p) + (StoringSteps(p, answer) + [Advance(p, Proceed, true)]))
      == s.(parts := s.parts[p := Partition(part.log, part.position + 1, part.position + 1, Idle, false)])
  {
    FetchedInOne(cfg, s, p);
    PassedOver(cfg, s, p, 1, answer);
    PastIs(s, p);
    RunConcat(cfg, s, FetchStep(p), StoringSteps(p, answer) + [Advance(p, Proceed, true)]);
  }

  // --- what may fail afterwards --------------------------------------------

  lemma CacheFails(cfg: Config, s: State, p: nat, a: nat, row: Row, choice: Choice) returns (t: State)
    requires p < |s.parts| && s.parts[p].stage == Stored(a, row) && s.parts[p].position < |s.parts[p].log|
    requires (choice.Fails? && !choice.failure.duplicate) || choice.Partial?
    ensures t == Apply(cfg, s, Advance(p, choice, true))
    ensures t.parts == s.parts[p := s.parts[p].(stage := Counted(a, row))]
    ensures t.table == s.table && t.letters == s.letters && t.unfiled == s.unfiled && t.published == s.published
    ensures t.recorded == s.recorded + [row]
    ensures t.blemished
         == if choice.Fails? || choice.executed < |Commands(row)| then s.blemished + {row.session} else s.blemished
  {
    t := Apply(cfg, s, Advance(p, choice, true));
    assert |Commands(row)| > 0;
  }

  lemma CountedFinishes(cfg: Config, s: State, p: nat, a: nat, row: Row)
    requires p < |s.parts| && s.parts[p].stage == Counted(a, row) && !s.parts[p].cancelled
    requires s.parts[p].position < |s.parts[p].log|
    ensures
      var t := Next(cfg, Next(cfg, s, p), p);
      && t.parts == Past(s, p).parts && t.published == s.published + [row] && t.table == s.table
      && t.letters == s.letters && t.unfiled == s.unfiled && t.recorded == s.recorded && t.blemished == s.blemished
  {
    PublishSucceeds(cfg, s, p, a, row);
    CommitSucceeds(cfg, AtStage(s, p, Finished).(published := s.published + [row]), p);
  }

  /** A cache update that fails, or is cut short, fails nothing else: the row is announced and committed all
      the same, and all that is noted is that the counters of its session are short. */
  lemma CacheFailureIsHarmless(cfg: Config, s: State, p: nat, a: nat, row: Row, choice: Choice)
    requires p < |s.parts| && s.parts[p].stage == Stored(a, row) && !s.parts[p].cancelled
    requires s.parts[p].position < |s.parts[p].log|
    requires (choice.Fails? && !choice.failure.duplicate) || choice.Partial?
    ensures
      var t := Next(cfg, Next(cfg, Apply(cfg, s, Advance(p, choice, true)), p), p);
      var part, next := s.parts[p], s.parts[p].position + 1;
      && t.parts == s.parts[p := Partition(part.log, next, next, Idle, false)]
      && t.table == s.table && t.letters == s.letters && t.unfiled == s.unfiled
      && t.recorded == s.recorded + [row] && t.published == s.published + [row]
      && t.blemished
         == if choice.Fails? || choice.executed < |Commands(row)| then s.blemished + {row.session} else s.blemished
  {
    var t := CacheFails(cfg, s, p, a, row, choice);
    CountedFinishes(cfg, t, p, a, row);
  }

  lemma AnnouncementFails(cfg: Config, s: State, p: nat, a: nat, row: Row, f: Failure)
    requires p < |s.parts| && s.parts[p].stage == Counted(a, row) && s.parts[p].position < |s.parts[p].log|
    requires !f.duplicate
    ensures Apply(cfg, s, Advance(p, Fails(f), true)) == AtStage(s, p, Failed(a, f))
  {
  }

  lemma AnnouncementRetried(cfg: Config, s: State, p: nat, a: nat, row: Row, f: Failure)
    requires p < |s.parts| && s.parts[p].stage == Counted(a, row) && !s.parts[p].cancelled
    requires s.parts[p].position < |s.parts[p].log| && Passing(f) && a < cfg.maxAttempts
    ensures Run(cfg, s, [Advance(p, Fails(f), true)] + BackOff(p)) == AtStage(s, p, Attempting(a + 1))
  {
    AnnouncementFails(cfg, s, p, a, row, f);
    RunOne(cfg, s, Advance(p, Fails(f), true));
    BacksOff(cfg, s, p, a, f);
    RunConcat(cfg, s, [Advance(p, Fails(f), true)], BackOff(p));
  }

  lemma PassedOver(cfg: Config, s: State, p: nat, a: nat, answer: Option<Answer>)
    requires p < |s.parts| && s.parts[p].position < |s.parts[p].log| && InTable(s.table, Current(s.parts[p]).value)
    requires !HeldElsewhere(s, p, PitchAt(s, p).sessionUid) && !s.parts[p].cancelled
    ensures Run(cfg, AtStage(s, p, Attempting(a)), StoringSteps(p, answer) + [Advance(p, Proceed, true)])
         == Past(AtStage(s, p, Finished), p)
  {
    KnownPitchRetried(cfg, s, p, a, answer);
    CommittedInOne(cfg, AtStage(s, p, Finished), p);
    RunConcat(cfg, AtStage(s, p, Attempting(a)), StoringSteps(p, answer), [Advance(p, Proceed, true)]);
  }

  /** An announcement that fails is retried with the whole handler, which finds the pitch stored and passes
      it over: the offset is committed without an announcement, and nothing else changes. */
  lemma FailedAnnouncementIsPassedOver(
    cfg: Config, s: State, p: nat, a: nat, row: Row, f: Failure, answer: Option<Answer>)
    requires p < |s.parts| && s.parts[p].stage == Counted(a, row) && !s.parts[p].cancelled
    requires s.parts[p].position < |s.parts[p].log| && InTable(s.table, Current(s.parts[p]).value)
    requires !HeldElsewhere(s, p, PitchAt(s, p).sessionUid) && Passing(f) && a < cfg.maxAttempts
    ensures
      var part := s.parts[p];
      Run(cfg, s, [Advance(p, Fails(f), true)] + BackOff(p) + (StoringSteps(p, answer) + [Advance(p, Proceed, true)]))
      == s.(parts := s.parts[p := Partition(part.log, part.position + 1, part.position + 1, Idle, false)])
  {
    AnnouncementRetried(cfg, s, p, a, row, f);
    PassedOver(cfg, s, p, a + 1, answer);
    PastIs(s, p);
    RunConcat(cfg, s, [Advance(p, Fails(f), true)] + BackOff(p), StoringSteps(p, answer) + [Advance(p, Proceed, true)]);
  }

  // --- the way back --------------------------------------------------------

  /** After a message was given up, its letter written and its offset committed. */
  function LetGo(s: State, p: nat, errorClass: ErrorClass, attempts: nat): State
    requires p < |s.parts| && s.parts[p].position < |s.parts[p].log|
  {
    Past(GivenUp(s, p, errorClass, attempts, true), p)
  }

  /** The same with the message at the end of its partition once more, its replay counted. */
  function SentBack(s: State, p: nat, errorClass: ErrorClass, attempts: nat): State
    requires p < |s.parts| && s.parts[p].position < |s.parts[p].log|
  {
    var rec := s.parts[p].log[s.parts[p].position];
    var count := ReplayCount(rec.headers) + 1;
    var again := Record(rec.key, rec.value,
                        [Header("replayed_from_dlq", "true"), Header("replay_count", Decimal.Print(count))]);
    var t := LetGo(s, p, errorClass, attempts);
    t.(parts := t.parts[p := t.parts[p].(log := t.parts[p].log + [again])])
  }

  lemma ReplaySendsBack(cfg: Config, s: State, p: nat, errorClass: ErrorClass, attempts: nat)
    requires p < |s.parts| && s.parts[p].position < |s.parts[p].log|
    requires
      var rec := s.parts[p].log[s.parts[p].position];
      cfg.route(rec.key) == p && (cfg.maxReplays > 0 ==> ReplayCount(rec.headers) < cfg.maxReplays)
    ensures Apply(cfg, LetGo(s, p, errorClass, attempts), Replay(|s.letters|)) == SentBack(s, p, errorClass, attempts)
  {
  }

  lemma SentBackIsReady(s: State, p: nat, errorClass: ErrorClass, attempts: nat)
    requires Ready(s, p) && s.parts[p].position + 1 == |s.parts[p].log|
    ensures
      var t := SentBack(s, p, errorClass, attempts);
      Ready(t, p) && PitchAt(t, p) == PitchAt(s, p)
  {
  }

  /** What a message does after it was given up: its offset is committed, it is replayed from its letter,
      fetched again, and delivered. */
  function WayBack(s: State, p: nat, answer: Option<Answer>): seq<Event> {
    [Advance(p, Proceed, true), Replay(|s.letters|)] + (FetchStep(p) + DeliverySteps(p, answer))
  }

  /** A pitch given up is not lost: replayed once its cause is gone, it is stored from its new offset
      as it would have been, under the same key, with one replay more on its count. */
  lemma GivenUpPitchComesBack(
    cfg: Config, s: State, p: nat, trips: seq<Trip>, last: Trip, answer: Option<Answer>)
    requires Ready(s, p) && |trips| + 1 == cfg.maxAttempts && Passing(last.failure) && cfg.dlq
    requires forall i :: 0 <= i < |trips| ==> Passing(trips[i].failure)
    requires s.parts[p].position + 1 == |s.parts[p].log|
    requires
      var rec := s.parts[p].log[s.parts[p].position];
      cfg.route(rec.key) == p && (cfg.maxReplays > 0 ==> ReplayCount(rec.headers) < cfg.maxReplays)
    ensures
      var t := SentBack(s, p, RetryExhausted, cfg.maxAttempts);
      var raw := PitchAt(s, p);
      Run(cfg, s, LastSteps(p, trips, last, true) + WayBack(s, p, answer))
      == Delivered(t, p, RowOf(raw, answer, NextIndex(s.table, raw.sessionUid), p, |s.parts[p].log|))
  {
    ExhaustedPitchFiled(cfg, s, p, trips, last, true);
    RunConcat(cfg, s, LastSteps(p, trips, last, true), WayBack(s, p, answer));
    ComesBack(cfg, s, p, RetryExhausted, cfg.maxAttempts, answer);
    SentBackRow(s, p, RetryExhausted, cfg.maxAttempts, answer);
  }

  lemma SentBackRow(s: State, p: nat, errorClass: ErrorClass, attempts: nat, answer: Option<Answer>)
    requires Ready(s, p) && s.parts[p].position + 1 == |s.parts[p].log|
    ensures
      var t := SentBack(s, p, errorClass, attempts);
      && HasNew(t, p)
      && NewRow(t, p, answer)
         == RowOf(PitchAt(s, p), answer, NextIndex(s.table, PitchAt(s, p).sessionUid), p, |s.parts[p].log|)
  {
    SentBackIsReady(s, p, errorClass, attempts);
  }

  lemma ComesBack(cfg: Config, s: State, p: nat, errorClass: ErrorClass, attempts: nat, answer: Option<Answer>)
    requires Ready(s, p) && s.parts[p].position + 1 == |s.parts[p].log|
    requires
      var rec := s.parts[p].log[s.parts[p].position];
      cfg.route(rec.key) == p && (cfg.maxReplays > 0 ==> ReplayCount(rec.headers) < cfg.maxReplays)
    ensures
      var t := SentBack(s, p, errorClass, attempts);
      Run(cfg, GivenUp(s, p, errorClass, attempts, true), WayBack(s, p, answer))
      == Delivered(t, p, NewRow(t, p, answer))
  {
    var g, t := GivenUp(s, p, errorClass, attempts, true), SentBack(s, p, errorClass, attempts);
    CommitSucceeds(cfg, g, p);
    ReplaySendsBack(cfg, s, p, errorClass, attempts);
    RunTwo(cfg, g, LetGo(s, p, errorClass, attempts), Advance(p, Proceed, true), Replay(|s.letters|));
    SentBackIsReady(s, p, errorClass, attempts);
    NewPitchDelivered(cfg, t, p, answer);
    RunConcat(cfg, g, [Advance(p, Proceed, true), Replay(|s.letters|)], FetchStep(p) + DeliverySteps(p, answer));
  }
}
