/** Progress of the ingest machine: a message cannot hold its partition for ever, and a healthy
    system stores and announces it. */
module IngestProgress {
  import opened Wrappers
  import opened Wire
  import opened PitchTable
  import opened LiveCounters
  import opened Ingest
  import opened IngestSafety
  import opened IngestIdempotence
  import opened IngestTheorems

  /** An upper bound on the operations a reader still needs for its current message. */
  function StepsLeft(cfg: Config, stage: Stage): int {
    match stage
    case Idle => 0
    case Attempting(a) => 6 * (cfg.maxAttempts - a) + 7
    case Indexed(a, _, _) => 6 * (cfg.maxAttempts - a) + 6
    case Stored(a, _) => 6 * (cfg.maxAttempts - a) + 5
    case Counted(a, _) => 6 * (cfg.maxAttempts - a) + 4
    case Failed(a, _) => 6 * (cfg.maxAttempts - a) + 3
    case Waiting(a) => 6 * (cfg.maxAttempts - a) + 2
    case Finished => 1
    case Abandoned => 1
  }

  lemma AttemptGetsCloser(
    cfg: Config, table: Table, p: nat, part: Partition, attempt: nat, choice: Choice, filed: bool)
    requires PartitionPlaced(cfg, part) && part.stage == Attempting(attempt)
    ensures 0 <= StepsLeft(cfg, Attempt(cfg, table, p, part, attempt, choice, filed).part.stage)
                 < StepsLeft(cfg, part.stage)
  {
  }

  lemma InsertGetsCloser(
    cfg: Config, table: Table, p: nat, part: Partition,
    attempt: nat, index: int, answer: Option<Answer>, choice: Choice)
    requires PartitionPlaced(cfg, part) && part.stage == Indexed(attempt, index, answer)
    ensures 0 <= StepsLeft(cfg, Insert(table, p, part, attempt, index, answer, choice).part.stage)
                 < StepsLeft(cfg, part.stage)
  {
  }

  lemma FailureGetsCloser(cfg: Config, p: nat, part: Partition, attempt: nat, f: Failure, filed: bool)
    requires PartitionPlaced(cfg, part) && part.stage == Failed(attempt, f)
    ensures 0 <= StepsLeft(cfg, OnFailure(cfg, p, part, attempt, f, filed).part.stage)
                 < StepsLeft(cfg, part.stage)
  {
  }

  lemma StepGetsCloser(cfg: Config, table: Table, p: nat, part: Partition, choice: Choice, filed: bool)
    requires PartitionPlaced(cfg, part) && !part.stage.Idle?
    ensures 0 <= StepsLeft(cfg, ReaderStep(cfg, table, p, part, choice, filed).part.stage)
                 < StepsLeft(cfg, part.stage)
  {
    match part.stage
    case Attempting(attempt) => AttemptGetsCloser(cfg, table, p, part, attempt, choice, filed);
    case Indexed(attempt, index, answer) => InsertGetsCloser(cfg, table, p, part, attempt, index, answer, choice);
    case Failed(attempt, f) => FailureGetsCloser(cfg, p, part, attempt, f, filed);
    case _ =>
  }

  /** An operation of this reader that comes about: it is not waiting for its session's lock. */
  predicate OwnStep(s: State, p: nat, e: Event) {
    e.Advance? && e.partition == p && Plausible(e.choice) && !Waits(s, p, e.choice)
  }

  function OwnSteps(cfg: Config, s: State, p: nat, events: seq<Event>): nat {
    if events == [] then 0
    else
      var before, e := events[..|events| - 1], events[|events| - 1];
      OwnSteps(cfg, s, p, before) + if OwnStep(Run(cfg, s, before), p, e) then 1 else 0
  }

  predicate BusyAt(s: State, p: nat) { p < |s.parts| && !s.parts[p].stage.Idle? }

  /** The reader stays on one message all through a stretch of a run. */
  predicate BusyThroughout(cfg: Config, s: State, p: nat, events: seq<Event>) {
    BusyAt(Run(cfg, s, events), p) && (events != [] ==> BusyThroughout(cfg, s, p, events[..|events| - 1]))
  }

  /** A reader's own operation brings it closer to the end of its message, and nothing that
      others do moves it. */
  lemma EventGetsCloser(cfg: Config, s: State, p: nat, e: Event)
    requires ValidConfig(cfg) && Inv(cfg, s) && BusyAt(s, p) && BusyAt(Apply(cfg, s, e), p)
    ensures StepsLeft(cfg, Apply(cfg, s, e).parts[p].stage) + (if OwnStep(s, p, e) then 1 else 0)
         <= StepsLeft(cfg, s.parts[p].stage)
  {
    if OwnStep(s, p, e) {
      StepGetsCloser(cfg, s.table, p, s.parts[p], e.choice, e.filed);
    }
  }

  lemma BusyHasSteps(cfg: Config, s: State, p: nat)
    requires Inv(cfg, s) && BusyAt(s, p)
    ensures 1 <= StepsLeft(cfg, s.parts[p].stage) <= 6 * cfg.maxAttempts + 1
  {
    assert PartitionPlaced(cfg, s.parts[p]);
  }

  /** Retries are bounded: whatever fails, and whatever else goes on, a reader that is still on
      one message has done at most 6 * maxAttempts operations on it, so the next one or an
      earlier one frees it. Fewer are left when it is already under way. */
  lemma {:induction false} MessageEnds(cfg: Config, s: State, p: nat, events: seq<Event>)
    requires ValidConfig(cfg) && Inv(cfg, s) && BusyAt(s, p)
    requires BusyThroughout(cfg, s, p, events)
    ensures BusyAt(Run(cfg, s, events), p)
    ensures OwnSteps(cfg, s, p, events) + StepsLeft(cfg, Run(cfg, s, events).parts[p].stage)
         <= StepsLeft(cfg, s.parts[p].stage) <= 6 * cfg.maxAttempts + 1
    ensures StepsLeft(cfg, Run(cfg, s, events).parts[p].stage) >= 1
    ensures OwnSteps(cfg, s, p, events) <= 6 * cfg.maxAttempts
  {
    BusyHasSteps(cfg, s, p);
    if events != [] {
      var before, e := events[..|events| - 1], events[|events| - 1];
      MessageEnds(cfg, s, p, before);
      RunKeepsInv(cfg, s, before);
      EventGetsCloser(cfg, Run(cfg, s, before), p, e);
      ApplyKeepsInv(cfg, Run(cfg, s, before), e);
      BusyHasSteps(cfg, Run(cfg, s, events), p);
    }
  }

  /** Waiting for a session's lock ends: the reader that holds it is not waiting itself, nobody else
      holds it, and its next operation, or its crash, gives it back. */
  lemma LockIsFreed(cfg: Config, s: State, p: nat, q: nat, e: Event)
    requires Inv(cfg, s) && Blocked(s, p) && q < |s.parts| && q != p
    requires Holds(s.parts[q], PitchOf(Current(s.parts[p]).value).sessionUid)
    requires e == Restart(q) || (e.Advance? && e.partition == q && Plausible(e.choice))
    ensures !Blocked(s, q) && !Blocked(Apply(cfg, s, e), p)
  {
    if e.Advance? {
      InsertLetsGo(s.table, q, s.parts[q], e.choice);
    }
    OnlyHolder(cfg, s, p, q, PitchOf(Current(s.parts[p]).value).sessionUid, Apply(cfg, s, e));
  }

  lemma InsertLetsGo(table: Table, q: nat, part: Partition, choice: Choice)
    requires part.stage.Indexed? && part.position < |part.log| && Storable(Current(part).value)
    ensures !Insert(table, q, part, part.stage.attempt, part.stage.index, part.stage.answer, choice).part.stage.Indexed?
  {
  }

  /** When the one holder has moved on, nobody holds the session but perhaps this reader. */
  lemma OnlyHolder(cfg: Config, s: State, p: nat, q: nat, session: string, t: State)
    requires Exclusive(s) && p < |s.parts| && q < |s.parts| && q != p && Holds(s.parts[q], session)
    requires |t.parts| == |s.parts| && t.parts == s.parts[q := t.parts[q]] && !t.parts[q].stage.Indexed?
    ensures !HeldElsewhere(t, p, session)
  {
    forall o | 0 <= o < |t.parts| && o != p ensures !Holds(t.parts[o], session) {
      assert o != q && Holds(t.parts[o], session) ==> HeldElsewhere(s, q, session);
    }
  }

  // --- a healthy system ----------------------------------------------------

  /** The next operation of a reader, succeeding. */
  function Next(cfg: Config, s: State, p: nat): State { Apply(cfg, s, Advance(p, Proceed, true)) }

  /** The same where inference is asked. */
  function NextWith(cfg: Config, s: State, p: nat, answer: Option<Answer>): State {
    Apply(cfg, s, Advance(p, Answers(answer), true))
  }

  function AtStage(s: State, p: nat, stage: Stage): State
    requires p < |s.parts|
  {
    s.(parts := s.parts[p := s.parts[p].(stage := stage)])
  }

  /** A reader is about to fetch a new pitch of a session that no open transaction holds. */
  predicate Ready(s: State, p: nat) {
    && p < |s.parts| && s.parts[p].stage.Idle? && !s.parts[p].cancelled && HasNew(s, p)
    && !HeldElsewhere(s, p, PitchAt(s, p).sessionUid)
  }

  predicate HasNew(s: State, p: nat) {
    && p < |s.parts| && s.parts[p].position < |s.parts[p].log| && Storable(Current(s.parts[p]).value)
    && !Has(s.table, PitchUid(PitchOf(Current(s.parts[p]).value)))
  }

  function PitchAt(s: State, p: nat): (raw: RawPitch)
    requires p < |s.parts| && s.parts[p].position < |s.parts[p].log| && Storable(Current(s.parts[p]).value)
    ensures ValidRaw(raw)
  {
    PitchOf(Current(s.parts[p]).value)
  }

  /** The row it will store. */
  function NewRow(s: State, p: nat, answer: Option<Answer>): Row
    requires HasNew(s, p)
  {
    RowOf(PitchAt(s, p), answer, NextIndex(s.table, PitchAt(s, p).sessionUid), p, s.parts[p].position)
  }

  lemma FetchSucceeds(cfg: Config, s: State, p: nat)
    requires p < |s.parts| && s.parts[p].stage.Idle? && !s.parts[p].cancelled
    requires s.parts[p].position < |s.parts[p].log|
    ensures Next(cfg, s, p) == AtStage(s, p, Attempting(1))
  {
  }

  lemma IndexSucceeds(cfg: Config, s: State, p: nat, a: nat, answer: Option<Answer>)
    requires HasNew(s, p) && s.parts[p].stage == Attempting(a)
    requires !HeldElsewhere(s, p, PitchAt(s, p).sessionUid)
    ensures NextWith(cfg, s, p, answer)
         == AtStage(s, p, Indexed(a, NextIndex(s.table, PitchAt(s, p).sessionUid), answer))
  {
  }

  /** A new row, with its score where that can be stored. */
  function WithRow(s: State, row: Row): State {
    s.(table := s.table + [row], predictions := WithPrediction(s.predictions, row, s.active),
       storedUnder := s.storedUnder[row.uid := s.active])
  }

  lemma InsertSucceeds(cfg: Config, s: State, p: nat, a: nat, index: int, answer: Option<Answer>)
    requires HasNew(s, p) && s.parts[p].stage == Indexed(a, index, answer)
    ensures
      var row := RowOf(PitchAt(s, p), answer, index, p, s.parts[p].position);
      Next(cfg, s, p) == WithRow(AtStage(s, p, Stored(a, row)), row)
  {
  }

  lemma RecordSucceeds(cfg: Config, s: State, p: nat, a: nat, row: Row)
    requires p < |s.parts| && s.parts[p].stage == Stored(a, row) && s.parts[p].position < |s.parts[p].log|
    ensures Next(cfg, s, p) == WithCount(AtStage(s, p, Counted(a, row)), row)
  {
  }

  function WithCount(s: State, row: Row): State {
    var n := |Commands(row)|;
    s.(recorded := s.recorded + [row], live := Increment(s.live, row, n), credits := s.credits + CreditsUpTo(row, n))
  }

  lemma PublishSucceeds(cfg: Config, s: State, p: nat, a: nat, row: Row)
    requires p < |s.parts| && s.parts[p].stage == Counted(a, row) && s.parts[p].position < |s.parts[p].log|
    ensures Next(cfg, s, p) == AtStage(s, p, Finished).(published := s.published + [row])
  {
  }

  function Past(s: State, p: nat): State
    requires p < |s.parts|
  {
    var next := s.parts[p].position + 1;
    s.(parts := s.parts[p := s.parts[p].(committed := next, position := next, stage := Idle)])
  }

  lemma CommitSucceeds(cfg: Config, s: State, p: nat)
    requires p < |s.parts| && s.parts[p].stage.Finished? && !s.parts[p].cancelled
    requires s.parts[p].position < |s.parts[p].log|
    ensures Next(cfg, s, p) == Past(s, p)
  {
  }

  /** The transaction of an attempt, and what follows it. */
  function StoringSteps(p: nat, answer: Option<Answer>): seq<Event> {
    [Advance(p, Answers(answer), true), Advance(p, Proceed, true)]
  }

  function FinishingSteps(p: nat): seq<Event> {
    [Advance(p, Proceed, true), Advance(p, Proceed, true), Advance(p, Proceed, true)]
  }

  lemma RunOne(cfg: Config, s: State, d: Event)
    ensures Run(cfg, s, [d]) == Apply(cfg, s, d)
  {
    assert [d][..0] == [];
  }

  lemma RunTwo(cfg: Config, s: State, t: State, d: Event, e: Event)
    requires Apply(cfg, s, d) == t
    ensures Run(cfg, s, [d, e]) == Apply(cfg, t, e)
  {
    RunOne(cfg, s, d);
    assert [d, e][..1] == [d];
  }

  lemma RunThree(cfg: Config, s: State, t: State, u: State, d: Event, e: Event, f: Event)
    requires Apply(cfg, s, d) == t && Apply(cfg, t, e) == u
    ensures Run(cfg, s, [d, e, f]) == Apply(cfg, u, f)
  {
    RunTwo(cfg, s, t, d, e);
    RunConcat(cfg, s, [d, e], [f]);
    RunOne(cfg, u, f);
    assert [d, e] + [f] == [d, e, f];
  }

  function JustStored(s: State, p: nat, a: nat, row: Row): State
    requires p < |s.parts|
  {
    WithRow(AtStage(s, p, Stored(a, row)), row)
  }

  lemma StoredInTwo(cfg: Config, s: State, p: nat, a: nat, answer: Option<Answer>)
    requires HasNew(s, p) && s.parts[p].stage == Attempting(a)
    requires !HeldElsewhere(s, p, PitchAt(s, p).sessionUid)
    ensures Run(cfg, s, StoringSteps(p, answer)) == JustStored(s, p, a, NewRow(s, p, answer))
  {
    var row := NewRow(s, p, answer);
    IndexSucceeds(cfg, s, p, a, answer);
    InsertSucceeds(cfg, AtStage(s, p, Indexed(a, row.index, answer)), p, a, row.index, answer);
    RunTwo(cfg, s, AtStage(s, p, Indexed(a, row.index, answer)), Advance(p, Answers(answer), true),
           Advance(p, Proceed, true));
  }

  function JustCounted(s: State, p: nat, a: nat, row: Row): State
    requires p < |s.parts|
  {
    WithCount(AtStage(s, p, Counted(a, row)), row)
  }

  function JustPublished(s: State, p: nat, a: nat, row: Row): State
    requires p < |s.parts|
  {
    AtStage(JustCounted(s, p, a, row), p, Finished).(published := s.published + [row])
  }

  lemma CommittedInThree(cfg: Config, s: State, p: nat, a: nat, row: Row)
    requires p < |s.parts| && s.parts[p].stage == Stored(a, row) && !s.parts[p].cancelled
    requires s.parts[p].position < |s.parts[p].log|
    ensures Run(cfg, s, FinishingSteps(p)) == Past(JustPublished(s, p, a, row), p)
  {
    RecordSucceeds(cfg, s, p, a, row);
    PublishSucceeds(cfg, JustCounted(s, p, a, row), p, a, row);
    CommitSucceeds(cfg, JustPublished(s, p, a, row), p);
    RunThree(cfg, s, JustCounted(s, p, a, row), JustPublished(s, p, a, row),
             Advance(p, Proceed, true), Advance(p, Proceed, true), Advance(p, Proceed, true));
  }

  /** What a delivered pitch leaves: its row, its score where that can be stored, its commands on
      the live hash, its announcement, and the committed offset past it. */
  function Delivered(s: State, p: nat, row: Row): State
    requires p < |s.parts|
  {
    var n := |Commands(row)|;
    Past(s, p).(
      table := s.table + [row], recorded := s.recorded + [row], published := s.published + [row],
      live := Increment(s.live, row, n), credits := s.credits + CreditsUpTo(row, n),
      predictions := WithPrediction(s.predictions, row, s.active),
      storedUnder := s.storedUnder[row.uid := s.active])
  }

  lemma DeliveredIs(s: State, p: nat, a: nat, row: Row)
    requires p < |s.parts|
    ensures Past(JustPublished(JustStored(s, p, a, row), p, a, row), p) == Delivered(s, p, row)
  {
  }

  /** The operations of an attempt that nothing hinders. */
  function DeliverySteps(p: nat, answer: Option<Answer>): seq<Event> { StoringSteps(p, answer) + FinishingSteps(p) }

  lemma AttemptDelivers(cfg: Config, s: State, p: nat, a: nat, answer: Option<Answer>)
    requires HasNew(s, p) && s.parts[p].stage == Attempting(a) && !s.parts[p].cancelled
    requires !HeldElsewhere(s, p, PitchAt(s, p).sessionUid)
    ensures Run(cfg, s, DeliverySteps(p, answer)) == Delivered(s, p, NewRow(s, p, answer))
  {
    var row := NewRow(s, p, answer);
    StoredInTwo(cfg, s, p, a, answer);
    CommittedInThree(cfg, JustStored(s, p, a, row), p, a, row);
    RunConcat(cfg, s, StoringSteps(p, answer), FinishingSteps(p));
    DeliveredIs(s, p, a, row);
  }

  /** Between its attempts a ready reader still has the same pitch to deliver. */
  lemma StageKeepsReady(s: State, p: nat, a: nat, answer: Option<Answer>)
    requires Ready(s, p)
    ensures
      var t := AtStage(s, p, Attempting(a));
      && HasNew(t, p) && PitchAt(t, p) == PitchAt(s, p) && !HeldElsewhere(t, p, PitchAt(t, p).sessionUid)
      && NewRow(t, p, answer) == NewRow(s, p, answer)
      && Delivered(t, p, NewRow(s, p, answer)) == Delivered(s, p, NewRow(s, p, answer))
  {
  }

  function FetchStep(p: nat): seq<Event> { [Advance(p, Proceed, true)] }

  lemma FetchedInOne(cfg: Config, s: State, p: nat)
    requires p < |s.parts| && s.parts[p].stage.Idle? && !s.parts[p].cancelled
    requires s.parts[p].position < |s.parts[p].log|
    ensures Run(cfg, s, FetchStep(p)) == AtStage(s, p, Attempting(1))
  {
    FetchSucceeds(cfg, s, p);
    RunOne(cfg, s, Advance(p, Proceed, true));
  }

  /** With nothing failing, six operations deliver a new pitch, whatever inference answers, and
      change nothing else. */
  lemma NewPitchDelivered(cfg: Config, s: State, p: nat, answer: Option<Answer>)
    requires Ready(s, p)
    ensures Run(cfg, s, FetchStep(p) + DeliverySteps(p, answer)) == Delivered(s, p, NewRow(s, p, answer))
  {
    var t := AtStage(s, p, Attempting(1));
    FetchedInOne(cfg, s, p);
    StageKeepsReady(s, p, 1, answer);
    AttemptDelivers(cfg, t, p, 1, answer);
    RunConcat(cfg, s, FetchStep(p), DeliverySteps(p, answer));
  }
}
