/** Retries: a failure that may pass is tried again, maxAttempts times at most, and one that will not
    pass is given up on the attempt it happens. Both told by what the error is. */
module IngestRetry {
  import opened Wrappers
  import opened Wire
  import opened PitchTable
  import opened Ingest
  import opened IngestSafety
  import opened IngestTheorems
  import opened IngestProgress

  /** Shutdown and network trouble may pass, and so may what nothing marks as lasting. */
  predicate Passing(f: Failure) { !f.duplicate && !f.permanent && (f.cancelled || f.network || !f.constraint) }

  predicate Lasting(f: Failure) { !f.duplicate && (f.permanent || (!f.cancelled && !f.network && f.constraint)) }

  /** A failed attempt: before its transaction, or inside it, after inference has answered. */
  datatype Trip = Trip(failure: Failure, inside: bool, answer: Option<Answer>)

  function Fall(p: nat, trip: Trip): seq<Event> {
    (if trip.inside then [Advance(p, Answers(trip.answer), true)] else []) + [Advance(p, Fails(trip.failure), true)]
  }

  function BackOff(p: nat): seq<Event> { [Advance(p, Proceed, true), Advance(p, Proceed, true)] }

  /** The failed attempts of one message, each waited out. */
  function Rounds(p: nat, trips: seq<Trip>): seq<Event> {
    if trips == [] then []
    else Rounds(p, trips[..|trips| - 1]) + (Fall(p, trips[|trips| - 1]) + BackOff(p))
  }

  // --- a message and its failures ------------------------------------------

  lemma Restaged(s: State, p: nat, before: Stage, after: Stage)
    requires p < |s.parts|
    ensures AtStage(AtStage(s, p, before), p, after) == AtStage(s, p, after)
  {
  }

  lemma TransactionFails(cfg: Config, s: State, p: nat, a: nat, f: Failure)
    requires HasNew(s, p) && !f.duplicate
    requires s.parts[p].stage == Attempting(a) || (s.parts[p].stage.Indexed? && s.parts[p].stage.attempt == a)
    ensures Apply(cfg, s, Advance(p, Fails(f), true)) == AtStage(s, p, Failed(a, f))
  {
  }

  lemma FallFails(cfg: Config, s: State, p: nat, a: nat, trip: Trip)
    requires Ready(s, p) && !trip.failure.duplicate
    ensures Run(cfg, AtStage(s, p, Attempting(a)), Fall(p, trip)) == AtStage(s, p, Failed(a, trip.failure))
  {
    var t, f := AtStage(s, p, Attempting(a)), trip.failure;
    StageKeepsReady(s, p, a, trip.answer);
    if trip.inside {
      var indexed := Indexed(a, NextIndex(s.table, PitchAt(s, p).sessionUid), trip.answer);
      IndexSucceeds(cfg, t, p, a, trip.answer);
      Restaged(s, p, Attempting(a), indexed);
      TransactionFails(cfg, AtStage(s, p, indexed), p, a, f);
      Restaged(s, p, indexed, Failed(a, f));
      RunTwo(cfg, t, AtStage(s, p, indexed), Advance(p, Answers(trip.answer), true), Advance(p, Fails(f), true));
    } else {
      TransactionFails(cfg, t, p, a, f);
      Restaged(s, p, Attempting(a), Failed(a, f));
      RunOne(cfg, t, Advance(p, Fails(f), true));
    }
  }

  lemma FailureWaits(cfg: Config, s: State, p: nat, a: nat, f: Failure)
    requires p < |s.parts| && s.parts[p].position < |s.parts[p].log| && !s.parts[p].cancelled
    requires s.parts[p].stage == Failed(a, f) && Passing(f) && a < cfg.maxAttempts
    ensures Next(cfg, s, p) == AtStage(s, p, Waiting(a))
  {
  }

  lemma WaitIsOver(cfg: Config, s: State, p: nat, a: nat)
    requires p < |s.parts| && s.parts[p].position < |s.parts[p].log| && s.parts[p].stage == Waiting(a)
    ensures Next(cfg, s, p) == AtStage(s, p, Attempting(a + 1))
  {
  }

  lemma BacksOff(cfg: Config, s: State, p: nat, a: nat, f: Failure)
    requires p < |s.parts| && s.parts[p].position < |s.parts[p].log| && !s.parts[p].cancelled
    requires Passing(f) && a < cfg.maxAttempts
    ensures Run(cfg, AtStage(s, p, Failed(a, f)), BackOff(p)) == AtStage(s, p, Attempting(a + 1))
  {
    var t, u := AtStage(s, p, Failed(a, f)), AtStage(s, p, Waiting(a));
    FailureWaits(cfg, t, p, a, f);
    Restaged(s, p, Failed(a, f), Waiting(a));
    WaitIsOver(cfg, u, p, a);
    Restaged(s, p, Waiting(a), Attempting(a + 1));
    RunTwo(cfg, t, u, Advance(p, Proceed, true), Advance(p, Proceed, true));
  }

  lemma {:induction false} RoundsReturn(cfg: Config, s: State, p: nat, trips: seq<Trip>)
    requires Ready(s, p) && |trips| < cfg.maxAttempts
    requires forall i :: 0 <= i < |trips| ==> Passing(trips[i].failure)
    ensures Run(cfg, AtStage(s, p, Attempting(1)), Rounds(p, trips)) == AtStage(s, p, Attempting(1 + |trips|))
  {
    if trips != [] {
      var before, trip := trips[..|trips| - 1], trips[|trips| - 1];
      var start, a := AtStage(s, p, Attempting(1)), |trips|;
      RoundsReturn(cfg, s, p, before);
      FallFails(cfg, s, p, a, trip);
      BacksOff(cfg, s, p, a, trip.failure);
      RunConcat(cfg, AtStage(s, p, Attempting(a)), Fall(p, trip), BackOff(p));
      RunConcat(cfg, start, Rounds(p, before), Fall(p, trip) + BackOff(p));
    }
  }

  lemma AttemptsReached(cfg: Config, s: State, p: nat, trips: seq<Trip>)
    requires Ready(s, p) && |trips| < cfg.maxAttempts
    requires forall i :: 0 <= i < |trips| ==> Passing(trips[i].failure)
    ensures Run(cfg, s, FetchStep(p) + Rounds(p, trips)) == AtStage(s, p, Attempting(1 + |trips|))
  {
    FetchedInOne(cfg, s, p);
    RoundsReturn(cfg, s, p, trips);
    RunConcat(cfg, s, FetchStep(p), Rounds(p, trips));
  }

  /** However many attempts fail, short of all that are allowed: if what failed them may pass and has
      passed, the pitch is delivered as if nothing had happened. */
  lemma RetriedPitchDelivered(cfg: Config, s: State, p: nat, trips: seq<Trip>, answer: Option<Answer>)
    requires Ready(s, p) && |trips| < cfg.maxAttempts
    requires forall i :: 0 <= i < |trips| ==> Passing(trips[i].failure)
    ensures Run(cfg, s, FetchStep(p) + Rounds(p, trips) + DeliverySteps(p, answer))
         == Delivered(s, p, NewRow(s, p, answer))
  {
    var a := 1 + |trips|;
    AttemptsReached(cfg, s, p, trips);
    StageKeepsReady(s, p, a, answer);
    AttemptDelivers(cfg, AtStage(s, p, Attempting(a)), p, a, answer);
    RunConcat(cfg, s, FetchStep(p) + Rounds(p, trips), DeliverySteps(p, answer));
  }

  /** A message given up: its letter, or the record that it could not be written, and nothing else. */
  function GivenUp(s: State, p: nat, errorClass: ErrorClass, attempts: nat, written: bool): State
    requires p < |s.parts| && s.parts[p].position < |s.parts[p].log|
  {
    var part := s.parts[p];
    var rec := part.log[part.position];
    var t := AtStage(s, p, Finished);
    if written then
      t.(letters := s.letters
           + [Letter(ReplayCount(rec.headers), rec.value, p, part.position, rec.key, errorClass, attempts)])
    else t.(unfiled := s.unfiled + {(p, part.position)})
  }

  /** The name a lasting failure gets in its letter. */
  predicate Names(errorClass: ErrorClass, f: Failure) {
    match errorClass
    case SchemaValidation => f.schema
    case UnknownSchemaVersion => !f.schema && f.version
    case PersistencePermanent => !f.schema && !f.version && f.constraint
    case BusinessRuleViolation => !f.schema && !f.version && !f.constraint && f.permanent
    case _ => false
  }

  /** The failed attempts before, the one that is not waited out, and the operation after it. */
  function LastSteps(p: nat, trips: seq<Trip>, last: Trip, filed: bool): seq<Event> {
    FetchStep(p) + Rounds(p, trips) + Fall(p, last) + [Advance(p, Proceed, filed)]
  }

  lemma LastFails(cfg: Config, s: State, p: nat, trips: seq<Trip>, last: Trip, filed: bool)
    requires Ready(s, p) && |trips| < cfg.maxAttempts && !last.failure.duplicate
    requires forall i :: 0 <= i < |trips| ==> Passing(trips[i].failure)
    ensures Run(cfg, s, LastSteps(p, trips, last, filed))
         == Apply(cfg, AtStage(s, p, Failed(1 + |trips|, last.failure)), Advance(p, Proceed, filed))
  {
    AttemptsReached(cfg, s, p, trips);
    FallFails(cfg, s, p, 1 + |trips|, last);
    RunConcat(cfg, s, FetchStep(p) + Rounds(p, trips), Fall(p, last));
    RunConcat(cfg, s, FetchStep(p) + Rounds(p, trips) + Fall(p, last), [Advance(p, Proceed, filed)]);
    RunOne(cfg, AtStage(s, p, Failed(1 + |trips|, last.failure)), Advance(p, Proceed, filed));
  }

  /** A failure that will not pass ends the message on the attempt it happens, however many that
      might have passed came before: nothing is stored, and the letter names it and counts them. */
  lemma LastingFailureFiled(
    cfg: Config, s: State, p: nat, trips: seq<Trip>, last: Trip, errorClass: ErrorClass, filed: bool)
    requires Ready(s, p) && |trips| < cfg.maxAttempts && Lasting(last.failure) && Names(errorClass, last.failure)
    requires forall i :: 0 <= i < |trips| ==> Passing(trips[i].failure)
    ensures Run(cfg, s, LastSteps(p, trips, last, filed))
         == GivenUp(s, p, errorClass, 1 + |trips|, cfg.dlq && filed)
  {
    LastFails(cfg, s, p, trips, last, filed);
    LastingStep(cfg, s, p, 1 + |trips|, last.failure, errorClass, filed);
  }

  lemma LastingStep(cfg: Config, s: State, p: nat, a: nat, f: Failure, errorClass: ErrorClass, filed: bool)
    requires Ready(s, p) && Lasting(f) && Names(errorClass, f)
    ensures Apply(cfg, AtStage(s, p, Failed(a, f)), Advance(p, Proceed, filed))
         == GivenUp(s, p, errorClass, a, cfg.dlq && filed)
  {
  }

  /** And every lasting failure has one of these names. */
  lemma LastingIsNamed(f: Failure) returns (errorClass: ErrorClass)
    requires Lasting(f)
    ensures Names(errorClass, f)
  {
    errorClass := if f.schema then SchemaValidation
                  else if f.version then UnknownSchemaVersion
                  else if f.constraint then PersistencePermanent
                  else BusinessRuleViolation;
  }

  /** When the last attempt allowed fails as well, the message is given up as exhausted. */
  lemma ExhaustedPitchFiled(cfg: Config, s: State, p: nat, trips: seq<Trip>, last: Trip, filed: bool)
    requires Ready(s, p) && |trips| + 1 == cfg.maxAttempts && Passing(last.failure)
    requires forall i :: 0 <= i < |trips| ==> Passing(trips[i].failure)
    ensures Run(cfg, s, LastSteps(p, trips, last, filed))
         == GivenUp(s, p, RetryExhausted, cfg.maxAttempts, cfg.dlq && filed)
  {
    LastFails(cfg, s, p, trips, last, filed);
    ExhaustedStep(cfg, s, p, last.failure, filed);
  }

  lemma ExhaustedStep(cfg: Config, s: State, p: nat, f: Failure, filed: bool)
    requires Ready(s, p) && Passing(f)
    ensures Apply(cfg, AtStage(s, p, Failed(cfg.maxAttempts, f)), Advance(p, Proceed, filed))
         == GivenUp(s, p, RetryExhausted, cfg.maxAttempts, cfg.dlq && filed)
  {
  }

  /** Back at its committed offset, with nothing in hand. */
  function Back(s: State, p: nat): State
    requires p < |s.parts|
  {
    var part := s.parts[p];
    s.(parts := s.parts[p := Partition(part.log, part.committed, part.committed, Idle, false)])
  }

  lemma CancelledGivesUp(cfg: Config, s: State, p: nat, a: nat, choice: Choice)
    requires p < |s.parts| && s.parts[p].position < |s.parts[p].log| && s.parts[p].cancelled
    requires Plausible(choice)
    requires match s.parts[p].stage
             case Failed(b, f) => b == a < cfg.maxAttempts && Passing(f)
             case Waiting(b) => b == a && choice.Fails?
             case _ => false
    ensures Apply(cfg, s, Advance(p, choice, true)) == AtStage(s, p, Abandoned)
  {
  }

  /** A reader that finds its context cancelled commits nothing and stops, whether it was about to fetch,
      to commit, or had given up waiting. */
  lemma CancelledStops(cfg: Config, s: State, p: nat, choice: Choice)
    requires p < |s.parts| && s.parts[p].position < |s.parts[p].log| && Plausible(choice)
    requires s.parts[p].stage.Abandoned? ||
             (s.parts[p].cancelled && (s.parts[p].stage.Idle? || s.parts[p].stage.Finished?))
    ensures Apply(cfg, s, Advance(p, choice, true)) == Back(s, p)
  {
  }

  /** A crash or a rebalance takes a reader back to its committed offset wherever it stands; all it costs
      is the counter update of a row that was stored and not counted. */
  lemma RestartGoesBack(cfg: Config, s: State, p: nat)
    requires p < |s.parts|
    ensures
      var stage := s.parts[p].stage;
      Apply(cfg, s, Restart(p))
      == Back(s, p).(blemished := s.blemished + if stage.Stored? then {stage.row.session} else {})
  {
  }

  /** A cancelled reader does not wait: it files nothing, commits nothing and stops, so that the
      message is delivered again. */
  lemma CancelledIsLeftOver(cfg: Config, s: State, p: nat, a: nat, first: Choice, second: Choice)
    requires p < |s.parts| && s.parts[p].position < |s.parts[p].log| && s.parts[p].cancelled
    requires Plausible(first) && Plausible(second)
    requires match s.parts[p].stage
             case Failed(b, f) => b == a < cfg.maxAttempts && Passing(f)
             case Waiting(b) => b == a && first.Fails?
             case _ => false
    ensures Run(cfg, s, [Advance(p, first, true), Advance(p, second, true)]) == Back(s, p)
  {
    CancelledGivesUp(cfg, s, p, a, first);
    CancelledStops(cfg, AtStage(s, p, Abandoned), p, second);
    RunTwo(cfg, s, AtStage(s, p, Abandoned), Advance(p, first, true), Advance(p, second, true));
  }

  // --- over runs -----------------------------------------------------------

  /** The attempts at the message a reader is on that have failed, by the course of a run: none when
      it is between two messages, and one more whenever an attempt ends in an error. */
  function Tries(cfg: Config, events: seq<Event>, p: nat): nat {
    if events == [] then 0
    else
      var before := events[..|events| - 1];
      var s, t := Reach(cfg, before), Reach(cfg, events);
      if p >= |s.parts| || p >= |t.parts| || t.parts[p].stage.Idle? || t.parts[p].position != s.parts[p].position
      then 0
      else Tries(cfg, before, p) + if t.parts[p].stage.Failed? && !s.parts[p].stage.Failed? then 1 else 0
  }

  /** The number a stage carries is the number of its attempt. */
  predicate Numbered(stage: Stage, tries: nat) {
    match stage
    case Idle => tries == 0
    case Attempting(a) => tries + 1 == a
    case Indexed(a, _, _) => tries + 1 == a
    case Stored(a, _) => tries + 1 == a
    case Counted(a, _) => tries + 1 == a
    case Failed(a, _) => tries == a
    case Waiting(a) => tries == a
    case _ => true
  }

  ghost predicate Follows(a: Partition, b: Partition) {
    b.stage.Idle?
    || (b.position == a.position
        && forall tries: nat :: Numbered(a.stage, tries) ==>
             Numbered(b.stage, tries + if b.stage.Failed? && !a.stage.Failed? then 1 else 0))
  }

  /** What a letter says of its attempts: as many as have failed, or one for unreadable bytes. */
  predicate TellsAttempts(cfg: Config, part: Partition, letter: Letter) {
    && part.position == letter.offset && part.position < |part.log|
    && (letter.errorClass.RetryExhausted? ==> part.stage.Failed? && letter.attempts == cfg.maxAttempts)
    && (if part.stage.Failed? then letter.attempts == part.stage.attempt
        else part.stage.Attempting? && letter.payload.Malformed? && letter.attempts == 1)
  }

  predicate LettersTell(cfg: Config, p: nat, part: Partition, letters: seq<Letter>) {
    letters != [] ==>
      |letters| == 1 && letters[0].partition == p && TellsAttempts(cfg, part, letters[0])
  }

  lemma FailureFollows(cfg: Config, p: nat, part: Partition, a: nat, f: Failure, filed: bool)
    requires PartitionPlaced(cfg, part) && part.stage == Failed(a, f)
    ensures
      var eff := OnFailure(cfg, p, part, a, f, filed);
      Follows(part, eff.part) && LettersTell(cfg, p, part, eff.letters)
  {
  }

  lemma AttemptFollows(cfg: Config, table: Table, p: nat, part: Partition, a: nat, choice: Choice, filed: bool)
    requires PartitionPlaced(cfg, part) && part.stage == Attempting(a)
    ensures
      var eff := Attempt(cfg, table, p, part, a, choice, filed);
      Follows(part, eff.part) && LettersTell(cfg, p, part, eff.letters)
  {
  }

  lemma InsertFollows(cfg: Config, table: Table, p: nat, part: Partition, choice: Choice, filed: bool)
    requires PartitionPlaced(cfg, part) && part.stage.Indexed?
    ensures
      var eff := ReaderStep(cfg, table, p, part, choice, filed);
      Follows(part, eff.part) && eff.letters == []
  {
  }

  lemma WorkFollows(cfg: Config, table: Table, p: nat, part: Partition, choice: Choice, filed: bool)
    requires PartitionPlaced(cfg, part)
    requires !part.stage.Failed? && !part.stage.Attempting? && !part.stage.Indexed?
    ensures
      var eff := ReaderStep(cfg, table, p, part, choice, filed);
      Follows(part, eff.part) && eff.letters == []
  {
  }

  lemma StepFollows(cfg: Config, table: Table, p: nat, part: Partition, choice: Choice, filed: bool)
    requires PartitionPlaced(cfg, part)
    ensures
      var eff := ReaderStep(cfg, table, p, part, choice, filed);
      Follows(part, eff.part) && LettersTell(cfg, p, part, eff.letters)
  {
    match part.stage
    case Failed(a, f) => FailureFollows(cfg, p, part, a, f, filed);
    case Attempting(a) => AttemptFollows(cfg, table, p, part, a, choice, filed);
    case Indexed(_, _, _) => InsertFollows(cfg, table, p, part, choice, filed);
    case _ => WorkFollows(cfg, table, p, part, choice, filed);
  }

  /** A letter is new in a step: it was filed by its own partition's reader in it. */
  lemma EventFollows(cfg: Config, s: State, e: Event, p: nat)
    requires Placed(cfg, s) && p < |s.parts|
    ensures
      var t := Apply(cfg, s, e);
      && |t.parts| == |s.parts| && Follows(s.parts[p], t.parts[p])
  {
    if e.Advance? && e.partition == p {
      StepFollows(cfg, s.table, p, s.parts[p], e.choice, e.filed);
    }
  }

  lemma EventLetters(cfg: Config, s: State, e: Event)
    requires Placed(cfg, s)
    ensures
      var t := Apply(cfg, s, e);
      && s.letters <= t.letters
      && (t.letters != s.letters ==>
            && |t.letters| == |s.letters| + 1
            && var letter := t.letters[|s.letters|];
               letter.partition < |s.parts| && TellsAttempts(cfg, s.parts[letter.partition], letter))
  {
    if e.Advance? && e.partition < |s.parts| {
      StepFollows(cfg, s.table, e.partition, s.parts[e.partition], e.choice, e.filed);
    }
  }

  lemma {:induction false} TriesNumber(cfg: Config, events: seq<Event>, p: nat)
    requires ValidConfig(cfg) && p < |Reach(cfg, events).parts|
    ensures Numbered(Reach(cfg, events).parts[p].stage, Tries(cfg, events, p))
  {
    if events != [] {
      var before := events[..|events| - 1];
      ReachInv(cfg, before);
      EventFollows(cfg, Reach(cfg, before), events[|events| - 1], p);
      TriesNumber(cfg, before, p);
    }
  }

  /** A letter filed by a step of a run counts the failed attempts before it. */
  predicate CountsTries(cfg: Config, before: seq<Event>, letter: Letter) {
    var s := Reach(cfg, before);
    && letter.partition < |s.parts| && s.parts[letter.partition].position == letter.offset
    && (letter.payload.Parsed? ==> letter.attempts == Tries(cfg, before, letter.partition) >= 1)
    && (letter.errorClass.RetryExhausted? ==>
          letter.attempts == Tries(cfg, before, letter.partition) == cfg.maxAttempts)
  }

  lemma NewLetterCounts(cfg: Config, before: seq<Event>, e: Event)
    requires ValidConfig(cfg)
    ensures
      var s, t := Reach(cfg, before), Apply(cfg, Reach(cfg, before), e);
      && s.letters <= t.letters
      && (t.letters != s.letters ==>
            |t.letters| == |s.letters| + 1 && CountsTries(cfg, before, t.letters[|s.letters|]))
  {
    var s, t := Reach(cfg, before), Apply(cfg, Reach(cfg, before), e);
    ReachInv(cfg, before);
    EventLetters(cfg, s, e);
    if t.letters != s.letters {
      var p := t.letters[|s.letters|].partition;
      TriesNumber(cfg, before, p);
      assert PartitionPlaced(cfg, s.parts[p]);
    }
  }

  /** In every run, behind each dead letter of readable bytes there are as many failed attempts at its
      message, since it was fetched, as the letter says; and behind each exhausted one as many as are
      allowed. k is the step that files it. */
  lemma {:induction false} LettersCountTries(cfg: Config, events: seq<Event>, i: nat) returns (k: nat)
    requires ValidConfig(cfg) && i < |Reach(cfg, events).letters|
    ensures k < |events| && |Reach(cfg, events[..k]).letters| == i
    ensures CountsTries(cfg, events[..k], Reach(cfg, events).letters[i])
  {
    var before := events[..|events| - 1];
    NewLetterCounts(cfg, before, events[|events| - 1]);
    if i < |Reach(cfg, before).letters| {
      k := LettersCountTries(cfg, before, i);
      assert before[..k] == events[..k];
    } else {
      k := |events| - 1;
    }
  }
}
