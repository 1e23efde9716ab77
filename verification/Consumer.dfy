/** The consumer loop and the pipeline handler as imperative code: fetch, the retry loop,
    the transaction, the cache update, the publish, the dead letter, the commit. What the
    environment does (failures, cancellation, other readers, producers, the replay tool) is
    a script; when the script ends, the process is dead. Every execution is a run of the
    ingest machine. */
module Consumer {
  import opened Wrappers
  import opened Wire
  import opened PitchTable
  import opened LiveCounters
  import opened Ingest
  import opened IngestSafety
  import opened IngestTheorems

  /** One operation of this reader: what happens elsewhere before it, and how it turns out. */
  datatype Beat = Beat(meanwhile: seq<Event>, choice: Choice, filed: bool)

  /** Other goroutines never move this reader; they may cancel it. */
  predicate Foreign(p: nat, e: Event) {
    && (e.Advance? ==> e.partition != p)
    && (e.Restart? ==> e.partition != p)
  }

  predicate Playable(p: nat, beat: Beat) {
    Plausible(beat.choice) && forall e :: e in beat.meanwhile ==> Foreign(p, e)
  }

  datatype Verdict = Again | Returned | Dead

  datatype Reply = Done | Duplicated | Error(failure: Failure) | Killed

  predicate SamePlace(a: Partition, b: Partition) {
    && b.stage == a.stage && b.position == a.position && b.committed == a.committed
    && a.log <= b.log
  }

  /** The reader is still at the same message of the same log. */
  predicate SameMessage(a: Partition, b: Partition) {
    b.position == a.position && b.committed == a.committed && a.log <= b.log
  }

  lemma ForeignKeepsPlace(cfg: Config, s: State, p: nat, e: Event)
    requires p < |s.parts| && Foreign(p, e)
    ensures |Apply(cfg, s, e).parts| == |s.parts| && SamePlace(s.parts[p], Apply(cfg, s, e).parts[p])
  {
  }

  lemma {:induction false} MeanwhileKeepsPlace(cfg: Config, s: State, p: nat, events: seq<Event>)
    requires p < |s.parts| && forall e :: e in events ==> Foreign(p, e)
    ensures |Run(cfg, s, events).parts| == |s.parts| && SamePlace(s.parts[p], Run(cfg, s, events).parts[p])
  {
    if events != [] {
      MeanwhileKeepsPlace(cfg, s, p, events[..|events| - 1]);
      ForeignKeepsPlace(cfg, Run(cfg, s, events[..|events| - 1]), p, events[|events| - 1]);
    }
  }

  lemma SamePlaceStaysPlaced(cfg: Config, a: Partition, b: Partition)
    requires PartitionPlaced(cfg, a) && SamePlace(a, b)
    ensures PartitionPlaced(cfg, b)
  {
  }

  /** A step of this reader, carried out by hand, extends the run. */
  lemma AdvanceExtendsRun(cfg: Config, trace: seq<Event>, p: nat, choice: Choice, filed: bool)
    requires cfg.maxAttempts >= 1 && Plausible(choice) && p < |Reach(cfg, trace).parts|
    requires PartitionPlaced(cfg, Reach(cfg, trace).parts[p]) && !Waits(Reach(cfg, trace), p, choice)
    ensures
      var s := Reach(cfg, trace);
      var eff := ReaderStep(cfg, s.table, p, s.parts[p], choice, filed);
      && Enact(s, p, eff) == Reach(cfg, trace + [Advance(p, choice, filed)])
      && PartitionPlaced(cfg, eff.part)
  {
    var s, e := Reach(cfg, trace), Advance(p, choice, filed);
    assert (trace + [e])[..|trace|] == trace;
    StepIsLegal(cfg, s.table, p, s.parts[p], choice, filed);
  }

  /** The upsert waits while another transaction holds the session's row. */
  method UpsertSession(world: State, p: nat, session: string) returns (held: bool)
    ensures held <==> HeldElsewhere(world, p, session)
  {
    held := false;
    for q := 0 to |world.parts|
      invariant held <==> exists i :: 0 <= i < q && i != p && Holds(world.parts[i], session)
    {
      if q != p && Holds(world.parts[q], session) {
        held := true;
      }
    }
  }

  /** The row holds the reading of the reader's message. */
  predicate OwnReading(part: Partition, row: Row) {
    && part.position < |part.log| && Storable(Current(part).value)
    && var raw := PitchOf(Current(part).value);
       && row.uid == PitchUid(raw) && row.session == raw.sessionUid && row.offset == part.position
       && row.speed == raw.speed && row.spin == raw.spin && (row.whiff <==> raw.outcome == "SWINGING_STRIKE")
  }

  class Worker {
    const cfg: Config
    const p: nat
    var world: State
    var script: seq<Beat>
    ghost var trace: seq<Event>

    ghost predicate Valid()
      reads this
    {
      && cfg.maxAttempts >= 1 && p < |world.parts|
      && world == Reach(cfg, trace)
      && PartitionPlaced(cfg, world.parts[p])
      && forall b :: b in script ==> Playable(p, b)
    }

    /** A worker takes over a partition in any state some history leads to. */
    constructor (cfg: Config, p: nat, world: State, script: seq<Beat>, ghost history: seq<Event>)
      requires cfg.maxAttempts >= 1 && p < |world.parts| && PartitionPlaced(cfg, world.parts[p])
      requires world == Reach(cfg, history)
      requires forall b :: b in script ==> Playable(p, b)
      ensures Valid() && this.cfg == cfg && this.p == p && this.world == world
      ensures this.script == script && trace == history
    {
      this.cfg, this.p, this.world, this.script, this.trace := cfg, p, world, script, history;
    }

    function Mine(): Partition
      reads this
      requires p < |world.parts|
    {
      world.parts[p]
    }

    /** What every method of the worker keeps: the world stays a run of the machine, only
        longer, and the script only gets shorter. */
    twostate predicate Continues()
      reads this
    {
      && Valid() && old(trace) <= trace
      && |script| <= |old(script)|
    }

    /** The reader's last operation found its context cancelled. */
    ghost predicate StoppedByCancel()
      reads this
    {
      && trace != [] && trace[|trace| - 1].Advance? && trace[|trace| - 1].partition == p
      && var before := Reach(cfg, trace[..|trace| - 1]);
         p < |before.parts| && (before.parts[p].cancelled || before.parts[p].stage.Abandoned?)
    }

    /** Lets the rest of the system move, then tells how the next operation turns out. */
    method NextBeat() returns (beat: Option<Beat>)
      requires Valid()
      modifies this`world, this`script, this`trace
      ensures Continues()
      ensures SamePlace(old(Mine()), Mine())
      ensures beat.None? <==> old(script) == []
      ensures beat.Some? ==> Playable(p, beat.value) && |script| < |old(script)|
    {
      if script == [] {
        return None;
      }
      var b := script[0];
      assert b in script;
      assert forall x :: x in script[1..] ==> x in script;
      MeanwhileKeepsPlace(cfg, world, p, b.meanwhile);
      RunConcat(cfg, Init(cfg), trace, b.meanwhile);
      SamePlaceStaysPlaced(cfg, Mine(), Run(cfg, world, b.meanwhile).parts[p]);
      world := Run(cfg, world, b.meanwhile);
      script, trace := script[1..], trace + b.meanwhile;
      beat := Some(b);
    }

    /** Writes what an operation of this reader does. */
    method Perform(after: State, ghost choice: Choice, ghost filed: bool)
      requires Valid() && Plausible(choice) && !Waits(world, p, choice)
      requires after == Enact(world, p, ReaderStep(cfg, world.table, p, Mine(), choice, filed))
      modifies this`world, this`trace
      ensures Continues() && world == after
      ensures trace == old(trace) + [Advance(p, choice, filed)]
    {
      AdvanceExtendsRun(cfg, trace, p, choice, filed);
      world, trace := after, trace + [Advance(p, choice, filed)];
    }

    /** Moves this reader and nothing else. */
    method Replace(part: Partition, ghost choice: Choice, ghost filed: bool)
      requires Valid() && Plausible(choice) && !Waits(world, p, choice)
      requires ReaderStep(cfg, world.table, p, Mine(), choice, filed) == Quiet(part)
      modifies this`world, this`trace
      ensures Continues() && Mine() == part
      ensures trace == old(trace) + [Advance(p, choice, filed)]
    {
      QuietEnact(world, p, part);
      Perform(world.(parts := world.parts[p := part]), choice, filed);
    }

    method SetStage(stage: Stage, ghost choice: Choice, ghost filed: bool)
      requires Valid() && Plausible(choice) && !Waits(world, p, choice)
      requires ReaderStep(cfg, world.table, p, Mine(), choice, filed) == MoveTo(Mine(), stage)
      modifies this`world, this`trace
      ensures Continues() && Mine() == old(Mine()).(stage := stage)
    {
      Replace(Mine().(stage := stage), choice, filed);
    }

    method DeadLetter(errorClass: ErrorClass, attempts: nat, beat: Beat)
      requires Valid() && Playable(p, beat) && Mine().position < |Mine().log| && !Waits(world, p, beat.choice)
      requires ReaderStep(cfg, world.table, p, Mine(), beat.choice, beat.filed)
            == Ingest.DeadLetter(cfg, p, Mine(), errorClass, attempts, beat.filed)
      modifies this`world, this`trace
      ensures Continues() && Mine() == old(Mine()).(stage := Finished)
    {
      var part := Mine();
      var rec := Current(part);
      var parts := world.parts[p := part.(stage := Finished)];
      if cfg.dlq && beat.filed {
        var letter := Letter(ReplayCount(rec.headers), rec.value, p, part.position, rec.key, errorClass, attempts);
        LetterEnact(world, p, part.(stage := Finished), letter);
        Perform(world.(parts := parts, letters := world.letters + [letter]), beat.choice, beat.filed);
      } else {
        UnfiledEnact(world, p, part.(stage := Finished), part.position);
        Perform(world.(parts := parts, unfiled := world.unfiled + {(p, part.position)}), beat.choice, beat.filed);
      }
    }

    /** The first half of persist: the transaction is open, its session upserted, which may take
        a wait, and the next index read. */
    method OpenTransaction(attempt: nat) returns (reply: Reply)
      requires Valid() && Mine().stage == Attempting(attempt)
      requires Mine().position < |Mine().log| && Storable(Current(Mine()).value)
      modifies this`world, this`script, this`trace
      ensures Continues()
      ensures SameMessage(old(Mine()), Mine())
      ensures match reply
              case Done => Mine().stage.Indexed? && Mine().stage.attempt == attempt
              case Duplicated => false
              case Error(f) => Mine().stage == Failed(attempt, f)
              case Killed => script == []
    {
      while true
        invariant Continues() && Mine().stage == Attempting(attempt)
        invariant SameMessage(old(Mine()), Mine())
        decreases |script|
      {
        var beat := NextBeat();
        if beat.None? {
          return Killed;
        }
        var choice := beat.value.choice;
        if choice.Fails? || choice.FailsAfterEffect? {
          SetStage(Failed(attempt, choice.failure), choice, beat.value.filed);
          return Error(choice.failure);
        }
        var raw := PitchOf(Current(Mine()).value);
        var held := UpsertSession(world, p, raw.sessionUid);
        if !held {
          var index := NextIndex(world.table, raw.sessionUid);
          SetStage(Indexed(attempt, index, AnswerOf(choice)), choice, beat.value.filed);
          return Done;
        }
      }
    }

    /** persist: the index, the insert and the commit. */
    method Persist(attempt: nat) returns (reply: Reply)
      requires Valid() && Mine().stage == Attempting(attempt)
      requires Mine().position < |Mine().log| && Storable(Current(Mine()).value)
      modifies this`world, this`script, this`trace
      ensures Continues()
      ensures SameMessage(old(Mine()), Mine())
      ensures match reply
              case Done =>
                Mine().stage.Stored? && Mine().stage.attempt == attempt && OwnReading(Mine(), Mine().stage.row)
              case Duplicated => Mine().stage == Finished
              case Error(f) => Mine().stage == Failed(attempt, f)
              case Killed => script == []
    {
      reply := OpenTransaction(attempt);
      if !reply.Done? {
        return;
      }
      var beat := NextBeat();
      if beat.None? {
        return Killed;
      }
      reply := InsertPitch(attempt, Mine().stage.index, Mine().stage.answer, beat.value);
    }

    method InsertPitch(attempt: nat, index: int, answer: Option<Answer>, beat: Beat) returns (reply: Reply)
      requires Valid() && Playable(p, beat) && Mine().stage == Indexed(attempt, index, answer)
      requires Mine().position < |Mine().log| && Storable(Current(Mine()).value)
      modifies this`world, this`trace
      ensures Continues()
      ensures SameMessage(old(Mine()), Mine())
      ensures match reply
              case Done =>
                Mine().stage.Stored? && Mine().stage.attempt == attempt && OwnReading(Mine(), Mine().stage.row)
              case Duplicated => Mine().stage == Finished
              case Error(f) => Mine().stage == Failed(attempt, f)
              case Killed => script == []
    {
      var choice := beat.choice;
      var part := Mine();
      var row := RowOf(PitchOf(Current(part).value), answer, index, p, part.position);
      if choice.Fails? {
        SetStage(Failed(attempt, choice.failure), choice, beat.filed);
        return Error(choice.failure);
      }
      if Has(world.table, row.uid) {
        if choice.FailsAfterEffect? {
          SetStage(Failed(attempt, choice.failure), choice, beat.filed);
          return Error(choice.failure);
        }
        SetStage(Finished, choice, beat.filed);
        return Duplicated;
      }
      reply := StoreRow(attempt, row, beat);
    }

    /** The row is new: it is in the table, and the commit's answer arrives or is lost. */
    method StoreRow(attempt: nat, row: Row, beat: Beat) returns (reply: Reply)
      requires Valid() && Playable(p, beat) && !beat.choice.Fails?
      requires Mine().stage.Indexed? && Mine().stage.attempt == attempt
      requires Mine().position < |Mine().log| && Storable(Current(Mine()).value)
      requires row == RowOf(PitchOf(Current(Mine()).value), Mine().stage.answer, Mine().stage.index,
                            p, Mine().position)
      requires !Has(world.table, row.uid)
      modifies this`world, this`trace
      ensures Continues()
      ensures SameMessage(old(Mine()), Mine())
      ensures if beat.choice.FailsAfterEffect? then reply == Error(beat.choice.failure) else reply == Done
      ensures if beat.choice.FailsAfterEffect? then Mine().stage == Failed(attempt, beat.choice.failure)
              else Mine().stage == Stored(attempt, row)
    {
      var choice := beat.choice;
      var lostAck := choice.FailsAfterEffect?;
      var after := Mine().(stage := if lostAck then Failed(attempt, choice.failure) else Stored(attempt, row));
      var blemish := if lostAck then {row.session} else {};
      StoreEnact(cfg, world, p, row, choice, beat.filed);
      Perform(world.(parts := world.parts[p := after], table := world.table + [row],
                     predictions := WithPrediction(world.predictions, row, world.active),
                     storedUnder := world.storedUnder[row.uid := world.active],
                     blemished := world.blemished + blemish), choice, beat.filed);
      reply := if lostAck then Error(choice.failure) else Done;
    }

    /** updateCache: best effort, so it has no error to report. */
    method UpdateCache(attempt: nat, row: Row) returns (alive: bool)
      requires Valid() && Mine().stage == Stored(attempt, row)
      modifies this`world, this`script, this`trace
      ensures Continues()
      ensures SameMessage(old(Mine()), Mine())
      ensures if alive then Mine().stage == Counted(attempt, row) else script == []
    {
      var beat := NextBeat();
      if beat.None? {
        return false;
      }
      var choice, filed := beat.value.choice, beat.value.filed;
      var n := |Commands(row)|;
      var k := n;
      match choice {
        case Fails(_) => k := 0;
        case Partial(m) => if m < n { k := m; }
        case _ =>
      }
      var after := Mine().(stage := Counted(attempt, row));
      var blemish := if k < n then {row.session} else {};
      RecordEnact(cfg, world, p, attempt, row, choice, filed);
      Perform(world.(parts := world.parts[p := after], recorded := world.recorded + [row],
                     live := Increment(world.live, row, k), credits := world.credits + CreditsUpTo(row, k),
                     blemished := world.blemished + blemish), choice, filed);
      return true;
    }

    method PublishAnalyzed(attempt: nat, row: Row) returns (reply: Reply)
      requires Valid() && Mine().stage == Counted(attempt, row)
      modifies this`world, this`script, this`trace
      ensures Continues()
      ensures SameMessage(old(Mine()), Mine())
      ensures match reply
              case Done => Mine().stage == Finished
              case Error(f) => Mine().stage == Failed(attempt, f)
              case Duplicated => false
              case Killed => script == []
    {
      var beat := NextBeat();
      if beat.None? {
        return Killed;
      }
      var choice, filed := beat.value.choice, beat.value.filed;
      if choice.Fails? {
        SetStage(Failed(attempt, choice.failure), choice, filed);
        return Error(choice.failure);
      }
      var failed := choice.FailsAfterEffect?;
      var after := Mine().(stage := if failed then Failed(attempt, choice.failure) else Finished);
      PublishEnact(cfg, world, p, attempt, row, choice, filed);
      Perform(world.(parts := world.parts[p := after], published := world.published + [row]), choice, filed);
      reply := if failed then Error(choice.failure) else Done;
    }

    /** HandlePitchRaw. */
    method HandlePitchRaw(attempt: nat) returns (reply: Reply)
      requires Valid() && Mine().stage == Attempting(attempt)
      requires Mine().position < |Mine().log| && Current(Mine()).value.Parsed?
      modifies this`world, this`script, this`trace
      ensures Continues()
      ensures SameMessage(old(Mine()), Mine())
      ensures match reply
              case Done => Mine().stage == Finished
              case Duplicated => Mine().stage == Finished
              case Error(f) => Mine().stage == Failed(attempt, f) && !f.duplicate
              case Killed => script == []
    {
      if !Storable(Current(Mine()).value) {
        SetStage(Failed(attempt, REFUSED), Proceed, false);
        return Error(REFUSED);
      }
      reply := Persist(attempt);
      if !reply.Done? {
        return;
      }
      var row := Mine().stage.row;
      var alive := UpdateCache(attempt, row);
      if !alive {
        return Killed;
      }
      reply := PublishAnalyzed(attempt, row);
    }

    /** The switch of the retry loop: dead-letter, give up on a cancelled context, or wait
        and go round again. */
    method Triage(attempt: nat, f: Failure) returns (verdict: Verdict)
      requires Valid() && Mine().stage == Failed(attempt, f)
      requires attempt < cfg.maxAttempts || Classify(f) != Transient
      modifies this`world, this`script, this`trace
      ensures Continues()
      ensures verdict.Returned? ==> Mine().stage.Finished? || Mine().stage.Abandoned?
      ensures verdict.Dead? ==> script == []
      ensures verdict.Again? ==> Mine().stage == Attempting(attempt + 1) && SameMessage(old(Mine()), Mine())
      ensures verdict.Again? || Mine().stage.Abandoned? ==>
        !f.permanent && (f.cancelled || f.network || !f.constraint)
      ensures verdict.Returned? && Mine().stage.Finished? ==>
        f.permanent || (f.constraint && !f.cancelled && !f.network)
    {
      var beat := NextBeat();
      if beat.None? {
        return Dead;
      }
      var choice, filed := beat.value.choice, beat.value.filed;
      if Classify(f) == Permanent {
        DeadLetter(ClassOf(f), attempt, beat.value);
        return Returned;
      }
      if Mine().cancelled {
        SetStage(Abandoned, choice, filed);
        return Returned;
      }
      SetStage(Waiting(attempt), choice, filed);
      verdict := Wait(attempt);
    }

    /** The select between the timer and the context. */
    method Wait(attempt: nat) returns (verdict: Verdict)
      requires Valid() && Mine().stage == Waiting(attempt)
      modifies this`world, this`script, this`trace
      ensures Continues()
      ensures verdict.Returned? ==> Mine().stage.Abandoned?
      ensures verdict.Dead? ==> script == []
      ensures verdict.Again? ==> Mine().stage == Attempting(attempt + 1) && SameMessage(old(Mine()), Mine())
    {
      var beat := NextBeat();
      if beat.None? {
        return Dead;
      }
      var choice, filed := beat.value.choice, beat.value.filed;
      if Mine().cancelled && choice.Fails? {
        SetStage(Abandoned, choice, filed);
        return Returned;
      }
      SetStage(Attempting(attempt + 1), choice, filed);
      return Again;
    }

    /** The two dead letters outside the switch: bytes that do not parse, and retries used up. */
    method FileAway(errorClass: ErrorClass, attempts: nat) returns (alive: bool)
      requires Valid() && Mine().position < |Mine().log|
      requires
        || (&& Mine().stage == Attempting(1) && Current(Mine()).value.Malformed?
            && errorClass == Current(Mine()).value.parseClass && attempts == 1)
        || (&& Mine().stage.Failed? && Mine().stage.attempt == cfg.maxAttempts
            && Classify(Mine().stage.failure) == Transient
            && errorClass == RetryExhausted && attempts == cfg.maxAttempts)
      modifies this`world, this`script, this`trace
      ensures Continues()
      ensures if alive then Mine().stage.Finished? else script == []
    {
      var beat := NextBeat();
      if beat.None? {
        return false;
      }
      DeadLetter(errorClass, attempts, beat.value);
      return true;
    }

    /** processMessage: one fetched message, retried up to maxAttempts times. */
    method ProcessMessage() returns (alive: bool)
      requires Valid() && Mine().stage == Attempting(1) && Mine().position < |Mine().log|
      modifies this`world, this`script, this`trace
      ensures Continues()
      ensures if alive then Mine().stage.Finished? || Mine().stage.Abandoned? else script == []
    {
      if Current(Mine()).value.Malformed? {
        alive := FileAway(Current(Mine()).value.parseClass, 1);
        return;
      }
      var attempt := 1;
      while attempt <= cfg.maxAttempts
        invariant Continues() && attempt >= 1
        invariant Mine().position < |Mine().log| && Current(Mine()).value.Parsed?
        invariant attempt <= cfg.maxAttempts ==> Mine().stage == Attempting(attempt)
        invariant attempt > cfg.maxAttempts ==>
          Mine().stage.Failed? && Mine().stage.attempt == cfg.maxAttempts && Classify(Mine().stage.failure) == Transient
        decreases cfg.maxAttempts - attempt
      {
        var reply := HandlePitchRaw(attempt);
        match reply {
          case Killed => return false;
          case Done => return true;
          case Duplicated => return true;
          case Error(f) =>
            if attempt < cfg.maxAttempts || Classify(f) != Transient {
              var verdict := Triage(attempt, f);
              if !verdict.Again? {
                return verdict.Returned?;
              }
            }
        }
        attempt := attempt + 1;
      }
      alive := FileAway(RetryExhausted, cfg.maxAttempts);
    }

    /** One round of the loop of runReader. */
    method ReadOne() returns (stopped: bool)
      requires Valid() && Mine().stage.Idle? && script != []
      modifies this`world, this`script, this`trace
      ensures Continues() && |script| < |old(script)|
      ensures if stopped then script == [] || StoppedByCancel() else Mine().stage.Idle?
    {
      var beat := NextBeat();
      var choice, filed := beat.value.choice, beat.value.filed;
      if Mine().cancelled {
        ghost var before := trace;
        Replace(Restarted(Mine()), choice, filed);
        assert trace[..|trace| - 1] == before;
        return true;
      }
      if choice.Fails? || Mine().position >= |Mine().log| {
        return false;
      }
      SetStage(Attempting(1), choice, filed);
      var alive := ProcessMessage();
      if !alive {
        return true;
      }
      stopped := CommitMessage();
    }

    /** runReader: fetch, process, commit, until the script ends or the context is cancelled.
        Every execution is a run of the machine, so it leaves no offset below the committed
        one without an outcome. */
    method RunReader()
      requires Valid() && ValidConfig(cfg) && Mine().stage.Idle?
      modifies this`world, this`script, this`trace
      ensures Continues() && world == Reach(cfg, trace)
      ensures NoneSkipped(world, p)
      ensures script == [] || StoppedByCancel()
    {
      while script != []
        invariant Continues() && Mine().stage.Idle?
        decreases |script|
      {
        var stopped := ReadOne();
        if stopped {
          break;
        }
      }
      NothingSkipped(cfg, trace);
    }

    /** CommitMessages and what the loop does with its error. */
    method CommitMessage() returns (stopped: bool)
      requires Valid() && (Mine().stage.Finished? || Mine().stage.Abandoned?)
      modifies this`world, this`script, this`trace
      ensures Continues()
      ensures if stopped then script == [] || StoppedByCancel() else Mine().stage.Idle?
    {
      var beat := NextBeat();
      if beat.None? {
        return true;
      }
      var choice, filed := beat.value.choice, beat.value.filed;
      var part := Mine();
      if part.cancelled || part.stage.Abandoned? {
        ghost var before := trace;
        Replace(Restarted(part), choice, filed);
        assert trace[..|trace| - 1] == before;
        return true;
      }
      var next := part.position + 1;
      if choice.Fails? {
        Replace(part.(position := next, stage := Idle), choice, filed);
      } else {
        Replace(part.(committed := next, position := next, stage := Idle), choice, filed);
      }
      return false;
    }
  }

  // --- effects written out --------------------------------------------------

  lemma QuietEnact(s: State, p: nat, part: Partition)
    requires p < |s.parts|
    ensures Enact(s, p, Quiet(part)) == s.(parts := s.parts[p := part])
  {
  }

  lemma LetterEnact(s: State, p: nat, part: Partition, letter: Letter)
    requires p < |s.parts|
    ensures Enact(s, p, Quiet(part).(letters := [letter]))
         == s.(parts := s.parts[p := part], letters := s.letters + [letter])
  {
  }

  lemma UnfiledEnact(s: State, p: nat, part: Partition, o: nat)
    requires p < |s.parts|
    ensures Enact(s, p, Quiet(part).(unfiled := {(p, o)}))
         == s.(parts := s.parts[p := part], unfiled := s.unfiled + {(p, o)})
  {
  }

  lemma StoreEnact(cfg: Config, s: State, p: nat, row: Row, choice: Choice, filed: bool)
    requires p < |s.parts| && s.parts[p].stage.Indexed? && s.parts[p].position < |s.parts[p].log|
    requires Storable(Current(s.parts[p]).value) && !choice.Fails? && !Has(s.table, row.uid)
    requires
      row == RowOf(PitchOf(Current(s.parts[p]).value), s.parts[p].stage.answer, s.parts[p].stage.index,
                   p, s.parts[p].position)
    ensures
      var a := s.parts[p].stage.attempt;
      var lostAck := choice.FailsAfterEffect?;
      Enact(s, p, ReaderStep(cfg, s.table, p, s.parts[p], choice, filed)) == s.(
        parts := s.parts[p := s.parts[p].(stage := if lostAck then Failed(a, choice.failure) else Stored(a, row))],
        table := s.table + [row], blemished := s.blemished + (if lostAck then {row.session} else {}),
        predictions := WithPrediction(s.predictions, row, s.active),
        storedUnder := s.storedUnder[row.uid := s.active])
  {
  }

  lemma RecordEnact(cfg: Config, s: State, p: nat, attempt: nat, row: Row, choice: Choice, filed: bool)
    requires p < |s.parts| && s.parts[p].stage == Stored(attempt, row) && s.parts[p].position < |s.parts[p].log|
    ensures
      var n := |Commands(row)|;
      var k := match choice case Fails(_) => 0 case Partial(m) => if m < n then m else n case _ => n;
      Enact(s, p, ReaderStep(cfg, s.table, p, s.parts[p], choice, filed)) == s.(
        parts := s.parts[p := s.parts[p].(stage := Counted(attempt, row))], recorded := s.recorded + [row],
        live := Increment(s.live, row, k), credits := s.credits + CreditsUpTo(row, k),
        blemished := s.blemished + if k < n then {row.session} else {})
  {
  }

  lemma PublishEnact(cfg: Config, s: State, p: nat, attempt: nat, row: Row, choice: Choice, filed: bool)
    requires p < |s.parts| && s.parts[p].stage == Counted(attempt, row) && s.parts[p].position < |s.parts[p].log|
    requires !choice.Fails?
    ensures
      Enact(s, p, ReaderStep(cfg, s.table, p, s.parts[p], choice, filed)) == s.(
        parts := s.parts[p := s.parts[p].(stage :=
          if choice.FailsAfterEffect? then Failed(attempt, choice.failure) else Finished)],
        published := s.published + [row])
  {
  }
}
