/** At-least-once ingest as a state machine: partition logs and committed offsets, the
    consumer's attempts, the handler's transaction, cache update and publish, the dead
    letters and their replay. One step is one durable effect, so crashes, rebalances and
    other partitions may fall between any two of them. */
module Ingest {
  import opened Wrappers
  import opened Wire
  import opened PitchTable
  import opened LiveCounters

  /** route is the hash balancer: the partition is a function of the key. keying is how the
      producer keys a reading. */
  datatype Config = Config(
    partitions: nat, maxAttempts: nat, dlq: bool, maxReplays: nat,
    route: string -> nat, keying: RawPitch -> string)

  ghost predicate ValidConfig(cfg: Config) {
    && cfg.maxAttempts >= 1
    && forall key :: cfg.route(key) < cfg.partitions
  }

  /** Where the goroutine owning a partition stands with the message at its position. */
  datatype Stage =
    | Idle
    | Attempting(attempt: nat)              // the handler is about to run
    | Indexed(attempt: nat, index: int, answer: Option<Answer>) // transaction open, next index read
    | Stored(attempt: nat, row: Row)        // transaction committed a new row
    | Counted(attempt: nat, row: Row)       // live counters updated, best effort
    | Failed(attempt: nat, failure: Failure) // the handler returned an error
    | Waiting(attempt: nat)                 // transient failure, backing off
    | Finished                              // processMessage returned with an outcome
    | Abandoned                             // processMessage returned on a cancelled context

  datatype Partition = Partition(log: seq<Record>, committed: nat, position: nat, stage: Stage, cancelled: bool)

  datatype State = State(
    parts: seq<Partition>,
    table: Table,
    letters: seq<Letter>,
    unfiled: set<(nat, nat)>,     // dead letters that could not be written
    recorded: seq<Row>,           // RecordPitch calls
    published: seq<Row>,          // Publish calls for an analyzed event
    live: map<string, Hash>,
    credits: set<Credit>,
    blemished: set<string>,       // sessions whose counters lost something
    active: Option<nat>,          // the active version of the pitching model
    predictions: map<string, Prediction>,
    storedUnder: map<string, Option<nat>>) // history: the active version when a row was stored

  /** A stored score, by its pitch's uid. */
  datatype Prediction = Prediction(version: nat, score: real)

  /** How the operation a stage performs turns out. A failure after the effect is a lost
      acknowledgement. */
  datatype Choice =
    | Proceed
    | Answers(answer: Option<Answer>) // what inference gives, and the operation proceeds
    | Fails(failure: Failure)
    | FailsAfterEffect(failure: Failure)
    | Partial(executed: nat)

  datatype Event =
    | Produce(rec: Record)
    | Replay(letter: nat)
    | Advance(partition: nat, choice: Choice, filed: bool)
    | Cancel(partition: nat)
    | Restart(partition: nat)      // a crash or a rebalance
    | LoseLive(session: string)    // expiry, eviction or DropLiveSession
    | Activate(version: Option<nat>) // a model is registered, switched to or retired

  function Init(cfg: Config): State {
    State(seq(cfg.partitions, _ => Partition([], 0, 0, Idle, false)),
          [], [], {}, [], [], map[], {}, {}, None, map[], map[])
  }

  /** Everything one step of a reader does: the reader's partition afterwards, and what is
      added to each durable collection. */
  datatype Effect = Effect(
    part: Partition,
    inserted: seq<Row>,
    letters: seq<Letter>,
    unfiled: set<(nat, nat)>,
    recorded: seq<Row>,
    executed: nat,             // how many of the recorded row's commands reached Redis
    published: seq<Row>,
    blemished: set<string>)

  function Quiet(part: Partition): Effect { Effect(part, [], [], {}, [], 0, [], {}) }

  function MoveTo(part: Partition, stage: Stage): Effect { Quiet(part.(stage := stage)) }

  // --- pieces of a step ----------------------------------------------------

  function HashOf(live: map<string, Hash>, session: string): Hash {
    if session in live then live[session] else map[]
  }

  function Current(part: Partition): Record
    requires part.position < |part.log|
  {
    part.log[part.position]
  }

  /** deadLetter: the exact bytes, with the replay count the message arrived with. */
  function DeadLetter(
    cfg: Config, p: nat, part: Partition, errorClass: ErrorClass, attempts: nat, filed: bool): Effect
    requires part.position < |part.log|
  {
    var rec := Current(part);
    var letter := Letter(ReplayCount(rec.headers), rec.value, p, part.position, rec.key, errorClass, attempts);
    var finished := MoveTo(part, Finished);
    if cfg.dlq && filed then finished.(letters := [letter])
    else finished.(unfiled := {(p, part.position)})
  }

  /** What the retry loop does with an error from the handler. */
  function OnFailure(cfg: Config, p: nat, part: Partition, attempt: nat, f: Failure, filed: bool): Effect
    requires part.position < |part.log|
  {
    match Classify(f)
    case Duplicate => MoveTo(part, Finished)
    case Permanent => DeadLetter(cfg, p, part, ClassOf(f), attempt, filed)
    case Transient =>
      if attempt >= cfg.maxAttempts then DeadLetter(cfg, p, part, RetryExhausted, cfg.maxAttempts, filed)
      else if part.cancelled then MoveTo(part, Abandoned)
      else MoveTo(part, Waiting(attempt))
  }

  function RowOf(raw: RawPitch, answer: Option<Answer>, index: int, p: nat, offset: nat): Row
    requires ValidRaw(raw)
  {
    Row(PitchUid(raw), raw.sessionUid, index, p, offset, raw.speed, raw.spin,
        raw.outcome == "SWINGING_STRIKE", answer)
  }

  function AnswerOf(choice: Choice): Option<Answer> {
    match choice case Answers(a) => a case _ => None
  }

  /** The parse, the checks, the predictions, none of which can fail the pitch, and the first half
      of the transaction: the upsert of the session, and the next index. */
  function Attempt(
    cfg: Config, table: Table, p: nat, part: Partition, attempt: nat, choice: Choice, filed: bool): Effect
    requires part.position < |part.log|
  {
    var value := Current(part).value;
    if value.Malformed? then DeadLetter(cfg, p, part, value.parseClass, 1, filed)
    else if !Storable(value) then MoveTo(part, Failed(attempt, REFUSED))
    else match choice
      case Fails(f) => MoveTo(part, Failed(attempt, f))
      case FailsAfterEffect(f) => MoveTo(part, Failed(attempt, f))
      case _ => MoveTo(part, Indexed(attempt, NextIndex(table, PitchOf(value).sessionUid), AnswerOf(choice)))
  }

  /** InsertPitch ... ON CONFLICT DO NOTHING, and the commit of the transaction. */
  function Insert(
    table: Table, p: nat, part: Partition, attempt: nat, index: int, answer: Option<Answer>,
    choice: Choice): Effect
    requires part.position < |part.log| && Storable(Current(part).value)
  {
    var row := RowOf(PitchOf(Current(part).value), answer, index, p, part.position);
    if choice.Fails? then MoveTo(part, Failed(attempt, choice.failure))
    else if Has(table, row.uid) then
      MoveTo(part, if choice.FailsAfterEffect? then Failed(attempt, choice.failure) else Finished)
    else if choice.FailsAfterEffect? then
      MoveTo(part, Failed(attempt, choice.failure)).(inserted := [row], blemished := {row.session})
    else
      MoveTo(part, Stored(attempt, row)).(inserted := [row])
  }

  /** RecordPitch, of which only a prefix may reach Redis. */
  function RecordPitch(part: Partition, attempt: nat, row: Row, choice: Choice): Effect {
    var n := |Commands(row)|;
    var k := match choice
             case Fails(_) => 0
             case Partial(m) => if m < n then m else n
             case _ => n;
    MoveTo(part, Counted(attempt, row)).(
      recorded := [row], executed := k, blemished := if k < n then {row.session} else {})
  }

  /** Building and publishing the analyzed event. Fails is a build error: no call is made. */
  function Publish(part: Partition, attempt: nat, row: Row, choice: Choice): Effect {
    if choice.Fails? then MoveTo(part, Failed(attempt, choice.failure))
    else if choice.FailsAfterEffect? then
      MoveTo(part, Failed(attempt, choice.failure)).(published := [row])
    else
      MoveTo(part, Finished).(published := [row])
  }

  function Restarted(part: Partition): Partition {
    part.(position := part.committed, stage := Idle, cancelled := false)
  }

  /** A crash between the commit of a row and its cache update leaves the counters short. */
  function Crash(part: Partition): Effect {
    Quiet(Restarted(part)).(blemished := if part.stage.Stored? then {part.stage.row.session} else {})
  }

  /** CommitMessages. Under a cancelled context it moves nothing and the reader stops. */
  function Commit(part: Partition, choice: Choice): Partition {
    if part.cancelled then Restarted(part)
    else if choice.Fails? then part.(position := part.position + 1, stage := Idle)
    else part.(committed := part.position + 1, position := part.position + 1, stage := Idle)
  }

  function ReaderStep(cfg: Config, table: Table, p: nat, part: Partition, choice: Choice, filed: bool): Effect {
    if part.position >= |part.log| then
      Quiet(if part.stage.Idle? && part.cancelled then Restarted(part) else part)
    else match part.stage
      case Idle =>
        if part.cancelled then Quiet(Restarted(part))
        else if choice.Fails? then Quiet(part)   // the poll failed; the loop asks again
        else MoveTo(part, Attempting(1))
      case Attempting(attempt) => Attempt(cfg, table, p, part, attempt, choice, filed)
      case Indexed(attempt, index, answer) =>
        if Storable(Current(part).value) then Insert(table, p, part, attempt, index, answer, choice)
        else Quiet(part)
      case Stored(attempt, row) => RecordPitch(part, attempt, row, choice)
      case Counted(attempt, row) => Publish(part, attempt, row, choice)
      case Failed(attempt, f) => OnFailure(cfg, p, part, attempt, f, filed)
      case Waiting(attempt) =>
        MoveTo(part, if part.cancelled && choice.Fails? then Abandoned else Attempting(attempt + 1))
      case Finished => Quiet(Commit(part, choice))
      case Abandoned => Quiet(Restarted(part))
  }

  /** Carrying an effect out. */
  function Enact(s: State, p: nat, eff: Effect): State
    requires p < |s.parts|
  {
    s.(
      parts := s.parts[p := eff.part],
      table := s.table + eff.inserted,
      letters := s.letters + eff.letters,
      unfiled := s.unfiled + eff.unfiled,
      recorded := s.recorded + eff.recorded,
      published := s.published + eff.published,
      live := if eff.recorded == [] then s.live else Increment(s.live, eff.recorded[0], eff.executed),
      credits := if eff.recorded == [] then s.credits else s.credits + CreditsUpTo(eff.recorded[0], eff.executed),
      blemished := s.blemished + eff.blemished,
      predictions := if eff.inserted == [] then s.predictions
                     else WithPrediction(s.predictions, eff.inserted[0], s.active),
      storedUnder := if eff.inserted == [] then s.storedUnder else s.storedUnder[eff.inserted[0].uid := s.active])
  }

  /** persistPrediction, in the same transaction: without an active version, or without one of the
      two output shapes, the score is not stored. */
  function PredictionOf(row: Row, active: Option<nat>): Option<Prediction> {
    if row.answer.None? || active.None? then None
    else if !row.answer.value.probabilities && !row.answer.value.whiff then None
    else Some(Prediction(active.value, row.answer.value.score))
  }

  function WithPrediction(
    predictions: map<string, Prediction>, row: Row, active: Option<nat>): map<string, Prediction>
  {
    match PredictionOf(row, active)
    case None => predictions
    case Some(prediction) => predictions[row.uid := prediction]
  }

  function Increment(live: map<string, Hash>, row: Row, k: nat): map<string, Hash> {
    live[row.session := Execute(HashOf(live, row.session), Prefix(row, k))]
  }

  function CreditsUpTo(row: Row, k: nat): set<Credit> { CreditsOf(row, Prefix(row, k)) }

  function Prefix(row: Row, k: nat): seq<Command> {
    if k < |Commands(row)| then Commands(row)[..k] else Commands(row)
  }

  // --- the lock on a session -----------------------------------------------

  /** An open transaction has upserted its session, and holds that row to its end. */
  predicate Holds(part: Partition, session: string) {
    && part.stage.Indexed? && part.position < |part.log| && Storable(Current(part).value)
    && PitchOf(Current(part).value).sessionUid == session
  }

  predicate HeldElsewhere(s: State, p: nat, session: string) {
    exists q :: 0 <= q < |s.parts| && q != p && Holds(s.parts[q], session)
  }

  /** The reader's upsert would have to wait for another transaction to end. */
  predicate Blocked(s: State, p: nat) {
    && p < |s.parts| && s.parts[p].stage.Attempting? && s.parts[p].position < |s.parts[p].log|
    && Storable(Current(s.parts[p]).value)
    && HeldElsewhere(s, p, PitchOf(Current(s.parts[p]).value).sessionUid)
  }

  /** So the operation does not come about, though it may fail. */
  predicate Waits(s: State, p: nat, choice: Choice) { Blocked(s, p) && !choice.Fails? && !choice.FailsAfterEffect? }

  // --- the steps -----------------------------------------------------------

  /** Only the pipeline itself reports a duplicate; the database and the broker never do. */
  predicate Plausible(choice: Choice) {
    match choice
    case Fails(f) => !f.duplicate
    case FailsAfterEffect(f) => !f.duplicate
    case _ => true
  }

  /** A producer keys a reading its own way, and starts it with no replays. */
  predicate WellKeyed(cfg: Config, rec: Record) {
    && (Storable(rec.value) ==> rec.key == cfg.keying(PitchOf(rec.value)))
    && ReplayCount(rec.headers) == 0
  }

  function Append(cfg: Config, s: State, rec: Record): State {
    var p := cfg.route(rec.key);
    if p < |s.parts| then s.(parts := s.parts[p := s.parts[p].(log := s.parts[p].log + [rec])]) else s
  }

  function Republished(letter: Letter): Record {
    Record(letter.key, letter.payload, ReplayHeaders(letter.replayCount + 1))
  }

  /** One step. An event that does not apply leaves the state as it is. */
  function Apply(cfg: Config, s: State, e: Event): State {
    match e
    case Produce(rec) => if WellKeyed(cfg, rec) then Append(cfg, s, rec) else s
    case Replay(i) =>
      if i < |s.letters| && (cfg.maxReplays > 0 ==> s.letters[i].replayCount < cfg.maxReplays)
      then Append(cfg, s, Republished(s.letters[i])) else s
    case Advance(p, choice, filed) =>
      if p < |s.parts| && Plausible(choice) && !Waits(s, p, choice)
      then Enact(s, p, ReaderStep(cfg, s.table, p, s.parts[p], choice, filed)) else s
    case Cancel(p) => if p < |s.parts| then Enact(s, p, Quiet(s.parts[p].(cancelled := true))) else s
    case Restart(p) => if p < |s.parts| then Enact(s, p, Crash(s.parts[p])) else s
    case LoseLive(session) =>
      s.(live := s.live - {session},
         credits := (set c | c in s.credits && c.session != session),
         blemished := s.blemished + {session})
    case Activate(version) => s.(active := version)
  }

  function Run(cfg: Config, s: State, events: seq<Event>): State {
    if events == [] then s
    else Apply(cfg, Run(cfg, s, events[..|events| - 1]), events[|events| - 1])
  }

  lemma {:induction false} RunConcat(cfg: Config, s: State, a: seq<Event>, b: seq<Event>)
    ensures Run(cfg, s, a + b) == Run(cfg, Run(cfg, s, a), b)
  {
    if b == [] {
      assert a + b == a;
    } else {
      var last := |b| - 1;
      RunConcat(cfg, s, a, b[..last]);
      assert (a + b)[..|a + b| - 1] == a + b[..last];
    }
  }
}
