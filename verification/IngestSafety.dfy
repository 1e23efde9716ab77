/** What every run of the ingest machine keeps. */
module IngestSafety {
  import opened Wrappers
  import opened Wire
  import opened PitchTable
  import opened LiveCounters
  import opened Ingest

  // --- one step of a reader, summarised ------------------------------------

  predicate Pending(stage: Stage) { stage.Stored? || stage.Counted? }

  /** Offsets are ordered, and a reader in the middle of a message has one to read. */
  predicate PartitionPlaced(cfg: Config, part: Partition) {
    && part.committed <= part.position <= |part.log|
    && (!part.stage.Idle? ==> part.position < |part.log|)
    && (part.stage.Indexed? || Pending(part.stage) ==> Storable(part.log[part.position].value))
    && match part.stage
       case Attempting(a) => 1 <= a <= cfg.maxAttempts
       case Indexed(a, _, _) => 1 <= a <= cfg.maxAttempts
       case Stored(a, _) => 1 <= a <= cfg.maxAttempts
       case Counted(a, _) => 1 <= a <= cfg.maxAttempts
       case Failed(a, f) => 1 <= a <= cfg.maxAttempts && !f.duplicate
       case Waiting(a) => 1 <= a < cfg.maxAttempts
       case _ => true
  }

  /** Where a reader may go, and how its offsets move: past a message only from Finished. */
  predicate LegalMove(cfg: Config, table: Table, part: Partition, after: Partition) {
    && after.log == part.log
    && PartitionPlaced(cfg, after)
    && (after.position == part.position
        || after.position == part.committed
        || (part.stage.Finished? && after.position == part.position + 1))
    && (after.committed == part.committed || part.stage.Finished?)
    && (after.stage.Finished? || (after.stage == part.stage && !part.stage.Idle?) ==> after.position == part.position)
    && (after.stage.Indexed? && after.stage != part.stage ==>
          && part.stage.Attempting? && after.position == part.position && after.position < |after.log|
          && Storable(Current(after).value)
          && after.stage.index == NextIndex(table, PitchOf(Current(after).value).sessionUid))
  }

  predicate LegalEffect(cfg: Config, table: Table, p: nat, part: Partition, eff: Effect) {
    && LegalInsert(table, p, part, eff)
    && LegalRecord(part, eff)
    && LegalPublish(part, eff)
    && LegalLetter(p, part, eff)
    && (Pending(eff.part.stage) && eff.part.stage != part.stage ==> eff.inserted != [] || eff.recorded != [])
    && (eff.part.stage.Finished? && !part.stage.Finished? && !part.stage.Counted? && part.position < |part.log| ==>
          eff.letters != [] || eff.unfiled != {}
          || (Storable(Current(part).value) && Has(table, PitchUid(PitchOf(Current(part).value)))))
    && (part.stage.Stored? && eff.recorded == [] ==>
          eff.part.stage == part.stage || part.stage.row.session in eff.blemished)
  }

  /** A row is inserted once, by a reader holding an index, when its natural key is new. */
  predicate LegalInsert(table: Table, p: nat, part: Partition, eff: Effect) {
    eff.inserted != [] ==>
      && part.stage.Indexed? && part.position < |part.log| && Storable(Current(part).value)
      && eff.inserted == [RowOf(PitchOf(Current(part).value), part.stage.answer, part.stage.index, p, part.position)]
      && !Has(table, eff.inserted[0].uid)
      && eff.recorded == [] && eff.published == []
      && eff.part == part.(stage := eff.part.stage) && !eff.part.stage.Indexed?
      && (if Pending(eff.part.stage) then eff.part.stage == Stored(part.stage.attempt, eff.inserted[0])
          else eff.inserted[0].session in eff.blemished)
  }

  predicate LegalRecord(part: Partition, eff: Effect) {
    eff.recorded != [] ==>
      && part.stage.Stored?
      && eff.recorded == [part.stage.row]
      && eff.part == part.(stage := Counted(part.stage.attempt, part.stage.row))
      && eff.inserted == [] && eff.published == []
      && eff.executed <= |Commands(part.stage.row)|
      && (eff.executed < |Commands(part.stage.row)| ==> part.stage.row.session in eff.blemished)
  }

  predicate LegalPublish(part: Partition, eff: Effect) {
    eff.published != [] ==>
      && part.stage.Counted? && eff.published == [part.stage.row] && !Pending(eff.part.stage)
  }

  /** A dead letter keeps the message exactly and ends it; so does a failure to write one. */
  predicate LegalLetter(p: nat, part: Partition, eff: Effect) {
    && (eff.letters != [] ==>
          && eff.part.stage.Finished? && part.position < |part.log| && |eff.letters| == 1
          && eff.letters[0].partition == p && eff.letters[0].offset == part.position
          && eff.letters[0].payload == Current(part).value && eff.letters[0].key == Current(part).key
          && eff.letters[0].replayCount == ReplayCount(Current(part).headers))
    && (eff.unfiled != {} ==> eff.part.stage.Finished? && eff.unfiled == {(p, part.position)})
  }

  /** A failed attempt ends in a dead letter, a wait or an abandoned message; it writes
      nothing else. */
  predicate FailureShape(cfg: Config, p: nat, part: Partition, eff: Effect) {
    && eff.part == part.(stage := eff.part.stage)
    && eff.inserted == [] && eff.recorded == [] && eff.published == [] && eff.blemished == {}
    && LegalLetter(p, part, eff)
    && (match eff.part.stage
        case Finished => eff.letters != [] || eff.unfiled != {}
        case Waiting(a) => 1 <= a < cfg.maxAttempts
        case Abandoned => true
        case _ => false)
  }

  lemma DeadLetterShape(cfg: Config, p: nat, part: Partition, c: ErrorClass, attempts: nat, filed: bool)
    requires part.position < |part.log|
    ensures FailureShape(cfg, p, part, DeadLetter(cfg, p, part, c, attempts, filed))
  {
  }

  lemma OnFailureShape(cfg: Config, p: nat, part: Partition, attempt: nat, f: Failure, filed: bool)
    requires part.position < |part.log| && attempt >= 1 && !f.duplicate
    ensures FailureShape(cfg, p, part, OnFailure(cfg, p, part, attempt, f, filed))
  {
    DeadLetterShape(cfg, p, part, ClassOf(f), attempt, filed);
    DeadLetterShape(cfg, p, part, RetryExhausted, cfg.maxAttempts, filed);
  }

  lemma InsertIsLegal(
    cfg: Config, table: Table, p: nat, part: Partition,
    attempt: nat, index: int, answer: Option<Answer>, choice: Choice)
    requires PartitionPlaced(cfg, part) && part.stage == Indexed(attempt, index, answer) && Plausible(choice)
    ensures LegalMove(cfg, table, part, Insert(table, p, part, attempt, index, answer, choice).part)
    ensures LegalEffect(cfg, table, p, part, Insert(table, p, part, attempt, index, answer, choice))
  {
  }

  lemma AttemptIsLegal(
    cfg: Config, table: Table, p: nat, part: Partition, attempt: nat, choice: Choice, filed: bool)
    requires PartitionPlaced(cfg, part) && part.stage == Attempting(attempt) && Plausible(choice)
    ensures LegalMove(cfg, table, part, Attempt(cfg, table, p, part, attempt, choice, filed).part)
    ensures LegalEffect(cfg, table, p, part, Attempt(cfg, table, p, part, attempt, choice, filed))
  {
    if Current(part).value.Malformed? {
      DeadLetterShape(cfg, p, part, Current(part).value.parseClass, 1, filed);
    }
  }

  lemma RecordIsLegal(cfg: Config, table: Table, p: nat, part: Partition, attempt: nat, row: Row, choice: Choice)
    requires PartitionPlaced(cfg, part) && part.stage == Stored(attempt, row)
    ensures LegalMove(cfg, table, part, RecordPitch(part, attempt, row, choice).part)
    ensures LegalEffect(cfg, table, p, part, RecordPitch(part, attempt, row, choice))
  {
  }

  lemma PublishIsLegal(cfg: Config, table: Table, p: nat, part: Partition, attempt: nat, row: Row, choice: Choice)
    requires PartitionPlaced(cfg, part) && part.stage == Counted(attempt, row) && Plausible(choice)
    ensures LegalMove(cfg, table, part, Publish(part, attempt, row, choice).part)
    ensures LegalEffect(cfg, table, p, part, Publish(part, attempt, row, choice))
  {
  }

  lemma FailureIsLegal(cfg: Config, table: Table, p: nat, part: Partition, eff: Effect)
    requires PartitionPlaced(cfg, part) && part.stage.Failed? && FailureShape(cfg, p, part, eff)
    ensures LegalMove(cfg, table, part, eff.part) && LegalEffect(cfg, table, p, part, eff)
  {
  }

  /** Fetching, waiting, committing and giving up move the reader and write nothing. */
  predicate Moving(stage: Stage) { stage.Idle? || stage.Waiting? || stage.Finished? || stage.Abandoned? }

  lemma MoveIsLegal(cfg: Config, table: Table, p: nat, part: Partition, choice: Choice, filed: bool)
    requires cfg.maxAttempts >= 1 && PartitionPlaced(cfg, part) && Moving(part.stage)
    ensures
      var eff := ReaderStep(cfg, table, p, part, choice, filed);
      eff == Quiet(eff.part) && LegalMove(cfg, table, part, eff.part) && !Pending(eff.part.stage)
      && (eff.part.stage.Finished? ==> part.stage.Finished?)
  {
  }

  lemma QuietIsLegal(table: Table, p: nat, part: Partition, after: Partition)
    requires Moving(part.stage) && !Pending(after.stage) && (after.stage.Finished? ==> part.stage.Finished?)
    ensures forall cfg :: LegalEffect(cfg, table, p, part, Quiet(after))
  {
  }

  lemma StepIsLegal(cfg: Config, table: Table, p: nat, part: Partition, choice: Choice, filed: bool)
    requires cfg.maxAttempts >= 1 && PartitionPlaced(cfg, part) && Plausible(choice)
    ensures LegalMove(cfg, table, part, ReaderStep(cfg, table, p, part, choice, filed).part)
    ensures LegalEffect(cfg, table, p, part, ReaderStep(cfg, table, p, part, choice, filed))
  {
    match part.stage
    case Attempting(attempt) => AttemptIsLegal(cfg, table, p, part, attempt, choice, filed);
    case Indexed(attempt, index, answer) =>
      InsertIsLegal(cfg, table, p, part, attempt, index, answer, choice);
    case Stored(attempt, row) => RecordIsLegal(cfg, table, p, part, attempt, row, choice);
    case Counted(attempt, row) => PublishIsLegal(cfg, table, p, part, attempt, row, choice);
    case Failed(attempt, f) =>
      OnFailureShape(cfg, p, part, attempt, f, filed);
      FailureIsLegal(cfg, table, p, part, OnFailure(cfg, p, part, attempt, f, filed));
    case _ =>
      MoveIsLegal(cfg, table, p, part, choice, filed);
      QuietIsLegal(table, p, part, ReaderStep(cfg, table, p, part, choice, filed).part);
  }

  lemma CrashIsLegal(cfg: Config, table: Table, p: nat, part: Partition)
    requires PartitionPlaced(cfg, part)
    ensures LegalMove(cfg, table, part, Crash(part).part) && LegalEffect(cfg, table, p, part, Crash(part))
  {
  }

  lemma CancelIsLegal(cfg: Config, table: Table, p: nat, part: Partition)
    requires PartitionPlaced(cfg, part)
    ensures
      var eff := Quiet(part.(cancelled := true));
      LegalMove(cfg, table, part, eff.part) && LegalEffect(cfg, table, p, part, eff)
  {
  }

  // --- offsets and outcomes ------------------------------------------------

  ghost predicate Placed(cfg: Config, s: State) {
    && |s.parts| == cfg.partitions
    && forall p :: 0 <= p < |s.parts| ==> PartitionPlaced(cfg, s.parts[p])
  }

  /** The exact bytes of an offset, under its key, are in a dead letter. */
  predicate Filed(letters: seq<Letter>, p: nat, o: nat, rec: Record) {
    exists i :: 0 <= i < |letters|
      && letters[i].partition == p && letters[i].offset == o
      && letters[i].payload == rec.value && letters[i].key == rec.key
  }

  predicate InTable(table: Table, v: Value) { Storable(v) && Has(table, PitchUid(PitchOf(v))) }

  /** A definite outcome for one offset: its pitch is in the table, its exact bytes are in a
      dead letter, or the failure to write that letter is on record. */
  predicate Settled(s: State, p: nat, o: nat)
    requires p < |s.parts| && o < |s.parts[p].log|
  {
    var rec := s.parts[p].log[o];
    InTable(s.table, rec.value) || Filed(s.letters, p, o, rec) || (p, o) in s.unfiled
  }

  ghost predicate PartSettled(s: State, p: nat)
    requires p < |s.parts|
  {
    var part := s.parts[p];
    && (forall o :: 0 <= o < part.position && o < |part.log| ==> Settled(s, p, o))
    && (part.stage.Finished? && part.position < |part.log| ==> Settled(s, p, part.position))
    && (part.stage.Counted? && part.position < |part.log| ==> InTable(s.table, Current(part).value))
  }

  ghost predicate AllSettled(s: State) {
    forall p :: 0 <= p < |s.parts| ==> PartSettled(s, p)
  }

  lemma HasStays(t: Table, more: seq<Row>, uid: string)
    requires Has(t, uid)
    ensures Has(t + more, uid)
  {
    var i :| 0 <= i < |t| && t[i].uid == uid;
    assert (t + more)[i] == t[i];
  }

  lemma FiledStays(letters: seq<Letter>, more: seq<Letter>, p: nat, o: nat, rec: Record)
    requires Filed(letters, p, o, rec)
    ensures Filed(letters + more, p, o, rec)
  {
    var i :| 0 <= i < |letters|
      && letters[i].partition == p && letters[i].offset == o
      && letters[i].payload == rec.value && letters[i].key == rec.key;
    assert (letters + more)[i] == letters[i];
  }

  /** What settles an offset is never taken back. */
  lemma SettledStays(s: State, p: nat, o: nat, q: nat, eff: Effect)
    requires p < |s.parts| && o < |s.parts[p].log| && q < |s.parts|
    requires eff.part.log == s.parts[q].log
    requires Settled(s, p, o)
    ensures Settled(Enact(s, q, eff), p, o)
  {
    var rec := s.parts[p].log[o];
    if InTable(s.table, rec.value) {
      HasStays(s.table, eff.inserted, PitchUid(PitchOf(rec.value)));
    } else if Filed(s.letters, p, o, rec) {
      FiledStays(s.letters, eff.letters, p, o, rec);
    }
  }

  /** The step that ends a message settles it. */
  lemma FinishingSettles(cfg: Config, s: State, p: nat, eff: Effect)
    requires p < |s.parts| && PartitionPlaced(cfg, s.parts[p])
    requires LegalMove(cfg, s.table, s.parts[p], eff.part) && LegalEffect(cfg, s.table, p, s.parts[p], eff)
    requires PartSettled(s, p) && eff.part.stage.Finished?
    ensures eff.part.position < |eff.part.log| && Settled(Enact(s, p, eff), p, eff.part.position)
  {
    var part, t := s.parts[p], Enact(s, p, eff);
    var o := part.position;
    if eff.letters != [] {
      assert t.letters[|s.letters|] == eff.letters[0];
      assert Filed(t.letters, p, o, Current(part));
    } else if eff.unfiled != {} {
    } else if part.stage.Finished? {
      SettledStays(s, p, o, p, eff);
    } else {
      HasStays(s.table, eff.inserted, PitchUid(PitchOf(Current(part).value)));
    }
  }

  lemma EnactKeepsSettled(cfg: Config, s: State, p: nat, eff: Effect)
    requires p < |s.parts| && Placed(cfg, s) && AllSettled(s)
    requires LegalMove(cfg, s.table, s.parts[p], eff.part) && LegalEffect(cfg, s.table, p, s.parts[p], eff)
    requires s.parts[p].stage.Stored? ==> InTable(s.table, Current(s.parts[p]).value)
    ensures Placed(cfg, Enact(s, p, eff)) && AllSettled(Enact(s, p, eff))
  {
    var t := Enact(s, p, eff);
    assert PartSettled(s, p);
    forall q | 0 <= q < |t.parts| ensures PartSettled(t, q) {
      assert PartSettled(s, q);
      forall o | 0 <= o < t.parts[q].position && o < |t.parts[q].log| ensures Settled(t, q, o) {
        SettledStays(s, q, o, p, eff);
      }
      if q == p && eff.part.stage.Finished? {
        FinishingSettles(cfg, s, p, eff);
      } else if t.parts[q].stage.Finished? {
        SettledStays(s, q, t.parts[q].position, p, eff);
      }
      if t.parts[q].stage.Counted? {
        HasStays(s.table, eff.inserted, PitchUid(PitchOf(Current(s.parts[q]).value)));
      }
    }
  }
}
