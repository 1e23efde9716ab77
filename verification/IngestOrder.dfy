/** What the keys are for: exactly when a session's pitches are stored, and so numbered, in the
    order in which their messages were appended to the log. */
module IngestOrder {
  import opened Wrappers
  import opened Wire
  import opened PitchTable
  import opened Ingest
  import opened IngestSafety
  import opened IngestIdempotence
  import opened IngestTheorems

  function Home(cfg: Config, raw: RawPitch): nat { cfg.route(cfg.keying(raw)) }

  /** All readings of a session go to one partition. */
  ghost predicate KeyedBySession(cfg: Config) {
    forall a, b :: ValidRaw(a) && ValidRaw(b) && a.sessionUid == b.sessionUid ==> Home(cfg, a) == Home(cfg, b)
  }

  // --- the order -----------------------------------------------------------

  /** The message a row was stored from is in its log. */
  predicate Appended(s: State, row: Row) {
    row.partition < |s.parts| && row.offset < |s.parts[row.partition].log|
  }

  /** At some moment of the run the one row's message was in its log and the other's was not. */
  ghost predicate AppendedBefore(cfg: Config, events: seq<Event>, a: Row, b: Row) {
    exists k :: 0 <= k <= |events| && Appended(Reach(cfg, events[..k]), a) && !Appended(Reach(cfg, events[..k]), b)
  }

  /** No session has a row stored after another whose message was appended later. */
  ghost predicate InAppendOrder(cfg: Config, events: seq<Event>) {
    var t := Reach(cfg, events).table;
    forall i, j :: 0 <= i < j < |t| && t[i].session == t[j].session ==> !AppendedBefore(cfg, events, t[j], t[i])
  }

  /** Rows of one partition are in the order of its log. */
  predicate LogOrder(t: Table) {
    forall i, j :: 0 <= i < j < |t| && t[i].partition == t[j].partition ==> t[i].offset < t[j].offset
  }

  lemma LogOrderGrows(t: Table, row: Row)
    requires LogOrder(t) && forall i :: 0 <= i < |t| && t[i].partition == row.partition ==> t[i].offset < row.offset
    ensures LogOrder(t + [row])
  {
  }

  /** With sessions kept together, that is all it takes. */
  lemma LogOrderIsAppendOrder(cfg: Config, events: seq<Event>)
    requires ValidConfig(cfg) && KeyedBySession(cfg) && LogOrder(Reach(cfg, events).table)
    ensures InAppendOrder(cfg, events)
  {
    ReachInv(cfg, events);
    var s := Reach(cfg, events);
    forall i, j | 0 <= i < j < |s.table| && s.table[i].session == s.table[j].session
      ensures !AppendedBefore(cfg, events, s.table[j], s.table[i])
    {
      RowAtHome(cfg, s, s.table[i]);
      RowAtHome(cfg, s, s.table[j]);
    }
  }

  lemma RowAtHome(cfg: Config, s: State, row: Row)
    requires Routed(cfg, s) && RowFaithful(s, row)
    ensures
      var raw := PitchOf(s.parts[row.partition].log[row.offset].value);
      raw.sessionUid == row.session && Home(cfg, raw) == row.partition
  {
    assert RecordRouted(cfg, row.partition, s.parts[row.partition].log[row.offset]);
  }

  // --- what can upset it ---------------------------------------------------

  /** The offset of a finished message could not be committed. */
  predicate FailedCommit(s: State, e: Event) {
    && e.Advance? && e.partition < |s.parts| && e.choice.Fails?
    && s.parts[e.partition].stage.Finished? && !s.parts[e.partition].cancelled
  }

  ghost predicate CommitsHold(cfg: Config, events: seq<Event>) {
    forall k :: 0 <= k < |events| ==> !FailedCommit(Reach(cfg, events[..k]), events[k])
  }

  /** No reading that could be stored has been given up and dead-lettered. */
  ghost predicate NoReadingFiled(s: State) {
    && (forall i :: 0 <= i < |s.letters| ==> !Storable(s.letters[i].payload))
    && (forall p, o :: 0 <= p < |s.parts| && 0 <= o < |s.parts[p].log| && (p, o) in s.unfiled ==>
          !Storable(s.parts[p].log[o].value))
  }

  // --- no failed commit ----------------------------------------------------

  /** A reader is never past its committed offset, and no row is. */
  ghost predicate UpToDate(s: State) {
    && (forall p :: 0 <= p < |s.parts| ==> s.parts[p].position == s.parts[p].committed)
    && (forall i :: 0 <= i < |s.table| ==>
          s.table[i].partition < |s.parts| && s.table[i].offset <= s.parts[s.table[i].partition].position)
    && LogOrder(s.table)
  }

  /** No row was stored from the message at hand. */
  lemma NotFromHere(s: State, p: nat, eff: Effect, row: Row)
    requires p < |s.parts| && LegalInsert(s.table, p, s.parts[p], eff) && eff.inserted != []
    requires row in s.table && RowFaithful(s, row) && row.partition == p
    ensures row.offset != s.parts[p].position && eff.inserted[0].offset == s.parts[p].position
    ensures eff.inserted[0].partition == p && |eff.inserted| == 1
  {
    var i :| 0 <= i < |s.table| && s.table[i] == row;
  }

  lemma NewRowComesLast(s: State, p: nat, eff: Effect)
    requires p < |s.parts| && Rows(s) && UpToDate(s)
    requires LegalInsert(s.table, p, s.parts[p], eff) && eff.inserted != []
    ensures LogOrder(s.table + eff.inserted)
  {
    var row := eff.inserted[0];
    forall i | 0 <= i < |s.table| && s.table[i].partition == row.partition ensures s.table[i].offset < row.offset {
      NotFromHere(s, p, eff, s.table[i]);
    }
    LogOrderGrows(s.table, row);
  }

  lemma StepKeepsUpToDate(cfg: Config, s: State, p: nat, choice: Choice, filed: bool)
    requires cfg.maxAttempts >= 1 && p < |s.parts| && Rows(s) && UpToDate(s) && PartitionPlaced(cfg, s.parts[p])
    requires Plausible(choice) && !FailedCommit(s, Advance(p, choice, filed))
    ensures UpToDate(Enact(s, p, ReaderStep(cfg, s.table, p, s.parts[p], choice, filed)))
  {
    var eff := ReaderStep(cfg, s.table, p, s.parts[p], choice, filed);
    assert LegalInsert(s.table, p, s.parts[p], eff) && LegalMove(cfg, s.table, s.parts[p], eff.part) by {
      StepIsLegal(cfg, s.table, p, s.parts[p], choice, filed);
    }
    StaysUpToDate(cfg, s.table, p, s.parts[p], choice, filed);
    if eff.inserted != [] {
      NewRowComesLast(s, p, eff);
    }
    EffectKeepsUpToDate(s, p, eff);
  }

  lemma StaysUpToDate(cfg: Config, table: Table, p: nat, part: Partition, choice: Choice, filed: bool)
    requires part.position == part.committed && !(part.stage.Finished? && !part.cancelled && choice.Fails?)
    requires LegalMove(cfg, table, part, ReaderStep(cfg, table, p, part, choice, filed).part)
    ensures
      var after := ReaderStep(cfg, table, p, part, choice, filed).part;
      after.position == after.committed >= part.position
  {
  }

  lemma EffectKeepsUpToDate(s: State, p: nat, eff: Effect)
    requires p < |s.parts| && UpToDate(s) && LogOrder(s.table + eff.inserted)
    requires eff.part.position == eff.part.committed >= s.parts[p].position
    requires forall i :: 0 <= i < |eff.inserted| ==>
      eff.inserted[i].partition == p && eff.inserted[i].offset == s.parts[p].position
    ensures UpToDate(Enact(s, p, eff))
  {
    var t := Enact(s, p, eff);
    forall i | 0 <= i < |t.table|
      ensures t.table[i].partition < |t.parts| && t.table[i].offset <= t.parts[t.table[i].partition].position
    {
      assert i < |s.table| ==> t.table[i] == s.table[i];
    }
  }

  lemma OthersKeepUpToDate(cfg: Config, s: State, e: Event)
    requires UpToDate(s) && !e.Advance?
    ensures UpToDate(Apply(cfg, s, e))
  {
    assert Apply(cfg, s, e).table == s.table;
  }

  lemma ApplyKeepsUpToDate(cfg: Config, s: State, e: Event)
    requires cfg.maxAttempts >= 1 && Placed(cfg, s) && Rows(s) && UpToDate(s) && !FailedCommit(s, e)
    ensures UpToDate(Apply(cfg, s, e))
  {
    if e.Advance? {
      if e.partition < |s.parts| && Plausible(e.choice) && !Waits(s, e.partition, e.choice) {
        StepKeepsUpToDate(cfg, s, e.partition, e.choice, e.filed);
      }
    } else {
      OthersKeepUpToDate(cfg, s, e);
    }
  }

  lemma {:induction false} CommitsKeepUpToDate(cfg: Config, events: seq<Event>)
    requires ValidConfig(cfg) && CommitsHold(cfg, events)
    ensures UpToDate(Reach(cfg, events))
  {
    if events != [] {
      var before := events[..|events| - 1];
      forall k | 0 <= k < |before| ensures !FailedCommit(Reach(cfg, before[..k]), before[k]) {
        assert before[..k] == events[..k] && before[k] == events[k];
      }
      CommitsKeepUpToDate(cfg, before);
      ReachInv(cfg, before);
      assert !FailedCommit(Reach(cfg, events[..|events| - 1]), events[|events| - 1]);
      ApplyKeepsUpToDate(cfg, Reach(cfg, before), events[|events| - 1]);
    }
  }

  // --- no reading dead-lettered --------------------------------------------

  /** Every reading at or below a stored one in the same log is stored. */
  ghost predicate NoGaps(s: State) {
    && LogOrder(s.table)
    && forall i :: 0 <= i < |s.table| ==> NoGapBelow(s, s.table[i])
  }

  ghost predicate NoGapBelow(s: State, row: Row) {
    && Appended(s, row)
    && forall o :: 0 <= o <= row.offset && Storable(s.parts[row.partition].log[o].value) ==>
         InTable(s.table, s.parts[row.partition].log[o].value)
  }

  lemma NoGapStays(s: State, t: State, row: Row)
    requires NoGapBelow(s, row) && s.table <= t.table && |s.parts| == |t.parts|
    requires s.parts[row.partition].log <= t.parts[row.partition].log
    ensures NoGapBelow(t, row)
  {
    forall o | 0 <= o <= row.offset && Storable(t.parts[row.partition].log[o].value)
      ensures InTable(t.table, t.parts[row.partition].log[o].value)
    {
      HasStays(s.table, t.table[|s.table|..], PitchUid(PitchOf(s.parts[row.partition].log[o].value)));
      assert t.table == s.table + t.table[|s.table|..];
    }
  }

  /** A new row has a new natural key, so its message lies above every stored one. */
  lemma NewRowIsAbove(s: State, p: nat, eff: Effect)
    requires p < |s.parts| && NoGaps(s) && LegalInsert(s.table, p, s.parts[p], eff) && eff.inserted != []
    ensures LogOrder(s.table + eff.inserted)
  {
    var row := eff.inserted[0];
    forall i | 0 <= i < |s.table| && s.table[i].partition == row.partition ensures s.table[i].offset < row.offset {
      assert NoGapBelow(s, s.table[i]);
    }
    LogOrderGrows(s.table, row);
  }

  lemma NewRowLeavesNoGap(s: State, p: nat, t: State, row: Row)
    requires p < |s.parts| && AllSettled(s) && NoReadingFiled(s) && s.parts[p].position < |s.parts[p].log|
    requires |t.parts| == |s.parts| && t.parts[p].log == s.parts[p].log && t.table == s.table + [row]
    requires row.partition == p && row.offset == s.parts[p].position
    requires Storable(Current(s.parts[p]).value) && row.uid == PitchUid(PitchOf(Current(s.parts[p]).value))
    ensures NoGapBelow(t, row)
  {
    forall o | 0 <= o <= row.offset && Storable(t.parts[p].log[o].value)
      ensures InTable(t.table, t.parts[p].log[o].value)
    {
      if o < row.offset {
        BelowIsStored(s, p, o);
        HasStays(s.table, [row], PitchUid(PitchOf(s.parts[p].log[o].value)));
      } else {
        assert t.table[|s.table|] == row;
      }
    }
  }

  lemma BelowIsStored(s: State, p: nat, o: nat)
    requires p < |s.parts| && AllSettled(s) && NoReadingFiled(s)
    requires o < s.parts[p].position && o < |s.parts[p].log| && Storable(s.parts[p].log[o].value)
    ensures InTable(s.table, s.parts[p].log[o].value)
  {
    assert PartSettled(s, p) && Settled(s, p, o);
  }

  lemma InsertKeepsNoGaps(s: State, p: nat, eff: Effect)
    requires p < |s.parts| && AllSettled(s) && NoGaps(s) && NoReadingFiled(s)
    requires LegalInsert(s.table, p, s.parts[p], eff) && eff.inserted != []
    ensures NoGaps(Enact(s, p, eff))
  {
    var t := Enact(s, p, eff);
    NewRowIsAbove(s, p, eff);
    NewRowLeavesNoGap(s, p, t, eff.inserted[0]);
    forall i | 0 <= i < |s.table| ensures NoGapBelow(t, s.table[i]) {
      assert NoGapBelow(s, s.table[i]);
      NoGapStays(s, t, s.table[i]);
    }
  }

  lemma LongerLogsKeepNoGaps(s: State, t: State)
    requires NoGaps(s) && t.table == s.table && LogsLonger(s, t)
    ensures NoGaps(t)
  {
    forall i | 0 <= i < |t.table| ensures NoGapBelow(t, t.table[i]) {
      assert NoGapBelow(s, s.table[i]);
      NoGapStays(s, t, s.table[i]);
    }
  }

  lemma AdvanceKeepsNoGaps(cfg: Config, s: State, p: nat, choice: Choice, filed: bool)
    requires cfg.maxAttempts >= 1 && p < |s.parts| && PartitionPlaced(cfg, s.parts[p]) && Plausible(choice)
    requires AllSettled(s) && NoGaps(s) && NoReadingFiled(s)
    ensures NoGaps(Enact(s, p, ReaderStep(cfg, s.table, p, s.parts[p], choice, filed)))
  {
    var eff := ReaderStep(cfg, s.table, p, s.parts[p], choice, filed);
    assert LegalInsert(s.table, p, s.parts[p], eff) && eff.part.log == s.parts[p].log by {
      StepIsLegal(cfg, s.table, p, s.parts[p], choice, filed);
    }
    if eff.inserted != [] {
      InsertKeepsNoGaps(s, p, eff);
    } else {
      assert Enact(s, p, eff).table == s.table;
      LongerLogsKeepNoGaps(s, Enact(s, p, eff));
    }
  }

  lemma ApplyKeepsNoGaps(cfg: Config, s: State, e: Event)
    requires cfg.maxAttempts >= 1 && Placed(cfg, s) && AllSettled(s) && NoGaps(s) && NoReadingFiled(s)
    ensures NoGaps(Apply(cfg, s, e))
  {
    if e.Advance? {
      if e.partition < |s.parts| && Plausible(e.choice) && !Waits(s, e.partition, e.choice) {
        AdvanceKeepsNoGaps(cfg, s, e.partition, e.choice, e.filed);
      }
    } else {
      OtherEventsKeep(cfg, s, e);
      LongerLogsKeepNoGaps(s, Apply(cfg, s, e));
    }
  }

  predicate LogsLonger(s: State, t: State) {
    |s.parts| == |t.parts| && forall p :: 0 <= p < |s.parts| ==> s.parts[p].log <= t.parts[p].log
  }

  lemma OtherEventsKeep(cfg: Config, s: State, e: Event)
    requires !e.Advance?
    ensures
      var t := Apply(cfg, s, e);
      t.table == s.table && t.letters == s.letters && t.unfiled == s.unfiled && LogsLonger(s, t)
  {
    match e
    case Produce(rec) => AppendKeepsRest(cfg, s, rec);
    case Replay(i) => if i < |s.letters| { AppendKeepsRest(cfg, s, Republished(s.letters[i])); }
    case Cancel(p) => if p < |s.parts| { QuietKeepsRest(s, p, Quiet(s.parts[p].(cancelled := true))); }
    case Restart(p) => if p < |s.parts| { QuietKeepsRest(s, p, Crash(s.parts[p])); }
    case LoseLive(_) =>
    case Activate(_) =>
  }

  lemma AppendKeepsRest(cfg: Config, s: State, rec: Record)
    ensures
      var t := Append(cfg, s, rec);
      t.table == s.table && t.letters == s.letters && t.unfiled == s.unfiled && LogsLonger(s, t)
  {
  }

  lemma QuietKeepsRest(s: State, p: nat, eff: Effect)
    requires p < |s.parts| && eff.part.log == s.parts[p].log
    requires eff.inserted == [] && eff.letters == [] && eff.unfiled == {}
    ensures
      var t := Enact(s, p, eff);
      t.table == s.table && t.letters == s.letters && t.unfiled == s.unfiled && LogsLonger(s, t)
  {
  }

  /** Dead letters are never taken back. */
  lemma FiledBefore(cfg: Config, s: State, e: Event)
    requires cfg.maxAttempts >= 1 && Placed(cfg, s) && NoReadingFiled(Apply(cfg, s, e))
    ensures NoReadingFiled(s)
  {
    var t := Apply(cfg, s, e);
    LettersStay(cfg, s, e);
    forall i | 0 <= i < |s.letters| ensures !Storable(s.letters[i].payload) {
      assert t.letters[i] == s.letters[i];
    }
    forall p, o | 0 <= p < |s.parts| && 0 <= o < |s.parts[p].log| && (p, o) in s.unfiled
      ensures !Storable(s.parts[p].log[o].value)
    {
      assert t.parts[p].log[o] == s.parts[p].log[o];
    }
  }

  lemma LettersStay(cfg: Config, s: State, e: Event)
    requires cfg.maxAttempts >= 1 && Placed(cfg, s)
    ensures
      var t := Apply(cfg, s, e);
      s.letters <= t.letters && s.unfiled <= t.unfiled && LogsLonger(s, t)
  {
    if e.Advance? {
      var p := e.partition;
      if p < |s.parts| && Plausible(e.choice) && !Waits(s, p, e.choice) {
        assert ReaderStep(cfg, s.table, p, s.parts[p], e.choice, e.filed).part.log == s.parts[p].log by {
          StepIsLegal(cfg, s.table, p, s.parts[p], e.choice, e.filed);
        }
      }
    } else {
      OtherEventsKeep(cfg, s, e);
    }
  }

  lemma {:induction false} UnfiledKeepNoGaps(cfg: Config, events: seq<Event>)
    requires ValidConfig(cfg) && NoReadingFiled(Reach(cfg, events))
    ensures NoGaps(Reach(cfg, events))
  {
    if events != [] {
      var before, e := events[..|events| - 1], events[|events| - 1];
      ReachInv(cfg, before);
      FiledBefore(cfg, Reach(cfg, before), e);
      UnfiledKeepNoGaps(cfg, before);
      ApplyKeepsNoGaps(cfg, Reach(cfg, before), e);
    }
  }
}
