/** The promises of the ingest pipeline, over every run: any producers, any interleaving of
    partitions, any failures, crashes, rebalances, lost cache keys and dead-letter replays. */
module IngestTheorems {
  import opened Wrappers
  import opened Wire
  import opened PitchTable
  import opened LiveCounters
  import opened Ingest
  import opened IngestSafety
  import opened IngestIdempotence

  ghost predicate Inv(cfg: Config, s: State) {
    && Placed(cfg, s) && AllSettled(s) && Rows(s) && Calls(s)
    && Routed(cfg, s) && Live(s) && Indexes(s)
  }

  lemma InitInv(cfg: Config)
    ensures Inv(cfg, Init(cfg))
  {
    var s := Init(cfg);
    forall p | 0 <= p < |s.parts| ensures PartSettled(s, p) && s.parts[p].stage.Idle? {}
    forall session: string ensures SessionLive(s, session) {
      assert HashOf(s.live, session) == map[];
    }
  }

  lemma EnactKeepsInv(cfg: Config, s: State, p: nat, eff: Effect)
    requires p < |s.parts| && Inv(cfg, s)
    requires LegalMove(cfg, s.table, s.parts[p], eff.part) && LegalEffect(cfg, s.table, p, s.parts[p], eff)
    requires LockFree(s, p, eff.part)
    ensures Inv(cfg, Enact(s, p, eff))
  {
    if s.parts[p].stage.Stored? {
      HoldingSettles(s, p);
    }
    EnactKeepsSettled(cfg, s, p, eff);
    EnactKeepsRows(cfg, s, p, eff);
    EnactKeepsCalls(cfg, s, p, eff);
    EnactKeepsRouted(cfg, s, p, eff);
    EnactKeepsIndexes(cfg, s, p, eff);
    EnactKeepsLive(cfg, s, p, eff);
  }

  /** A state that differs from another only by longer logs, live counters and the active model. */
  ghost predicate SameRecords(s: State, t: State) {
    && s.table == t.table && s.letters == t.letters && s.unfiled == t.unfiled
    && s.recorded == t.recorded && s.published == t.published
    && |s.parts| == |t.parts|
    && forall p :: 0 <= p < |s.parts| ==> SameReader(s.parts[p], t.parts[p])
  }

  predicate SameReader(a: Partition, b: Partition) {
    && b == a.(log := b.log) && a.log <= b.log
  }

  lemma SameRecordsKeepOffsets(cfg: Config, s: State, t: State)
    requires SameRecords(s, t) && Placed(cfg, s) && AllSettled(s)
    ensures Placed(cfg, t) && AllSettled(t)
  {
    forall p | 0 <= p < |t.parts| ensures PartitionPlaced(cfg, t.parts[p]) && PartSettled(t, p) {
      assert PartitionPlaced(cfg, s.parts[p]) && PartSettled(s, p) && SameReader(s.parts[p], t.parts[p]);
      forall o | 0 <= o < |s.parts[p].log| && Settled(s, p, o) ensures Settled(t, p, o) {}
    }
  }

  lemma SameRecordsKeepRows(cfg: Config, s: State, t: State)
    requires SameRecords(s, t) && Placed(cfg, s) && Rows(s) && Calls(s)
    ensures Rows(t) && Calls(t) && (Indexes(s) ==> Indexes(t))
  {
    if Exclusive(s) {
      SameRecordsKeepExclusive(cfg, s, t);
    }
    forall i | 0 <= i < |t.table| ensures RowFaithful(t, t.table[i]) {
      assert RowFaithful(s, s.table[i]);
      assert SameReader(s.parts[s.table[i].partition], t.parts[s.table[i].partition]);
    }
    forall p | 0 <= p < |t.parts|
      ensures Pending(t.parts[p].stage) ==> HoldsRow(t, p)
      ensures StageCalls(t, t.parts[p].stage) && (IndexFresh(s, s.parts[p]) ==> IndexFresh(t, t.parts[p]))
    {
      assert SameReader(s.parts[p], t.parts[p]) && PartitionPlaced(cfg, s.parts[p]);
      assert StageCalls(s, s.parts[p].stage);
      assert Pending(s.parts[p].stage) ==> HoldsRow(s, p);
    }
  }

  lemma SameReaderHolds(cfg: Config, a: Partition, b: Partition, session: string)
    requires PartitionPlaced(cfg, a) && SameReader(a, b)
    ensures Holds(a, session) <==> Holds(b, session)
  {
  }

  lemma SameRecordsKeepExclusive(cfg: Config, s: State, t: State)
    requires SameRecords(s, t) && Placed(cfg, s) && Exclusive(s)
    ensures Exclusive(t)
  {
    forall p, session | 0 <= p < |t.parts| && Holds(t.parts[p], session) ensures !HeldElsewhere(t, p, session) {
      SameReaderHolds(cfg, s.parts[p], t.parts[p], session);
      forall q | 0 <= q < |t.parts| && q != p ensures !Holds(t.parts[q], session) {
        SameReaderHolds(cfg, s.parts[q], t.parts[q], session);
      }
    }
  }

  lemma AccountedStays(s: State, t: State, row: Row)
    requires SameRecords(s, t) && Accounted(s, row) && (RowCredited(row, s.credits) ==> RowCredited(row, t.credits))
    ensures Accounted(t, row)
  {
    if !RowCredited(row, s.credits) {
      var p :| 0 <= p < |s.parts| && s.parts[p].stage.Stored? && s.parts[p].stage.row == row;
      assert SameReader(s.parts[p], t.parts[p]);
    }
  }

  lemma AppendKeepsInv(cfg: Config, s: State, rec: Record)
    requires ValidConfig(cfg) && Inv(cfg, s)
    requires RecordRouted(cfg, cfg.route(rec.key), rec)
    ensures Inv(cfg, Append(cfg, s, rec))
  {
    var t := Append(cfg, s, rec);
    SameRecordsKeepOffsets(cfg, s, t);
    SameRecordsKeepRows(cfg, s, t);
    forall p, o | 0 <= p < |t.parts| && 0 <= o < |t.parts[p].log| ensures RecordRouted(cfg, p, t.parts[p].log[o]) {
      if o < |s.parts[p].log| {
        assert RecordRouted(cfg, p, s.parts[p].log[o]);
      }
    }
    forall session: string ensures SessionLive(t, session) {
      assert SessionLive(s, session);
    }
    forall i | 0 <= i < |t.table| && t.table[i].session !in t.blemished ensures Accounted(t, t.table[i]) {
      AccountedStays(s, t, s.table[i]);
    }
  }

  lemma LoseLiveKeepsSession(cfg: Config, s: State, session: string, other: string)
    requires SessionLive(s, other)
    ensures SessionLive(Apply(cfg, s, LoseLive(session)), other)
  {
    var t := Apply(cfg, s, LoseLive(session));
    forall f: Field ensures Get(HashOf(t.live, other), f) == CreditedTotal(t.table, other, f, t.credits) {
      if other == session {
        NoCreditsNoTotal(t.table, other, f, t.credits);
      } else {
        assert HashOf(t.live, other) == HashOf(s.live, other);
        SameCreditsSameTotal(t.table, other, f, s.credits, t.credits);
      }
    }
  }

  lemma LoseLiveKeepsAccounted(cfg: Config, s: State, session: string, row: Row)
    requires Accounted(s, row) && row.session != session
    ensures Accounted(Apply(cfg, s, LoseLive(session)), row)
  {
    AccountedStays(s, Apply(cfg, s, LoseLive(session)), row);
  }

  lemma LoseLiveKeepsLive(cfg: Config, s: State, session: string)
    requires Live(s)
    ensures Live(Apply(cfg, s, LoseLive(session)))
  {
    var t := Apply(cfg, s, LoseLive(session));
    forall other: string ensures SessionLive(t, other) {
      LoseLiveKeepsSession(cfg, s, session, other);
    }
    forall i | 0 <= i < |t.table| && t.table[i].session !in t.blemished ensures Accounted(t, t.table[i]) {
      LoseLiveKeepsAccounted(cfg, s, session, s.table[i]);
    }
  }

  lemma SamePartsKeepInv(cfg: Config, s: State, t: State)
    requires Inv(cfg, s) && SameRecords(s, t) && s.parts == t.parts && Live(t)
    ensures Inv(cfg, t)
  {
    SameRecordsKeepOffsets(cfg, s, t);
    SameRecordsKeepRows(cfg, s, t);
  }

  lemma ActivateKeepsLive(cfg: Config, s: State, version: Option<nat>)
    requires Live(s)
    ensures Live(Apply(cfg, s, Activate(version)))
  {
    var t := Apply(cfg, s, Activate(version));
    forall session: string ensures SessionLive(t, session) {
      assert SessionLive(s, session);
    }
    forall i | 0 <= i < |t.table| && t.table[i].session !in t.blemished ensures Accounted(t, t.table[i]) {
      AccountedStays(s, t, s.table[i]);
    }
  }

  lemma LosingKeepsInv(cfg: Config, s: State, session: string)
    requires Inv(cfg, s)
    ensures Inv(cfg, Apply(cfg, s, LoseLive(session)))
  {
    LoseLiveKeepsLive(cfg, s, session);
    SamePartsKeepInv(cfg, s, Apply(cfg, s, LoseLive(session)));
  }

  lemma ActivatingKeepsInv(cfg: Config, s: State, version: Option<nat>)
    requires Inv(cfg, s)
    ensures Inv(cfg, Apply(cfg, s, Activate(version)))
  {
    ActivateKeepsLive(cfg, s, version);
    SamePartsKeepInv(cfg, s, Apply(cfg, s, Activate(version)));
  }

  lemma SendingKeepsInv(cfg: Config, s: State, e: Event)
    requires ValidConfig(cfg) && Inv(cfg, s) && (e.Produce? || e.Replay?)
    ensures Inv(cfg, Apply(cfg, s, e))
  {
    if e.Produce? {
      if WellKeyed(cfg, e.rec) {
        AppendKeepsInv(cfg, s, e.rec);
      }
    } else if e.letter < |s.letters| {
      var letter := s.letters[e.letter];
      if cfg.maxReplays > 0 ==> letter.replayCount < cfg.maxReplays {
        assert LetterRouted(cfg, letter);
        ReplayCountRoundTrip(letter.replayCount + 1);
        AppendKeepsInv(cfg, s, Republished(letter));
      }
    }
  }

  /** A reader that may go on finds its session free. */
  lemma AdvanceKeepsInv(cfg: Config, s: State, e: Event)
    requires ValidConfig(cfg) && Inv(cfg, s) && e.Advance?
    ensures Inv(cfg, Apply(cfg, s, e))
  {
    var p := e.partition;
    if p < |s.parts| && Plausible(e.choice) && !Waits(s, p, e.choice) {
      StepIsLegal(cfg, s.table, p, s.parts[p], e.choice, e.filed);
      EnactKeepsInv(cfg, s, p, ReaderStep(cfg, s.table, p, s.parts[p], e.choice, e.filed));
    }
  }

  lemma InterruptKeepsInv(cfg: Config, s: State, e: Event)
    requires Inv(cfg, s) && (e.Cancel? || e.Restart?)
    ensures Inv(cfg, Apply(cfg, s, e))
  {
    var p := e.partition;
    if p < |s.parts| {
      CancelIsLegal(cfg, s.table, p, s.parts[p]);
      CrashIsLegal(cfg, s.table, p, s.parts[p]);
      EnactKeepsInv(cfg, s, p, if e.Cancel? then Quiet(s.parts[p].(cancelled := true)) else Crash(s.parts[p]));
    }
  }

  lemma ApplyKeepsInv(cfg: Config, s: State, e: Event)
    requires ValidConfig(cfg) && Inv(cfg, s)
    ensures Inv(cfg, Apply(cfg, s, e))
  {
    match e
    case Produce(_) => SendingKeepsInv(cfg, s, e);
    case Replay(_) => SendingKeepsInv(cfg, s, e);
    case Advance(_, _, _) => AdvanceKeepsInv(cfg, s, e);
    case Cancel(_) => InterruptKeepsInv(cfg, s, e);
    case Restart(_) => InterruptKeepsInv(cfg, s, e);
    case LoseLive(session) => LosingKeepsInv(cfg, s, session);
    case Activate(version) => ActivatingKeepsInv(cfg, s, version);
  }

  lemma {:induction false} RunKeepsInv(cfg: Config, s: State, events: seq<Event>)
    requires ValidConfig(cfg) && Inv(cfg, s)
    ensures Inv(cfg, Run(cfg, s, events))
  {
    if events != [] {
      RunKeepsInv(cfg, s, events[..|events| - 1]);
      ApplyKeepsInv(cfg, Run(cfg, s, events[..|events| - 1]), events[|events| - 1]);
    }
  }

  function Reach(cfg: Config, events: seq<Event>): State { Run(cfg, Init(cfg), events) }

  lemma ReachInv(cfg: Config, events: seq<Event>)
    requires ValidConfig(cfg)
    ensures Inv(cfg, Reach(cfg, events))
  {
    InitInv(cfg);
    RunKeepsInv(cfg, Init(cfg), events);
  }

  // --- main results --------------------------------------------------------

  predicate NoneSkipped(s: State, p: nat)
    requires p < |s.parts|
  {
    forall o :: 0 <= o < s.parts[p].committed ==> o < |s.parts[p].log| && Settled(s, p, o)
  }

  /** At-least-once: below a committed offset nothing is silently skipped. The pitch is in the
      table (stored from this offset, or a duplicate of a stored one), or its exact bytes are
      in a dead letter, or the failed dead-letter write is on record. */
  lemma NothingSkipped(cfg: Config, events: seq<Event>)
    requires ValidConfig(cfg)
    ensures
      var s := Reach(cfg, events);
      forall p :: 0 <= p < |s.parts| ==> NoneSkipped(s, p)
  {
    ReachInv(cfg, events);
    var s := Reach(cfg, events);
    forall p | 0 <= p < |s.parts| ensures NoneSkipped(s, p) {
      assert PartSettled(s, p);
    }
  }

  /** Idempotence: whatever is redelivered, a natural key has at most one row, at most one
      counter update and at most one announcement; each announced pitch was counted, each
      counted pitch is stored, and each stored row is the reading of its log entry. */
  lemma EffectsAtMostOnce(cfg: Config, events: seq<Event>)
    requires ValidConfig(cfg)
    ensures
      var s := Reach(cfg, events);
      && UniqueUids(s.table) && UniqueUids(s.recorded) && UniqueUids(s.published)
      && (forall r :: r in s.published ==> r in s.recorded)
      && (forall r :: r in s.recorded ==> r in s.table)
      && (forall r :: r in s.table ==> RowFaithful(s, r))
  {
    ReachInv(cfg, events);
  }

  /** The announcement comes after the write: a row is published only in a step that starts
      with the row already stored and already counted. */
  lemma PublishedAfterStored(cfg: Config, events: seq<Event>, e: Event, r: Row)
    requires ValidConfig(cfg)
    requires r in Reach(cfg, events + [e]).published && r !in Reach(cfg, events).published
    ensures r in Reach(cfg, events).table && r in Reach(cfg, events).recorded
  {
    var s := Reach(cfg, events);
    assert (events + [e])[..|events|] == events;
    ReachInv(cfg, events);
    assert e.Advance?;
    StepIsLegal(cfg, s.table, e.partition, s.parts[e.partition], e.choice, e.filed);
    assert StageCalls(s, s.parts[e.partition].stage);
  }

  /** session_pitch_index: in every reachable table a session's indexes are exactly 1..n, in
      the order its pitches were first stored. That holds however readings are routed, because
      the transaction that takes an index has upserted the session's row before. */
  lemma SessionIndexesDense(cfg: Config, events: seq<Event>, session: string)
    requires ValidConfig(cfg)
    ensures
      var t := Reach(cfg, events).table;
      && (forall i, j :: 0 <= i < j < |t| && t[i].session == session && t[j].session == session
            ==> t[i].index < t[j].index)
      && (forall i :: 0 <= i < |t| && t[i].session == session ==> 1 <= t[i].index <= Count(t, session))
      && (forall k :: 1 <= k <= Count(t, session) ==> HasIndex(t, session, k))
  {
    ReachInv(cfg, events);
    DenseMeans(Reach(cfg, events).table, session);
  }

  /** Rows, indexes included, are never reassigned or removed. */
  lemma {:induction false} RowsAreFinal(cfg: Config, s: State, events: seq<Event>)
    ensures s.table <= Run(cfg, s, events).table
  {
    if events != [] {
      var e := events[|events| - 1];
      RowsAreFinal(cfg, s, events[..|events| - 1]);
      ApplyAppendsRows(cfg, Run(cfg, s, events[..|events| - 1]), e);
    }
  }

  lemma ApplyAppendsRows(cfg: Config, s: State, e: Event)
    ensures s.table <= Apply(cfg, s, e).table
  {
    match e
    case Advance(p, choice, filed) =>
      if p < |s.parts| && Plausible(choice) && !Waits(s, p, choice) {
        var eff := ReaderStep(cfg, s.table, p, s.parts[p], choice, filed);
        assert Enact(s, p, eff).table == s.table + eff.inserted;
      }
    case _ =>
  }

  /** Live counters never run ahead of the rows, in any run. */
  lemma LiveNeverAhead(cfg: Config, events: seq<Event>, session: string, f: Field)
    requires ValidConfig(cfg) && IsCount(f)
    ensures
      var s := Reach(cfg, events);
      0.0 <= Get(HashOf(s.live, session), f) <= Total(s.table, session, f)
  {
    ReachInv(cfg, events);
    var s := Reach(cfg, events);
    assert SessionLive(s, session);
    CreditedAtMostTotal(s.table, session, f, s.credits);
  }

  /** And they equal the rows, averages included (for the scores: what inference answered), once
      no update of the session is pending, unless its key was lost or an update fell to a crash or
      a cache failure. */
  lemma LiveEqualsRows(cfg: Config, events: seq<Event>, session: string)
    requires ValidConfig(cfg)
    requires session !in Reach(cfg, events).blemished
    requires forall p :: 0 <= p < |Reach(cfg, events).parts| && Reach(cfg, events).parts[p].stage.Stored?
               ==> Reach(cfg, events).parts[p].stage.row.session != session
    ensures
      var s := Reach(cfg, events);
      var h := HashOf(s.live, session);
      && (forall f: Field :: Get(h, f) == Total(s.table, session, f))
      && Average(h, SumSpeed, CountSpeed) == RowAverage(s.table, session, SumSpeed, CountSpeed)
      && Average(h, SumSpin, CountSpin) == RowAverage(s.table, session, SumSpin, CountSpin)
      && Average(h, SumScore, CountScore) == RowAverage(s.table, session, SumScore, CountScore)
  {
    ReachInv(cfg, events);
    var s := Reach(cfg, events);
    assert SessionLive(s, session);
    forall i | 0 <= i < |s.table| && s.table[i].session == session ensures RowCredited(s.table[i], s.credits) {
      assert Accounted(s, s.table[i]);
    }
    AveragesAgree(HashOf(s.live, session), s.table, session, s.credits);
  }

  /** The replay ceiling: with one set, no message on a work topic and no dead letter ever
      carries a count above it. */
  lemma ReplayCeiling(cfg: Config, events: seq<Event>)
    requires ValidConfig(cfg) && cfg.maxReplays > 0
    ensures
      var s := Reach(cfg, events);
      && (forall p, o :: 0 <= p < |s.parts| && 0 <= o < |s.parts[p].log|
            ==> ReplayCount(s.parts[p].log[o].headers) <= cfg.maxReplays)
      && (forall i :: 0 <= i < |s.letters| ==> s.letters[i].replayCount <= cfg.maxReplays)
  {
    ReachInv(cfg, events);
    var s := Reach(cfg, events);
    forall p, o | 0 <= p < |s.parts| && 0 <= o < |s.parts[p].log|
      ensures ReplayCount(s.parts[p].log[o].headers) <= cfg.maxReplays
    {
      assert RecordRouted(cfg, p, s.parts[p].log[o]);
    }
    forall i | 0 <= i < |s.letters| ensures s.letters[i].replayCount <= cfg.maxReplays {
      assert LetterRouted(cfg, s.letters[i]);
    }
  }
}
