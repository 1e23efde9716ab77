/** The runs in which a session's order is lost, and with them the exact condition for keeping it. */
module IngestKeying {
  import opened Wrappers
  import opened Wire
  import opened PitchTable
  import opened Ingest
  import opened IngestTheorems
  import opened IngestProgress
  import opened IngestOrder

  function Sent(cfg: Config, raw: RawPitch): Record {
    Record(cfg.keying(raw), Parsed(Envelope(TYPE_PITCH_RAW, Decoded(raw))), [])
  }

  // --- extending a run -----------------------------------------------------

  /** A longer run, in which no commit fails that did not fail before. */
  ghost predicate Extends(cfg: Config, events: seq<Event>, more: seq<Event>) {
    events <= more && (CommitsHold(cfg, events) ==> CommitsHold(cfg, more))
  }

  predicate Harmless(events: seq<Event>) {
    forall i :: 0 <= i < |events| && events[i].Advance? ==> !events[i].choice.Fails?
  }

  lemma Extend(cfg: Config, events: seq<Event>, rest: seq<Event>) returns (more: seq<Event>)
    ensures Reach(cfg, more) == Run(cfg, Reach(cfg, events), rest)
    ensures |more| == |events| + |rest| && events <= more && (Harmless(rest) ==> Extends(cfg, events, more))
  {
    more := events + rest;
    RunConcat(cfg, Init(cfg), events, rest);
    if CommitsHold(cfg, events) && Harmless(rest) {
      forall k | 0 <= k < |more| ensures !FailedCommit(Reach(cfg, more[..k]), more[k]) {
        assert k < |events| ==> more[..k] == events[..k];
        assert k >= |events| ==> more[k] == rest[k - |events|];
      }
    }
  }

  lemma StoredFirst(cfg: Config, s: State, p: nat)
    requires Ready(s, p)
    ensures Run(cfg, s, FetchStep(p) + StoringSteps(p, None)) == JustStored(s, p, 1, NewRow(s, p, None))
  {
    FetchedInOne(cfg, s, p);
    StageKeepsReady(s, p, 1, None);
    StoredInTwo(cfg, AtStage(s, p, Attempting(1)), p, 1, None);
    RunConcat(cfg, s, FetchStep(p), StoringSteps(p, None));
  }

  /** A ready reader stores its pitch. */
  lemma StoreNext(cfg: Config, events: seq<Event>, p: nat) returns (more: seq<Event>)
    requires Ready(Reach(cfg, events), p)
    ensures Reach(cfg, more) == JustStored(Reach(cfg, events), p, 1, NewRow(Reach(cfg, events), p, None))
    ensures Extends(cfg, events, more)
  {
    StoredFirst(cfg, Reach(cfg, events), p);
    more := Extend(cfg, events, FetchStep(p) + StoringSteps(p, None));
  }

  function Logged(log: seq<Record>): Partition { Partition(log, 0, 0, Idle, false) }

  lemma SentAppends(cfg: Config, s: State, raw: RawPitch)
    requires Home(cfg, raw) < |s.parts|
    ensures
      var p := Home(cfg, raw);
      Run(cfg, s, [Produce(Sent(cfg, raw))])
      == s.(parts := s.parts[p := s.parts[p].(log := s.parts[p].log + [Sent(cfg, raw)])])
  {
    RunOne(cfg, s, Produce(Sent(cfg, raw)));
  }

  lemma Send(cfg: Config, events: seq<Event>, raw: RawPitch) returns (more: seq<Event>)
    requires Home(cfg, raw) < |Reach(cfg, events).parts|
    ensures
      var s, p := Reach(cfg, events), Home(cfg, raw);
      Reach(cfg, more) == s.(parts := s.parts[p := s.parts[p].(log := s.parts[p].log + [Sent(cfg, raw)])])
    ensures Extends(cfg, events, more) && |more| == |events| + 1
  {
    SentAppends(cfg, Reach(cfg, events), raw);
    more := Extend(cfg, events, [Produce(Sent(cfg, raw))]);
  }

  /** Two messages on their way. */
  lemma SendBoth(cfg: Config, a: RawPitch, b: RawPitch) returns (events: seq<Event>)
    requires ValidConfig(cfg)
    ensures
      var p, q, s := Home(cfg, a), Home(cfg, b), Init(cfg);
      Reach(cfg, events) == s.(parts :=
        if p == q then s.parts[p := Logged([Sent(cfg, a), Sent(cfg, b)])]
        else s.parts[p := Logged([Sent(cfg, a)])][q := Logged([Sent(cfg, b)])])
    ensures |events| == 2 && CommitsHold(cfg, events)
    ensures Reach(cfg, events[..1]).parts == Init(cfg).parts[Home(cfg, a) := Logged([Sent(cfg, a)])]
  {
    assert [] + [Sent(cfg, a)] == [Sent(cfg, a)] && [] + [Sent(cfg, b)] == [Sent(cfg, b)];
    assert [Sent(cfg, a)] + [Sent(cfg, b)] == [Sent(cfg, a), Sent(cfg, b)];
    var first := Send(cfg, [], a);
    events := Send(cfg, first, b);
    assert events[..1] == first;
  }

  // --- readings of a session on two partitions -----------------------------

  /** Two logs with one message each, and nothing else. */
  predicate Apart(cfg: Config, s: State, a: RawPitch, b: RawPitch) {
    var p, q := Home(cfg, a), Home(cfg, b);
    && p != q && p < |s.parts| && q < |s.parts| && s.table == []
    && s.parts[p] == Logged([Sent(cfg, a)]) && s.parts[q] == Logged([Sent(cfg, b)])
    && forall r :: 0 <= r < |s.parts| ==> s.parts[r].stage.Idle?
  }

  lemma LaterIsReady(cfg: Config, s: State, a: RawPitch, b: RawPitch)
    requires ValidRaw(b) && Apart(cfg, s, a, b)
    ensures Ready(s, Home(cfg, b)) && NewRow(s, Home(cfg, b), None) == RowOf(b, None, 1, Home(cfg, b), 0)
  {
  }

  lemma FirstIsReady(cfg: Config, s: State, a: RawPitch, b: RawPitch)
    requires ValidRaw(a) && ValidRaw(b) && Apart(cfg, s, a, b) && PitchUid(a) != PitchUid(b)
    ensures
      var t := JustStored(s, Home(cfg, b), 1, RowOf(b, None, 1, Home(cfg, b), 0));
      && Ready(t, Home(cfg, a)) && t.parts[Home(cfg, a)] == s.parts[Home(cfg, a)]
      && t.table == [RowOf(b, None, 1, Home(cfg, b), 0)] && t.letters == s.letters && t.unfiled == s.unfiled
  {
    var row := RowOf(b, None, 1, Home(cfg, b), 0);
    assert [] + [row] == [row];
  }

  /** The later message's reader is the faster one. */
  lemma Overtake(cfg: Config, both: seq<Event>, a: RawPitch, b: RawPitch) returns (events: seq<Event>)
    requires ValidRaw(a) && ValidRaw(b) && PitchUid(a) != PitchUid(b) && Apart(cfg, Reach(cfg, both), a, b)
    ensures Extends(cfg, both, events)
    ensures
      var s, t := Reach(cfg, both), Reach(cfg, events);
      && |t.table| == 2 && t.letters == s.letters && t.unfiled == s.unfiled
      && t.table[0].partition == Home(cfg, b) && t.table[0].offset == 0 && t.table[0].session == b.sessionUid
      && t.table[1].partition == Home(cfg, a) && t.table[1].offset == 0 && t.table[1].session == a.sessionUid
  {
    LaterIsReady(cfg, Reach(cfg, both), a, b);
    FirstIsReady(cfg, Reach(cfg, both), a, b);
    var one := StoreNext(cfg, both, Home(cfg, b));
    events := StoreNext(cfg, one, Home(cfg, a));
  }

  lemma ApartLosesOrder(cfg: Config, a: RawPitch, b: RawPitch) returns (events: seq<Event>)
    requires ValidConfig(cfg) && ValidRaw(a) && ValidRaw(b) && Home(cfg, a) != Home(cfg, b)
    requires a.sessionUid == b.sessionUid && PitchUid(a) != PitchUid(b)
    ensures CommitsHold(cfg, events) && NoReadingFiled(Reach(cfg, events)) && !InAppendOrder(cfg, events)
  {
    var both := SendBoth(cfg, a, b);
    events := Overtake(cfg, both, a, b);
    assert events[..1] == both[..1];
    var t := Reach(cfg, events).table;
    assert Appended(Reach(cfg, events[..1]), t[1]) && !Appended(Reach(cfg, events[..1]), t[0]);
    assert AppendedBefore(cfg, events, t[1], t[0]);
  }

  /** If a session is split over partitions at all, two of its pitches with different natural
      keys are: a third pitch is apart from one of any two that share theirs. */
  lemma SplitSession(cfg: Config, a: RawPitch, b: RawPitch) returns (x: RawPitch, y: RawPitch)
    requires ValidRaw(a) && ValidRaw(b) && a.sessionUid == b.sessionUid && Home(cfg, a) != Home(cfg, b)
    ensures ValidRaw(x) && ValidRaw(y) && x.sessionUid == y.sessionUid == a.sessionUid
    ensures PitchUid(x) != PitchUid(y) && Home(cfg, x) != Home(cfg, y)
  {
    if PitchUid(a) != PitchUid(b) {
      return a, b;
    }
    var c := a.(pitchNumber := a.pitchNumber + 1);
    if PitchUid(a) == PitchUid(c) {
      PitchUidInjective(a, c);
    }
    if Home(cfg, c) != Home(cfg, a) {
      return a, c;
    }
    return b, c;
  }

  // --- a reading given up, and its offset not committed --------------------

  /** The database refuses the row for good. */
  const REFUSAL := Failure(false, false, false, false, true, false, false)

  predicate Fetching(s: State, p: nat) {
    && p < |s.parts| && s.parts[p].stage.Idle? && !s.parts[p].cancelled
    && s.parts[p].position < |s.parts[p].log| && Storable(Current(s.parts[p]).value)
  }

  lemma RefusedInTwo(cfg: Config, s: State, p: nat)
    requires Fetching(s, p)
    ensures Run(cfg, s, [Advance(p, Proceed, true), Advance(p, Fails(REFUSAL), true)])
         == AtStage(s, p, Failed(1, REFUSAL))
  {
    FetchSucceeds(cfg, s, p);
    RunTwo(cfg, s, AtStage(s, p, Attempting(1)), Advance(p, Proceed, true), Advance(p, Fails(REFUSAL), true));
  }

  lemma File(cfg: Config, events: seq<Event>, p: nat) returns (more: seq<Event>)
    requires
      var s := Reach(cfg, events);
      p < |s.parts| && s.parts[p].stage == Failed(1, REFUSAL) && s.parts[p].position < |s.parts[p].log|
    ensures
      var s, t := Reach(cfg, events), Reach(cfg, more);
      t.table == s.table && t.parts == s.parts[p := s.parts[p].(stage := Finished)]
    ensures events <= more
  {
    RunOne(cfg, Reach(cfg, events), Advance(p, Proceed, true));
    more := Extend(cfg, events, [Advance(p, Proceed, true)]);
  }

  lemma LoseCommit(cfg: Config, events: seq<Event>, p: nat) returns (more: seq<Event>)
    requires
      var s := Reach(cfg, events);
      && p < |s.parts| && s.parts[p].stage.Finished? && !s.parts[p].cancelled
      && s.parts[p].position < |s.parts[p].log|
    ensures
      var s, t := Reach(cfg, events), Reach(cfg, more);
      && t.table == s.table
      && t.parts == s.parts[p := s.parts[p].(position := s.parts[p].position + 1, stage := Idle)]
    ensures events <= more
  {
    RunOne(cfg, Reach(cfg, events), Advance(p, Fails(REFUSAL), true));
    more := Extend(cfg, events, [Advance(p, Fails(REFUSAL), true)]);
  }

  lemma Refuse(cfg: Config, events: seq<Event>, p: nat) returns (more: seq<Event>)
    requires Fetching(Reach(cfg, events), p)
    ensures Reach(cfg, more) == AtStage(Reach(cfg, events), p, Failed(1, REFUSAL)) && events <= more
  {
    RefusedInTwo(cfg, Reach(cfg, events), p);
    more := Extend(cfg, events, [Advance(p, Proceed, true), Advance(p, Fails(REFUSAL), true)]);
  }

  lemma FileUncommitted(cfg: Config, events: seq<Event>, p: nat) returns (more: seq<Event>)
    requires
      var s := Reach(cfg, events);
      && p < |s.parts| && s.parts[p].stage == Failed(1, REFUSAL) && !s.parts[p].cancelled
      && s.parts[p].position < |s.parts[p].log|
    ensures
      var s, t := Reach(cfg, events), Reach(cfg, more);
      && t.table == s.table
      && t.parts == s.parts[p := s.parts[p].(position := s.parts[p].position + 1, stage := Idle)]
    ensures events <= more
  {
    var one := File(cfg, events, p);
    more := LoseCommit(cfg, one, p);
  }

  /** The reader goes past the message, but its committed offset does not. */
  lemma GiveUp(cfg: Config, events: seq<Event>, p: nat) returns (more: seq<Event>)
    requires Fetching(Reach(cfg, events), p)
    ensures
      var s, t := Reach(cfg, events), Reach(cfg, more);
      t.table == s.table && t.parts == s.parts[p := s.parts[p].(position := s.parts[p].position + 1)]
    ensures events <= more
  {
    var two := Refuse(cfg, events, p);
    more := FileUncommitted(cfg, two, p);
  }

  lemma Die(cfg: Config, events: seq<Event>, p: nat) returns (more: seq<Event>)
    requires p < |Reach(cfg, events).parts|
    ensures
      var s, t := Reach(cfg, events), Reach(cfg, more);
      t.table == s.table && t.parts == s.parts[p := Restarted(s.parts[p])]
    ensures events <= more
  {
    RunOne(cfg, Reach(cfg, events), Restart(p));
    more := Extend(cfg, events, [Restart(p)]);
  }

  /** Two readings in one log, and nothing else. */
  predicate Together(cfg: Config, s: State, a: RawPitch, b: RawPitch) {
    var p := Home(cfg, a);
    && p < |s.parts| && s.parts[p] == Logged([Sent(cfg, a), Sent(cfg, b)])
    && forall r :: 0 <= r < |s.parts| ==> s.parts[r].stage.Idle?
  }

  /** The first reading is given up, the next one stored; the process dies. */
  lemma StoreBehind(cfg: Config, both: seq<Event>, a: RawPitch, b: RawPitch) returns (events: seq<Event>)
    requires ValidRaw(a) && ValidRaw(b) && Together(cfg, Reach(cfg, both), a, b) && Reach(cfg, both).table == []
    ensures both <= events
    ensures Together(cfg, Reach(cfg, events), a, b) && Reach(cfg, events).table == [RowOf(b, None, 1, Home(cfg, a), 1)]
  {
    var p := Home(cfg, a);
    var one := GiveUp(cfg, both, p);
    assert Ready(Reach(cfg, one), p) && NewRow(Reach(cfg, one), p, None) == RowOf(b, None, 1, p, 1);
    var two := StoreNext(cfg, one, p);
    events := Die(cfg, two, p);
  }

  /** The first is read again, and stored now. */
  lemma GivingUpLosesOrder(cfg: Config, a: RawPitch, b: RawPitch) returns (events: seq<Event>)
    requires ValidConfig(cfg) && ValidRaw(a) && ValidRaw(b) && Home(cfg, a) == Home(cfg, b)
    requires a.sessionUid == b.sessionUid && PitchUid(a) != PitchUid(b)
    ensures !InAppendOrder(cfg, events)
  {
    var both := SendBoth(cfg, a, b);
    var before := StoreBehind(cfg, both, a, b);
    events := StoreNext(cfg, before, Home(cfg, a));
    assert events[..1] == both[..1];
    var t := Reach(cfg, events).table;
    assert Appended(Reach(cfg, events[..1]), t[1]) && !Appended(Reach(cfg, events[..1]), t[0]);
    assert AppendedBefore(cfg, events, t[1], t[0]);
  }

  // --- the theorem ---------------------------------------------------------

  const SAMPLE := RawPitch("g", 1, 1, "s", 7, 1, 0, 0, 0, 1, "R", "", None, None, "")

  /** The runs in which commits fail, or readings are dead-lettered, only where that is allowed. */
  ghost predicate Allowed(cfg: Config, events: seq<Event>, commitsFail: bool, readingsFiled: bool) {
    (commitsFail || CommitsHold(cfg, events)) && (readingsFiled || NoReadingFiled(Reach(cfg, events)))
  }

  ghost predicate KeepsOrder(cfg: Config, commitsFail: bool, readingsFiled: bool) {
    forall events: seq<Event> :: Allowed(cfg, events, commitsFail, readingsFiled) ==> InAppendOrder(cfg, events)
  }

  /** A session's pitches are numbered in the order in which they were appended, in every run, if
      and only if the producer's keys send all readings of a session to one partition and it does
      not happen both that commits fail and that readings are given up. */
  lemma OrderExactly(cfg: Config, commitsFail: bool, readingsFiled: bool)
    requires ValidConfig(cfg)
    ensures KeepsOrder(cfg, commitsFail, readingsFiled) <==> KeyedBySession(cfg) && !(commitsFail && readingsFiled)
  {
    if KeyedBySession(cfg) && !(commitsFail && readingsFiled) {
      forall events: seq<Event> | Allowed(cfg, events, commitsFail, readingsFiled)
        ensures InAppendOrder(cfg, events)
      {
        if commitsFail {
          UnfiledKeepNoGaps(cfg, events);
        } else {
          CommitsKeepUpToDate(cfg, events);
        }
        LogOrderIsAppendOrder(cfg, events);
      }
    } else if !KeyedBySession(cfg) {
      var a, b :| ValidRaw(a) && ValidRaw(b) && a.sessionUid == b.sessionUid && Home(cfg, a) != Home(cfg, b);
      var x, y := SplitSession(cfg, a, b);
      var events := ApartLosesOrder(cfg, x, y);
      assert Allowed(cfg, events, commitsFail, readingsFiled);
    } else {
      var a, b := SAMPLE, SAMPLE.(pitchNumber := 2);
      if PitchUid(a) == PitchUid(b) {
        PitchUidInjective(a, b);
      }
      var events := GivingUpLosesOrder(cfg, a, b);
      assert Allowed(cfg, events, commitsFail, readingsFiled);
    }
  }
}
