/** The pitch scores: the live counters take what inference answered, PostgreSQL what could be
    stored of it under the model that is active when it is asked. When the two agree. */
module IngestScores {
  import opened Wrappers
  import opened Wire
  import opened PitchTable
  import opened LiveCounters
  import opened Ingest
  import opened IngestSafety
  import opened IngestTheorems
  import opened IngestProgress

  // --- what is stored ------------------------------------------------------

  function StoredScore(s: State, row: Row): Option<Prediction> {
    if row.uid in s.predictions then Some(s.predictions[row.uid]) else None
  }

  /** A score was stored with its row, or not, as the model active then and the answer decided. */
  predicate ScoreOk(s: State, row: Row) {
    row.uid in s.storedUnder && StoredScore(s, row) == PredictionOf(row, s.storedUnder[row.uid])
  }

  ghost predicate Scores(s: State) {
    && (forall i :: 0 <= i < |s.table| ==> ScoreOk(s, s.table[i]))
    && (forall uid :: uid in s.predictions ==> Has(s.table, uid))
  }

  lemma EnactKeepsScores(s: State, p: nat, eff: Effect)
    requires p < |s.parts| && Scores(s) && LegalInsert(s.table, p, s.parts[p], eff)
    ensures Scores(Enact(s, p, eff))
  {
    var t := Enact(s, p, eff);
    if eff.inserted == [] {
      assert t.table == s.table;
    } else {
      var row := eff.inserted[0];
      assert t.table == s.table + [row];
      assert row.uid !in s.predictions;
      forall i | 0 <= i < |s.table| ensures ScoreOk(t, s.table[i]) {
        assert ScoreOk(s, s.table[i]) && s.table[i].uid != row.uid;
      }
      forall uid | uid in t.predictions ensures Has(t.table, uid) {
        assert t.table[|s.table|].uid == row.uid;
        if uid != row.uid {
          HasStays(s.table, [row], uid);
        }
      }
    }
  }

  lemma ApplyKeepsScores(cfg: Config, s: State, e: Event)
    requires cfg.maxAttempts >= 1 && Placed(cfg, s) && Scores(s)
    ensures Scores(Apply(cfg, s, e))
  {
    if e.Advance? {
      var p := e.partition;
      if p < |s.parts| && Plausible(e.choice) && !Waits(s, p, e.choice) {
        var eff := ReaderStep(cfg, s.table, p, s.parts[p], e.choice, e.filed);
        assert LegalInsert(s.table, p, s.parts[p], eff) by {
          StepIsLegal(cfg, s.table, p, s.parts[p], e.choice, e.filed);
        }
        EnactKeepsScores(s, p, eff);
      }
    } else {
      OthersKeepScores(cfg, s, e);
    }
  }

  lemma OthersKeepScores(cfg: Config, s: State, e: Event)
    requires Scores(s) && !e.Advance?
    ensures Scores(Apply(cfg, s, e))
  {
    var t := Apply(cfg, s, e);
    SameScores(cfg, s, e);
    forall i | 0 <= i < |t.table| ensures ScoreOk(t, t.table[i]) {
      assert ScoreOk(s, s.table[i]);
    }
  }

  lemma SameScores(cfg: Config, s: State, e: Event)
    requires !e.Advance?
    ensures
      var t := Apply(cfg, s, e);
      t.table == s.table && t.predictions == s.predictions && t.storedUnder == s.storedUnder
  {
  }

  lemma {:induction false} ReachScores(cfg: Config, events: seq<Event>)
    requires ValidConfig(cfg)
    ensures Scores(Reach(cfg, events))
  {
    if events != [] {
      var before := events[..|events| - 1];
      ReachScores(cfg, before);
      ReachInv(cfg, before);
      ApplyKeepsScores(cfg, Reach(cfg, before), events[|events| - 1]);
    }
  }

  // --- the query -----------------------------------------------------------

  /** GetSessionLiveMetrics joins the scores of the active version only. */
  function ActiveScore(s: State, row: Row): Option<real> {
    match StoredScore(s, row)
    case None => None
    case Some(prediction) => if s.active == Some(prediction.version) then Some(prediction.score) else None
  }

  function ScoreCount(s: State, t: Table, session: string): nat {
    if t == [] then 0
    else
      ScoreCount(s, t[..|t| - 1], session)
      + if t[|t| - 1].session == session && ActiveScore(s, t[|t| - 1]).Some? then 1 else 0
  }

  function ScoreSum(s: State, t: Table, session: string): real {
    if t == [] then 0.0
    else
      ScoreSum(s, t[..|t| - 1], session)
      + if t[|t| - 1].session == session && ActiveScore(s, t[|t| - 1]).Some?
        then ActiveScore(s, t[|t| - 1]).value else 0.0
  }

  function ScoreAverage(s: State, session: string): Option<real> {
    var n := ScoreCount(s, s.table, session);
    if n == 0 then None else Some(ScoreSum(s, s.table, session) / n as real)
  }

  // --- when the two agree --------------------------------------------------

  predicate HasOutput(a: Answer) { a.probabilities || a.whiff }

  /** If inference answered for the row, the answer had an output, a version was active when the
      row was stored, and the same version is active now. */
  predicate Countable(s: State, row: Row) {
    row.answer.Some? ==>
      HasOutput(row.answer.value) && s.active.Some? && row.uid in s.storedUnder && s.storedUnder[row.uid] == s.active
  }

  ghost predicate AllCountable(s: State, t: Table, session: string) {
    forall i :: 0 <= i < |t| && t[i].session == session ==> Countable(s, t[i])
  }

  lemma ActiveIsCountable(s: State, row: Row)
    requires ScoreOk(s, row)
    ensures ActiveScore(s, row).Some? <==> row.answer.Some? && Countable(s, row)
    ensures ActiveScore(s, row).Some? ==> ActiveScore(s, row).value == row.answer.value.score
  {
  }

  lemma CountableLast(s: State, t: Table, session: string)
    requires t != []
    ensures AllCountable(s, t, session) <==>
      AllCountable(s, t[..|t| - 1], session) && (t[|t| - 1].session == session ==> Countable(s, t[|t| - 1]))
  {
    assert t == t[..|t| - 1] + [t[|t| - 1]];
    assert forall i :: 0 <= i < |t| - 1 ==> t[..|t| - 1][i] == t[i];
  }

  lemma {:induction false} CountsAgreeExactly(s: State, t: Table, session: string)
    requires forall i :: 0 <= i < |t| ==> ScoreOk(s, t[i])
    ensures ScoreCount(s, t, session) as real <= Total(t, session, CountScore)
    ensures ScoreCount(s, t, session) as real == Total(t, session, CountScore) <==> AllCountable(s, t, session)
    ensures AllCountable(s, t, session) ==> ScoreSum(s, t, session) == Total(t, session, SumScore)
  {
    if t != [] {
      var before, last := t[..|t| - 1], t[|t| - 1];
      assert forall i :: 0 <= i < |before| ==> before[i] == t[i];
      CountsAgreeExactly(s, before, session);
      ActiveIsCountable(s, last);
      CountableLast(s, t, session);
    }
  }

  /** No update of the session was lost, and none is pending. */
  ghost predicate CaughtUp(s: State, session: string) {
    && session !in s.blemished
    && forall p :: 0 <= p < |s.parts| && s.parts[p].stage.Stored? ==> s.parts[p].stage.row.session != session
  }

  /** The live score count is at least the one recomputed from PostgreSQL, and equal to it, with
      the sums and averages, if and only if every answered row of the session is countable. */
  lemma LiveScoresExactly(cfg: Config, events: seq<Event>, session: string)
    requires ValidConfig(cfg) && CaughtUp(Reach(cfg, events), session)
    ensures
      var s := Reach(cfg, events);
      var h, n := HashOf(s.live, session), ScoreCount(s, s.table, session);
      && n as real <= Get(h, CountScore)
      && (n as real == Get(h, CountScore) <==> AllCountable(s, s.table, session))
      && (n as real == Get(h, CountScore) ==>
            ScoreSum(s, s.table, session) == Get(h, SumScore)
            && ScoreAverage(s, session) == Average(h, SumScore, CountScore))
  {
    var s := Reach(cfg, events);
    LiveEqualsRows(cfg, events, session);
    ReachScores(cfg, events);
    CountsAgreeExactly(s, s.table, session);
  }

  // --- which steps keep the agreement --------------------------------------

  /** Storing an answered row takes an active version and an output; switching the model takes a
      session without answered rows. */
  ghost predicate Guard(cfg: Config, s: State, e: Event, session: string) {
    match e
    case Advance(p, choice, filed) =>
      p < |s.parts| && Plausible(choice) && !Waits(s, p, choice) ==>
        var inserted := ReaderStep(cfg, s.table, p, s.parts[p], choice, filed).inserted;
        inserted != [] && inserted[0].session == session && inserted[0].answer.Some? ==>
          s.active.Some? && HasOutput(inserted[0].answer.value)
    case Activate(version) =>
      version != s.active ==>
        forall i :: 0 <= i < |s.table| && s.table[i].session == session ==> s.table[i].answer.None?
    case _ => true
  }

  lemma EnactKeepsCountable(s: State, p: nat, eff: Effect, session: string)
    requires p < |s.parts| && Scores(s) && LegalInsert(s.table, p, s.parts[p], eff)
    requires AllCountable(s, s.table, session)
    ensures
      AllCountable(Enact(s, p, eff), Enact(s, p, eff).table, session) <==>
        (eff.inserted != [] && eff.inserted[0].session == session && eff.inserted[0].answer.Some? ==>
           s.active.Some? && HasOutput(eff.inserted[0].answer.value))
  {
    var t := Enact(s, p, eff);
    if eff.inserted == [] {
      assert t.table == s.table;
    } else {
      var row := eff.inserted[0];
      assert t.table == s.table + [row] && t.table[|s.table|] == row;
      forall i | 0 <= i < |s.table| && s.table[i].session == session ensures Countable(t, s.table[i]) {
        assert Countable(s, s.table[i]) && s.table[i].uid != row.uid;
      }
    }
  }

  lemma ActivateKeepsCountable(cfg: Config, s: State, version: Option<nat>, session: string)
    requires AllCountable(s, s.table, session)
    ensures
      var t := Apply(cfg, s, Activate(version));
      AllCountable(t, t.table, session) <==> Guard(cfg, s, Activate(version), session)
  {
    var t := Apply(cfg, s, Activate(version));
    if version != s.active {
      forall i | 0 <= i < |s.table| && s.table[i].session == session && s.table[i].answer.Some?
        ensures !Countable(t, t.table[i])
      {
        assert Countable(s, s.table[i]);
      }
    }
  }

  /** A step keeps all of a session's rows countable if and only if it meets the guard. */
  lemma GuardExactly(cfg: Config, s: State, e: Event, session: string)
    requires cfg.maxAttempts >= 1 && Placed(cfg, s) && Scores(s) && AllCountable(s, s.table, session)
    ensures
      var t := Apply(cfg, s, e);
      AllCountable(t, t.table, session) <==> Guard(cfg, s, e, session)
  {
    match e
    case Advance(p, choice, filed) =>
      if p < |s.parts| && Plausible(choice) && !Waits(s, p, choice) {
        var eff := ReaderStep(cfg, s.table, p, s.parts[p], choice, filed);
        assert LegalInsert(s.table, p, s.parts[p], eff) by {
          StepIsLegal(cfg, s.table, p, s.parts[p], choice, filed);
        }
        EnactKeepsCountable(s, p, eff, session);
      }
    case Activate(version) => ActivateKeepsCountable(cfg, s, version, session);
    case _ => OthersKeepCountable(cfg, s, e, session);
  }

  lemma OthersKeepCountable(cfg: Config, s: State, e: Event, session: string)
    requires AllCountable(s, s.table, session) && !e.Advance? && !e.Activate?
    ensures AllCountable(Apply(cfg, s, e), Apply(cfg, s, e).table, session)
  {
    var t := Apply(cfg, s, e);
    SameScores(cfg, s, e);
    assert t.active == s.active;
    forall i | 0 <= i < |t.table| && t.table[i].session == session ensures Countable(t, t.table[i]) {
      assert Countable(s, s.table[i]);
    }
  }

  // --- one pitch, all cases ------------------------------------------------

  lemma Extend(cfg: Config, events: seq<Event>, e: Event) returns (more: seq<Event>)
    ensures Reach(cfg, more) == Apply(cfg, Reach(cfg, events), e)
  {
    more := events + [e];
    assert more[..|events|] == events;
  }

  lemma Deliver(cfg: Config, events: seq<Event>, p: nat, answer: Option<Answer>) returns (more: seq<Event>)
    requires Ready(Reach(cfg, events), p)
    ensures
      var s := Reach(cfg, events);
      Reach(cfg, more) == Delivered(s, p, NewRow(s, p, answer))
  {
    more := events + (FetchStep(p) + DeliverySteps(p, answer));
    NewPitchDelivered(cfg, Reach(cfg, events), p, answer);
    RunConcat(cfg, Init(cfg), events, FetchStep(p) + DeliverySteps(p, answer));
  }

  /** A reading has been sent, with one model active. */
  lemma Start(cfg: Config, raw: RawPitch, version: Option<nat>) returns (events: seq<Event>)
    requires ValidConfig(cfg) && ValidRaw(raw)
    ensures
      var s, p := Reach(cfg, events), cfg.route(cfg.keying(raw));
      && s.table == [] && s.blemished == {} && s.storedUnder == map[] && s.active == version
      && Ready(s, p) && PitchAt(s, p) == raw && forall q :: 0 <= q < |s.parts| ==> s.parts[q].stage.Idle?
  {
    var rec := Record(cfg.keying(raw), Parsed(Envelope(TYPE_PITCH_RAW, Decoded(raw))), []);
    assert [] + [rec] == [rec];
    var one := Extend(cfg, [], Activate(version));
    assert Reach(cfg, one) == Init(cfg).(active := version);
    events := Extend(cfg, one, Produce(rec));
  }

  lemma OneTotal(row: Row)
    ensures Total([row], row.session, CountScore) == Contribution(row, CountScore)
  {
    assert [row][..0] == [];
    assert Total([row][..0], row.session, CountScore) == 0.0;
  }

  lemma OneRow(cfg: Config, events: seq<Event>, row: Row)
    requires ValidConfig(cfg) && Reach(cfg, events).table == [row] && CaughtUp(Reach(cfg, events), row.session)
    requires row.answer.Some?
    ensures
      var s := Reach(cfg, events);
      && Get(HashOf(s.live, row.session), CountScore) == 1.0
      && ScoreCount(s, s.table, row.session) == if Countable(s, row) then 1 else 0
  {
    var s := Reach(cfg, events);
    LiveEqualsRows(cfg, events, row.session);
    OneTotal(row);
    ReachScores(cfg, events);
    ActiveIsCountable(s, s.table[0]);
    assert [row][..0] == [];
  }

  /** A pitch is answered, delivered under one active model and looked at under another, with
      nothing failing and nothing lost. The live count is one. The recomputed one is one if a
      version was active when the pitch was stored, the answer had an output and the version is
      still active, and zero in every other case: no model registered, an answer without output,
      another version since. */
  lemma OnePitchCounts(cfg: Config, raw: RawPitch, answer: Answer, before: Option<nat>, after: Option<nat>)
    returns (events: seq<Event>)
    requires ValidConfig(cfg) && ValidRaw(raw)
    ensures
      var s := Reach(cfg, events);
      && CaughtUp(s, raw.sessionUid) && |s.table| == 1 && s.active == after
      && Get(HashOf(s.live, raw.sessionUid), CountScore) == 1.0
      && ScoreCount(s, s.table, raw.sessionUid)
         == if before.Some? && HasOutput(answer) && after == before then 1 else 0
  {
    var p := cfg.route(cfg.keying(raw));
    var start := Start(cfg, raw, before);
    var row := NewRow(Reach(cfg, start), p, Some(answer));
    var delivered := Deliver(cfg, start, p, Some(answer));
    events := Extend(cfg, delivered, Activate(after));
    assert Reach(cfg, events).table == [row];
    OneRow(cfg, events, row);
  }
}
