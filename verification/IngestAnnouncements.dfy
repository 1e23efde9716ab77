/** Announcements are not retried on their own: a stored pitch that was not announced will be exactly if
    the reader that stored it is still at it. */
module IngestAnnouncements {
  import opened Wire
  import opened PitchTable
  import opened LiveCounters
  import opened Ingest
  import opened IngestSafety
  import opened IngestIdempotence
  import opened IngestTheorems
  import opened IngestProgress

  /** Some reader has stored this row and not yet tried to announce it. */
  predicate InHand(s: State, row: Row) {
    exists p :: 0 <= p < |s.parts| && Pending(s.parts[p].stage) && s.parts[p].stage.row == row
  }

  lemma EffectKeepsLost(cfg: Config, s: State, p: nat, eff: Effect, row: Row)
    requires p < |s.parts| && row in s.table && !InHand(s, row)
    requires LegalEffect(cfg, s.table, p, s.parts[p], eff)
    ensures !InHand(Enact(s, p, eff), row)
    ensures row in Enact(s, p, eff).published ==> row in s.published
  {
    var t := Enact(s, p, eff);
    forall q | 0 <= q < |t.parts| && Pending(t.parts[q].stage) ensures t.parts[q].stage.row != row {
      if q != p {
        assert t.parts[q].stage == s.parts[q].stage;
      } else if eff.inserted != [] {
        assert eff.inserted[0].uid != row.uid by {
          var i :| 0 <= i < |s.table| && s.table[i] == row;
        }
      }
    }
  }

  lemma AdvanceKeepsLost(cfg: Config, s: State, e: Event, row: Row)
    requires ValidConfig(cfg) && Inv(cfg, s) && row in s.table && !InHand(s, row) && e.Advance?
    ensures !InHand(Apply(cfg, s, e), row)
    ensures row in Apply(cfg, s, e).published ==> row in s.published
  {
    var p := e.partition;
    if p < |s.parts| && Plausible(e.choice) && !Waits(s, p, e.choice) {
      StepIsLegal(cfg, s.table, p, s.parts[p], e.choice, e.filed);
      EffectKeepsLost(cfg, s, p, ReaderStep(cfg, s.table, p, s.parts[p], e.choice, e.filed), row);
    }
  }

  /** Nothing but a reader's own operations makes it hold a row, or announces one. */
  lemma OthersKeepLost(cfg: Config, s: State, e: Event, row: Row)
    requires !InHand(s, row) && !e.Advance?
    ensures !InHand(Apply(cfg, s, e), row) && Apply(cfg, s, e).published == s.published
  {
    var t := Apply(cfg, s, e);
    forall p | 0 <= p < |t.parts| && Pending(t.parts[p].stage) ensures t.parts[p].stage.row != row {
      assert t.parts[p].stage == s.parts[p].stage;
    }
  }

  lemma EventKeepsLost(cfg: Config, s: State, e: Event, row: Row)
    requires ValidConfig(cfg) && Inv(cfg, s) && row in s.table && !InHand(s, row)
    ensures row in Apply(cfg, s, e).table && !InHand(Apply(cfg, s, e), row)
    ensures row in Apply(cfg, s, e).published ==> row in s.published
  {
    ApplyAppendsRows(cfg, s, e);
    if e.Advance? {
      AdvanceKeepsLost(cfg, s, e, row);
    } else {
      OthersKeepLost(cfg, s, e, row);
    }
  }

  lemma {:induction false} LostStaysLost(cfg: Config, s: State, events: seq<Event>, row: Row)
    requires ValidConfig(cfg) && Inv(cfg, s) && row in s.table && !InHand(s, row) && row !in s.published
    ensures row in Run(cfg, s, events).table && !InHand(Run(cfg, s, events), row)
    ensures row !in Run(cfg, s, events).published
  {
    if events != [] {
      var before := events[..|events| - 1];
      LostStaysLost(cfg, s, before, row);
      RunKeepsInv(cfg, s, before);
      EventKeepsLost(cfg, Run(cfg, s, before), events[|events| - 1], row);
    }
  }

  lemma CountedLeads(cfg: Config, s: State, p: nat, row: Row) returns (more: seq<Event>)
    requires p < |s.parts| && s.parts[p].position < |s.parts[p].log|
    requires s.parts[p].stage.Counted? && s.parts[p].stage.row == row
    ensures row in Run(cfg, s, more).published
  {
    more := [Advance(p, Proceed, true)];
    PublishSucceeds(cfg, s, p, s.parts[p].stage.attempt, row);
    RunOne(cfg, s, Advance(p, Proceed, true));
  }

  lemma InHandLeads(cfg: Config, s: State, row: Row) returns (more: seq<Event>)
    requires Inv(cfg, s) && InHand(s, row)
    ensures row in Run(cfg, s, more).published
  {
    var p :| 0 <= p < |s.parts| && Pending(s.parts[p].stage) && s.parts[p].stage.row == row;
    assert PartitionPlaced(cfg, s.parts[p]);
    var a := s.parts[p].stage.attempt;
    if s.parts[p].stage.Stored? {
      RecordSucceeds(cfg, s, p, a, row);
      var rest := CountedLeads(cfg, JustCounted(s, p, a, row), p, row);
      RunOne(cfg, s, Advance(p, Proceed, true));
      RunConcat(cfg, s, [Advance(p, Proceed, true)], rest);
      more := [Advance(p, Proceed, true)] + rest;
    } else {
      more := CountedLeads(cfg, s, p, row);
    }
  }

  /** A failed announcement is final: in every reachable state a stored pitch without one can still get
      one if and only if its reader has not come to it yet. Retries and redeliveries pass it over. */
  lemma AnnouncedExactly(cfg: Config, events: seq<Event>, row: Row)
    requires ValidConfig(cfg) && row in Reach(cfg, events).table && row !in Reach(cfg, events).published
    ensures InHand(Reach(cfg, events), row)
       <==> exists more: seq<Event> :: row in Run(cfg, Reach(cfg, events), more).published
  {
    var s := Reach(cfg, events);
    ReachInv(cfg, events);
    if InHand(s, row) {
      var more := InHandLeads(cfg, s, row);
    } else {
      forall more: seq<Event> ensures row !in Run(cfg, s, more).published {
        LostStaysLost(cfg, s, more, row);
      }
    }
  }
}
