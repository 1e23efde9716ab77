/** What holds of one connection whatever is enqueued, taken and dropped: every number has one
    known fate, the queue is bounded, and an undroppable message that did not fit is not forgotten. */
module ClientNumbers {
  import opened Wrappers
  import opened ClientQueue

  predicate Arrives(f: Fate) { f.Accepted? || f.NoticeAccepted? }

  /** The numbers the ledger says were accepted; number zero is the snapshot's. */
  function AcceptedNumbers(ledger: seq<Fate>): seq<nat> {
    if ledger == [] then [0]
    else AcceptedNumbers(ledger[..|ledger| - 1]) + if Arrives(ledger[|ledger| - 1]) then [|ledger|] else []
  }

  function Numbers(ms: seq<Message>): seq<nat> { seq(|ms|, i requires 0 <= i < |ms| => ms[i].number) }

  function Messages(ts: seq<Taken>): seq<Message> { seq(|ts|, i requires 0 <= i < |ts| => ts[i].m) }

  function Count(ledger: seq<Fate>, f: Fate): nat {
    if ledger == [] then 0
    else Count(ledger[..|ledger| - 1], f) + if ledger[|ledger| - 1] == f then 1 else 0
  }

  function Notices(ledger: seq<Fate>): nat { Count(ledger, NoticeAccepted) + Count(ledger, NoticeLost) }

  /** Drops of the current window not yet answered by a notice. */
  function Unanswered(c: Queue): nat {
    if c.windowCount >= DROP_THRESHOLD then c.windowCount - DROP_THRESHOLD else c.windowCount
  }

  /** Everything taken or still queued, in order. */
  function Stream(c: Queue): seq<Message> { Messages(c.taken) + c.queue }

  predicate Sound(c: Queue) {
    && |c.ledger| == c.nextSeq
    && Numbers(Stream(c)) == AcceptedNumbers(c.ledger)
    && c.dropped == Count(c.ledger, Dropped)
    && (c.closeSlow <==> Undeliverable in c.ledger)
    && |c.queue| <= SEND_BUFFER
    && DROP_THRESHOLD * Notices(c.ledger) + Unanswered(c) <= c.dropped
  }

  lemma OpenedIsSound(snapshot: int)
    ensures Sound(Opened(snapshot))
  {
    var c := Opened(snapshot);
    assert Numbers(Stream(c)) == [0];
  }

  lemma DeliveryKeepsStream(c: Queue, outcome: Outcome)
    ensures Stream(Delivered(c, outcome)) == Stream(c)
  {
    if c.ending.None? && c.queue != [] {
      assert Messages(c.taken + [Taken(c.queue[0], outcome)]) == Messages(c.taken) + [c.queue[0]];
    }
  }

  lemma DeliveryIsSound(c: Queue, outcome: Outcome)
    requires Sound(c)
    ensures Sound(Delivered(c, outcome))
  {
    DeliveryKeepsStream(c, outcome);
  }

  lemma {:induction false} DeliveriesAreSound(c: Queue, outcomes: seq<Outcome>)
    requires Sound(c)
    ensures Sound(DeliveredAll(c, outcomes))
    ensures
      var d := DeliveredAll(c, outcomes);
      d.ledger == c.ledger && d.dropped == c.dropped && d.windowCount == c.windowCount
  {
    if outcomes != [] {
      DeliveriesAreSound(c, outcomes[..|outcomes| - 1]);
      DeliveryIsSound(DeliveredAll(c, outcomes[..|outcomes| - 1]), outcomes[|outcomes| - 1]);
    }
  }

  lemma TurnIsSound(c: Queue, turn: Turn)
    requires Sound(c)
    ensures Sound(Turned(c, turn)) && Turned(c, turn).panics == c.panics
  {
    if turn.Deliver? {
      DeliveryIsSound(c, turn.outcome);
    }
  }

  /** A number spent on a message that is queued. */
  lemma AcceptingIsSound(c: Queue, m: Message, f: Fate)
    requires |c.ledger| == c.nextSeq && Numbers(Stream(c)) == AcceptedNumbers(c.ledger)
    requires Arrives(f) && m.number == c.nextSeq + 1
    ensures
      var d := Spend(c, f).(queue := c.queue + [m]);
      Numbers(Stream(d)) == AcceptedNumbers(d.ledger)
  {
    var d := Spend(c, f).(queue := c.queue + [m]);
    assert d.ledger[..|d.ledger| - 1] == c.ledger;
    assert Stream(d) == Stream(c) + [m];
    assert Numbers(Stream(d)) == Numbers(Stream(c)) + [m.number];
  }

  lemma SpendCounts(c: Queue, f: Fate, g: Fate)
    ensures Count(Spend(c, f).ledger, g) == Count(c.ledger, g) + if f == g then 1 else 0
    ensures !Arrives(f) ==> AcceptedNumbers(Spend(c, f).ledger) == AcceptedNumbers(c.ledger)
  {
    assert Spend(c, f).ledger[..|c.ledger|] == c.ledger;
  }

  lemma SpendsCount(c: Queue, f: Fate)
    ensures
      var l := Spend(c, f).ledger;
      && Count(l, Dropped) == Count(c.ledger, Dropped) + (if f.Dropped? then 1 else 0)
      && Notices(l) == Notices(c.ledger) + (if f.NoticeAccepted? || f.NoticeLost? then 1 else 0)
      && (!Arrives(f) ==> AcceptedNumbers(l) == AcceptedNumbers(c.ledger))
      && (Undeliverable in l <==> Undeliverable in c.ledger || f.Undeliverable?)
  {
    SpendCounts(c, f, Dropped);
    SpendCounts(c, f, NoticeAccepted);
    SpendCounts(c, f, NoticeLost);
  }

  /** A state whose last spent number was a drop the window has not counted yet. */
  predicate DropPending(c: Queue) {
    && |c.ledger| == c.nextSeq
    && Numbers(Stream(c)) == AcceptedNumbers(c.ledger)
    && c.dropped == Count(c.ledger, Dropped)
    && (c.closeSlow <==> Undeliverable in c.ledger)
    && |c.queue| <= SEND_BUFFER
    && DROP_THRESHOLD * Notices(c.ledger) + Unanswered(c) + 1 <= c.dropped
  }

  /** The fiftieth drop of a window pays for its notice, whether or not it fits. */
  lemma NoticeIsSound(c: Queue)
    requires Sound(c) && c.windowCount == DROP_THRESHOLD
    requires DROP_THRESHOLD * (Notices(c.ledger) + 1) <= c.dropped
    ensures Sound(Notified(c))
  {
    if |c.queue| < SEND_BUFFER {
      SpendsCount(c, NoticeAccepted);
      AcceptingIsSound(c, Message(Notice, c.nextSeq + 1, 0), NoticeAccepted);
    } else {
      SpendsCount(c, NoticeLost);
      assert Stream(Spend(c, NoticeLost)) == Stream(c);
    }
  }

  lemma CountingIsSound(c: Queue, now: int)
    requires DropPending(c)
    ensures
      var d := Counted(c, now);
      && Sound(d) && d.ledger == c.ledger && d.dropped == c.dropped
      && (d.windowCount == DROP_THRESHOLD ==> DROP_THRESHOLD * (Notices(d.ledger) + 1) <= d.dropped)
  {
    assert Stream(Counted(c, now)) == Stream(c);
  }

  lemma NotingIsSound(c: Queue, now: int, meanwhile: seq<Outcome>)
    requires DropPending(c)
    ensures Sound(Noted(c, now, meanwhile))
  {
    CountingIsSound(c, now);
    if Counted(c, now).windowCount == DROP_THRESHOLD {
      DeliveriesAreSound(Counted(c, now), meanwhile);
      NoticeIsSound(DeliveredAll(Counted(c, now), meanwhile));
    }
  }

  lemma AcceptedIsSound(c: Queue, m: Message)
    requires Sound(c) && |c.queue| < SEND_BUFFER && m.number == c.nextSeq + 1
    ensures Sound(Spend(c, Accepted).(queue := c.queue + [m]))
  {
    SpendsCount(c, Accepted);
    AcceptingIsSound(c, m, Accepted);
  }

  lemma UndeliverableIsSound(c: Queue)
    requires Sound(c)
    ensures Sound(Spend(c, Undeliverable).(closeSlow := true))
  {
    SpendsCount(c, Undeliverable);
    assert Stream(Spend(c, Undeliverable).(closeSlow := true)) == Stream(c);
  }

  lemma DropIsPending(c: Queue)
    requires Sound(c)
    ensures DropPending(Spend(c, Dropped).(dropped := c.dropped + 1))
  {
    SpendsCount(c, Dropped);
    assert Stream(Spend(c, Dropped).(dropped := c.dropped + 1)) == Stream(c);
  }

  lemma FullEnqueueIsSound(c: Queue, kind: Kind, body: int, now: int, meanwhile: seq<Outcome>)
    requires Sound(c) && !c.closed && |c.queue| >= SEND_BUFFER && (kind.SessionMetrics? ==> c.metricsEnabled)
    ensures Sound(Enqueued(c, kind, body, now, meanwhile))
  {
    FullQueue(c, kind, body, now, meanwhile);
    if Undroppable(kind) {
      UndeliverableIsSound(c);
    } else {
      DropIsPending(c);
      NotingIsSound(Spend(c, Dropped).(dropped := c.dropped + 1), now, meanwhile);
    }
  }

  /** Enqueuing keeps the account exact. */
  lemma EnqueueIsSound(c: Queue, kind: Kind, body: int, now: int, meanwhile: seq<Outcome>)
    requires Sound(c) && !c.closed
    ensures Sound(Enqueued(c, kind, body, now, meanwhile))
  {
    if kind.SessionMetrics? && !c.metricsEnabled {
    } else if |c.queue| < SEND_BUFFER {
      AcceptedIsSound(c, Message(kind, c.nextSeq + 1, body));
    } else {
      FullEnqueueIsSound(c, kind, body, now, meanwhile);
    }
  }

  lemma {:induction false} DeliveriesKeepHistory(c: Queue, outcomes: seq<Outcome>)
    ensures DeliveredAll(c, outcomes).ledger == c.ledger && DeliveredAll(c, outcomes).dropped == c.dropped
  {
    if outcomes != [] {
      DeliveriesKeepHistory(c, outcomes[..|outcomes| - 1]);
    }
  }

  /** What enqueuing does, by whether there is room and by the kind of the message: an anomaly and the
      terminal message are never dropped, everything else is. */
  ghost predicate Resolved(c: Queue, d: Queue, kind: Kind, body: int) {
    if kind.SessionMetrics? && !c.metricsEnabled then d == c
    else
      && c.ledger < d.ledger
      && if |c.queue| < SEND_BUFFER then
           && d.queue == c.queue + [Message(kind, c.nextSeq + 1, body)] && d.ledger == c.ledger + [Accepted]
           && d.dropped == c.dropped && d.closeSlow == c.closeSlow
         else match kind
           case AnomalyDetected => CutOff(c, d)
           case SessionClosed => CutOff(c, d)
           case _ => d.dropped == c.dropped + 1 && d.closeSlow == c.closeSlow && d.ledger[|c.ledger|] == Dropped
  }

  /** The message did not fit: the connection is to end, and nothing counts as dropped. */
  predicate CutOff(c: Queue, d: Queue) {
    d.closeSlow && d.dropped == c.dropped && d.queue == c.queue && d.ledger == c.ledger + [Undeliverable]
  }

  lemma EnqueueResolves(c: Queue, kind: Kind, body: int, now: int, meanwhile: seq<Outcome>)
    requires !c.closed
    ensures Resolved(c, Enqueued(c, kind, body, now, meanwhile), kind, body)
  {
    var counted := Counted(Spend(c, Dropped).(dropped := c.dropped + 1), now);
    DeliveriesKeepHistory(counted, meanwhile);
    DeliveriesKeepLifecycle(counted, meanwhile);
  }

  // --- notices of slowness -------------------------------------------------

  /** Pitches enqueued one after the other, while the writer takes nothing. */
  function Pitches(c: Queue, nows: seq<int>): Queue {
    if nows == [] then c
    else Enqueued(Pitches(c, nows[..|nows| - 1]), PitchAnalyzed, 0, nows[|nows| - 1], [])
  }

  lemma {:induction false} DropsCounted(c: Queue, nows: seq<int>)
    requires !c.closed && |c.queue| == SEND_BUFFER && 0 < |nows| < 50
    requires c.windowStart == None || nows[0] - c.windowStart.value > 60_000
    requires forall i :: 0 <= i < |nows| ==> nows[i] - nows[0] <= 60_000
    ensures
      var d := Pitches(c, nows);
      && !d.closed && d.queue == c.queue && d.windowStart == Some(nows[0]) && d.windowCount == |nows|
      && d.dropped == c.dropped + |nows| && d.nextSeq == c.nextSeq + |nows|
      && d.closeSlow == c.closeSlow && d.ending == c.ending
  {
    var before := nows[..|nows| - 1];
    if before == [] {
      assert Pitches(c, before) == c;
    } else {
      DropsCounted(c, before);
    }
  }

  /** The fiftieth drop within a minute, and none before it, spends one number more: on a notice. */
  lemma FiftiethDropIsNoticed(c: Queue, nows: seq<int>, now: int, meanwhile: seq<Outcome>)
    requires !c.closed && |c.queue| == SEND_BUFFER && |nows| == 49 && now - nows[0] <= 60_000
    requires c.windowStart == None || nows[0] - c.windowStart.value > 60_000
    requires forall i :: 0 <= i < |nows| ==> nows[i] - nows[0] <= 60_000
    ensures
      var d := Pitches(c, nows);
      d.nextSeq == c.nextSeq + 49 && d.dropped == c.dropped + 49
    ensures
      var d := Enqueued(Pitches(c, nows), PitchAnalyzed, 0, now, meanwhile);
      && d.nextSeq == c.nextSeq + 51 && d.dropped == c.dropped + 50
      && (meanwhile == [] ==> d.queue == c.queue)
      && (meanwhile == [Written] && c.ending == None ==>
            d.queue == c.queue[1..] + [Message(Notice, c.nextSeq + 51, 0)])
  {
    DropsCounted(c, nows);
    LastDropIsNoticed(Pitches(c, nows), now, meanwhile);
  }

  lemma LastDropIsNoticed(c: Queue, now: int, meanwhile: seq<Outcome>)
    requires !c.closed && |c.queue| == SEND_BUFFER && c.windowCount == 49
    requires c.windowStart.Some? && now - c.windowStart.value <= 60_000
    ensures
      var d := Enqueued(c, PitchAnalyzed, 0, now, meanwhile);
      && d.nextSeq == c.nextSeq + 2 && d.dropped == c.dropped + 1
      && (meanwhile == [] ==> d.queue == c.queue)
      && (meanwhile == [Written] && c.ending == None ==>
            d.queue == c.queue[1..] + [Message(Notice, c.nextSeq + 2, 0)])
  {
    FullQueue(c, PitchAnalyzed, 0, now, meanwhile);
    NoticeFollows(Counted(Spend(c, Dropped).(dropped := c.dropped + 1), now), meanwhile);
  }

  lemma NoticeFollows(c: Queue, meanwhile: seq<Outcome>)
    requires |c.queue| == SEND_BUFFER
    ensures
      var d := Notified(DeliveredAll(c, meanwhile));
      && d.nextSeq == c.nextSeq + 1 && d.dropped == c.dropped
      && (meanwhile == [] ==> d.queue == c.queue)
      && (meanwhile == [Written] && c.ending == None ==>
            d.queue == c.queue[1..] + [Message(Notice, c.nextSeq + 1, 0)])
  {
    DeliveriesKeepNumbers(c, c, meanwhile);
    DeliveriesKeepHistory(c, meanwhile);
    if meanwhile == [Written] {
      assert meanwhile[..0] == [];
      assert DeliveredAll(c, meanwhile) == Delivered(c, Written);
    }
  }

  lemma {:induction false} DeliveriesKeepLifecycle(c: Queue, outcomes: seq<Outcome>)
    ensures
      var d := DeliveredAll(c, outcomes);
      d.panics == c.panics && d.closed == c.closed && d.closeSlow == c.closeSlow
  {
    if outcomes != [] {
      DeliveriesKeepLifecycle(c, outcomes[..|outcomes| - 1]);
    }
  }

  /** Enqueuing neither closes the queue nor, while it is open, panics; and a signal to close
      once given is never taken back. */
  lemma EnqueueKeepsLifecycle(c: Queue, kind: Kind, body: int, now: int, meanwhile: seq<Outcome>)
    ensures
      var d := Enqueued(c, kind, body, now, meanwhile);
      d.closed == c.closed && (!c.closed ==> d.panics == c.panics) && (c.closeSlow ==> d.closeSlow)
  {
    DeliveriesKeepLifecycle(Counted(Spend(c, Dropped).(dropped := c.dropped + 1), now), meanwhile);
  }

  // --- the accepted numbers ------------------------------------------------

  lemma {:induction false} AcceptedMeans(ledger: seq<Fate>, n: nat)
    ensures n in AcceptedNumbers(ledger) <==> n == 0 || (n <= |ledger| && Arrives(ledger[n - 1]))
  {
    if ledger != [] {
      AcceptedMeans(ledger[..|ledger| - 1], n);
    }
  }

  lemma {:induction false} AcceptedIncrease(ledger: seq<Fate>)
    ensures
      var ns := AcceptedNumbers(ledger);
      && |ns| > 0 && ns[|ns| - 1] <= |ledger|
      && forall i, j :: 0 <= i < j < |ns| ==> ns[i] < ns[j]
  {
    if ledger != [] {
      AcceptedIncrease(ledger[..|ledger| - 1]);
    }
  }

  /** The fates of the numbers split them: what arrives, besides the snapshot, and what does not. */
  lemma {:induction false} FatesSplit(ledger: seq<Fate>)
    ensures |AcceptedNumbers(ledger)| - 1 == Count(ledger, Accepted) + Count(ledger, NoticeAccepted)
    ensures |ledger| == |AcceptedNumbers(ledger)| - 1
      + Count(ledger, Dropped) + Count(ledger, Undeliverable) + Count(ledger, NoticeLost)
  {
    if ledger != [] {
      FatesSplit(ledger[..|ledger| - 1]);
    }
  }
}
