/** One WebSocket connection: a bounded queue between the hub, which numbers and enqueues, and
    the connection's writer, which takes; and what happens to a message that does not fit. */
module ClientQueue {
  import opened Wrappers

  const SEND_BUFFER: nat := 256
  const DROP_THRESHOLD: nat := 50
  /** The drop window, in milliseconds. */
  const DROP_WINDOW: int := 60_000

  datatype Kind = Snapshot | PitchAnalyzed | AnomalyDetected | SessionMetrics | SessionClosed | Notice

  datatype Message = Message(kind: Kind, number: nat, body: int)

  predicate Undroppable(kind: Kind) { kind.AnomalyDetected? || kind.SessionClosed? }

  /** What became of a sequence number. */
  datatype Fate = Accepted | Dropped | Undeliverable | NoticeAccepted | NoticeLost

  /** How one write went: a message that cannot be encoded is skipped, a failed write ends the writer. */
  datatype Outcome = Written | NotEncoded | WriteFailed

  datatype Taken = Taken(m: Message, outcome: Outcome)

  datatype Ending = Normal | TooSlow | Expired | GoingAway | Broken

  /** taken, ledger and panics are history: the writer's takes, the fate of number i + 1 at
      index i, and the sends and closes on a closed queue, each of which would be fatal. */
  datatype Queue = Queue(
    queue: seq<Message>, closed: bool, nextSeq: nat, dropped: nat,
    metricsEnabled: bool, closeSlow: bool, windowStart: Option<int>, windowCount: nat,
    ending: Option<Ending>, taken: seq<Taken>, ledger: seq<Fate>, panics: nat)

  /** A new connection whose snapshot, number zero, has been queued. */
  function Opened(snapshot: int): Queue {
    Queue([Message(Snapshot, 0, snapshot)], false, 0, 0, true, false, None, 0, None, [], [], 0)
  }

  // --- the writer ----------------------------------------------------------

  datatype Turn = Deliver(outcome: Outcome) | PingFails | SlowSignal | Expiry | HubDone

  function Delivered(c: Queue, outcome: Outcome): Queue {
    if c.ending.Some? then c
    else if c.queue == [] then if c.closed then c.(ending := Some(Normal)) else c
    else
      var m := c.queue[0];
      c.(queue := c.queue[1..], taken := c.taken + [Taken(m, outcome)],
         ending := if outcome.WriteFailed? then Some(Broken)
                   else if m.kind.SessionClosed? then Some(Normal) else None)
  }

  function DeliveredAll(c: Queue, outcomes: seq<Outcome>): Queue {
    if outcomes == [] then c else Delivered(DeliveredAll(c, outcomes[..|outcomes| - 1]), outcomes[|outcomes| - 1])
  }

  /** One turn of the writer's select; a case whose channel is not ready is not taken. */
  function Turned(c: Queue, turn: Turn): Queue {
    if c.ending.Some? then c
    else match turn
      case Deliver(outcome) => Delivered(c, outcome)
      case PingFails => c.(ending := Some(Broken))
      case SlowSignal => if c.closeSlow then c.(ending := Some(TooSlow)) else c
      case Expiry => c.(ending := Some(Expired))
      case HubDone => c.(ending := Some(GoingAway))
  }

  // --- the hub's side ------------------------------------------------------

  function Spend(c: Queue, fate: Fate): Queue { c.(nextSeq := c.nextSeq + 1, ledger := c.ledger + [fate]) }

  /** A drop is counted in its window, which starts anew once it is over. */
  function Counted(c: Queue, now: int): Queue {
    if c.windowStart.None? || now - c.windowStart.value > DROP_WINDOW then
      c.(windowStart := Some(now), windowCount := 1)
    else c.(windowCount := c.windowCount + 1)
  }

  /** The notice takes the next number and is queued if there is room by now. */
  function Notified(c: Queue): Queue {
    if |c.queue| < SEND_BUFFER then
      Spend(c, NoticeAccepted).(queue := c.queue + [Message(Notice, c.nextSeq + 1, 0)])
    else Spend(c, NoticeLost)
  }

  /** The fiftieth drop of a window is answered by a notice; in the meanwhile the writer may
      have made room. */
  function Noted(c: Queue, now: int, meanwhile: seq<Outcome>): Queue {
    if Counted(c, now).windowCount != DROP_THRESHOLD then Counted(c, now)
    else Notified(DeliveredAll(Counted(c, now), meanwhile))
  }

  function Enqueued(c: Queue, kind: Kind, body: int, now: int, meanwhile: seq<Outcome>): Queue {
    if kind.SessionMetrics? && !c.metricsEnabled then c
    else if c.closed then c.(nextSeq := c.nextSeq + 1, panics := c.panics + 1)
    else if |c.queue| < SEND_BUFFER then
      Spend(c, Accepted).(queue := c.queue + [Message(kind, c.nextSeq + 1, body)])
    else if Undroppable(kind) then Spend(c, Undeliverable).(closeSlow := true)
    else Noted(Spend(c, Dropped).(dropped := c.dropped + 1), now, meanwhile)
  }

  function Closed(c: Queue): Queue {
    if c.closed then c.(panics := c.panics + 1) else c.(closed := true)
  }

  /** The closed outing's client gets the terminal message right after its snapshot, and no more. */
  function Served(c: Queue, body: int): Queue {
    Closed(Spend(c, Accepted).(queue := c.queue + [Message(SessionClosed, c.nextSeq + 1, body)]))
  }

  /** What a watcher may send: anything but a subscription changes nothing of a queue. */
  datatype Command = SubscribeMetrics(enabled: Option<bool>) | Ignored

  function Commanded(c: Queue, command: Command): Queue {
    match command
    case SubscribeMetrics(enabled) => c.(metricsEnabled := enabled.None? || enabled.value)
    case Ignored => c
  }

  // --- the object ----------------------------------------------------------

  class Client {
    const session: int
    var queue: seq<Message>
    var closed: bool
    var nextSeq: nat
    var dropped: nat
    var metricsEnabled: bool
    var closeSlow: bool
    var windowStart: Option<int>
    var windowCount: nat
    var ending: Option<Ending>
    ghost var taken: seq<Taken>
    ghost var ledger: seq<Fate>
    ghost var panics: nat

    ghost function View(): Queue
      reads this
    {
      Queue(queue, closed, nextSeq, dropped, metricsEnabled, closeSlow, windowStart, windowCount,
            ending, taken, ledger, panics)
    }

    constructor (session: int, snapshot: int)
      ensures this.session == session && View() == Opened(snapshot)
    {
      this.session := session;
      queue, closed, nextSeq, dropped := [Message(Snapshot, 0, snapshot)], false, 0, 0;
      metricsEnabled, closeSlow, windowStart, windowCount, ending := true, false, None, 0, None;
      taken, ledger, panics := [], [], 0;
    }

    /** The channel's non-blocking send: refused when full. */
    method TrySend(m: Message) returns (sent: bool)
      requires !closed
      modifies `queue
      ensures sent == (|old(queue)| < SEND_BUFFER)
      ensures queue == if sent then old(queue) + [m] else old(queue)
    {
      sent := |queue| < SEND_BUFFER;
      if sent {
        queue := queue + [m];
      }
    }

    method Enqueue(kind: Kind, body: int, now: int, meanwhile: seq<Outcome>)
      modifies this
      ensures View() == Enqueued(old(View()), kind, body, now, meanwhile)
    {
      if kind == SessionMetrics && !metricsEnabled {
        return;
      }
      nextSeq := nextSeq + 1;
      if closed {
        panics := panics + 1;
        return;
      }
      var sent := TrySend(Message(kind, nextSeq, body));
      if sent {
        ledger := ledger + [Accepted];
        return;
      }
      Resolve(kind, now, meanwhile);
      FullQueue(old(View()), kind, body, now, meanwhile);
    }

    /** What a message that did not fit comes to: its number is spent already. */
    method Resolve(kind: Kind, now: int, meanwhile: seq<Outcome>)
      requires !closed && nextSeq > 0
      modifies this
      ensures
        var c := old(View()).(nextSeq := old(nextSeq) - 1);
        View() == if Undroppable(kind) then Spend(c, Undeliverable).(closeSlow := true)
                  else Noted(Spend(c, Dropped).(dropped := c.dropped + 1), now, meanwhile)
    {
      if kind == AnomalyDetected || kind == SessionClosed {
        ledger := ledger + [Undeliverable];
        CloseForBackpressure();
      } else {
        dropped, ledger := dropped + 1, ledger + [Dropped];
        NoteDrop(now, meanwhile);
      }
    }

    method CloseForBackpressure()
      modifies `closeSlow
      ensures closeSlow
    {
      closeSlow := true;
    }

    method NoteDrop(now: int, meanwhile: seq<Outcome>)
      requires !closed
      modifies this
      ensures View() == Noted(old(View()), now, meanwhile)
    {
      if windowStart.None? || now - windowStart.value > DROP_WINDOW {
        windowStart, windowCount := Some(now), 0;
      }
      windowCount := windowCount + 1;
      if windowCount != DROP_THRESHOLD {
        return;
      }
      ghost var counted := View();
      nextSeq := nextSeq + 1;
      var notice := Message(Notice, nextSeq, 0);
      ghost var numbered := View();
      WriteAll(meanwhile);
      DeliveriesKeepNumbers(counted, numbered, meanwhile);
      var sent := TrySend(notice);
      ledger := ledger + [if sent then NoticeAccepted else NoticeLost];
    }

    /** The writer takes one message if there is one. */
    method Write(outcome: Outcome)
      modifies this
      ensures View() == Delivered(old(View()), outcome)
    {
      if ending.Some? {
        return;
      }
      if queue == [] {
        if closed {
          ending := Some(Normal);
        }
        return;
      }
      var m := queue[0];
      queue, taken := queue[1..], taken + [Taken(m, outcome)];
      if outcome == WriteFailed {
        ending := Some(Broken);
        return;
      }
      if m.kind == SessionClosed {
        ending := Some(Normal);
      }
    }

    method WriteAll(outcomes: seq<Outcome>)
      modifies this
      ensures View() == DeliveredAll(old(View()), outcomes)
    {
      var i := 0;
      while i < |outcomes|
        invariant i <= |outcomes| && View() == DeliveredAll(old(View()), outcomes[..i])
      {
        assert outcomes[..i + 1][..i] == outcomes[..i];
        Write(outcomes[i]);
        i := i + 1;
      }
      assert outcomes[..i] == outcomes;
    }

    method WritePump(turn: Turn)
      modifies this
      ensures View() == Turned(old(View()), turn)
    {
      if ending.Some? {
        return;
      }
      match turn
      case Deliver(outcome) => Write(outcome);
      case PingFails => ending := Some(Broken);
      case SlowSignal => if closeSlow { ending := Some(TooSlow); }
      case Expiry => ending := Some(Expired);
      case HubDone => ending := Some(GoingAway);
    }

    method CloseQueue()
      modifies this
      ensures View() == Closed(old(View()))
    {
      if closed {
        panics := panics + 1;
      } else {
        closed := true;
      }
    }

    /** A closed outing's client gets the terminal message behind its snapshot, and no more. */
    method ServeClosed(body: int)
      requires !closed
      modifies this
      ensures View() == Served(old(View()), body)
    {
      nextSeq := nextSeq + 1;
      queue, ledger := queue + [Message(SessionClosed, nextSeq, body)], ledger + [Accepted];
      CloseQueue();
    }

    /** handleCommand: a subscription that does not say which way turns the metrics on. */
    method HandleCommand(command: Command)
      modifies `metricsEnabled
      ensures View() == Commanded(old(View()), command)
    {
      match command
      case SubscribeMetrics(enabled) => metricsEnabled := enabled.None? || enabled.value;
      case Ignored =>
    }
  }

  lemma FullQueue(c: Queue, kind: Kind, body: int, now: int, meanwhile: seq<Outcome>)
    requires !c.closed && |c.queue| >= SEND_BUFFER && (kind.SessionMetrics? ==> c.metricsEnabled)
    ensures Enqueued(c, kind, body, now, meanwhile)
         == if Undroppable(kind) then Spend(c, Undeliverable).(closeSlow := true)
            else Noted(Spend(c, Dropped).(dropped := c.dropped + 1), now, meanwhile)
  {
  }

  /** The writer neither reads nor changes the counter. */
  lemma {:induction false} DeliveriesKeepNumbers(a: Queue, b: Queue, outcomes: seq<Outcome>)
    requires b == a.(nextSeq := b.nextSeq)
    ensures DeliveredAll(b, outcomes) == DeliveredAll(a, outcomes).(nextSeq := b.nextSeq)
    ensures
      var d := DeliveredAll(a, outcomes);
      d.nextSeq == a.nextSeq && d.ledger == a.ledger && d.closed == a.closed
  {
    if outcomes != [] {
      var before := outcomes[..|outcomes| - 1];
      DeliveriesKeepNumbers(a, b, before);
      DeliveryKeepsNumbers(DeliveredAll(a, before), DeliveredAll(b, before), outcomes[|outcomes| - 1]);
    }
  }

  lemma DeliveryKeepsNumbers(a: Queue, b: Queue, outcome: Outcome)
    requires b == a.(nextSeq := b.nextSeq)
    ensures Delivered(b, outcome) == Delivered(a, outcome).(nextSeq := b.nextSeq)
    ensures
      var d := Delivered(a, outcome);
      d.nextSeq == a.nextSeq && d.ledger == a.ledger && d.closed == a.closed
  {
  }
}
