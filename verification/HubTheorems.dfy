/** What every run of the hub keeps: the registry and its counter, queues closed at most once
    and never written afterwards, and connections that cannot affect one another. */
module HubTheorems {
  import opened Wrappers
  import opened ClientQueue
  import opened ClientNumbers
  import opened Hub

  // --- the invariant -------------------------------------------------------

  predicate InRegistry(s: State, id: Id) { id in s.conns && In(s.sessions, s.conns[id].session, id) }

  function Registered(s: State): set<Id> { set id | id in s.conns && InRegistry(s, id) }

  /** A connection's numbers are in order; its queue is open while it is registered; and no
      second close and no send on a closed queue ever happened. */
  predicate ConnOk(s: State, id: Id)
    requires id in s.conns
  {
    var conn := s.conns[id];
    && Sound(conn.c) && conn.c.panics == 0
    && (!conn.handled ==> !InRegistry(s, id) && !conn.c.closed && |conn.c.queue| == 1)
    && (InRegistry(s, id) ==> !conn.c.closed)
  }

  ghost predicate RegistryOk(s: State) {
    && (forall k :: k in s.sessions ==> s.sessions[k] != {})
    && (forall k, id :: In(s.sessions, k, id) ==> id in s.conns && s.conns[id].session == k)
    && s.clients == |Registered(s)|
    && (!s.phase.Serving? ==> s.sessions == map[])
  }

  ghost predicate Inv(s: State) {
    && RegistryOk(s) && |s.inbound| <= BROADCAST_BUFFER
    && forall id :: id in s.conns ==> ConnOk(s, id)
  }

  // --- one client changes --------------------------------------------------

  /** Changing connections, but not who watches what, keeps the registry. */
  lemma SameRegistry(s: State, t: State)
    requires RegistryOk(s) && t.sessions == s.sessions && t.conns.Keys == s.conns.Keys
    requires t.clients == s.clients && (t.phase.Serving? || s.sessions == map[])
    requires forall id :: id in s.conns ==> t.conns[id].session == s.conns[id].session
    ensures RegistryOk(t) && forall id :: InRegistry(t, id) <==> InRegistry(s, id)
  {
    assert Registered(t) == Registered(s);
  }

  lemma ConnectKeepsInv(s: State, id: Id, session: Session, snapshot: int)
    requires Inv(s)
    ensures Inv(Apply(s, Connect(id, session, snapshot)))
  {
    var t := Apply(s, Connect(id, session, snapshot));
    if id !in s.conns {
      OpenedIsSound(snapshot);
      assert !In(s.sessions, session, id);
      assert Registered(t) == Registered(s);
      forall i | i in t.conns ensures ConnOk(t, i) {
        assert i != id ==> ConnOk(s, i);
      }
    }
  }

  lemma JoinAdds(sessions: map<Session, set<Id>>, k: Session, id: Id)
    ensures forall j, i :: In(Join(sessions, k, id), j, i) <==> In(sessions, j, i) || (j == k && i == id)
  {}

  lemma LeaveRemoves(sessions: map<Session, set<Id>>, k: Session, id: Id)
    requires forall j :: j in sessions ==> sessions[j] != {}
    ensures forall j, i :: In(Leave(sessions, k, id), j, i) <==> In(sessions, j, i) && !(j == k && i == id)
    ensures forall j :: j in Leave(sessions, k, id) ==> Leave(sessions, k, id)[j] != {}
  {
    var left := Watching(sessions, k) - {id};
    forall i | In(sessions, k, i) && i != id ensures i in left {}
  }

  /** A connection that is handled, and watches at most as before, stays in order. */
  lemma ConnKept(s: State, t: State, id: Id)
    requires id in s.conns && id in t.conns && ConnOk(s, id)
    requires t.conns[id].c == s.conns[id].c && (t.conns[id].handled || !s.conns[id].handled)
    requires InRegistry(t, id) ==> t.conns[id].handled && !t.conns[id].c.closed
    ensures ConnOk(t, id)
  {}

  lemma RegisterKeepsRegistry(s: State, id: Id)
    requires RegistryOk(s) && Waiting(s, id) && s.phase.Serving? && !InRegistry(s, id)
    ensures
      var t := Apply(s, Register(id));
      RegistryOk(t) && forall i :: InRegistry(t, i) <==> InRegistry(s, i) || i == id
  {
    var t, k := Apply(s, Register(id)), s.conns[id].session;
    JoinAdds(s.sessions, k, id);
    assert t.conns.Keys == s.conns.Keys && t.sessions == Join(s.sessions, k, id);
    forall i ensures InRegistry(t, i) <==> InRegistry(s, i) || i == id {}
    assert Registered(t) == Registered(s) + {id};
  }

  lemma RegisterKeepsInv(s: State, id: Id)
    requires Inv(s) && Waiting(s, id) && s.phase.Serving?
    ensures Inv(Apply(s, Register(id)))
  {
    var t := Apply(s, Register(id));
    assert ConnOk(s, id);
    RegisterKeepsRegistry(s, id);
    forall i | i in t.conns ensures ConnOk(t, i) {
      assert ConnOk(s, i);
      ConnKept(s, t, i);
    }
  }

  lemma LateRegisterKeepsInv(s: State, id: Id)
    requires Inv(s) && Waiting(s, id) && !s.phase.Serving?
    ensures Inv(Apply(s, Register(id)))
  {
    var t := Apply(s, Register(id));
    assert t.conns.Keys == s.conns.Keys;
    SameRegistry(s, t);
    forall i | i in t.conns ensures ConnOk(t, i) {
      assert ConnOk(s, i);
    }
  }

  lemma UnregisterKeepsRegistry(s: State, id: Id)
    requires RegistryOk(s) && InRegistry(s, id) && s.phase.Serving?
    ensures
      var t := Apply(s, Unregister(id));
      RegistryOk(t) && forall i :: InRegistry(t, i) <==> InRegistry(s, i) && i != id
  {
    var t, k := Apply(s, Unregister(id)), s.conns[id].session;
    LeaveRemoves(s.sessions, k, id);
    assert t.conns.Keys == s.conns.Keys && t.sessions == Leave(s.sessions, k, id);
    forall i ensures InRegistry(t, i) <==> InRegistry(s, i) && i != id {}
    assert Registered(t) == Registered(s) - {id};
  }

  lemma ClosingIsSound(c: Queue)
    requires Sound(c) && !c.closed
    ensures Sound(Closed(c)) && Closed(c).panics == c.panics
  {
    assert Stream(Closed(c)) == Stream(c);
  }

  lemma UnregisterKeepsInv(s: State, id: Id)
    requires Inv(s) && InRegistry(s, id) && s.phase.Serving?
    ensures Inv(Apply(s, Unregister(id)))
  {
    var t := Apply(s, Unregister(id));
    assert ConnOk(s, id);
    UnregisterKeepsRegistry(s, id);
    ClosingIsSound(s.conns[id].c);
    forall i | i in t.conns ensures ConnOk(t, i) {
      assert ConnOk(s, i);
      if i != id {
        ConnKept(s, t, i);
      }
    }
  }

  lemma ServeClosedKeepsInv(s: State, id: Id, body: int)
    requires Inv(s)
    ensures Inv(Apply(s, ServeClosed(id, body)))
  {
    var t := Apply(s, ServeClosed(id, body));
    if Waiting(s, id) {
      assert ConnOk(s, id);
      SameRegistry(s, t);
      var c := s.conns[id].c;
      var m := Message(SessionClosed, c.nextSeq + 1, body);
      AcceptedIsSound(c, m);
      ClosingIsSound(Spend(c, Accepted).(queue := c.queue + [m]));
      forall i | i in t.conns ensures ConnOk(t, i) {
        assert ConnOk(s, i);
      }
    }
  }

  lemma BroadcastKeepsInv(s: State, timing: map<Id, Timing>)
    requires Inv(s)
    ensures Inv(Apply(s, Broadcast(timing)))
  {
    var t := Apply(s, Broadcast(timing));
    if s.phase.Serving? && s.inbound != [] {
      var p := s.inbound[0];
      assert t.conns.Keys == s.conns.Keys;
      SameRegistry(s, t);
      forall id | id in t.conns ensures ConnOk(t, id) {
        assert ConnOk(s, id);
        if id in Watching(s.sessions, p.session) {
          assert In(s.sessions, p.session, id);
          var when := TimingOf(timing, id);
          EnqueueIsSound(s.conns[id].c, p.kind, p.body, when.now, when.meanwhile);
          EnqueueKeepsLifecycle(s.conns[id].c, p.kind, p.body, when.now, when.meanwhile);
        }
      }
    }
  }

  /** One handled connection's queue changes and stays in order. */
  lemma ChangeKeepsInv(s: State, id: Id, c: Queue)
    requires Inv(s) && id in s.conns && s.conns[id].handled
    requires Sound(c) && c.panics == 0 && c.closed == s.conns[id].c.closed
    ensures Inv(s.(conns := s.conns[id := s.conns[id].(c := c)]))
  {
    var t := s.(conns := s.conns[id := s.conns[id].(c := c)]);
    assert t.conns.Keys == s.conns.Keys;
    SameRegistry(s, t);
    forall i | i in t.conns ensures ConnOk(t, i) {
      assert ConnOk(s, i);
      if i != id {
        ConnKept(s, t, i);
      }
    }
  }

  lemma WriteKeepsInv(s: State, id: Id, turn: Turn)
    requires Inv(s)
    ensures Inv(Apply(s, Write(id, turn)))
  {
    if id in s.conns && s.conns[id].handled && (turn.HubDone? ==> s.phase.Stopped?) {
      assert ConnOk(s, id);
      TurnIsSound(s.conns[id].c, turn);
      ChangeKeepsInv(s, id, Turned(s.conns[id].c, turn));
    }
  }

  lemma AskKeepsInv(s: State, id: Id, command: Command)
    requires Inv(s)
    ensures Inv(Apply(s, Ask(id, command)))
  {
    if id in s.conns && s.conns[id].handled {
      assert ConnOk(s, id);
      assert Stream(Commanded(s.conns[id].c, command)) == Stream(s.conns[id].c);
      ChangeKeepsInv(s, id, Commanded(s.conns[id].c, command));
    }
  }

  lemma StoppingKeepsInv(s: State, e: Event)
    requires Inv(s) && (e.Shutdown? || e.Halt?)
    ensures Inv(Apply(s, e))
  {
    var t := Apply(s, e);
    assert t.sessions == map[] ==> Registered(t) == {};
    assert t.sessions == s.sessions ==> Registered(t) == Registered(s);
    forall id | id in t.conns ensures ConnOk(t, id) {
      assert ConnOk(s, id);
    }
  }

  lemma ApplyKeepsInv(s: State, e: Event)
    requires Inv(s)
    ensures Inv(Apply(s, e))
  {
    match e
    case Connect(id, session, snapshot) => ConnectKeepsInv(s, id, session, snapshot);
    case Register(id) =>
      if Waiting(s, id) {
        if s.phase.Serving? { RegisterKeepsInv(s, id); } else { LateRegisterKeepsInv(s, id); }
      }
    case ServeClosed(id, body) => ServeClosedKeepsInv(s, id, body);
    case Unregister(id) => if InRegistry(s, id) && s.phase.Serving? { UnregisterKeepsInv(s, id); }
    case Publish(p) => if Accepts(s) { SameRegistry(s, Apply(s, e)); }
    case Broadcast(timing) => BroadcastKeepsInv(s, timing);
    case Shutdown => StoppingKeepsInv(s, e);
    case Halt => StoppingKeepsInv(s, e);
    case Write(id, turn) => WriteKeepsInv(s, id, turn);
    case Ask(id, command) => AskKeepsInv(s, id, command);
  }

  lemma {:induction false} RunKeepsInv(events: seq<Event>)
    ensures Inv(Run(events))
  {
    if events == [] {
      assert Registered(START) == {};
    } else {
      RunKeepsInv(events[..|events| - 1]);
      ApplyKeepsInv(Run(events[..|events| - 1]), events[|events| - 1]);
    }
  }

  // --- theorems about every run --------------------------------------------

  /** A queue is closed at most once and nothing is sent on it afterwards: either would panic. */
  lemma NeverPanics(events: seq<Event>, id: Id)
    requires id in Run(events).conns
    ensures Run(events).conns[id].c.panics == 0
  {
    RunKeepsInv(events);
    assert ConnOk(Run(events), id);
  }

  /** The counter is the number of registered connections, each is registered under its own
      session only, and no session is kept without a watcher. */
  lemma CounterIsRegistrySize(events: seq<Event>)
    ensures
      var s := Run(events);
      && s.clients == |Registered(s)|
      && (forall k :: k in s.sessions ==> s.sessions[k] != {})
      && (forall k, id :: In(s.sessions, k, id) ==> id in s.conns && s.conns[id].session == k)
  {
    RunKeepsInv(events);
  }

  /** Of every connection: the queue is bounded; taken and queued messages carry exactly the
      accepted numbers, in increasing order; and drops and notices are counted. */
  lemma NumbersAccounted(events: seq<Event>, id: Id)
    requires id in Run(events).conns
    ensures
      var c := Run(events).conns[id].c;
      && |c.queue| <= SEND_BUFFER
      && Numbers(Stream(c)) == AcceptedNumbers(c.ledger) && |c.ledger| == c.nextSeq
      && (forall i, j :: 0 <= i < j < |Stream(c)| ==> Numbers(Stream(c))[i] < Numbers(Stream(c))[j])
      && c.dropped == Count(c.ledger, Dropped) && DROP_THRESHOLD * Notices(c.ledger) <= c.dropped
      && c.nextSeq == |Stream(c)| - 1 + c.dropped + Count(c.ledger, Undeliverable) + Count(c.ledger, NoticeLost)
  {
    RunKeepsInv(events);
    assert ConnOk(Run(events), id);
    var c := Run(events).conns[id].c;
    AcceptedIncrease(c.ledger);
    FatesSplit(c.ledger);
    assert |Stream(c)| == |Numbers(Stream(c))|;
  }

  /** A broadcast waits for no queue: every watcher's message is queued or resolved on the spot,
      and one that must not be dropped is queued or the signal to disconnect is given. */
  lemma BroadcastReachesEveryWatcher(events: seq<Event>, timing: map<Id, Timing>, id: Id)
    requires
      var s := Run(events);
      s.phase.Serving? && s.inbound != [] && InRegistry(s, id) && s.conns[id].session == s.inbound[0].session
    ensures
      var s, t := Run(events), Apply(Run(events), Broadcast(timing));
      id in t.conns && Resolved(s.conns[id].c, t.conns[id].c, s.inbound[0].kind, s.inbound[0].body)
  {
    RunKeepsInv(events);
    var s := Run(events);
    var p, when := s.inbound[0], TimingOf(timing, id);
    assert ConnOk(s, id) && In(s.sessions, p.session, id);
    EnqueueResolves(s.conns[id].c, p.kind, p.body, when.now, when.meanwhile);
  }

  lemma TurnKeepsSlow(c: Queue, turn: Turn)
    ensures Turned(c, turn).closeSlow == c.closeSlow
  {}

  lemma StepKeepsSlow(s: State, e: Event, id: Id)
    requires id in s.conns
    ensures id in Apply(s, e).conns && (s.conns[id].c.closeSlow ==> Apply(s, e).conns[id].c.closeSlow)
  {
    if e.Broadcast? && s.phase.Serving? && s.inbound != [] {
      var p, when := s.inbound[0], TimingOf(e.timing, id);
      EnqueueKeepsLifecycle(s.conns[id].c, p.kind, p.body, when.now, when.meanwhile);
    } else if e.Write? {
      TurnKeepsSlow(s.conns[id].c, e.turn);
    }
  }

  /** Once an anomaly or the terminal message did not fit, the signal stands for ever; and it
      stands only then. */
  lemma {:induction false} UndeliverableForEver(events: seq<Event>, n: nat, id: Id)
    requires n <= |events| && id in Run(events[..n]).conns
    requires Undeliverable in Run(events[..n]).conns[id].c.ledger
    ensures
      var s := Run(events);
      id in s.conns && s.conns[id].c.closeSlow && Undeliverable in s.conns[id].c.ledger
  {
    RunKeepsInv(events[..n]);
    RunKeepsInv(events);
    assert ConnOk(Run(events[..n]), id);
    if n < |events| {
      var before := events[..|events| - 1];
      assert before[..n] == events[..n];
      UndeliverableForEver(before, n, id);
      RunKeepsInv(before);
      StepKeepsSlow(Run(before), events[|events| - 1], id);
      assert ConnOk(Run(events), id);
    } else {
      assert events[..n] == events;
    }
  }

  // --- what becomes of a message -------------------------------------------

  lemma {:induction false} DeliveriesKeepStream(c: Queue, outcomes: seq<Outcome>)
    ensures Stream(DeliveredAll(c, outcomes)) == Stream(c)
  {
    if outcomes != [] {
      DeliveriesKeepStream(c, outcomes[..|outcomes| - 1]);
      DeliveryKeepsStream(DeliveredAll(c, outcomes[..|outcomes| - 1]), outcomes[|outcomes| - 1]);
    }
  }

  /** Messages stay in their order, signals stand and drops stay counted. */
  predicate Later(c: Queue, d: Queue) {
    Stream(c) <= Stream(d) && (c.closeSlow ==> d.closeSlow) && c.dropped <= d.dropped
  }

  lemma NoteIsLater(c: Queue, now: int, meanwhile: seq<Outcome>)
    ensures Later(c, Noted(c, now, meanwhile))
  {
    var counted := Counted(c, now);
    var d := DeliveredAll(counted, meanwhile);
    assert Stream(counted) == Stream(c);
    DeliveriesKeepStream(counted, meanwhile);
    DeliveriesKeepHistory(counted, meanwhile);
    DeliveriesKeepLifecycle(counted, meanwhile);
    assert Stream(Notified(d)) == Stream(d) + Notified(d).queue[|d.queue|..];
  }

  lemma EnqueueIsLater(c: Queue, kind: Kind, body: int, now: int, meanwhile: seq<Outcome>)
    ensures Later(c, Enqueued(c, kind, body, now, meanwhile))
  {
    var dropped := Spend(c, Dropped).(dropped := c.dropped + 1);
    assert Stream(dropped) == Stream(c);
    NoteIsLater(dropped, now, meanwhile);
  }

  lemma TurnIsLater(c: Queue, turn: Turn)
    ensures Later(c, Turned(c, turn))
  {
    if turn.Deliver? {
      DeliveryKeepsStream(c, turn.outcome);
    }
  }

  lemma StepIsLater(s: State, e: Event, id: Id)
    requires id in s.conns
    ensures id in Apply(s, e).conns && Later(s.conns[id].c, Apply(s, e).conns[id].c)
  {
    if e.Broadcast? && s.phase.Serving? && s.inbound != [] {
      var p, when := s.inbound[0], TimingOf(e.timing, id);
      EnqueueIsLater(s.conns[id].c, p.kind, p.body, when.now, when.meanwhile);
    } else if e.Write? {
      TurnIsLater(s.conns[id].c, e.turn);
    }
  }

  lemma {:induction false} RunIsLater(events: seq<Event>, n: nat, id: Id)
    requires n <= |events| && id in Run(events[..n]).conns
    ensures id in Run(events).conns && Later(Run(events[..n]).conns[id].c, Run(events).conns[id].c)
  {
    if n < |events| {
      var before := events[..|events| - 1];
      assert before[..n] == events[..n];
      RunIsLater(before, n, id);
      StepIsLater(Run(before), events[|events| - 1], id);
    } else {
      assert events[..n] == events;
    }
  }

  /** For one watcher the fate of one message: it was taken or is queued, in its place; or it is on
      record, by the kind of the message, as the end of the connection or as a drop. */
  predicate Kept(c: Queue, d: Queue, p: Publication) {
    var arrived := Message(p.kind, c.nextSeq + 1, p.body) in Stream(d);
    match p.kind
    case AnomalyDetected => arrived || d.closeSlow
    case SessionClosed => arrived || d.closeSlow
    case SessionMetrics => !c.metricsEnabled || arrived || d.dropped > c.dropped
    case _ => arrived || d.dropped > c.dropped
  }

  lemma ResolvedIsKept(c: Queue, d: Queue, p: Publication)
    requires Resolved(c, d, p.kind, p.body)
    ensures Kept(c, d, p)
    ensures |c.queue| < SEND_BUFFER && (p.kind.SessionMetrics? ==> c.metricsEnabled) ==>
      Message(p.kind, c.nextSeq + 1, p.body) in Stream(d)
  {
  }

  lemma LaterIsKept(c: Queue, d: Queue, e: Queue, p: Publication)
    requires Kept(c, d, p) && Later(d, e)
    ensures Kept(c, e, p)
  {
  }

  /** The fate of the message that is broadcast next, for one watcher, as it stands in a later state. */
  predicate NeverLost(s: State, t: State, id: Id)
    requires s.inbound != [] && id in s.conns
  {
    var c, p := s.conns[id].c, s.inbound[0];
    && id in t.conns && Kept(c, t.conns[id].c, p)
    && (|c.queue| < SEND_BUFFER && (p.kind.SessionMetrics? ==> c.metricsEnabled) ==>
          Message(p.kind, c.nextSeq + 1, p.body) in Stream(t.conns[id].c))
  }

  lemma BroadcastKeeps(events: seq<Event>, timing: map<Id, Timing>, id: Id)
    requires
      var s := Run(events);
      s.phase.Serving? && s.inbound != [] && InRegistry(s, id) && s.conns[id].session == s.inbound[0].session
    ensures NeverLost(Run(events), Apply(Run(events), Broadcast(timing)), id)
  {
    BroadcastReachesEveryWatcher(events, timing, id);
    var s, t := Run(events), Apply(Run(events), Broadcast(timing));
    ResolvedIsKept(s.conns[id].c, t.conns[id].c, s.inbound[0]);
  }

  lemma LaterNeverLost(s: State, t: State, u: State, id: Id)
    requires s.inbound != [] && id in s.conns && NeverLost(s, t, id)
    requires id in u.conns && Later(t.conns[id].c, u.conns[id].c)
    ensures NeverLost(s, u, id)
  {
    LaterIsKept(s.conns[id].c, t.conns[id].c, u.conns[id].c, s.inbound[0]);
  }

  /** In every run, whatever has happened since a message was broadcast: each watcher of the time has an
      anomaly or the terminal message in its stream, or the signal to disconnect stands; any other
      message is in its stream or counted as dropped; and with room it is in its stream. */
  lemma BroadcastIsNeverLost(events: seq<Event>, n: nat, id: Id)
    requires n < |events| && events[n].Broadcast?
    requires
      var s := Run(events[..n]);
      s.phase.Serving? && s.inbound != [] && InRegistry(s, id) && s.conns[id].session == s.inbound[0].session
    ensures NeverLost(Run(events[..n]), Run(events), id)
  {
    assert events[..n + 1][..n] == events[..n];
    BroadcastKeeps(events[..n], events[n].timing, id);
    RunIsLater(events, n + 1, id);
    LaterNeverLost(Run(events[..n]), Run(events[..n + 1]), Run(events), id);
  }

  /** And nobody else hears it: a broadcast leaves every connection alone that does not watch its session. */
  lemma OthersHearNothing(events: seq<Event>, timing: map<Id, Timing>, id: Id)
    requires Run(events).phase.Serving? && Run(events).inbound != [] && id in Run(events).conns
    requires !InRegistry(Run(events), id) || Run(events).conns[id].session != Run(events).inbound[0].session
    ensures
      var s, t := Run(events), Apply(Run(events), Broadcast(timing));
      id in t.conns && t.conns[id] == s.conns[id]
  {
    RunKeepsInv(events);
    var s := Run(events);
    assert !In(s.sessions, s.inbound[0].session, id);
  }

  /** What a step takes in for broadcast, and what it broadcasts. */
  function TakenIn(s: State, e: Event): seq<Publication> {
    if e.Publish? && s.phase != Stopped && |s.inbound| < 1024 then [e.p] else []
  }

  function SentOut(s: State, e: Event): seq<Publication> {
    if e.Broadcast? && s.phase == Serving && s.inbound != [] then [s.inbound[0]] else []
  }

  function AllTakenIn(events: seq<Event>): seq<Publication> {
    if events == [] then []
    else AllTakenIn(events[..|events| - 1]) + TakenIn(Run(events[..|events| - 1]), events[|events| - 1])
  }

  function AllSentOut(events: seq<Event>): seq<Publication> {
    if events == [] then []
    else AllSentOut(events[..|events| - 1]) + SentOut(Run(events[..|events| - 1]), events[|events| - 1])
  }

  lemma StepIsFifo(s: State, e: Event)
    ensures s.inbound + TakenIn(s, e) == SentOut(s, e) + Apply(s, e).inbound
  {
  }

  lemma Regrouped<T>(a: seq<T>, b: seq<T>, i: seq<T>, t: seq<T>, o: seq<T>, j: seq<T>)
    requires a == b + i && i + t == o + j
    ensures a + t == (b + o) + j
  {
    assert a + t == b + (i + t) == b + (o + j);
  }

  /** Every publication that was accepted is broadcast once, in the order of acceptance, or still waits. */
  lemma {:induction false} BroadcastsAreFifo(events: seq<Event>)
    ensures AllTakenIn(events) == AllSentOut(events) + Run(events).inbound
  {
    if events != [] {
      var before, e := events[..|events| - 1], events[|events| - 1];
      BroadcastsAreFifo(before);
      StepIsFifo(Run(before), e);
      Regrouped(AllTakenIn(before), AllSentOut(before), Run(before).inbound, TakenIn(Run(before), e),
                SentOut(Run(before), e), Run(events).inbound);
    }
  }

  lemma RunAt(events: seq<Event>, k: nat)
    requires k < |events|
    ensures Run(events[..k + 1]) == Apply(Run(events[..k]), events[k])
  {
    assert events[..k + 1][..k] == events[..k];
  }

  lemma Joined(events: seq<Event>, n: nat, id: Id, session: Session, snapshot: int)
    requires n + 2 <= |events| && events[n] == Connect(id, session, snapshot) && events[n + 1] == Register(id)
    requires Run(events[..n]).phase.Serving? && id !in Run(events[..n]).conns
    ensures
      var s := Run(events[..n + 2]);
      && s.phase.Serving? && s.inbound == Run(events[..n]).inbound
      && id in s.conns && s.conns[id] == Conn(session, true, Opened(snapshot)) && In(s.sessions, session, id)
  {
    RunAt(events, n);
    RunAt(events, n + 1);
  }

  lemma Heard(events: seq<Event>, n: nat, id: Id, p: Publication)
    requires n + 2 <= |events| && events[n] == Publish(p) && events[n + 1].Broadcast?
    requires
      var s := Run(events[..n]);
      && s.phase.Serving? && s.inbound == [] && id in s.conns && In(s.sessions, p.session, id)
      && !s.conns[id].c.closed && s.conns[id].c.metricsEnabled && |s.conns[id].c.queue| < 256
    ensures
      var c, t := Run(events[..n]).conns[id].c, Run(events[..n + 2]);
      id in t.conns && t.conns[id].c.queue == c.queue + [Message(p.kind, c.nextSeq + 1, p.body)]
  {
    RunAt(events, n);
    RunAt(events, n + 1);
  }

  /** A connection that is opened and registered while the hub serves hears what is then published for
      its session, as number one after its snapshot. */
  lemma RegisteredHears(events: seq<Event>, n: nat, id: Id, snapshot: int, p: Publication)
    requires n + 4 == |events| && events[n] == Connect(id, p.session, snapshot) && events[n + 1] == Register(id)
    requires events[n + 2] == Publish(p) && events[n + 3].Broadcast?
    requires
      var s := Run(events[..n]);
      s.phase.Serving? && s.inbound == [] && id !in s.conns
    ensures id in Run(events).conns
    ensures Run(events).conns[id].c.queue == [Message(Snapshot, 0, snapshot), Message(p.kind, 1, p.body)]
  {
    Joined(events, n, id, p.session, snapshot);
    Heard(events, n + 2, id, p);
    assert events[..n + 4] == events;
  }

  /** Session metrics follow the switch, which is on unless a watcher says otherwise; nothing else does. */
  lemma SwitchGovernsMetrics(c: Queue, enabled: Option<bool>, kind: Kind, body: int, now: int)
    requires !c.closed && |c.queue| < 256
    ensures
      var d := Commanded(c, SubscribeMetrics(enabled));
      Enqueued(d, kind, body, now, []).queue
      == if kind == SessionMetrics && enabled == Some(false) then c.queue
         else c.queue + [Message(kind, c.nextSeq + 1, body)]
    ensures Commanded(c, Ignored) == c
  {
  }

  /** A client of a closed outing is given its snapshot and the terminal message, and is then closed as
      completed. */
  lemma ClosedOutingIsTold(events: seq<Event>, n: nat, id: Id, session: Session, snapshot: int, body: int)
    requires n + 4 == |events| && id !in Run(events[..n]).conns
    requires events[n] == Connect(id, session, snapshot) && events[n + 1] == ServeClosed(id, body)
    requires events[n + 2] == Write(id, Deliver(Written)) && events[n + 3] == Write(id, Deliver(Written))
    ensures id in Run(events).conns
    ensures
      var c := Run(events).conns[id].c;
      && c.taken == [Taken(Message(Snapshot, 0, snapshot), Written), Taken(Message(SessionClosed, 1, body), Written)]
      && c.ending == Some(Normal) && c.closed
  {
    ClosedOutingServed(events, n, id, session, snapshot, body);
    RunAt(events, n + 2);
    WriteTurns(Run(events[..n + 2]), id, Deliver(Written));
    RunAt(events, n + 3);
    WriteTurns(Run(events[..n + 3]), id, Deliver(Written));
    ServedIsTold(snapshot, body);
    assert events[..n + 4] == events;
  }

  lemma ClosedOutingServed(events: seq<Event>, n: nat, id: Id, session: Session, snapshot: int, body: int)
    requires n + 2 <= |events| && id !in Run(events[..n]).conns
    requires events[n] == Connect(id, session, snapshot) && events[n + 1] == ServeClosed(id, body)
    ensures id in Run(events[..n + 2]).conns
    ensures Run(events[..n + 2]).conns[id] == Conn(session, true, Served(Opened(snapshot), body))
  {
    RunAt(events, n);
    RunAt(events, n + 1);
  }

  lemma ServedIsTold(snapshot: int, body: int)
    ensures
      var c := Turned(Turned(Served(Opened(snapshot), body), Deliver(Written)), Deliver(Written));
      && c.taken == [Taken(Message(Snapshot, 0, snapshot), Written), Taken(Message(SessionClosed, 1, body), Written)]
      && c.ending == Some(Normal) && c.closed
  {
  }

  /** A client that is unregistered leaves the registry, and its session with it if nobody else watches;
      its queue is closed. */
  lemma UnregisteredIsClosed(events: seq<Event>, id: Id)
    requires Run(events).phase.Serving? && InRegistry(Run(events), id)
    ensures
      var s, t := Run(events), Apply(Run(events), Unregister(id));
      && id in t.conns && t.conns[id].c == s.conns[id].c.(closed := true)
      && t.clients == s.clients - 1
      && (forall k, i :: In(t.sessions, k, i) <==> In(s.sessions, k, i) && i != id)
      && (s.sessions[s.conns[id].session] == {id} ==> s.conns[id].session !in t.sessions)
  {
    RunKeepsInv(events);
    var s := Run(events);
    assert ConnOk(s, id);
    LeaveRemoves(s.sessions, s.conns[id].session, id);
  }

  // --- how connections end -------------------------------------------------

  /** A close code means what it says, and nothing is taken after the terminal message. */
  predicate Explained(s: State, c: Queue) {
    && (c.ending == Some(TooSlow) ==> c.closeSlow)
    && (c.ending == Some(GoingAway) ==> s.phase.Stopped?)
    && (c.ending == Some(Normal) ==> c.closed || (c.taken != [] && c.taken[|c.taken| - 1].m.kind.SessionClosed?))
    && (forall i :: 0 <= i < |c.taken| && c.taken[i].m.kind.SessionClosed? ==>
          i == |c.taken| - 1 && c.ending.Some?)
  }

  lemma DeliveryKeepsExplained(s: State, c: Queue, outcome: Outcome)
    requires Explained(s, c)
    ensures Explained(s, Delivered(c, outcome))
  {}

  lemma {:induction false} DeliveriesKeepExplained(s: State, c: Queue, outcomes: seq<Outcome>)
    requires Explained(s, c)
    ensures Explained(s, DeliveredAll(c, outcomes))
  {
    if outcomes != [] {
      DeliveriesKeepExplained(s, c, outcomes[..|outcomes| - 1]);
      DeliveryKeepsExplained(s, DeliveredAll(c, outcomes[..|outcomes| - 1]), outcomes[|outcomes| - 1]);
    }
  }

  lemma NotedKeepsExplained(s: State, c: Queue, now: int, meanwhile: seq<Outcome>)
    requires Explained(s, c)
    ensures Explained(s, Noted(c, now, meanwhile))
  {
    DeliveriesKeepExplained(s, Counted(c, now), meanwhile);
  }

  lemma EnqueueKeepsExplained(s: State, c: Queue, kind: Kind, body: int, now: int, meanwhile: seq<Outcome>)
    requires Explained(s, c)
    ensures Explained(s, Enqueued(c, kind, body, now, meanwhile))
  {
    if |c.queue| >= SEND_BUFFER && !c.closed && (kind.SessionMetrics? ==> c.metricsEnabled) {
      FullQueue(c, kind, body, now, meanwhile);
      var dropped := Spend(c, Dropped).(dropped := c.dropped + 1);
      assert Explained(s, dropped);
      NotedKeepsExplained(s, dropped, now, meanwhile);
    }
  }

  ghost predicate AllExplained(s: State) { forall id :: id in s.conns ==> Explained(s, s.conns[id].c) }

  lemma BroadcastKeepsExplained(s: State, timing: map<Id, Timing>)
    requires AllExplained(s) && s.phase.Serving? && s.inbound != []
    ensures AllExplained(Apply(s, Broadcast(timing)))
  {
    var t, p := Apply(s, Broadcast(timing)), s.inbound[0];
    forall id | id in t.conns ensures Explained(t, t.conns[id].c) {
      assert Explained(s, s.conns[id].c);
      var when := TimingOf(timing, id);
      EnqueueKeepsExplained(s, s.conns[id].c, p.kind, p.body, when.now, when.meanwhile);
    }
  }

  /** What is explained stays so as the hub moves on. */
  lemma LaterExplains(s: State, t: State, c: Queue)
    requires Explained(s, c) && (s.phase.Stopped? ==> t.phase.Stopped?)
    ensures Explained(t, c)
  {
  }

  lemma TurnKeepsExplained(s: State, c: Queue, turn: Turn)
    requires Explained(s, c) && (turn.HubDone? ==> s.phase.Stopped?)
    ensures Explained(s, Turned(c, turn))
  {
    if turn.Deliver? {
      DeliveryKeepsExplained(s, c, turn.outcome);
    }
  }

  /** One connection changes to an explained queue, or comes new with one; the others stay. */
  lemma OneKeepsExplained(s: State, t: State, id: Id)
    requires AllExplained(s) && id in t.conns && Explained(s, t.conns[id].c)
    requires s.phase.Stopped? ==> t.phase.Stopped?
    requires forall i :: i in t.conns && i != id ==> i in s.conns && t.conns[i].c == s.conns[i].c
    ensures AllExplained(t)
  {
    forall i | i in t.conns ensures Explained(t, t.conns[i].c) {
      if i != id {
        assert Explained(s, s.conns[i].c);
        LaterExplains(s, t, s.conns[i].c);
      } else {
        LaterExplains(s, t, t.conns[id].c);
      }
    }
  }

  lemma SameQueuesExplained(s: State, t: State)
    requires AllExplained(s) && t.conns.Keys == s.conns.Keys && (s.phase.Stopped? ==> t.phase.Stopped?)
    requires forall i :: i in t.conns ==> t.conns[i].c == s.conns[i].c
    ensures AllExplained(t)
  {
    forall i | i in t.conns ensures Explained(t, t.conns[i].c) {
      assert Explained(s, s.conns[i].c);
      LaterExplains(s, t, s.conns[i].c);
    }
  }

  lemma ServedKeepsExplained(s: State, c: Queue, body: int)
    requires Explained(s, c)
    ensures Explained(s, Served(c, body)) && Explained(s, Closed(c))
  {
  }

  lemma WriteKeepsExplained(s: State, e: Event)
    requires AllExplained(s) && e.Write?
    ensures AllExplained(Apply(s, e))
  {
    if e.id in s.conns && s.conns[e.id].handled && (e.turn.HubDone? ==> s.phase.Stopped?) {
      assert Explained(s, s.conns[e.id].c);
      TurnKeepsExplained(s, s.conns[e.id].c, e.turn);
      OneKeepsExplained(s, Apply(s, e), e.id);
    }
  }

  lemma ServeKeepsExplained(s: State, e: Event)
    requires AllExplained(s) && (e.ServeClosed? || e.Unregister?)
    ensures AllExplained(Apply(s, e))
  {
    if e.id in s.conns {
      assert Explained(s, s.conns[e.id].c);
      ServedKeepsExplained(s, s.conns[e.id].c, if e.ServeClosed? then e.body else 0);
      OneKeepsExplained(s, Apply(s, e), e.id);
    }
  }

  lemma OpenKeepsExplained(s: State, e: Event)
    requires AllExplained(s) && (e.Connect? || e.Ask?)
    ensures AllExplained(Apply(s, e))
  {
    if e.Connect? && e.id !in s.conns {
      assert Explained(s, Opened(e.snapshot));
      OneKeepsExplained(s, Apply(s, e), e.id);
    } else if e.Ask? && e.id in s.conns {
      assert Explained(s, s.conns[e.id].c) && Explained(s, Commanded(s.conns[e.id].c, e.command));
      OneKeepsExplained(s, Apply(s, e), e.id);
    }
  }

  lemma ApplyKeepsExplained(s: State, e: Event)
    requires AllExplained(s)
    ensures AllExplained(Apply(s, e))
  {
    match e
    case Broadcast(timing) => if s.phase.Serving? && s.inbound != [] { BroadcastKeepsExplained(s, timing); }
    case Write(_, _) => WriteKeepsExplained(s, e);
    case ServeClosed(_, _) => ServeKeepsExplained(s, e);
    case Unregister(_) => ServeKeepsExplained(s, e);
    case Connect(_, _, _) => OpenKeepsExplained(s, e);
    case Ask(_, _) => OpenKeepsExplained(s, e);
    case _ => SameQueuesExplained(s, Apply(s, e));
  }

  lemma {:induction false} EndingsExplained(events: seq<Event>)
    ensures AllExplained(Run(events))
  {
    if events != [] {
      EndingsExplained(events[..|events| - 1]);
      ApplyKeepsExplained(Run(events[..|events| - 1]), events[|events| - 1]);
    }
  }

  // --- and that they end ---------------------------------------------------

  /** A connection that has ended takes nothing more, and its ending stands. */
  predicate SameEnd(c: Queue, d: Queue) { c.ending.Some? ==> d.ending == c.ending && d.taken == c.taken }

  lemma {:induction false} EndedDeliversNothing(c: Queue, outcomes: seq<Outcome>)
    requires c.ending.Some?
    ensures DeliveredAll(c, outcomes) == c
  {
    if outcomes != [] {
      EndedDeliversNothing(c, outcomes[..|outcomes| - 1]);
    }
  }

  lemma EnqueueKeepsEnd(c: Queue, kind: Kind, body: int, now: int, meanwhile: seq<Outcome>)
    ensures SameEnd(c, Enqueued(c, kind, body, now, meanwhile))
  {
    if c.ending.Some? {
      EndedDeliversNothing(Counted(Spend(c, Dropped).(dropped := c.dropped + 1), now), meanwhile);
    }
  }

  lemma StepKeepsEnd(s: State, e: Event, id: Id)
    requires id in s.conns
    ensures id in Apply(s, e).conns && SameEnd(s.conns[id].c, Apply(s, e).conns[id].c)
  {
    if e.Broadcast? && s.phase.Serving? && s.inbound != [] {
      var p, when := s.inbound[0], TimingOf(e.timing, id);
      EnqueueKeepsEnd(s.conns[id].c, p.kind, p.body, when.now, when.meanwhile);
    }
  }

  lemma {:induction false} EndIsFinal(events: seq<Event>, n: nat, id: Id)
    requires n <= |events| && id in Run(events[..n]).conns
    ensures id in Run(events).conns && SameEnd(Run(events[..n]).conns[id].c, Run(events).conns[id].c)
  {
    if n < |events| {
      var before := events[..|events| - 1];
      assert before[..n] == events[..n];
      EndIsFinal(before, n, id);
      StepKeepsEnd(Run(before), events[|events| - 1], id);
    } else {
      assert events[..n] == events;
    }
  }

  /** What a turn of the writer must end a running connection with, by what it finds: None where the
      connection goes on. */
  function EndOf(c: Queue, turn: Turn): Option<Ending> {
    match turn
    case PingFails => Some(Broken)
    case SlowSignal => if c.closeSlow then Some(TooSlow) else None
    case Expiry => Some(Expired)
    case HubDone => Some(GoingAway)
    case Deliver(outcome) =>
      if c.queue == [] then if c.closed then Some(Normal) else None
      else match outcome
        case WriteFailed => Some(Broken)
        case NotEncoded => if c.queue[0].kind == SessionClosed then Some(Normal) else None
        case Written => if c.queue[0].kind == SessionClosed then Some(Normal) else None
  }

  lemma TurnEnds(c: Queue, turn: Turn)
    requires c.ending.None?
    ensures
      var d := Turned(c, turn);
      && d.ending == EndOf(c, turn)
      && d.taken == if turn.Deliver? && c.queue != [] then c.taken + [Taken(c.queue[0], turn.outcome)] else c.taken
  {
  }

  lemma WriteTurns(s: State, id: Id, turn: Turn)
    requires id in s.conns && s.conns[id].handled && (turn.HubDone? ==> s.phase.Stopped?)
    ensures
      var t := Apply(s, Write(id, turn));
      id in t.conns && t.conns[id].c == Turned(s.conns[id].c, turn)
  {
  }

  /** In every run a connection ends at the turn of its writer that finds a reason to, with the code of
      that reason, and from then on takes nothing more; at any other turn it goes on, and a delivery
      takes the first message that is queued. */
  lemma TurnDecides(events: seq<Event>, n: nat, id: Id, turn: Turn)
    requires n < |events| && events[n] == Write(id, turn)
    requires
      var s := Run(events[..n]);
      && id in s.conns && s.conns[id].handled && s.conns[id].c.ending.None?
      && (turn.HubDone? ==> s.phase.Stopped?)
    ensures
      var c, d, t := Run(events[..n]).conns[id].c, Run(events[..n + 1]), Run(events);
      && id in d.conns && d.conns[id].c.ending == EndOf(c, turn) && id in t.conns
      && (EndOf(c, turn).Some? ==>
            t.conns[id].c.ending == EndOf(c, turn) && t.conns[id].c.taken == d.conns[id].c.taken)
      && d.conns[id].c.taken
         == if turn.Deliver? && c.queue != [] then c.taken + [Taken(c.queue[0], turn.outcome)] else c.taken
  {
    RunAt(events, n);
    WriteTurns(Run(events[..n]), id, turn);
    TurnEnds(Run(events[..n]).conns[id].c, turn);
    EndIsFinal(events, n + 1, id);
  }

  /** A connection the hub stopped without closing. */
  predicate LeftOpen(s: State, id: Id) {
    !s.phase.Serving? && id in s.conns && s.conns[id].handled && !s.conns[id].c.closed
  }

  lemma {:induction false} ShutdownLeavesOpen(events: seq<Event>, n: nat, id: Id)
    requires n < |events| && events[n].Shutdown?
    requires Run(events[..n]).phase.Serving? && InRegistry(Run(events[..n]), id)
    ensures LeftOpen(Run(events), id)
  {
    var before := events[..|events| - 1];
    if n == |events| - 1 {
      assert before == events[..n];
      RunKeepsInv(before);
      assert ConnOk(Run(before), id);
    } else {
      assert before[..n] == events[..n];
      ShutdownLeavesOpen(before, n, id);
      StepKeepsOpen(Run(before), events[|events| - 1], id);
    }
  }

  lemma StepKeepsOpen(s: State, e: Event, id: Id)
    requires LeftOpen(s, id)
    ensures LeftOpen(Apply(s, e), id)
  {}

  predicate ToldCompleted(c: Queue) { exists i :: 0 <= i < |c.taken| && c.taken[i].m.kind.SessionClosed? }

  /** Shutdown leaves the queues open: a client that was registered when the hub stopped is
      never told that its session completed, unless it was sent the terminal message. */
  lemma ShutdownIsNotCompletion(events: seq<Event>, n: nat, id: Id)
    requires n < |events| && events[n].Shutdown?
    requires Run(events[..n]).phase.Serving? && InRegistry(Run(events[..n]), id)
    ensures id in Run(events).conns
    ensures Run(events).conns[id].c.ending == Some(Normal) ==> ToldCompleted(Run(events).conns[id].c)
  {
    ShutdownLeavesOpen(events, n, id);
    EndingsExplained(events);
    assert Explained(Run(events), Run(events).conns[id].c);
  }

  /** Once the loop has ended nothing is delivered any more: a publication that is accepted before
      the channel is closed stays where it is, and no connection is numbered further by the hub. */
  lemma {:induction false} NothingDeliveredAfterTheLoop(events: seq<Event>, n: nat, id: Id)
    requires n <= |events| && !Run(events[..n]).phase.Serving?
    ensures !Run(events).phase.Serving? && Run(events[..n]).inbound <= Run(events).inbound
    ensures id in Run(events[..n]).conns && Run(events[..n]).conns[id].handled ==>
      && id in Run(events).conns && Run(events).conns[id].handled
      && Run(events).conns[id].c.nextSeq == Run(events[..n]).conns[id].c.nextSeq
  {
    var before := events[..|events| - 1];
    if n < |events| {
      assert before[..n] == events[..n];
      NothingDeliveredAfterTheLoop(before, n, id);
      StepDeliversNothing(Run(before), events[|events| - 1], id);
    } else {
      assert events[..n] == events;
    }
  }

  lemma StepDeliversNothing(s: State, e: Event, id: Id)
    requires !s.phase.Serving?
    ensures !Apply(s, e).phase.Serving? && s.inbound <= Apply(s, e).inbound
    ensures id in s.conns && s.conns[id].handled ==>
      var t := Apply(s, e);
      id in t.conns && t.conns[id].handled && t.conns[id].c.nextSeq == s.conns[id].c.nextSeq
  {
  }

  // --- non-interference ----------------------------------------------------

  /** Events that are not another connection's own. */
  predicate Concerns(e: Event, id: Id) {
    match e
    case Connect(i, _, _) => i == id
    case Register(i) => i == id
    case ServeClosed(i, _) => i == id
    case Unregister(i) => i == id
    case Write(i, _) => i == id
    case Ask(i, _) => i == id
    case Publish(_) => true
    case Broadcast(_) => true
    case Shutdown => true
    case Halt => true
  }

  function Only(events: seq<Event>, id: Id): seq<Event> {
    if events == [] then []
    else
      Only(events[..|events| - 1], id)
      + if Concerns(events[|events| - 1], id) then [events[|events| - 1]] else []
  }

  ghost predicate Alike(s: State, t: State, id: Id) {
    && s.inbound == t.inbound && s.phase == t.phase
    && (id in s.conns <==> id in t.conns) && (InRegistry(s, id) <==> InRegistry(t, id))
    && (id in s.conns ==> s.conns[id] == t.conns[id])
  }

  lemma BroadcastKeepsAlike(s: State, t: State, timing: map<Id, Timing>, id: Id)
    requires Inv(s) && Inv(t) && Alike(s, t, id)
    ensures Alike(Apply(s, Broadcast(timing)), Apply(t, Broadcast(timing)), id)
  {
    if s.phase.Serving? && s.inbound != [] && id in s.conns {
      var k := s.inbound[0].session;
      assert In(s.sessions, k, id) <==> s.conns[id].session == k && InRegistry(s, id);
      assert In(t.sessions, k, id) <==> t.conns[id].session == k && InRegistry(t, id);
      assert id in Watching(s.sessions, k) <==> id in Watching(t.sessions, k);
    }
  }

  lemma UnregisterKeepsAlike(s: State, t: State, id: Id)
    requires Inv(s) && Inv(t) && Alike(s, t, id)
    ensures Alike(Apply(s, Unregister(id)), Apply(t, Unregister(id)), id)
  {
    if InRegistry(s, id) {
      LeaveRemoves(s.sessions, s.conns[id].session, id);
      LeaveRemoves(t.sessions, t.conns[id].session, id);
    }
  }

  lemma ConnectKeepsAlike(s: State, t: State, e: Event, id: Id)
    requires Inv(s) && Inv(t) && Alike(s, t, id) && e.Connect? && e.id == id
    ensures Alike(Apply(s, e), Apply(t, e), id)
  {
    if id !in s.conns {
      assert !In(s.sessions, e.session, id) && !In(t.sessions, e.session, id);
    }
  }

  lemma RegisterKeepsAlike(s: State, t: State, id: Id)
    requires Alike(s, t, id)
    ensures Alike(Apply(s, Register(id)), Apply(t, Register(id)), id)
  {
    if Waiting(s, id) && s.phase.Serving? {
      JoinAdds(s.sessions, s.conns[id].session, id);
      JoinAdds(t.sessions, t.conns[id].session, id);
    }
  }

  lemma QueueKeepsAlike(s: State, t: State, e: Event, id: Id)
    requires Alike(s, t, id) && Concerns(e, id) && (e.ServeClosed? || e.Write? || e.Ask?)
    ensures Alike(Apply(s, e), Apply(t, e), id)
  {
  }

  lemma HubKeepsAlike(s: State, t: State, e: Event, id: Id)
    requires Alike(s, t, id) && (e.Publish? || e.Shutdown? || e.Halt?)
    ensures Alike(Apply(s, e), Apply(t, e), id)
  {
  }

  lemma MineKeepsAlike(s: State, t: State, e: Event, id: Id)
    requires Inv(s) && Inv(t) && Alike(s, t, id) && Concerns(e, id)
    ensures Alike(Apply(s, e), Apply(t, e), id)
  {
    match e
    case Broadcast(timing) => BroadcastKeepsAlike(s, t, timing, id);
    case Unregister(_) => UnregisterKeepsAlike(s, t, id);
    case Connect(_, _, _) => ConnectKeepsAlike(s, t, e, id);
    case Register(_) => RegisterKeepsAlike(s, t, id);
    case ServeClosed(_, _) => QueueKeepsAlike(s, t, e, id);
    case Write(_, _) => QueueKeepsAlike(s, t, e, id);
    case Ask(_, _) => QueueKeepsAlike(s, t, e, id);
    case _ => HubKeepsAlike(s, t, e, id);
  }

  lemma OthersKeepAlike(s: State, t: State, e: Event, id: Id)
    requires Inv(s) && Alike(s, t, id) && !Concerns(e, id)
    ensures Alike(Apply(s, e), t, id)
  {
    if e.Unregister? {
      OtherLeaves(s, e.id, id);
    } else if e.Register? {
      OtherJoins(s, e.id, id);
    } else {
      assert Apply(s, e).sessions == s.sessions && Apply(s, e).inbound == s.inbound && Apply(s, e).phase == s.phase;
    }
  }

  lemma OtherLeaves(s: State, other: Id, id: Id)
    requires Inv(s) && other != id
    ensures Alike(s, Apply(s, Unregister(other)), id)
  {
    if InRegistry(s, other) {
      LeaveRemoves(s.sessions, s.conns[other].session, other);
    }
  }

  lemma OtherJoins(s: State, other: Id, id: Id)
    requires other != id
    ensures Alike(s, Apply(s, Register(other)), id)
  {
    if Waiting(s, other) {
      JoinAdds(s.sessions, s.conns[other].session, other);
    }
  }

  /** Connections do not interfere: whatever the others do, and however slow they are, a
      connection's queue, numbers, drops and fate are those of the run in which the other
      connections do not exist. */
  lemma {:induction false} OthersDoNotMatter(events: seq<Event>, id: Id)
    ensures Alike(Run(events), Run(Only(events, id)), id)
  {
    if events != [] {
      var before, e := events[..|events| - 1], events[|events| - 1];
      OthersDoNotMatter(before, id);
      RunKeepsInv(before);
      if Concerns(e, id) {
        RunKeepsInv(Only(before, id));
        MineKeepsAlike(Run(before), Run(Only(before, id)), e, id);
        assert (Only(before, id) + [e])[..|Only(before, id)|] == Only(before, id);
      } else {
        OthersKeepAlike(Run(before), Run(Only(before, id)), e, id);
        assert Only(events, id) == Only(before, id);
      }
    }
  }
}
