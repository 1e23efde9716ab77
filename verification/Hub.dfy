/** The registry of connections and the fan-out. The hub's loop is the only one to change the
    registry, to enqueue and, for a registered client, to close its queue. */
module Hub {
  import opened Wrappers
  import opened ClientQueue

  const BROADCAST_BUFFER: nat := 1024

  type Id = nat
  type Session = int

  /** handled: the handshake has registered the client, served it as closed, or given up. */
  datatype Conn = Conn(session: Session, handled: bool, c: Queue)

  datatype Publication = Publication(session: Session, kind: Kind, body: int)

  /** When a client's turn in a broadcast comes, and what its writer does meanwhile. */
  datatype Timing = Timing(now: int, meanwhile: seq<Outcome>)

  /** The loop runs; it has ended and cleared the registry; everybody else can see that it has. */
  datatype Phase = Serving | Stopping | Stopped

  datatype State = State(
    conns: map<Id, Conn>, sessions: map<Session, set<Id>>, clients: int,
    inbound: seq<Publication>, phase: Phase)

  datatype Event =
    | Connect(id: Id, session: Session, snapshot: int)
    | Register(id: Id)
    | ServeClosed(id: Id, body: int)
    | Unregister(id: Id)
    | Publish(p: Publication)
    | Broadcast(timing: map<Id, Timing>)
    | Shutdown
    | Halt
    | Write(id: Id, turn: Turn)
    | Ask(id: Id, command: Command)

  const START := State(map[], map[], 0, [], Serving)

  // --- the registry --------------------------------------------------------

  predicate In(sessions: map<Session, set<Id>>, session: Session, id: Id) {
    session in sessions && id in sessions[session]
  }

  function Watching(sessions: map<Session, set<Id>>, session: Session): set<Id> {
    if session in sessions then sessions[session] else {}
  }

  function Join(sessions: map<Session, set<Id>>, session: Session, id: Id): map<Session, set<Id>> {
    sessions[session := Watching(sessions, session) + {id}]
  }

  /** A session nobody watches any more has no entry. */
  function Leave(sessions: map<Session, set<Id>>, session: Session, id: Id): map<Session, set<Id>> {
    if Watching(sessions, session) - {id} == {} then sessions - {session}
    else sessions[session := Watching(sessions, session) - {id}]
  }

  // --- the steps -----------------------------------------------------------

  function TimingOf(timing: map<Id, Timing>, id: Id): Timing {
    if id in timing then timing[id] else Timing(0, [])
  }

  function Told(conn: Conn, p: Publication, t: Timing): Conn {
    conn.(c := Enqueued(conn.c, p.kind, p.body, t.now, t.meanwhile))
  }

  function Fan(conns: map<Id, Conn>, watching: set<Id>, p: Publication, timing: map<Id, Timing>): map<Id, Conn> {
    map id | id in conns :: if id in watching then Told(conns[id], p, TimingOf(timing, id)) else conns[id]
  }

  predicate Waiting(s: State, id: Id) { id in s.conns && !s.conns[id].handled }

  /** Publishers look at the closed channel only, not at the loop. */
  predicate Accepts(s: State) { !s.phase.Stopped? && |s.inbound| < BROADCAST_BUFFER }

  /** Events that cannot happen in a state change nothing. */
  function Apply(s: State, e: Event): State {
    match e
    case Connect(id, session, snapshot) =>
      if id in s.conns then s else s.(conns := s.conns[id := Conn(session, false, Opened(snapshot))])
    case Register(id) =>
      if !Waiting(s, id) then s
      else
        var conn := s.conns[id].(handled := true);
        if s.phase.Stopping? then s     // the handshake waits for the loop or for its end
        else if s.phase.Stopped? then s.(conns := s.conns[id := conn])
        else s.(conns := s.conns[id := conn], sessions := Join(s.sessions, conn.session, id), clients := s.clients + 1)
    case ServeClosed(id, body) =>
      if !Waiting(s, id) then s
      else s.(conns := s.conns[id := s.conns[id].(handled := true, c := Served(s.conns[id].c, body))])
    case Unregister(id) =>
      if id !in s.conns || !s.phase.Serving? || !In(s.sessions, s.conns[id].session, id) then s
      else
        var conn := s.conns[id];
        s.(conns := s.conns[id := conn.(c := Closed(conn.c))],
           sessions := Leave(s.sessions, conn.session, id), clients := s.clients - 1)
    case Publish(p) => if Accepts(s) then s.(inbound := s.inbound + [p]) else s
    case Broadcast(timing) =>
      if !s.phase.Serving? || s.inbound == [] then s
      else
        s.(conns := Fan(s.conns, Watching(s.sessions, s.inbound[0].session), s.inbound[0], timing),
           inbound := s.inbound[1..])
    case Shutdown => if s.phase.Serving? then s.(sessions := map[], clients := 0, phase := Stopping) else s
    case Halt => if s.phase.Stopping? then s.(phase := Stopped) else s
    case Write(id, turn) =>
      if id !in s.conns || !s.conns[id].handled || (turn.HubDone? && !s.phase.Stopped?) then s
      else s.(conns := s.conns[id := s.conns[id].(c := Turned(s.conns[id].c, turn))])
    case Ask(id, command) =>
      if id !in s.conns || !s.conns[id].handled then s
      else s.(conns := s.conns[id := s.conns[id].(c := Commanded(s.conns[id].c, command))])
  }

  function Run(events: seq<Event>): State {
    if events == [] then START else Apply(Run(events[..|events| - 1]), events[|events| - 1])
  }

  lemma FanStarts(conns: map<Id, Conn>, p: Publication, timing: map<Id, Timing>)
    ensures Fan(conns, {}, p, timing) == conns
  {
  }

  lemma FanGrows(
    conns: map<Id, Conn>, watching: set<Id>, todo: set<Id>, id: Id, p: Publication, timing: map<Id, Timing>)
    requires id in todo && todo <= watching && id in conns
    ensures Fan(conns, watching - (todo - {id}), p, timing)
         == Fan(conns, watching - todo, p, timing)[id := Told(conns[id], p, TimingOf(timing, id))]
  {
  }

  lemma LeavingIs(s: State, id: Id)
    requires id in s.conns && s.phase.Serving?
    ensures
      var conn := s.conns[id];
      Apply(s, Unregister(id)) ==
      if In(s.sessions, conn.session, id) then
        State(s.conns[id := conn.(c := Closed(conn.c))], Leave(s.sessions, conn.session, id), s.clients - 1,
              s.inbound, s.phase)
      else s
  {
  }

  // --- the object ----------------------------------------------------------

  class Server {
    /** Every connection opened so far, by its identity. */
    var conns: map<Id, Client>
    var handled: set<Id>
    var sessions: map<Session, set<Id>>
    var clients: int
    var inbound: seq<Publication>
    var phase: Phase

    ghost predicate Valid()
      reads `conns, `sessions
    {
      && (forall i, j :: i in conns && j in conns && i != j ==> conns[i] != conns[j])
      && (forall k, i :: k in sessions && i in sessions[k] ==> i in conns)
    }

    ghost function ConnOf(id: Id): Conn
      requires id in conns
      reads `conns, `handled, conns.Values
    {
      Conn(conns[id].session, id in handled, conns[id].View())
    }

    ghost function Conns(): map<Id, Conn>
      reads `conns, `handled, conns.Values
    {
      map id | id in conns :: ConnOf(id)
    }

    ghost function View(): State
      reads this, conns.Values
    {
      State(Conns(), sessions, clients, inbound, phase)
    }

    /** Where only one client's queue or mark has changed, only its entry of the view has. */
    twostate lemma OneChanged(id: Id)
      requires id in conns && conns == old(conns)
      requires forall i :: i in conns && i != id ==>
        (i in handled <==> i in old(handled)) && conns[i].View() == old(conns[i].View())
      ensures Conns() == old(Conns())[id := Conn(conns[id].session, id in handled, conns[id].View())]
    {
    }

    constructor ()
      ensures Valid() && View() == START && fresh(conns.Values)
    {
      conns, handled, sessions, clients, inbound, phase := map[], {}, map[], 0, [], Serving;
    }

    method Open(id: Id, session: Session, snapshot: int)
      requires Valid() && id !in conns
      modifies this
      ensures Valid() && conns.Keys == old(conns).Keys + {id} && fresh(conns[id])
      ensures forall i :: i in old(conns) ==> conns[i] == old(conns)[i]
      ensures View() == Apply(old(View()), Connect(id, session, snapshot))
    {
      var client := new Client(session, snapshot);
      Add(id, client);
    }

    method Add(id: Id, client: Client)
      requires Valid() && id !in conns && client !in conns.Values
      modifies `conns, `handled
      ensures Valid() && conns == old(conns)[id := client]
      ensures Conns() == old(Conns())[id := Conn(client.session, false, client.View())]
    {
      ghost var was := Conns();
      handled := handled - {id};
      conns := conns[id := client];
      assert forall i :: i in was ==> ConnOf(i) == was[i];
    }

    /** The handshake is done with this connection. */
    method Mark(id: Id)
      requires Valid() && id in conns
      modifies `handled
      ensures Conns() == old(Conns())[id := old(ConnOf(id)).(handled := true)]
    {
      handled := handled + {id};
      OneChanged(id);
    }

    /** Adds a client to the registry. */
    method Enter(id: Id, session: Session)
      requires Valid() && id in conns
      modifies `sessions, `clients
      ensures Valid() && sessions == Join(old(sessions), session, id) && clients == old(clients) + 1
      ensures Conns() == old(Conns())
    {
      var watching := {};
      if session in sessions {
        watching := sessions[session];
      }
      sessions := sessions[session := watching + {id}];
      clients := clients + 1;
    }

    /** The answer, or none yet: between the end of the loop and the closing of its channel the
        handshake waits. */
    method Register(id: Id) returns (ok: Option<bool>)
      requires Valid() && id in conns && id !in handled
      modifies `handled, `sessions, `clients
      ensures Valid()
      ensures ok == match phase case Serving => Some(true) case Stopping => None case Stopped => Some(false)
      ensures View() == Apply(old(View()), Event.Register(id))
    {
      if phase == Stopping {
        return None;
      }
      Mark(id);
      if phase == Serving {
        Enter(id, conns[id].session);
      }
      ok := Some(phase == Serving);
    }

    /** Closes one client's queue. */
    method CloseOne(id: Id)
      requires Valid() && id in conns
      modifies conns[id]
      ensures Conns() == old(Conns())[id := old(ConnOf(id)).(c := Closed(old(ConnOf(id)).c))]
    {
      conns[id].CloseQueue();
      OneChanged(id);
    }

    /** Drops a client from the registry. */
    method Forget(id: Id, session: Session)
      requires Valid() && session in sessions
      modifies `sessions, `clients
      ensures Valid() && sessions == Leave(old(sessions), session, id) && clients == old(clients) - 1
      ensures Conns() == old(Conns())
    {
      var left := sessions[session] - {id};
      if left == {} {
        sessions := sessions - {session};
      } else {
        sessions := sessions[session := left];
      }
      clients := clients - 1;
    }

    /** Takes a client out of the registry and closes its queue. */
    method Expel(id: Id, session: Session)
      requires Valid() && id in conns && session in sessions
      modifies `sessions, `clients, conns[id]
      ensures Valid() && sessions == Leave(old(sessions), session, id) && clients == old(clients) - 1
      ensures Conns() == old(Conns())[id := old(ConnOf(id)).(c := Closed(old(ConnOf(id)).c))]
    {
      Forget(id, session);
      CloseOne(id);
    }

    method Remove(id: Id)
      requires Valid() && id in conns && phase.Serving?
      modifies `sessions, `clients, conns.Values
      ensures Valid() && View() == Apply(old(View()), Unregister(id))
    {
      var session := conns[id].session;
      LeavingIs(View(), id);
      if session !in sessions || id !in sessions[session] {
        return;
      }
      Expel(id, session);
    }

    /** Enqueues for one client. */
    method TellOne(id: Id, p: Publication, t: Timing)
      requires Valid() && id in conns
      modifies conns[id]
      ensures Conns() == old(Conns())[id := Told(old(ConnOf(id)), p, t)]
    {
      conns[id].Enqueue(p.kind, p.body, t.now, t.meanwhile);
      OneChanged(id);
    }

    /** The fan-out: one non-blocking enqueue for every client of the session, in any order. */
    method FanOut(watching: set<Id>, p: Publication, timing: map<Id, Timing>)
      requires Valid() && watching <= conns.Keys
      modifies conns.Values
      ensures Conns() == Fan(old(Conns()), watching, p, timing)
    {
      ghost var was := Conns();
      var todo := watching;
      FanStarts(was, p, timing);
      while todo != {}
        invariant todo <= watching && Conns() == Fan(was, watching - todo, p, timing)
        decreases todo
      {
        var id :| id in todo;
        TellOne(id, p, if id in timing then timing[id] else Timing(0, []));
        FanGrows(was, watching, todo, id, p, timing);
        todo := todo - {id};
      }
      assert watching - todo == watching;
    }

    /** The handshake of a closed outing's client, which never enters the registry. */
    method ServeClosed(id: Id, body: int)
      requires Valid() && id in conns && id !in handled && !conns[id].closed
      modifies `handled, conns[id]
      ensures Valid() && View() == Apply(old(View()), Event.ServeClosed(id, body))
    {
      conns[id].ServeClosed(body);
      handled := handled + {id};
      OneChanged(id);
    }

    /** A turn of one connection's writer. */
    method Write(id: Id, turn: Turn)
      requires Valid() && id in conns && id in handled && (turn.HubDone? ==> phase.Stopped?)
      modifies conns[id]
      ensures Valid() && View() == Apply(old(View()), Event.Write(id, turn))
    {
      WriteOne(id, turn);
    }

    method WriteOne(id: Id, turn: Turn)
      requires Valid() && id in conns
      modifies conns[id]
      ensures Conns() == old(Conns())[id := old(ConnOf(id)).(c := Turned(old(ConnOf(id)).c, turn))]
    {
      conns[id].WritePump(turn);
      OneChanged(id);
    }

    /** A message from a watcher. */
    method Answer(id: Id, command: Command)
      requires Valid() && id in conns && id in handled
      modifies conns[id]
      ensures Valid() && View() == Apply(old(View()), Ask(id, command))
    {
      AnswerOne(id, command);
    }

    method AnswerOne(id: Id, command: Command)
      requires Valid() && id in conns
      modifies conns[id]
      ensures Conns() == old(Conns())[id := old(ConnOf(id)).(c := Commanded(old(ConnOf(id)).c, command))]
    {
      conns[id].HandleCommand(command);
      OneChanged(id);
    }

    method Deliver(timing: map<Id, Timing>)
      requires Valid() && phase.Serving? && inbound != []
      modifies `inbound, conns.Values
      ensures Valid() && View() == Apply(old(View()), Broadcast(timing))
    {
      var p := inbound[0];
      inbound := inbound[1..];
      var watching := {};
      if p.session in sessions {
        watching := sessions[p.session];
      }
      FanOut(watching, p, timing);
    }

    method Stop()
      requires Valid()
      modifies `sessions, `clients, `phase
      ensures Valid() && View() == Apply(old(View()), Shutdown)
    {
      if phase == Serving {
        sessions, clients, phase := map[], 0, Stopping;
      }
    }

    /** The deferred close of the channel that everybody else watches. */
    method Close()
      requires Valid()
      modifies `phase
      ensures Valid() && View() == Apply(old(View()), Halt)
    {
      if phase == Stopping {
        phase := Stopped;
      }
    }

    method Publish(p: Publication) returns (ok: bool)
      requires Valid()
      modifies `inbound
      ensures Valid() && ok == Accepts(old(View()))
      ensures View() == Apply(old(View()), Event.Publish(p))
    {
      if phase == Stopped {
        return false;
      }
      ok := |inbound| < BROADCAST_BUFFER;
      if ok {
        inbound := inbound + [p];
      }
    }
  }
}
