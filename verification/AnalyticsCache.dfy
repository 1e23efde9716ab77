/** Generation-keyed caching of analytics: readers take the generation, look up, compute and
    store; writers commit rows and then bump the generation; Redis may fail, forget and expire. */
module AnalyticsCache {
  import opened Wrappers

  type Athlete = nat
  type Variant = string
  type ReaderId = nat

  /** Lifetimes in milliseconds. */
  const SUMMARY_TTL: nat := 300_000
  const GENERATION_TTL: nat := 86_400_000

  datatype Counter = Counter(value: nat, expires: Option<int>)

  datatype Key = Key(athlete: Athlete, generation: nat, variant: Variant)

  /** A payload is known by how many of the athlete's rows, in commit order, each of its
      queries saw. */
  type Payload = seq<nat>

  predicate Contains(p: Payload, row: nat) { forall i :: 0 <= i < |p| ==> row < p[i] }

  /** epoch and baseline are history: the counter's epoch and the athlete's rows when the
      reader that stored the entry took its generation. */
  datatype Entry = Entry(payload: Payload, storedAt: int, epoch: nat, baseline: nat)

  /** The pipeline of two commands may be cut short. */
  datatype BumpOutcome = Full | IncrementOnly | NotDone

  datatype Phase =
    | Looking | Computing(sections: Payload) | Hit(entry: Entry, at: int) | Miss(payload: Payload) | QueryFailed

  /** answered: Redis answered the generation read. epoch, baseline and bumped are history: the
      counter's epoch, the rows committed and the rows already bumped at that read. */
  datatype Reader = Reader(
    athlete: Athlete, variant: Variant, generation: nat, answered: bool,
    epoch: nat, baseline: nat, bumped: nat, phase: Phase)

  /** An epoch of an athlete's counter ends when the counter is lost or expires. bumped holds how
      many rows were committed before the last bump, and marks the same for each value the
      counter reached in an epoch. */
  datatype State = State(
    now: int, committed: map<Athlete, nat>, counters: map<Athlete, Counter>, entries: map<Key, Entry>,
    readers: map<ReaderId, Reader>, epochs: map<Athlete, nat>, bumped: map<Athlete, nat>,
    marks: map<(Athlete, nat, nat), nat>)

  const START := State(0, map[], map[], map[], map[], map[], map[], map[])

  function At(m: map<Athlete, nat>, a: Athlete): nat { if a in m then m[a] else 0 }

  // --- Redis ---------------------------------------------------------------

  /** What a read of the counter gives: zero when there is none or Redis does not answer. */
  function GenerationRead(counters: map<Athlete, Counter>, a: Athlete, ok: bool): nat {
    if ok && a in counters then counters[a].value else 0
  }

  function Value(s: State, a: Athlete): nat { GenerationRead(s.counters, a, true) }

  function Raised(counters: map<Athlete, Counter>, a: Athlete, now: int, outcome: BumpOutcome): Counter {
    var was := if a in counters then counters[a] else Counter(0, None);
    Counter(was.value + 1, if outcome.Full? then Some(now + GENERATION_TTL) else was.expires)
  }

  predicate Expired(c: Counter, now: int) { c.expires.Some? && c.expires.value <= now }

  predicate Alive(e: Entry, now: int) { now - e.storedAt < SUMMARY_TTL }

  // --- the steps -----------------------------------------------------------

  datatype Event =
    | Commit(athlete: Athlete)
    | Bump(athlete: Athlete, outcome: BumpOutcome)
    | Tick(span: nat)
    | LoseCounter(athlete: Athlete)
    | LoseEntry(key: Key)
    | Begin(reader: ReaderId, athlete: Athlete, variant: Variant, ok: bool)
    | Look(reader: ReaderId, ok: bool)     // ok: Redis answers and the entry can be decoded
    | Query(reader: ReaderId)
    | Fail(reader: ReaderId)               // a query failed
    | Store(reader: ReaderId, ok: bool)

  function BumpStep(s: State, a: Athlete, outcome: BumpOutcome): State {
    if outcome.NotDone? then s
    else
      var raised := Raised(s.counters, a, s.now, outcome);
      var rows := At(s.committed, a);
      s.(counters := s.counters[a := raised], bumped := s.bumped[a := rows],
         marks := s.marks[(a, At(s.epochs, a), raised.value) := rows])
  }

  function EpochAt(s: State, a: Athlete, now: int): nat {
    if a in s.counters && Expired(s.counters[a], now) then At(s.epochs, a) + 1 else At(s.epochs, a)
  }

  /** Time passes and what has expired is gone. */
  function Ticked(s: State, span: nat): State {
    var now := s.now + span;
    s.(now := now,
       counters := (map a | a in s.counters && !Expired(s.counters[a], now) :: s.counters[a]),
       entries := (map k | k in s.entries && Alive(s.entries[k], now) :: s.entries[k]),
       epochs := (map a | a in s.epochs.Keys + s.counters.Keys :: EpochAt(s, a, now)))
  }

  function KeyOf(r: Reader): Key { Key(r.athlete, r.generation, r.variant) }

  function Started(s: State, a: Athlete, v: Variant, ok: bool): Reader {
    Reader(a, v, GenerationRead(s.counters, a, ok), ok,
           At(s.epochs, a), At(s.committed, a), At(s.bumped, a), Looking)
  }

  function Looked(s: State, r: Reader, ok: bool): Reader {
    if ok && KeyOf(r) in s.entries then r.(phase := Hit(s.entries[KeyOf(r)], s.now)) else r.(phase := Computing([]))
  }

  predicate IsLooking(s: State, id: ReaderId) { id in s.readers && s.readers[id].phase.Looking? }

  predicate IsComputing(s: State, id: ReaderId) { id in s.readers && s.readers[id].phase.Computing? }

  /** A reader that has something to store. */
  predicate Stores(s: State, id: ReaderId) { IsComputing(s, id) && s.readers[id].phase.sections != [] }

  function EntryOf(s: State, id: ReaderId): Entry
    requires IsComputing(s, id)
  {
    var r := s.readers[id];
    Entry(r.phase.sections, s.now, r.epoch, r.baseline)
  }

  function Apply(s: State, e: Event): State {
    match e
    case Commit(a) => s.(committed := s.committed[a := At(s.committed, a) + 1])
    case Bump(a, outcome) => BumpStep(s, a, outcome)
    case Tick(span) => Ticked(s, span)
    case LoseCounter(a) => s.(counters := s.counters - {a}, epochs := s.epochs[a := At(s.epochs, a) + 1])
    case LoseEntry(key) => s.(entries := s.entries - {key})
    case Begin(id, a, v, ok) => if id in s.readers then s else s.(readers := s.readers[id := Started(s, a, v, ok)])
    case Look(id, ok) =>
      if !IsLooking(s, id) then s else s.(readers := s.readers[id := Looked(s, s.readers[id], ok)])
    case Query(id) =>
      if !IsComputing(s, id) then s
      else
        var r := s.readers[id];
        s.(readers := s.readers[id := r.(phase := Computing(r.phase.sections + [At(s.committed, r.athlete)]))])
    case Fail(id) =>
      if !IsComputing(s, id) then s else s.(readers := s.readers[id := s.readers[id].(phase := QueryFailed)])
    case Store(id, ok) =>
      if !Stores(s, id) then s
      else
        var r := s.readers[id];
        s.(readers := s.readers[id := r.(phase := Miss(r.phase.sections))],
           entries := if ok then s.entries[KeyOf(r) := EntryOf(s, id)] else s.entries)
  }

  function RunFrom(s: State, events: seq<Event>): State {
    if events == [] then s else Apply(RunFrom(s, events[..|events| - 1]), events[|events| - 1])
  }

  function Run(events: seq<Event>): State { RunFrom(START, events) }

  lemma {:induction false} RunFromJoins(s: State, a: seq<Event>, b: seq<Event>)
    ensures RunFrom(s, a + b) == RunFrom(RunFrom(s, a), b)
  {
    if b == [] {
      assert a + b == a;
    } else {
      RunFromJoins(s, a, b[..|b| - 1]);
      assert (a + b)[..|a + b| - 1] == a + b[..|b| - 1];
    }
  }

  lemma RunOne(s: State, e: Event)
    ensures RunFrom(s, [e]) == Apply(s, e)
  {
    assert [e][..0] == [];
  }

  // --- the object ----------------------------------------------------------

  /** The stores as the readers and the writers use them, with the history beside them. */
  class Cache {
    var now: int
    var committed: map<Athlete, nat>
    var counters: map<Athlete, Counter>
    var entries: map<Key, Entry>
    var readers: map<ReaderId, Reader>
    var epochs: map<Athlete, nat>
    var bumped: map<Athlete, nat>
    var marks: map<(Athlete, nat, nat), nat>

    function View(): State
      reads this
    {
      State(now, committed, counters, entries, readers, epochs, bumped, marks)
    }

    constructor (s: State)
      ensures View() == s
    {
      now, committed, counters, entries := s.now, s.committed, s.counters, s.entries;
      readers, epochs, bumped, marks := s.readers, s.epochs, s.bumped, s.marks;
    }

    /** Anything that others do. */
    method Elsewhere(events: seq<Event>)
      modifies this
      ensures View() == RunFrom(old(View()), events)
    {
      var s := RunFrom(View(), events);
      now, committed, counters, entries := s.now, s.committed, s.counters, s.entries;
      readers, epochs, bumped, marks := s.readers, s.epochs, s.bumped, s.marks;
    }

    method Generation(id: ReaderId, a: Athlete, v: Variant, ok: bool) returns (generation: nat)
      requires id !in readers
      modifies `readers
      ensures View() == Apply(old(View()), Begin(id, a, v, ok))
      ensures IsLooking(View(), id) && KeyOf(readers[id]) == Key(a, generation, v)
    {
      generation := 0;
      if ok && a in counters {
        generation := counters[a].value;
      }
      var r := Reader(a, v, generation, ok, At(epochs, a), At(committed, a), At(bumped, a), Looking);
      readers := readers[id := r];
    }

    method InvalidateAthlete(a: Athlete, outcome: BumpOutcome)
      modifies `counters, `bumped, `marks
      ensures View() == Apply(old(View()), Bump(a, outcome))
    {
      if outcome == NotDone {
        return;
      }
      var value, expires := 0, None;
      if a in counters {
        value, expires := counters[a].value, counters[a].expires;
      }
      value := value + 1;
      if outcome == Full {
        expires := Some(now + GENERATION_TTL);
      }
      counters := counters[a := Counter(value, expires)];
      bumped, marks := bumped[a := At(committed, a)], marks[(a, At(epochs, a), value) := At(committed, a)];
    }

    /** The entry under the caller's own athlete, generation and variant, or nothing. */
    method GetAnalytics(id: ReaderId, a: Athlete, generation: nat, v: Variant, ok: bool)
      returns (found: Option<Payload>)
      requires IsLooking(View(), id) && KeyOf(readers[id]) == Key(a, generation, v)
      modifies `readers
      ensures View() == Apply(old(View()), Look(id, ok))
      ensures match found
              case Some(p) => readers[id].phase.Hit? && readers[id].phase.entry.payload == p
              case None => readers[id].phase == Computing([])
    {
      var key := Key(a, generation, v);
      if ok && key in entries {
        found := Some(entries[key].payload);
        readers := readers[id := readers[id].(phase := Hit(entries[key], now))];
      } else {
        found := None;
        readers := readers[id := readers[id].(phase := Computing([]))];
      }
    }

    /** One query of the rollup. */
    method QueryRows(id: ReaderId) returns (rows: nat)
      requires IsComputing(View(), id)
      modifies `readers
      ensures View() == Apply(old(View()), Query(id))
      ensures readers[id].phase == Computing(old(readers[id].phase.sections) + [rows])
    {
      var r := readers[id];
      rows := At(committed, r.athlete);
      readers := readers[id := r.(phase := Computing(r.phase.sections + [rows]))];
    }

    /** Files the payload under the generation the caller took. */
    method SetAnalytics(id: ReaderId, a: Athlete, generation: nat, v: Variant, payload: Payload, ok: bool)
      requires payload != [] && IsComputing(View(), id) && readers[id].phase == Computing(payload)
      requires KeyOf(readers[id]) == Key(a, generation, v)
      modifies `readers, `entries
      ensures View() == Apply(old(View()), Store(id, ok))
      ensures readers[id].phase == Miss(payload)
    {
      var r := readers[id];
      if ok {
        entries := entries[Key(a, generation, v) := Entry(payload, now, r.epoch, r.baseline)];
      }
      readers := readers[id := r.(phase := Miss(payload))];
    }

    method GiveUp(id: ReaderId)
      requires IsComputing(View(), id)
      modifies `readers
      ensures View() == Apply(old(View()), Fail(id)) && readers[id].phase == QueryFailed
    {
      readers := readers[id := readers[id].(phase := QueryFailed)];
    }
  }
}
