/** The analytics request handler: one generation read, one look-up, and on a miss the queries
    and one store, with anything else happening in between. */
module AnalyticsReader {
  import opened Wrappers
  import opened AnalyticsCache
  import opened AnalyticsFreshness

  /** Not a step of this request. */
  predicate Foreign(e: Event, id: ReaderId) {
    match e
    case Begin(reader, _, _, _) => reader != id
    case Look(reader, _) => reader != id
    case Query(reader) => reader != id
    case Fail(reader) => reader != id
    case Store(reader, _) => reader != id
    case _ => true
  }

  /** What happens elsewhere before an operation, and whether the operation succeeds. */
  datatype Beat = Beat(meanwhile: seq<Event>, ok: bool)

  predicate Playable(beats: seq<Beat>, id: ReaderId) {
    forall i :: 0 <= i < |beats| ==> forall e :: e in beats[i].meanwhile ==> Foreign(e, id)
  }

  /** The request is where it was. */
  predicate SameReader(s: State, t: State, id: ReaderId) {
    (id in s.readers <==> id in t.readers) && (id in s.readers ==> s.readers[id] == t.readers[id])
  }

  lemma OtherKeepsReader(s: State, e: Event, id: ReaderId)
    requires Foreign(e, id)
    ensures SameReader(s, Apply(s, e), id)
  {}

  lemma {:induction false} OthersKeepReader(s: State, events: seq<Event>, id: ReaderId)
    requires forall e :: e in events ==> Foreign(e, id)
    ensures SameReader(s, RunFrom(s, events), id)
  {
    if events != [] {
      var before, e := events[..|events| - 1], events[|events| - 1];
      assert forall x :: x in before ==> x in events;
      OthersKeepReader(s, before, id);
      assert e in events;
      OtherKeepsReader(RunFrom(s, before), e, id);
    }
  }

  /** The answer with the cache state it is reported with, or an internal error. */
  datatype Answer = FromCache(payload: Payload) | Computed(payload: Payload) | Failed

  class Handler {
    const cache: Cache
    ghost const start: State
    ghost var trace: seq<Event>

    /** The world is a run from the one the request arrived in. */
    ghost predicate Valid()
      reads this, cache
    {
      cache.View() == RunFrom(start, trace)
    }

    constructor (cache: Cache)
      ensures Valid() && this.cache == cache && start == cache.View() && trace == []
    {
      this.cache, start, trace := cache, cache.View(), [];
    }

    ghost method Extend(events: seq<Event>)
      requires cache.View() == RunFrom(RunFrom(start, trace), events)
      modifies `trace
      ensures Valid() && trace == old(trace) + events
    {
      RunFromJoins(start, trace, events);
      trace := trace + events;
    }

    method Elsewhere(id: ReaderId, events: seq<Event>)
      requires Valid() && forall e :: e in events ==> Foreign(e, id)
      modifies `trace, cache
      ensures Valid() && SameReader(old(cache.View()), cache.View(), id)
    {
      OthersKeepReader(cache.View(), events, id);
      cache.Elsewhere(events);
      Extend(events);
    }

    /** The rollup: up to one query a beat, the first failure ending it. */
    method Compute(id: ReaderId, beats: seq<Beat>) returns (out: Payload, ok: bool)
      requires Valid() && Playable(beats, id)
      requires IsComputing(cache.View(), id) && cache.readers[id].phase == Computing([])
      modifies `trace, cache
      ensures Valid() && id in cache.readers && KeyOf(cache.readers[id]) == old(KeyOf(cache.readers[id]))
      ensures if ok then |out| == |beats| && cache.readers[id].phase == Computing(out)
              else cache.readers[id].phase == QueryFailed
    {
      out := [];
      for i := 0 to |beats|
        invariant Valid() && |out| == i && id in cache.readers && cache.readers[id].phase == Computing(out)
        invariant KeyOf(cache.readers[id]) == old(KeyOf(cache.readers[id]))
      {
        Elsewhere(id, beats[i].meanwhile);
        if !beats[i].ok {
          RunOne(cache.View(), Fail(id));
          cache.GiveUp(id);
          Extend([Fail(id)]);
          return out, false;
        }
        RunOne(cache.View(), Query(id));
        var rows := cache.QueryRows(id);
        Extend([Query(id)]);
        out := out + [rows];
      }
      ok := true;
    }

    method ReadGeneration(id: ReaderId, a: Athlete, v: Variant, beat: Beat) returns (generation: nat)
      requires Valid() && id !in cache.readers && Playable([beat], id)
      modifies `trace, cache
      ensures Valid() && IsLooking(cache.View(), id) && KeyOf(cache.readers[id]) == Key(a, generation, v)
    {
      assert [beat][0] == beat;
      Elsewhere(id, beat.meanwhile);
      RunOne(cache.View(), Begin(id, a, v, beat.ok));
      generation := cache.Generation(id, a, v, beat.ok);
      Extend([Begin(id, a, v, beat.ok)]);
    }

    method LookUp(id: ReaderId, a: Athlete, generation: nat, v: Variant, beat: Beat) returns (found: Option<Payload>)
      requires Valid() && IsLooking(cache.View(), id) && KeyOf(cache.readers[id]) == Key(a, generation, v)
      requires Playable([beat], id)
      modifies `trace, cache
      ensures Valid() && id in cache.readers && KeyOf(cache.readers[id]) == Key(a, generation, v)
      ensures match found
              case Some(p) => cache.readers[id].phase.Hit? && cache.readers[id].phase.entry.payload == p
              case None => cache.readers[id].phase == Computing([])
    {
      assert [beat][0] == beat;
      Elsewhere(id, beat.meanwhile);
      RunOne(cache.View(), Look(id, beat.ok));
      found := cache.GetAnalytics(id, a, generation, v, beat.ok);
      Extend([Look(id, beat.ok)]);
    }

    method File(id: ReaderId, a: Athlete, generation: nat, v: Variant, payload: Payload, beat: Beat)
      requires Valid() && payload != [] && Playable([beat], id)
      requires id in cache.readers && cache.readers[id].phase == Computing(payload)
      requires KeyOf(cache.readers[id]) == Key(a, generation, v)
      modifies `trace, cache
      ensures Valid() && id in cache.readers && cache.readers[id].phase == Miss(payload)
    {
      assert [beat][0] == beat;
      Elsewhere(id, beat.meanwhile);
      RunOne(cache.View(), Store(id, beat.ok));
      cache.SetAnalytics(id, a, generation, v, payload, beat.ok);
      Extend([Store(id, beat.ok)]);
    }

    /** getAthleteAnalytics: the answer is what the run of the protocol serves this reader, a hit
        as it was found or a miss as it was computed and filed under the generation first read. */
    method GetAthleteAnalytics(id: ReaderId, a: Athlete, v: Variant, beats: seq<Beat>) returns (answer: Answer)
      requires Valid() && id !in cache.readers && |beats| >= 4 && Playable(beats, id)
      modifies `trace, cache
      ensures Valid() && id in cache.readers
      ensures match answer
              case FromCache(p) => IsHit(cache.View(), id) && cache.readers[id].phase.entry.payload == p
              case Computed(p) => cache.readers[id].phase == Miss(p) && |p| == |beats| - 3
              case Failed => cache.readers[id].phase == QueryFailed
    {
      var generation := ReadGeneration(id, a, v, beats[0]);
      var found := LookUp(id, a, generation, v, beats[1]);
      if found.Some? {
        return FromCache(found.value);
      }
      var last := |beats| - 1;
      var out, ok := Compute(id, beats[2..last]);
      if !ok {
        return Failed;
      }
      File(id, a, generation, v, out, beats[last]);
      return Computed(out);
    }
  }

  /** For a request that arrives in a reachable state: a miss lacks no row committed before it
      read the generation, and a hit none committed before its entry's own reader did, within
      the entry's lifetime. */
  method Serve(history: seq<Event>, id: ReaderId, a: Athlete, v: Variant, beats: seq<Beat>)
    returns (answer: Answer, reader: Reader)
    requires id !in Run(history).readers && |beats| >= 4 && Playable(beats, id)
    ensures answer.Computed? ==> forall row: nat :: row < reader.baseline ==> Contains(answer.payload, row)
    ensures answer.FromCache? ==>
      && reader.phase.Hit? && reader.phase.entry.payload == answer.payload
      && reader.phase.entry.storedAt <= reader.phase.at < reader.phase.entry.storedAt + SUMMARY_TTL
      && forall row: nat :: row < reader.phase.entry.baseline ==> Contains(answer.payload, row)
  {
    var cache := new Cache(Run(history));
    var handler := new Handler(cache);
    answer := handler.GetAthleteAnalytics(id, a, v, beats);
    RunFromJoins(START, history, handler.trace);
    reader := cache.readers[id];
    if answer.FromCache? {
      HitIsBounded(history + handler.trace, id);
    } else if answer.Computed? {
      MissIsCurrent(history + handler.trace, id);
    }
  }
}
