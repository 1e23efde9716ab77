/** When storing a rollup is safe: exactly which entries can later be served stale although the
    generation counter is never lost, only allowed to expire. */
module AnalyticsExposure {
  import opened Wrappers
  import opened AnalyticsCache
  import opened AnalyticsFreshness

  // --- the guard -----------------------------------------------------------

  /** The counter expires while an entry stored at this time is still alive. */
  predicate ExpiresWithin(s: State, a: Athlete, storedAt: int) {
    && a in s.counters && s.counters[a].expires.Some?
    && s.counters[a].expires.value < storedAt + SUMMARY_TTL
  }

  /** A reader that took this key's generation and has yet to look. */
  predicate Waits(s: State, id: ReaderId, k: Key) {
    IsLooking(s, id) && s.readers[id].answered && KeyOf(s.readers[id]) == k
  }

  /** An entry about to be filed can be reached by a reader that knows of more: the counter is
      still to reach its generation, or will start again within its lifetime, or stands at it
      with later bumps behind, or a waiting reader has seen later bumps. */
  ghost predicate Exposed(s: State, k: Key, p: Payload) {
    || Value(s, k.athlete) < k.generation
    || ExpiresWithin(s, k.athlete, s.now)
    || (Value(s, k.athlete) == k.generation && !AtLeast(p, At(s.bumped, k.athlete)))
    || exists id :: Waits(s, id, k) && !AtLeast(p, s.readers[id].bumped)
  }

  /** No reader from now on is served this payload under this key and finds it stale. */
  ghost predicate Shielded(s: State, k: Key, e: Entry) {
    && e.storedAt <= s.now
    && (Alive(e, s.now) ==>
          && Value(s, k.athlete) >= k.generation && !ExpiresWithin(s, k.athlete, e.storedAt)
          && (Value(s, k.athlete) == k.generation ==> AtLeast(e.payload, At(s.bumped, k.athlete)))
          && forall id :: Waits(s, id, k) ==> AtLeast(e.payload, s.readers[id].bumped))
  }

  lemma UnexposedIsShielded(s: State, id: ReaderId)
    requires Stores(s, id) && !Exposed(s, KeyOf(s.readers[id]), s.readers[id].phase.sections)
    ensures Shielded(Apply(s, Store(id, true)), KeyOf(s.readers[id]), EntryOf(s, id))
  {
    var t, k := Apply(s, Store(id, true)), KeyOf(s.readers[id]);
    forall other | Waits(t, other, k) ensures AtLeast(EntryOf(s, id).payload, t.readers[other].bumped) {
      assert Waits(s, other, k);
    }
  }

  // --- an unexposed entry stays harmless -----------------------------------

  lemma BumpKeepsShielded(s: State, a: Athlete, outcome: BumpOutcome, k: Key, e: Entry)
    requires Shielded(s, k, e)
    ensures Shielded(Apply(s, Bump(a, outcome)), k, e)
  {
    var t := Apply(s, Bump(a, outcome));
    forall id | Waits(t, id, k) && Alive(e, t.now) ensures AtLeast(e.payload, t.readers[id].bumped) {
      assert Waits(s, id, k);
    }
  }

  lemma TickKeepsShielded(s: State, span: nat, k: Key, e: Entry)
    requires Shielded(s, k, e)
    ensures Shielded(Ticked(s, span), k, e)
  {
    var t := Ticked(s, span);
    forall id | Waits(t, id, k) && Alive(e, t.now) ensures AtLeast(e.payload, t.readers[id].bumped) {
      assert Waits(s, id, k);
    }
  }

  lemma BeginKeepsShielded(s: State, id: ReaderId, a: Athlete, v: Variant, ok: bool, k: Key, e: Entry)
    requires Shielded(s, k, e)
    ensures Shielded(Apply(s, Begin(id, a, v, ok)), k, e)
  {
    var t := Apply(s, Begin(id, a, v, ok));
    forall other | Waits(t, other, k) && Alive(e, t.now) ensures AtLeast(e.payload, t.readers[other].bumped) {
      assert other in s.readers ==> Waits(s, other, k);
    }
  }

  /** Nothing changes for the key, and no reader comes to wait for it. */
  lemma SameKeepsShielded(s: State, t: State, k: Key, e: Entry)
    requires Shielded(s, k, e) && s.now == t.now && At(s.bumped, k.athlete) == At(t.bumped, k.athlete)
    requires k.athlete in s.counters <==> k.athlete in t.counters
    requires k.athlete in s.counters ==> s.counters[k.athlete] == t.counters[k.athlete]
    requires forall id :: Waits(t, id, k) ==> Waits(s, id, k) && s.readers[id] == t.readers[id]
    ensures Shielded(t, k, e)
  {}

  lemma OwnerKeepsShielded(s: State, e: Event, k: Key, entry: Entry)
    requires Shielded(s, k, entry) && (e.Look? || e.Query? || e.Fail? || e.Store?)
    ensures Shielded(Apply(s, e), k, entry)
  {
    var t := Apply(s, e);
    forall id | Waits(t, id, k) ensures Waits(s, id, k) && s.readers[id] == t.readers[id] {
      assert id != e.reader ==> s.readers[id] == t.readers[id];
    }
    SameKeepsShielded(s, t, k, entry);
  }

  lemma OthersKeepShielded(s: State, e: Event, k: Key, entry: Entry)
    requires Shielded(s, k, entry) && (e.Commit? || e.LoseEntry? || e.LoseCounter?) && e != LoseCounter(k.athlete)
    ensures Shielded(Apply(s, e), k, entry)
  {
    SameKeepsShielded(s, Apply(s, e), k, entry);
  }

  lemma StepKeepsShielded(s: State, e: Event, k: Key, entry: Entry)
    requires Shielded(s, k, entry) && e != LoseCounter(k.athlete)
    ensures Shielded(Apply(s, e), k, entry)
  {
    match e
    case Bump(a, outcome) => BumpKeepsShielded(s, a, outcome, k, entry);
    case Tick(span) => TickKeepsShielded(s, span, k, entry);
    case Begin(id, a, v, ok) => BeginKeepsShielded(s, id, a, v, ok, k, entry);
    case Commit(_) => OthersKeepShielded(s, e, k, entry);
    case LoseCounter(_) => OthersKeepShielded(s, e, k, entry);
    case LoseEntry(_) => OthersKeepShielded(s, e, k, entry);
    case _ => OwnerKeepsShielded(s, e, k, entry);
  }

  /** The reader is served this entry under this key, and finds it stale. */
  ghost predicate ServedStale(s: State, k: Key, e: Entry, id: ReaderId) {
    StaleHit(s, id) && KeyOf(s.readers[id]) == k && s.readers[id].phase.entry == e
  }

  /** The athlete's counter is not lost; it may expire. */
  predicate CounterKept(events: seq<Event>, a: Athlete) { LoseCounter(a) !in events }

  /** Being served for the first time takes a look at a live entry. */
  lemma FirstServedByLook(s: State, e: Event, k: Key, entry: Entry, id: ReaderId)
    requires Inv(s) && (k in s.entries && s.entries[k] == entry ==> Shielded(s, k, entry))
    requires ServedStale(Apply(s, e), k, entry, id)
    ensures IsHit(s, id) && s.readers[id] == Apply(s, e).readers[id]
  {
    if !IsHit(s, id) {
      assert e.Look? && e.reader == id && Waits(s, id, k);
      assert k in s.entries && s.entries[k] == entry && Alive(entry, s.now);
      AtLeastContains(entry.payload, s.readers[id].bumped);
    }
  }

  lemma {:induction false} ShieldedForEver(s: State, events: seq<Event>, k: Key, e: Entry)
    requires Inv(s) && Shielded(s, k, e) && CounterKept(events, k.athlete)
    ensures Shielded(RunFrom(s, events), k, e)
    ensures forall id :: ServedStale(RunFrom(s, events), k, e, id) ==> IsHit(s, id)
  {
    if events != [] {
      var before, last := events[..|events| - 1], events[|events| - 1];
      ShieldedForEver(s, before, k, e);
      RunFromKeepsInv(s, before);
      assert last in events;
      StepKeepsShielded(RunFrom(s, before), last, k, e);
      forall id | ServedStale(RunFrom(s, events), k, e, id) ensures IsHit(s, id) {
        FirstServedByLook(RunFrom(s, before), last, k, e, id);
        assert ServedStale(RunFrom(s, before), k, e, id);
      }
    }
  }

  /** Nothing fails and nothing is lost but by expiry. */
  predicate Faultless(e: Event) {
    match e
    case Commit(_) => true
    case Bump(_, outcome) => outcome.Full?
    case Tick(_) => true
    case LoseCounter(_) => false
    case LoseEntry(_) => false
    case Begin(_, _, _, ok) => ok
    case Look(_, ok) => ok
    case Query(_) => true
    case Fail(_) => false
    case Store(_, ok) => ok
  }

  predicate AllFaultless(events: seq<Event>) { forall i :: 0 <= i < |events| ==> Faultless(events[i]) }

  // --- an exposed entry can be served stale --------------------------------

  function Bumps(a: Athlete, n: nat): seq<Event> { seq(n, _ => Bump(a, Full)) }

  lemma {:induction false} BumpsReach(s: State, a: Athlete, n: nat)
    ensures
      var t := RunFrom(s, Bumps(a, n));
      && Value(t, a) == Value(s, a) + n && t.entries == s.entries && t.readers == s.readers
      && (n > 0 ==> At(t.bumped, a) == At(s.committed, a)) && t.committed == s.committed
  {
    if n > 0 {
      assert Bumps(a, n)[..n - 1] == Bumps(a, n - 1);
      BumpsReach(s, a, n - 1);
    }
  }

  /** A fresh request for a key. */
  function Request(k: Key, id: ReaderId): seq<Event> { [Begin(id, k.athlete, k.variant, true), Look(id, true)] }

  /** A reader that finds an entry's generation current is served the entry. */
  lemma RequestIsServed(s: State, k: Key, e: Entry, id: ReaderId)
    requires k in s.entries && s.entries[k] == e && Value(s, k.athlete) == k.generation && id !in s.readers
    requires !AtLeast(e.payload, At(s.bumped, k.athlete))
    ensures ServedStale(RunFrom(s, Request(k, id)), k, e, id)
  {
    var request := Request(k, id);
    assert request == [request[0]] + [request[1]];
    RunFromJoins(s, [request[0]], [request[1]]);
    RunOne(s, request[0]);
    RunOne(Apply(s, request[0]), request[1]);
    AtLeastContains(e.payload, At(s.bumped, k.athlete));
  }

  /** Some run in which the counter is kept has a reader served the entry stale that had been
      served nothing before. */
  ghost predicate Leads(s: State, more: seq<Event>, k: Key, e: Entry, id: ReaderId) {
    CounterKept(more, k.athlete) && !IsHit(s, id) && ServedStale(RunFrom(s, more), k, e, id)
  }

  /** The counter has yet to reach the generation: one more pitch, the bumps that follow it and
      a fresh request. */
  lemma BelowLeads(s: State, k: Key, e: Entry, id: ReaderId, n: nat) returns (more: seq<Event>)
    requires EntryOk(s, k, e) && k in s.entries && s.entries[k] == e && id !in s.readers
    requires Value(s, k.athlete) + n == k.generation && n > 0
    ensures Leads(s, more, k, e, id) && AllFaultless(more)
  {
    var a := k.athlete;
    more := [Commit(a)] + Bumps(a, n) + Request(k, id);
    var commit := [Commit(a)];
    RunOne(s, commit[0]);
    RunFromJoins(s, commit, Bumps(a, n));
    RunFromJoins(s, commit + Bumps(a, n), Request(k, id));
    BumpsReach(Apply(s, commit[0]), a, n);
    assert e.payload[0] <= At(s.committed, a);
    RequestIsServed(RunFrom(s, commit + Bumps(a, n)), k, e, id);
    BumpsAreFaultless(k, n, id);
  }

  lemma BumpsAreFaultless(k: Key, n: nat, id: ReaderId)
    ensures AllFaultless([Commit(k.athlete)] + Bumps(k.athlete, n) + Request(k, id))
    ensures CounterKept([Commit(k.athlete)] + Bumps(k.athlete, n) + Request(k, id), k.athlete)
  {
  }

  /** The counter stands at the generation with later bumps behind it: a fresh request. */
  lemma LevelLeads(s: State, k: Key, e: Entry, id: ReaderId)
    requires k in s.entries && s.entries[k] == e && id !in s.readers
    requires Value(s, k.athlete) == k.generation && !AtLeast(e.payload, At(s.bumped, k.athlete))
    ensures Leads(s, Request(k, id), k, e, id)
  {
    RequestIsServed(s, k, e, id);
  }

  /** A waiting reader looks. */
  lemma WaitingLeads(s: State, k: Key, e: Entry, id: ReaderId)
    requires k in s.entries && s.entries[k] == e && Waits(s, id, k) && !AtLeast(e.payload, s.readers[id].bumped)
    ensures Leads(s, [Look(id, true)], k, e, id)
  {
    RunOne(s, Look(id, true));
    AtLeastContains(e.payload, s.readers[id].bumped);
  }

  /** Time until the counter expires. */
  function Wait(s: State, a: Athlete): nat
    requires a in s.counters && s.counters[a].expires.Some?
  {
    var at := s.counters[a].expires.value;
    if at > s.now then at - s.now else 0
  }

  lemma ExpiryEmpties(s: State, k: Key, e: Entry) returns (wait: seq<Event>)
    requires Inv(s) && k in s.entries && s.entries[k] == e && e.storedAt == s.now && ExpiresWithin(s, k.athlete, s.now)
    ensures
      var t := RunFrom(s, wait);
      && CounterKept(wait, k.athlete) && Value(t, k.athlete) == 0 && k in t.entries && t.entries[k] == e
      && EntryOk(t, k, e) && t.readers == s.readers && t.bumped == s.bumped && AllFaultless(wait)
  {
    wait := [Tick(Wait(s, k.athlete))];
    RunOne(s, wait[0]);
    RunFromKeepsInv(s, wait);
  }

  lemma LeadsAfter(s: State, first: seq<Event>, more: seq<Event>, k: Key, e: Entry, id: ReaderId)
    requires CounterKept(first, k.athlete) && !IsHit(s, id) && Leads(RunFrom(s, first), more, k, e, id)
    ensures Leads(s, first + more, k, e, id)
  {
    RunFromJoins(s, first, more);
  }

  /** A generation above zero whose counter will expire needs no failure: the expiry, one pitch
      with its bumps and a request. */
  lemma ExpiringAboveZeroLeads(s: State, k: Key, e: Entry, id: ReaderId) returns (more: seq<Event>)
    requires Inv(s) && k in s.entries && s.entries[k] == e && e.storedAt == s.now && id !in s.readers
    requires ExpiresWithin(s, k.athlete, s.now) && k.generation > 0
    ensures Leads(s, more, k, e, id) && AllFaultless(more)
  {
    var wait := ExpiryEmpties(s, k, e);
    var rest := BelowLeads(RunFrom(s, wait), k, e, id, k.generation);
    LeadsAfter(s, wait, rest, k, e, id);
    more := wait + rest;
  }

  /** The athlete's next pitch, and its bump, the renewal of which fails. */
  lemma HalfBumped(s: State, k: Key, e: Entry) returns (half: seq<Event>)
    requires EntryOk(s, k, e) && k in s.entries && s.entries[k] == e && ExpiresWithin(s, k.athlete, s.now)
    ensures
      var t := RunFrom(s, half);
      && CounterKept(half, k.athlete) && t.entries == s.entries && t.readers == s.readers && t.now == s.now
      && ExpiresWithin(t, k.athlete, t.now) && !AtLeast(e.payload, At(t.bumped, k.athlete))
  {
    var commit, bump := Commit(k.athlete), Bump(k.athlete, IncrementOnly);
    half := [commit] + [bump];
    RunFromJoins(s, [commit], [bump]);
    RunOne(s, commit);
    RunOne(Apply(s, commit), bump);
    assert e.payload[0] <= At(s.committed, k.athlete);
  }

  /** For generation zero one such bump just before is enough. */
  lemma ExpiringZeroLeads(s: State, k: Key, e: Entry, id: ReaderId)
    requires Inv(s) && k in s.entries && s.entries[k] == e && e.storedAt == s.now && id !in s.readers
    requires ExpiresWithin(s, k.athlete, s.now) && k.generation == 0
    ensures exists more :: Leads(s, more, k, e, id)
  {
    assert EntryOk(s, k, e);
    var first := HalfBumped(s, k, e);
    var t := RunFrom(s, first);
    RunFromKeepsInv(s, first);
    var wait := ExpiryEmpties(t, k, e);
    LevelLeads(RunFrom(t, wait), k, e, id);
    LeadsAfter(t, wait, Request(k, id), k, e, id);
    LeadsAfter(s, first, wait + Request(k, id), k, e, id);
  }

  ghost function Unused(m: map<ReaderId, Reader>): (id: ReaderId)
    ensures id !in m
  {
    Above(m.Keys)
  }

  ghost function Above(ids: set<nat>): (n: nat)
    ensures forall id :: id in ids ==> id < n
  {
    if ids == {} then 0
    else
      var id :| id in ids;
      var rest := Above(ids - {id});
      assert forall i :: i in ids ==> i == id || i in ids - {id};
      if id < rest then rest else id + 1
  }

  // --- the theorems --------------------------------------------------------

  lemma ExposedLeads(s: State, k: Key, e: Entry)
    requires Inv(s) && k in s.entries && s.entries[k] == e && e.storedAt == s.now && Exposed(s, k, e.payload)
    ensures exists more, id :: Leads(s, more, k, e, id)
  {
    var a, id := k.athlete, Unused(s.readers);
    assert EntryOk(s, k, e);
    if Value(s, a) < k.generation {
      var more := BelowLeads(s, k, e, id, k.generation - Value(s, a));
    } else if ExpiresWithin(s, a, s.now) {
      if k.generation > 0 {
        var more := ExpiringAboveZeroLeads(s, k, e, id);
      } else {
        ExpiringZeroLeads(s, k, e, id);
      }
    } else if Value(s, a) == k.generation && !AtLeast(e.payload, At(s.bumped, a)) {
      LevelLeads(s, k, e, id);
    } else {
      var other :| Waits(s, other, k) && !AtLeast(e.payload, s.readers[other].bumped);
      WaitingLeads(s, k, e, other);
    }
  }

  /** The guard of a store is exact: from any reachable state, the entry it files can be served
      stale by some continuation in which the counter is not lost if and only if the entry is
      exposed when it is filed. */
  lemma StoreExactly(s: State, id: ReaderId)
    requires Inv(s) && Stores(s, id)
    ensures
      var k, e := KeyOf(s.readers[id]), EntryOf(s, id);
      Exposed(s, k, e.payload) <==> exists more, other :: Leads(Apply(s, Store(id, true)), more, k, e, other)
  {
    var k, e, t := KeyOf(s.readers[id]), EntryOf(s, id), Apply(s, Store(id, true));
    StoreKeepsInv(s, id, true);
    if Exposed(s, k, e.payload) {
      StoreKeepsExposed(s, id);
      ExposedLeads(t, k, e);
    } else {
      UnexposedIsShielded(s, id);
      forall more, other ensures !Leads(t, more, k, e, other) {
        if CounterKept(more, k.athlete) {
          ShieldedForEver(t, more, k, e);
        }
      }
    }
  }

  lemma StoreKeepsExposed(s: State, id: ReaderId)
    requires Stores(s, id) && Exposed(s, KeyOf(s.readers[id]), s.readers[id].phase.sections)
    ensures Exposed(Apply(s, Store(id, true)), KeyOf(s.readers[id]), s.readers[id].phase.sections)
  {
    var t, k, p := Apply(s, Store(id, true)), KeyOf(s.readers[id]), s.readers[id].phase.sections;
    if other :| Waits(s, other, k) && !AtLeast(p, s.readers[other].bumped) {
      assert Waits(t, other, k);
    }
  }

  /** What a storing reader can check: its generation read was answered, the counter has not
      gone since, and does not expire within the entry's lifetime. */
  predicate Covered(s: State, id: ReaderId)
    requires Stores(s, id)
  {
    var r := s.readers[id];
    r.answered && r.epoch == At(s.epochs, r.athlete) && !ExpiresWithin(s, r.athlete, s.now)
  }

  /** That is enough; and of a reader whose counter has not gone, it is exact. */
  lemma CoveredExactly(s: State, id: ReaderId)
    requires Inv(s) && Stores(s, id)
    ensures
      var r := s.readers[id];
      r.answered && r.epoch == At(s.epochs, r.athlete) ==>
        (Exposed(s, KeyOf(r), r.phase.sections) <==> !Covered(s, id))
  {
    var r := s.readers[id];
    if Covered(s, id) {
      var a, g, p := r.athlete, r.generation, r.phase.sections;
      assert ReaderOk(s, r) && AthleteOk(s, a);
      if g > 0 {
        assert MarkOk(s, (a, r.epoch, g));
      }
      forall other | Waits(s, other, KeyOf(r)) ensures AtLeast(p, s.readers[other].bumped) {
        assert ReaderOk(s, s.readers[other]);
        BumpedWithinBaseline(s, s.readers[other], r.epoch, r.baseline);
      }
      if Value(s, a) == g {
        LevelCovers(s, r);
      }
    }
  }

  /** A counter still at the reader's generation has seen no bump since. */
  lemma LevelCovers(s: State, r: Reader)
    requires ReadOk(s, r) && AthleteOk(s, r.athlete) && r.epoch == At(s.epochs, r.athlete)
    requires Value(s, r.athlete) == r.generation
    ensures At(s.bumped, r.athlete) <= r.baseline
  {
    var a := r.athlete;
    if a !in s.counters && At(s.bumped, a) != 0 {
      var m :| MarkBefore(s, m, a, r.epoch) && s.marks[m] == At(s.bumped, a);
    }
  }

  // --- over whole runs -----------------------------------------------------

  /** The store takes effect and files nothing that is exposed. */
  ghost predicate Guarded(s: State, e: Event) {
    e.Store? && e.ok && Stores(s, e.reader) ==>
      !Exposed(s, KeyOf(s.readers[e.reader]), s.readers[e.reader].phase.sections)
  }

  ghost predicate AllShielded(s: State) {
    && (forall k :: k in s.entries ==> Shielded(s, k, s.entries[k]))
    && forall id :: !StaleHit(s, id)
  }

  lemma GuardedStoreKeepsShielded(s: State, e: Event, k: Key)
    requires e.Store? && Guarded(s, e) && k in Apply(s, e).entries
    requires k in s.entries ==> Shielded(s, k, s.entries[k])
    ensures Shielded(Apply(s, e), k, Apply(s, e).entries[k])
  {
    if k in s.entries && s.entries[k] == Apply(s, e).entries[k] {
      StepKeepsShielded(s, e, k, s.entries[k]);
    } else {
      UnexposedIsShielded(s, e.reader);
    }
  }

  lemma GuardedStepKeepsShielded(s: State, e: Event)
    requires AllShielded(s) && Guarded(s, e) && !e.LoseCounter?
    ensures forall k :: k in Apply(s, e).entries ==> Shielded(Apply(s, e), k, Apply(s, e).entries[k])
  {
    var t := Apply(s, e);
    forall k | k in t.entries ensures Shielded(t, k, t.entries[k]) {
      if e.Store? {
        GuardedStoreKeepsShielded(s, e, k);
      } else {
        assert k in s.entries && s.entries[k] == t.entries[k];
        StepKeepsShielded(s, e, k, s.entries[k]);
      }
    }
  }

  lemma HitsStay(s: State, e: Event, id: ReaderId)
    requires IsHit(s, id)
    ensures id in Apply(s, e).readers && Apply(s, e).readers[id] == s.readers[id]
  {}

  lemma GuardedStepKeepsFresh(s: State, e: Event, id: ReaderId)
    requires Inv(s) && AllShielded(s)
    ensures !StaleHit(Apply(s, e), id)
  {
    var t := Apply(s, e);
    assert !StaleHit(s, id);
    if IsHit(s, id) {
      HitsStay(s, e, id);
    } else if StaleHit(t, id) {
      FirstServedByLook(s, e, KeyOf(t.readers[id]), t.readers[id].phase.entry, id);
    }
  }

  /** A run in which the counters are only ever lost by expiry, and in which no store files an
      exposed entry, serves nobody a stale hit. */
  lemma {:induction false} GuardedRunsAreFresh(events: seq<Event>)
    requires forall i :: 0 <= i < |events| ==> !events[i].LoseCounter? && Guarded(Run(events[..i]), events[i])
    ensures AllShielded(Run(events))
  {
    if events != [] {
      var before, last := events[..|events| - 1], events[|events| - 1];
      forall i | 0 <= i < |before| ensures !before[i].LoseCounter? && Guarded(Run(before[..i]), before[i]) {
        assert before[..i] == events[..i] && before[i] == events[i];
      }
      GuardedRunsAreFresh(before);
      RunKeepsInv(before);
      assert Guarded(Run(events[..|events| - 1]), events[|events| - 1]);
      GuardedStepKeepsShielded(Run(before), last);
      forall id ensures !StaleHit(Run(events), id) {
        GuardedStepKeepsFresh(Run(before), last, id);
      }
    }
  }

  // --- such stores happen --------------------------------------------------

  /** One pitch with its bump, and nearly a day without pitches. */
  function QuietDay(): seq<Event> { [Commit(0), Bump(0, Full)] + [Tick(86_399_999)] }

  /** Then a request, up to its store. */
  function LateReader(): seq<Event> { QuietDay() + [Begin(0, 0, "", true)] + [Look(0, true)] + [Query(0)] }

  lemma RunNext(events: seq<Event>, e: Event)
    ensures Run(events + [e]) == Apply(Run(events), e)
  {
    assert (events + [e])[..|events|] == events;
  }

  lemma QuietDayPasses()
    ensures
      var s := Run(QuietDay());
      && s.now == GENERATION_TTL - 1 && s.committed == map[0 := 1] && s.readers == map[] && s.entries == map[]
      && s.counters == map[0 := Counter(1, Some(GENERATION_TTL))]
  {
    RunNext([], Commit(0));
    RunNext([Commit(0)], Bump(0, Full));
    assert [] + [Commit(0)] == [Commit(0)] && [Commit(0)] + [Bump(0, Full)] == [Commit(0), Bump(0, Full)];
    var s := Run([Commit(0), Bump(0, Full)]);
    assert s.counters == map[0 := Counter(1, Some(GENERATION_TTL))] && s.now == 0;
    RunNext([Commit(0), Bump(0, Full)], Tick(GENERATION_TTL - 1));
  }

  lemma LateReaderBegins()
    ensures
      var s, day := Run(QuietDay() + [Begin(0, 0, "", true)]), Run(QuietDay());
      s == day.(readers := map[0 := Reader(0, "", 1, true, At(day.epochs, 0), 1, At(day.bumped, 0), Looking)])
  {
    QuietDayPasses();
    RunNext(QuietDay(), Begin(0, 0, "", true));
  }

  lemma LateReaderComputes()
    ensures
      var s, day := Run(LateReader()), Run(QuietDay());
      s == day.(readers :=
        map[0 := Reader(0, "", 1, true, At(day.epochs, 0), 1, At(day.bumped, 0), Computing([1]))])
  {
    var begun := QuietDay() + [Begin(0, 0, "", true)];
    QuietDayPasses();
    LateReaderBegins();
    RunNext(begun, Look(0, true));
    assert Run(begun + [Look(0, true)]).readers[0].phase == Computing([]);
    RunNext(begun + [Look(0, true)], Query(0));
    assert [] + [1] == [1];
  }

  /** Nothing fails in that run, and yet its reader's store is exposed: the counter is about to
      expire. */
  lemma LateStoreIsExposed()
    ensures AllFaultless(LateReader())
    ensures
      var s := Run(LateReader());
      Stores(s, 0) && ExpiresWithin(s, 0, s.now) && KeyOf(s.readers[0]) == Key(0, 1, "") && s.readers.Keys == {0}
      && Exposed(s, KeyOf(s.readers[0]), s.readers[0].phase.sections)
  {
    QuietDayPasses();
    LateReaderComputes();
  }

  /** And it is served stale: a run without any failure or loss ends in a stale hit. */
  lemma LateHitIsStale() returns (events: seq<Event>, id: ReaderId)
    ensures AllFaultless(events) && StaleHit(Run(events), id)
  {
    LateStoreIsExposed();
    var stored := LateReader() + [Store(0, true)];
    var s, t := Run(LateReader()), Run(stored);
    RunNext(LateReader(), Store(0, true));
    RunKeepsInv(stored);
    id := 1;
    var more := ExpiringAboveZeroLeads(t, Key(0, 1, ""), EntryOf(s, 0), id);
    RunFromJoins(START, stored, more);
    events := stored + more;
  }
}
