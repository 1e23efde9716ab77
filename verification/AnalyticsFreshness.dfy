/** What a cached answer is worth, in every run. */
module AnalyticsFreshness {
  import opened AnalyticsCache

  // --- the invariant -------------------------------------------------------

  predicate AtLeast(p: Payload, n: nat) { forall i :: 0 <= i < |p| ==> n <= p[i] }

  predicate AtMost(p: Payload, n: nat) { forall i :: 0 <= i < |p| ==> p[i] <= n }

  type Mark = (Athlete, nat, nat)

  /** The generation g of epoch e was reached, with no more than n rows committed. */
  predicate Reached(s: State, a: Athlete, e: nat, g: nat, n: nat) {
    g > 0 ==> (a, e, g) in s.marks && s.marks[(a, e, g)] <= n
  }

  predicate MarkBefore(s: State, m: Mark, a: Athlete, e: nat) { m in s.marks && m.0 == a && m.1 < e }

  /** All bumps of epochs before e came with no more than n rows committed. */
  ghost predicate Older(s: State, a: Athlete, e: nat, n: nat) {
    forall m :: MarkBefore(s, m, a, e) ==> s.marks[m] <= n
  }

  /** Some bump of an epoch before e came with exactly n rows committed, or n is zero. */
  ghost predicate FromOlder(s: State, a: Athlete, e: nat, n: nat) {
    n == 0 || exists m :: MarkBefore(s, m, a, e) && s.marks[m] == n
  }

  predicate MarkOk(s: State, m: Mark)
    requires m in s.marks
  {
    && s.marks[m] <= At(s.bumped, m.0)
    && (m.1 < At(s.epochs, m.0) || (m.1 == At(s.epochs, m.0) && m.0 in s.counters && m.2 <= s.counters[m.0].value))
  }

  /** The last bump is the one that gave the counter its value, or one of an epoch that is over. */
  ghost predicate AthleteOk(s: State, a: Athlete) {
    && At(s.bumped, a) <= At(s.committed, a)
    && if a in s.counters then
         var m := (a, At(s.epochs, a), s.counters[a].value);
         s.counters[a].value > 0 && m in s.marks && s.marks[m] == At(s.bumped, a)
       else FromOlder(s, a, At(s.epochs, a), At(s.bumped, a))
  }

  ghost predicate EntryOk(s: State, k: Key, e: Entry) {
    && e.payload != [] && AtLeast(e.payload, e.baseline) && AtMost(e.payload, At(s.committed, k.athlete))
    && e.epoch <= At(s.epochs, k.athlete) && Reached(s, k.athlete, e.epoch, k.generation, e.baseline)
    && Older(s, k.athlete, e.epoch, e.baseline) && e.storedAt <= s.now
  }

  /** What a reader's generation tells about the bumps before it read it. */
  ghost predicate ReadOk(s: State, r: Reader) {
    && r.bumped <= r.baseline <= At(s.committed, r.athlete) && r.epoch <= At(s.epochs, r.athlete)
    && Reached(s, r.athlete, r.epoch, r.generation, r.baseline) && Older(s, r.athlete, r.epoch, r.baseline)
    && (r.answered ==>
          if r.generation > 0 then s.marks[(r.athlete, r.epoch, r.generation)] == r.bumped
          else FromOlder(s, r.athlete, r.epoch, r.bumped))
  }

  ghost predicate ReaderOk(s: State, r: Reader) {
    ReadOk(s, r)
    && match r.phase
       case Looking => true
       case Computing(p) => AtLeast(p, r.baseline) && AtMost(p, At(s.committed, r.athlete))
       case Miss(p) => p != [] && AtLeast(p, r.baseline)
       case Hit(e, at) => EntryOk(s, KeyOf(r), e) && e.storedAt <= at && at - e.storedAt < SUMMARY_TTL
       case QueryFailed => true
  }

  ghost predicate Inv(s: State) {
    && (forall m :: m in s.marks ==> MarkOk(s, m))
    && (forall a :: AthleteOk(s, a))
    && (forall k :: k in s.entries ==> EntryOk(s, k, s.entries[k]) && Alive(s.entries[k], s.now))
    && (forall id :: id in s.readers ==> ReaderOk(s, s.readers[id]))
  }

  /** Later states know at least as much: no row, mark or epoch goes away, and no mark comes to
      an epoch that is over. */
  ghost predicate Grows(s: State, t: State) {
    && (forall a :: At(s.committed, a) <= At(t.committed, a) && At(s.epochs, a) <= At(t.epochs, a))
    && (forall m :: m in s.marks ==> m in t.marks && t.marks[m] == s.marks[m])
    && (forall m :: m in t.marks && m !in s.marks ==> m.1 >= At(s.epochs, m.0))
    && s.now <= t.now
  }

  lemma OlderGrows(s: State, t: State, a: Athlete, e: nat, n: nat)
    requires Grows(s, t) && e <= At(s.epochs, a)
    ensures Older(s, a, e, n) ==> Older(t, a, e, n)
    ensures FromOlder(s, a, e, n) ==> FromOlder(t, a, e, n)
  {
    if Older(s, a, e, n) {
      forall m | MarkBefore(t, m, a, e) ensures t.marks[m] <= n {
        assert MarkBefore(s, m, a, e);
      }
    }
    if FromOlder(s, a, e, n) && n != 0 {
      var m :| MarkBefore(s, m, a, e) && s.marks[m] == n;
      assert MarkBefore(t, m, a, e);
    }
  }

  lemma EntryGrows(s: State, t: State, k: Key, e: Entry)
    requires Grows(s, t) && EntryOk(s, k, e)
    ensures EntryOk(t, k, e)
  {
    OlderGrows(s, t, k.athlete, e.epoch, e.baseline);
    var c, d := At(s.committed, k.athlete), At(t.committed, k.athlete);
    assert c <= d && forall i :: 0 <= i < |e.payload| ==> e.payload[i] <= c;
  }

  lemma ReadGrows(s: State, t: State, r: Reader)
    requires Grows(s, t) && ReadOk(s, r)
    ensures ReadOk(t, r)
  {
    OlderGrows(s, t, r.athlete, r.epoch, r.baseline);
    OlderGrows(s, t, r.athlete, r.epoch, r.bumped);
    assert At(s.committed, r.athlete) <= At(t.committed, r.athlete);
  }

  lemma ReaderGrows(s: State, t: State, r: Reader)
    requires Grows(s, t) && ReaderOk(s, r)
    ensures ReaderOk(t, r)
  {
    ReadGrows(s, t, r);
    if r.phase.Hit? {
      EntryGrows(s, t, KeyOf(r), r.phase.entry);
    }
    assert At(s.committed, r.athlete) <= At(t.committed, r.athlete);
  }

  /** It is enough to check what a step changed. */
  lemma StepInv(s: State, t: State)
    requires Inv(s) && Grows(s, t)
    requires forall m :: m in t.marks ==> MarkOk(t, m)
    requires forall a :: AthleteOk(t, a)
    requires forall k :: k in t.entries ==>
      Alive(t.entries[k], t.now) && (EntryOk(t, k, t.entries[k]) || (k in s.entries && s.entries[k] == t.entries[k]))
    requires forall id :: id in t.readers ==>
      ReaderOk(t, t.readers[id]) || (id in s.readers && s.readers[id] == t.readers[id])
    ensures Inv(t)
  {
    forall k | k in t.entries ensures EntryOk(t, k, t.entries[k]) {
      if k in s.entries && s.entries[k] == t.entries[k] {
        EntryGrows(s, t, k, s.entries[k]);
      }
    }
    forall id | id in t.readers ensures ReaderOk(t, t.readers[id]) {
      if id in s.readers && s.readers[id] == t.readers[id] {
        ReaderGrows(s, t, s.readers[id]);
      }
    }
  }

  lemma CommitKeepsInv(s: State, a: Athlete)
    requires Inv(s)
    ensures Inv(Apply(s, Commit(a)))
  {
    var t := Apply(s, Commit(a));
    forall m | m in t.marks ensures MarkOk(t, m) { assert MarkOk(s, m); }
    forall b ensures AthleteOk(t, b) {
      assert AthleteOk(s, b);
      OlderGrows(s, t, b, At(s.epochs, b), At(s.bumped, b));
    }
    StepInv(s, t);
  }

  lemma BumpGrows(s: State, a: Athlete, outcome: BumpOutcome)
    requires Inv(s) && !outcome.NotDone?
    ensures Grows(s, Apply(s, Bump(a, outcome)))
  {
    var mark := (a, At(s.epochs, a), Apply(s, Bump(a, outcome)).counters[a].value);
    assert AthleteOk(s, a) && (mark in s.marks ==> MarkOk(s, mark));
  }

  lemma BumpKeepsAthletes(s: State, a: Athlete, outcome: BumpOutcome)
    requires Inv(s) && !outcome.NotDone?
    ensures
      var t := Apply(s, Bump(a, outcome));
      Grows(s, t) && forall b :: AthleteOk(t, b)
  {
    var t := Apply(s, Bump(a, outcome));
    BumpGrows(s, a, outcome);
    forall b ensures AthleteOk(t, b) {
      assert AthleteOk(s, b);
      if b != a {
        OlderGrows(s, t, b, At(s.epochs, b), At(s.bumped, b));
      }
    }
  }

  lemma BumpKeepsInv(s: State, a: Athlete, outcome: BumpOutcome)
    requires Inv(s)
    ensures Inv(Apply(s, Bump(a, outcome)))
  {
    if !outcome.NotDone? {
      var t := Apply(s, Bump(a, outcome));
      BumpKeepsAthletes(s, a, outcome);
      assert AthleteOk(s, a);
      forall m | m in t.marks ensures MarkOk(t, m) {
        assert m in s.marks ==> MarkOk(s, m);
      }
      StepInv(s, t);
    }
  }

  lemma LossKeepsInv(s: State, t: State)
    requires Inv(s) && Grows(s, t) && t.marks == s.marks && t.committed == s.committed && t.readers == s.readers
    requires t.bumped == s.bumped
    requires forall a :: a in t.counters ==>
      a in s.counters && t.counters[a] == s.counters[a] && At(t.epochs, a) == At(s.epochs, a)
    requires forall a :: a in s.counters && a !in t.counters ==> At(t.epochs, a) > At(s.epochs, a)
    requires forall k :: k in t.entries ==>
      k in s.entries && t.entries[k] == s.entries[k] && Alive(t.entries[k], t.now)
    ensures Inv(t)
  {
    forall m | m in t.marks ensures MarkOk(t, m) {
      assert MarkOk(s, m) && At(s.epochs, m.0) <= At(t.epochs, m.0);
    }
    forall a ensures AthleteOk(t, a) { LossKeepsAthlete(s, t, a); }
    StepInv(s, t);
  }

  lemma LossKeepsAthlete(s: State, t: State, a: Athlete)
    requires AthleteOk(s, a) && At(s.epochs, a) <= At(t.epochs, a)
    requires t.marks == s.marks && t.committed == s.committed && t.bumped == s.bumped
    requires a in t.counters ==> a in s.counters && t.counters[a] == s.counters[a] && At(t.epochs, a) == At(s.epochs, a)
    requires a in s.counters && a !in t.counters ==> At(t.epochs, a) > At(s.epochs, a)
    ensures AthleteOk(t, a)
  {
    if a !in t.counters {
      if a in s.counters {
        assert MarkBefore(t, (a, At(s.epochs, a), s.counters[a].value), a, At(t.epochs, a));
      } else if At(s.bumped, a) != 0 {
        var m :| MarkBefore(s, m, a, At(s.epochs, a)) && s.marks[m] == At(s.bumped, a);
        assert MarkBefore(t, m, a, At(t.epochs, a));
      }
    }
  }

  lemma TickKeepsInv(s: State, span: nat)
    requires Inv(s)
    ensures Inv(Ticked(s, span))
  {
    var t := Ticked(s, span);
    assert forall a :: At(t.epochs, a) == EpochAt(s, a, t.now);
    LossKeepsInv(s, t);
  }

  /** Readers move on. */
  lemma ReaderKeepsInv(s: State, id: ReaderId, r: Reader)
    requires Inv(s) && ReaderOk(s, r)
    ensures Inv(s.(readers := s.readers[id := r]))
  {
    var t := s.(readers := s.readers[id := r]);
    forall m | m in t.marks ensures MarkOk(t, m) { assert MarkOk(s, m); }
    forall a ensures AthleteOk(t, a) {
      assert AthleteOk(s, a);
      OlderGrows(s, t, a, At(s.epochs, a), At(s.bumped, a));
    }
    ReaderGrows(s, t, r);
    StepInv(s, t);
  }

  lemma BeginKeepsInv(s: State, id: ReaderId, a: Athlete, v: Variant, ok: bool)
    requires Inv(s)
    ensures Inv(Apply(s, Begin(id, a, v, ok)))
  {
    if id !in s.readers {
      assert AthleteOk(s, a);
      var r := Started(s, a, v, ok);
      forall m | MarkBefore(s, m, a, r.epoch) ensures s.marks[m] <= r.baseline {
        assert MarkOk(s, m);
      }
      ReaderKeepsInv(s, id, r);
    }
  }

  lemma LookKeepsInv(s: State, id: ReaderId, ok: bool)
    requires Inv(s)
    ensures Inv(Apply(s, Look(id, ok)))
  {
    if IsLooking(s, id) {
      LookedIsOk(s, s.readers[id], ok);
      ReaderKeepsInv(s, id, Looked(s, s.readers[id], ok));
    }
  }

  lemma LookedIsOk(s: State, r: Reader, ok: bool)
    requires Inv(s) && ReaderOk(s, r)
    ensures ReaderOk(s, Looked(s, r, ok))
  {
    assert ReadOk(s, Looked(s, r, ok));
    var k := KeyOf(r);
    assert k in s.entries ==> EntryOk(s, k, s.entries[k]) && Alive(s.entries[k], s.now);
  }

  lemma QueryKeepsInv(s: State, id: ReaderId)
    requires Inv(s)
    ensures Inv(Apply(s, Query(id))) && Inv(Apply(s, Fail(id)))
  {
    if IsComputing(s, id) {
      var r := s.readers[id];
      assert ReaderOk(s, r);
      ReaderKeepsInv(s, id, r.(phase := Computing(r.phase.sections + [At(s.committed, r.athlete)])));
      ReaderKeepsInv(s, id, r.(phase := QueryFailed));
    }
  }

  lemma EntryKeepsInv(s: State, k: Key, e: Entry)
    requires Inv(s) && EntryOk(s, k, e) && e.storedAt == s.now
    ensures Inv(s.(entries := s.entries[k := e]))
  {
    var t := s.(entries := s.entries[k := e]);
    forall m | m in t.marks ensures MarkOk(t, m) { assert MarkOk(s, m); }
    forall a ensures AthleteOk(t, a) {
      assert AthleteOk(s, a);
      OlderGrows(s, t, a, At(s.epochs, a), At(s.bumped, a));
    }
    EntryGrows(s, t, k, e);
    StepInv(s, t);
  }

  lemma StoreKeepsInv(s: State, id: ReaderId, ok: bool)
    requires Inv(s)
    ensures Inv(Apply(s, Store(id, ok)))
  {
    if Stores(s, id) {
      var r, e := s.readers[id], EntryOf(s, id);
      assert ReaderOk(s, r);
      var t := s.(readers := s.readers[id := r.(phase := Miss(r.phase.sections))]);
      ReaderKeepsInv(s, id, r.(phase := Miss(r.phase.sections)));
      EntryGrows(s, t, KeyOf(r), e);
      EntryKeepsInv(t, KeyOf(r), e);
    }
  }

  lemma ApplyKeepsInv(s: State, e: Event)
    requires Inv(s)
    ensures Inv(Apply(s, e))
  {
    match e
    case Commit(a) => CommitKeepsInv(s, a);
    case Bump(a, outcome) => BumpKeepsInv(s, a, outcome);
    case Tick(span) => TickKeepsInv(s, span);
    case LoseCounter(_) => LossKeepsInv(s, Apply(s, e));
    case LoseEntry(_) => LossKeepsInv(s, Apply(s, e));
    case Begin(id, a, v, ok) => BeginKeepsInv(s, id, a, v, ok);
    case Look(id, ok) => LookKeepsInv(s, id, ok);
    case Query(id) => QueryKeepsInv(s, id);
    case Fail(id) => QueryKeepsInv(s, id);
    case Store(id, ok) => StoreKeepsInv(s, id, ok);
  }

  lemma {:induction false} RunFromKeepsInv(s: State, events: seq<Event>)
    requires Inv(s)
    ensures Inv(RunFrom(s, events))
  {
    if events != [] {
      RunFromKeepsInv(s, events[..|events| - 1]);
      ApplyKeepsInv(RunFrom(s, events[..|events| - 1]), events[|events| - 1]);
    }
  }

  lemma RunKeepsInv(events: seq<Event>)
    ensures Inv(Run(events))
  {
    RunFromKeepsInv(START, events);
  }

  // --- theorems ------------------------------------------------------------

  predicate IsHit(s: State, id: ReaderId) { id in s.readers && s.readers[id].phase.Hit? }

  /** A hit that lacks a row although its bump, in whatever epoch, came before the reader's
      answered read of the generation. */
  ghost predicate StaleHit(s: State, id: ReaderId) {
    && IsHit(s, id) && s.readers[id].answered
    && exists row: nat :: row < s.readers[id].bumped && !Contains(s.readers[id].phase.entry.payload, row)
  }

  lemma AtLeastContains(p: Payload, n: nat)
    ensures AtLeast(p, n) <==> forall row: nat :: row < n ==> Contains(p, row)
  {
    if !AtLeast(p, n) {
      var i :| 0 <= i < |p| && p[i] < n;
      assert !Contains(p, p[i]);
    }
  }

  /** What an answered read of generation g in epoch e knows to be bumped, any other reader of
      the same generation and epoch had among its rows. */
  lemma BumpedWithinBaseline(s: State, r: Reader, e: nat, baseline: nat)
    requires ReadOk(s, r) && r.answered && r.epoch <= e && Older(s, r.athlete, e, baseline)
    requires r.epoch == e ==> Reached(s, r.athlete, e, r.generation, baseline)
    ensures r.bumped <= baseline
  {
    var m := (r.athlete, r.epoch, r.generation);
    if r.generation > 0 && r.epoch < e {
      assert MarkBefore(s, m, r.athlete, e);
    } else if r.generation == 0 && r.bumped != 0 {
      var w :| MarkBefore(s, w, r.athlete, r.epoch) && s.marks[w] == r.bumped;
      assert MarkBefore(s, w, r.athlete, e);
    }
  }

  /** If the generation read was answered, a hit contains every row whose bump came before that
      read, provided the counter was not lost or expired between the storing and the hitting
      reader's reads of it. */
  lemma HitIsFresh(events: seq<Event>, id: ReaderId)
    requires IsHit(Run(events), id) && Run(events).readers[id].answered
    requires Run(events).readers[id].phase.entry.epoch == Run(events).readers[id].epoch
    ensures
      var r := Run(events).readers[id];
      forall row: nat :: row < r.bumped ==> Contains(r.phase.entry.payload, row)
  {
    RunKeepsInv(events);
    var s := Run(events);
    var r := s.readers[id];
    var e := r.phase.entry;
    assert ReaderOk(s, r) && EntryOk(s, KeyOf(r), e);
    BumpedWithinBaseline(s, r, e.epoch, e.baseline);
    AtLeastContains(e.payload, r.bumped);
  }

  /** In particular no hit of an answered reader is stale while the athlete's counter has never
      been lost and has never expired. */
  lemma HitsAreFreshWhileCounterLives(events: seq<Event>, id: ReaderId)
    requires IsHit(Run(events), id) && Run(events).readers[id].answered
    requires At(Run(events).epochs, Run(events).readers[id].athlete) == 0
    ensures
      var r := Run(events).readers[id];
      forall row: nat :: row < r.bumped ==> Contains(r.phase.entry.payload, row)
  {
    RunKeepsInv(events);
    var r := Run(events).readers[id];
    assert ReaderOk(Run(events), r);
    HitIsFresh(events, id);
  }

  /** In every run, whatever failed or was lost: a hit is served within the lifetime of its
      entry, and lacks no row committed before the storing reader took its generation. */
  lemma HitIsBounded(events: seq<Event>, id: ReaderId)
    requires IsHit(Run(events), id)
    ensures
      var p := Run(events).readers[id].phase;
      && p.entry.storedAt <= p.at < p.entry.storedAt + 300_000
      && forall row: nat :: row < p.entry.baseline ==> Contains(p.entry.payload, row)
  {
    RunKeepsInv(events);
    assert ReaderOk(Run(events), Run(events).readers[id]);
  }

  /** And a miss serves every row committed before its reader began. */
  lemma MissIsCurrent(events: seq<Event>, id: ReaderId)
    requires id in Run(events).readers && Run(events).readers[id].phase.Miss?
    ensures
      var r := Run(events).readers[id];
      forall row: nat :: row < r.baseline ==> Contains(r.phase.payload, row)
  {
    RunKeepsInv(events);
    assert ReaderOk(Run(events), Run(events).readers[id]);
  }

  // --- where a hit comes from ----------------------------------------------

  /** This reader computed the payload and filed it under its own athlete, generation and variant. */
  predicate FiledBy(s: State, id: ReaderId, k: Key, e: Entry) {
    && id in s.readers && s.readers[id].phase == Miss(e.payload)
    && s.readers[id].athlete == k.athlete && s.readers[id].generation == k.generation
    && s.readers[id].variant == k.variant && s.readers[id].baseline == e.baseline
  }

  ghost predicate Filed(s: State, k: Key, e: Entry) { exists id :: FiledBy(s, id, k, e) }

  ghost predicate Sourced(s: State) {
    && (forall k :: k in s.entries ==> Filed(s, k, s.entries[k]))
    && forall id :: IsHit(s, id) ==>
         var r := s.readers[id];
         Filed(s, Key(r.athlete, r.generation, r.variant), r.phase.entry)
  }

  lemma MissStays(s: State, e: Event, id: ReaderId)
    requires id in s.readers && s.readers[id].phase.Miss?
    ensures id in Apply(s, e).readers && Apply(s, e).readers[id] == s.readers[id]
  {
  }

  lemma FiledStays(s: State, e: Event, k: Key, entry: Entry)
    requires Filed(s, k, entry)
    ensures Filed(Apply(s, e), k, entry)
  {
    var id :| FiledBy(s, id, k, entry);
    MissStays(s, e, id);
    assert FiledBy(Apply(s, e), id, k, entry);
  }

  lemma StoreFiles(s: State, id: ReaderId)
    requires Stores(s, id)
    ensures Filed(Apply(s, Store(id, true)), KeyOf(s.readers[id]), EntryOf(s, id))
  {
    assert FiledBy(Apply(s, Store(id, true)), id, KeyOf(s.readers[id]), EntryOf(s, id));
  }

  lemma ApplyKeepsSourced(s: State, e: Event)
    requires Sourced(s)
    ensures Sourced(Apply(s, e))
  {
    var t := Apply(s, e);
    forall k | k in t.entries ensures Filed(t, k, t.entries[k]) {
      if k in s.entries && s.entries[k] == t.entries[k] {
        FiledStays(s, e, k, s.entries[k]);
      } else {
        StoreFiles(s, e.reader);
      }
    }
    forall id | IsHit(t, id)
      ensures Filed(t, Key(t.readers[id].athlete, t.readers[id].generation, t.readers[id].variant),
                    t.readers[id].phase.entry)
    {
      var r := t.readers[id];
      FiledStays(s, e, Key(r.athlete, r.generation, r.variant), r.phase.entry);
    }
  }

  /** In every run, what a reader is served from the cache was computed by a reader of the same athlete
      and the same variant, that had read the same generation. */
  lemma {:induction false} HitWasComputed(events: seq<Event>)
    ensures Sourced(Run(events))
  {
    if events != [] {
      HitWasComputed(events[..|events| - 1]);
      ApplyKeepsSourced(Run(events[..|events| - 1]), events[|events| - 1]);
    }
  }

  /** A reader whose generation read was not answered goes by generation zero. */
  lemma {:induction false} UnansweredReadsZero(events: seq<Event>, id: ReaderId)
    requires id in Run(events).readers && !Run(events).readers[id].answered
    ensures Run(events).readers[id].generation == 0
  {
    if events != [] {
      var before := Run(events[..|events| - 1]);
      if id in before.readers && before.readers[id].generation == Run(events).readers[id].generation
         && before.readers[id].answered == Run(events).readers[id].answered {
        UnansweredReadsZero(events[..|events| - 1], id);
      } else {
        StepKeepsReading(before, events[|events| - 1], id);
      }
    }
  }

  lemma StepKeepsReading(s: State, e: Event, id: ReaderId)
    requires id in Apply(s, e).readers
    ensures
      var r := Apply(s, e).readers[id];
      if id in s.readers then r.generation == s.readers[id].generation && r.answered == s.readers[id].answered
      else r.answered || r.generation == 0
  {
  }

  function SpanOf(e: Event): nat { match e case Tick(span) => span case _ => 0 }

  /** How long a stretch of a run takes. */
  function Span(events: seq<Event>): nat {
    if events == [] then 0 else Span(events[..|events| - 1]) + SpanOf(events[|events| - 1])
  }

  lemma StepKeepsEntry(s: State, e: Event, k: Key, since: int)
    requires k in s.entries && since <= s.entries[k].storedAt && since <= s.now
    requires s.now + SpanOf(e) < since + 300_000 && e != LoseEntry(k)
    ensures
      var t := Apply(s, e);
      t.now == s.now + SpanOf(e) && k in t.entries && since <= t.entries[k].storedAt
  {
  }

  lemma {:induction false} EntryLives(s: State, events: seq<Event>, k: Key)
    requires k in s.entries && s.entries[k].storedAt == s.now && Span(events) < 300_000 && LoseEntry(k) !in events
    ensures
      var t := RunFrom(s, events);
      t.now == s.now + Span(events) && k in t.entries && s.now <= t.entries[k].storedAt
  {
    if events != [] {
      EntryLives(s, events[..|events| - 1], k);
      StepKeepsEntry(RunFrom(s, events[..|events| - 1]), events[|events| - 1], k, s.now);
    }
  }

  /** The cache does serve: an entry that was filed is found for the next five minutes by every reader
      of its athlete, generation and variant, unless Redis loses it or fails. */
  lemma StoredIsServed(s: State, id: ReaderId, events: seq<Event>, other: ReaderId)
    requires Stores(s, id) && Span(events) < 300_000 && LoseEntry(KeyOf(s.readers[id])) !in events
    requires
      var t := RunFrom(Apply(s, Store(id, true)), events);
      IsLooking(t, other) && KeyOf(t.readers[other]) == KeyOf(s.readers[id])
    ensures IsHit(Apply(RunFrom(Apply(s, Store(id, true)), events), Look(other, true)), other)
  {
    EntryLives(Apply(s, Store(id, true)), events, KeyOf(s.readers[id]));
  }
}
