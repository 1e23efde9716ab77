/** How often each model feature is absent, over a window whose counters are halved rather than
    cleared. */
module NullRatio {

  /** One pitch's features: false for a value that is null. */
  type Row = map<string, bool>

  /** A published ratio, exactly. */
  datatype Share = Share(missing: nat, seen: nat)

  datatype Tracker = Tracker(
    seen: map<string, nat>, missing: map<string, nat>, count: nat, gauge: map<string, Share>, halvings: nat)

  const NEW := Tracker(map[], map[], 0, map[], 0)

  // --- specification -------------------------------------------------------

  predicate Has(row: Row, name: string) { name in row && row[name] }

  function Present(batch: seq<Row>, name: string): (n: nat)
    ensures n <= |batch|
  {
    if batch == [] then 0
    else Present(batch[..|batch| - 1], name) + if Has(batch[|batch| - 1], name) then 1 else 0
  }

  function Names(batch: seq<Row>): set<string> {
    if batch == [] then {} else Names(batch[..|batch| - 1]) + batch[|batch| - 1].Keys
  }

  function At(m: map<string, nat>, name: string): nat { if name in m then m[name] else 0 }

  function Added(t: Tracker, batch: seq<Row>): Tracker {
    var known := t.seen.Keys + Names(batch);
    t.(seen := (map name | name in known :: At(t.seen, name) + |batch|),
       missing := (map name | name in known :: At(t.missing, name) + |batch| - Present(batch, name)),
       count := t.count + |batch|)
  }

  function Ratio(share: Share): real
    requires share.seen > 0
  {
    share.missing as real / share.seen as real
  }

  function Published(t: Tracker): Tracker {
    t.(gauge := t.gauge + (map name | name in t.seen && t.seen[name] > 0 :: Share(At(t.missing, name), t.seen[name])))
  }

  function Halved(t: Tracker): Tracker {
    t.(seen := (map name | name in t.seen :: t.seen[name] / 2),
       missing := (map name | name in t.missing :: t.missing[name] / 2),
       count := t.count / 2, halvings := t.halvings + 1)
  }

  function Observed(t: Tracker, window: nat, batch: seq<Row>): Tracker {
    if batch == [] then t
    else
      var added := Added(t, batch);
      if added.count >= window then Halved(Published(added)) else added
  }

  function Run(t: Tracker, window: nat, batches: seq<seq<Row>>): Tracker {
    if batches == [] then t
    else Observed(Run(t, window, batches[..|batches| - 1]), window, batches[|batches| - 1])
  }

  // --- the object ----------------------------------------------------------

  class NullRatioTracker {
    const window: nat
    var seen: map<string, nat>
    var missing: map<string, nat>
    var count: nat
    var gauge: map<string, Share>
    ghost var halvings: nat

    ghost function View(): Tracker
      reads this
    {
      Tracker(seen, missing, count, gauge, halvings)
    }

    ghost predicate Valid()
      reads this
    {
      seen.Keys == missing.Keys
    }

    constructor (window: nat)
      ensures Valid() && this.window == window && View() == NEW
    {
      this.window := window;
      seen, missing, count, gauge, halvings := map[], map[], 0, map[], 0;
    }

    method Observe(batch: seq<Row>)
      requires Valid()
      modifies this
      ensures Valid() && View() == Observed(old(View()), window, batch)
    {
      if batch == [] {
        return;
      }
      Add(batch);
      if count >= window {
        Publish();
        Decay();
      }
    }

    method Add(batch: seq<Row>)
      requires Valid()
      modifies `seen, `missing, `count
      ensures Valid() && View() == Added(old(View()), batch)
    {
      ghost var was := View();
      var names := Collect(batch);
      Count(seen.Keys + names, batch);
      assert seen == Added(was, batch).seen;
      assert missing == Added(was, batch).missing;
      count := count + |batch|;
    }

    method Collect(batch: seq<Row>) returns (names: set<string>)
      ensures names == Names(batch)
    {
      names := {};
      for i := 0 to |batch|
        invariant names == Names(batch[..i])
      {
        assert batch[..i + 1][..i] == batch[..i];
        names := names + batch[i].Keys;
      }
      assert batch[..|batch|] == batch;
    }

    /** Adds the batch to the counters of the known names. */
    method Count(known: set<string>, batch: seq<Row>)
      requires Valid() && seen.Keys <= known
      modifies `seen, `missing
      ensures seen.Keys == known == missing.Keys
      ensures forall name :: name in known ==> seen[name] == At(old(seen), name) + |batch|
      ensures forall name :: name in known ==> missing[name] == At(old(missing), name) + |batch| - Present(batch, name)
    {
      ghost var seen0, missing0 := seen, missing;
      var todo := known;
      while todo != {}
        invariant todo <= known
        invariant seen.Keys == seen0.Keys + (known - todo) == missing.Keys
        invariant forall name :: name in seen ==>
          seen[name] == if name in todo then seen0[name] else At(seen0, name) + |batch|
        invariant forall name :: name in seen ==>
          missing[name] == if name in todo then missing0[name] else At(missing0, name) + |batch| - Present(batch, name)
        decreases todo
      {
        var name :| name in todo;
        var present := CountPresent(batch, name);
        seen := seen[name := At(seen, name) + |batch|];
        missing := missing[name := At(missing, name) + (|batch| - present)];
        todo := todo - {name};
      }
    }

    method CountPresent(batch: seq<Row>, name: string) returns (present: nat)
      ensures present == Present(batch, name)
    {
      present := 0;
      for i := 0 to |batch|
        invariant present == Present(batch[..i], name)
      {
        assert batch[..i + 1][..i] == batch[..i];
        if name in batch[i] && batch[i][name] {
          present := present + 1;
        }
      }
      assert batch[..|batch|] == batch;
    }

    method Publish()
      modifies `gauge
      ensures View() == Published(old(View()))
    {
      ghost var was := View();
      SetGauges();
      assert gauge == Published(was).gauge;
    }

    method SetGauges()
      modifies `gauge
      ensures forall name :: name in gauge <==> name in old(gauge) || (name in seen && seen[name] > 0)
      ensures forall name :: name in gauge ==>
        gauge[name] == if name in seen && seen[name] > 0 then Share(At(missing, name), seen[name])
                       else old(gauge)[name]
    {
      ghost var was := gauge;
      var todo := seen.Keys;
      while todo != {}
        invariant todo <= seen.Keys
        invariant forall name :: name in gauge <==> name in was || (name in seen && name !in todo && seen[name] > 0)
        invariant forall name :: name in gauge ==>
          gauge[name] == if name in seen && name !in todo && seen[name] > 0
                         then Share(At(missing, name), seen[name]) else was[name]
        decreases todo
      {
        var name :| name in todo;
        if seen[name] > 0 {
          gauge := gauge[name := Share(At(missing, name), seen[name])];
        }
        todo := todo - {name};
      }
    }

    method Decay()
      modifies `seen, `missing, `count, `halvings
      ensures View() == Halved(old(View()))
    {
      seen := map name | name in seen :: seen[name] / 2;
      missing := map name | name in missing :: missing[name] / 2;
      count := count / 2;
      halvings := halvings + 1;
    }

    method Flush()
      modifies `gauge
      ensures View() == Published(old(View()))
    {
      Publish();
    }
  }

  // --- invariants ----------------------------------------------------------

  predicate Consistent(t: Tracker) {
    t.seen.Keys == t.missing.Keys
    && forall name :: name in t.seen ==> t.missing[name] <= t.seen[name] <= t.count
  }

  lemma ObserveKeepsConsistent(t: Tracker, window: nat, batch: seq<Row>)
    requires Consistent(t)
    ensures Consistent(Observed(t, window, batch))
  {
    if batch != [] {
      var added := Added(t, batch);
      assert Consistent(added);
      assert Consistent(Published(added));
    }
  }

  /** A window fills at most once per observation exactly as long as what was carried over and
      the batch stay below two windows; batches no larger than the window always do. */
  lemma CountStaysBelowWindow(t: Tracker, window: nat, batch: seq<Row>)
    requires t.count < window
    ensures Observed(t, window, batch).count < window <==> t.count + |batch| < 2 * window
    ensures |batch| <= window ==> Observed(t, window, batch).count < window
  {}

  predicate SmallBatches(batches: seq<seq<Row>>, window: nat) {
    forall i :: 0 <= i < |batches| ==> |batches[i]| <= window
  }

  /** In every run, missing is at most seen and seen at most the count; and with batches no
      larger than the window, the count is below the window after every observation. */
  lemma {:induction false} RunKeepsCounters(window: nat, batches: seq<seq<Row>>)
    requires window > 0
    ensures Consistent(Run(NEW, window, batches))
    ensures SmallBatches(batches, window) ==> Run(NEW, window, batches).count < window
  {
    if batches != [] {
      var before := batches[..|batches| - 1];
      RunKeepsCounters(window, before);
      ObserveKeepsConsistent(Run(NEW, window, before), window, batches[|batches| - 1]);
      if SmallBatches(batches, window) {
        CountStaysBelowWindow(Run(NEW, window, before), window, batches[|batches| - 1]);
      }
    }
  }

  // --- a feature that disappears -------------------------------------------

  function Power(k: nat): (p: nat)
    ensures p > 0
  {
     if k == 0 then 1 else 2 * Power(k - 1)
  }

  predicate Absent(batches: seq<seq<Row>>, name: string) {
    forall i :: 0 <= i < |batches| ==> Present(batches[i], name) == 0
  }

  /** The part of a feature's count in which it was present. */
  function Kept(t: Tracker, name: string): int { At(t.seen, name) - At(t.missing, name) }

  /** Known from the first batch on, a feature has been looked for in every row counted. */
  predicate AlwaysKnown(t: Tracker, name: string) { name in t.seen && t.seen[name] == t.count }

  lemma {:induction false} KnownFromTheStart(window: nat, batches: seq<seq<Row>>, name: string)
    requires batches != [] && batches[0] != [] && name in Names(batches[0])
    ensures AlwaysKnown(Run(NEW, window, batches), name)
  {
    var before := batches[..|batches| - 1];
    if before == [] {
      assert Run(NEW, window, before) == NEW;
    } else {
      KnownFromTheStart(window, before, name);
    }
  }

  /** Of one feature: how much was seen, missed and counted. */
  datatype Account = Account(seen: nat, missing: nat, count: nat, halvings: nat)

  function Of(t: Tracker, name: string): Account {
    Account(At(t.seen, name), At(t.missing, name), t.count, t.halvings)
  }

  function Aged(a: Account, window: nat, n: nat): Account {
    var b := a.(seen := a.seen + n, missing := a.missing + n, count := a.count + n);
    if n > 0 && b.count >= window then Account(b.seen / 2, b.missing / 2, b.count / 2, b.halvings + 1) else b
  }

  /** An absent batch changes a known feature's account by its length alone. */
  lemma AbsentStep(t: Tracker, window: nat, batch: seq<Row>, name: string)
    requires Consistent(t) && AlwaysKnown(t, name) && Present(batch, name) == 0
    ensures Of(Observed(t, window, batch), name) == Aged(Of(t, name), window, |batch|)
    ensures AlwaysKnown(Observed(t, window, batch), name)
  {
    if batch != [] {
      var added := Added(t, batch);
      assert added.seen[name] == t.seen[name] + |batch| && added.missing[name] == t.missing[name] + |batch|;
    }
  }

  /** The present part stays, or is halved, rounding up, with the counters. */
  lemma AgingHalves(a: Account, window: nat, n: nat)
    requires a.missing <= a.seen
    ensures
      var b := Aged(a, window, n);
      if b.halvings == a.halvings then b.seen - b.missing == a.seen - a.missing
      else b.halvings == a.halvings + 1 && 2 * (b.seen - b.missing) <= a.seen - a.missing + 1
  {}

  lemma {:induction false} AbsentRun(t: Tracker, window: nat, batches: seq<seq<Row>>, name: string) returns (k: nat)
    requires Consistent(t) && AlwaysKnown(t, name) && Absent(batches, name)
    ensures
      var u := Run(t, window, batches);
      && Consistent(u) && AlwaysKnown(u, name) && u.halvings == t.halvings + k
      && Kept(u, name) * Power(k) <= Kept(t, name) + Power(k)
  {
    if batches == [] {
      k := 0;
    } else {
      var before, last := batches[..|batches| - 1], batches[|batches| - 1];
      var j := AbsentRun(t, window, before, name);
      k := AbsentMore(Run(t, window, before), window, last, name, Kept(t, name), t.halvings, j);
    }
  }

  lemma AbsentMore(u: Tracker, window: nat, last: seq<Row>, name: string, first: int, start: nat, j: nat)
    returns (k: nat)
    requires Consistent(u) && AlwaysKnown(u, name) && Present(last, name) == 0
    requires u.halvings == start + j && Kept(u, name) * Power(j) <= first + Power(j)
    ensures
      var v := Observed(u, window, last);
      && Consistent(v) && AlwaysKnown(v, name) && v.halvings == start + k
      && Kept(v, name) * Power(k) <= first + Power(k)
  {
    ObserveKeepsConsistent(u, window, last);
    AbsentStep(u, window, last, name);
    AgingHalves(Of(u, name), window, |last|);
    var a := Aged(Of(u, name), window, |last|);
    if a.halvings == u.halvings {
      k := j;
    } else {
      k := j + 1;
      HalvingStep(a.seen - a.missing, Kept(u, name), first, Power(j));
    }
  }

  lemma TimesAtMost(a: int, b: int, p: nat)
    requires a <= b
    ensures a * p <= b * p
  {
    assert (b - a) * p >= 0;
  }

  lemma HalvingStep(next: int, kept: int, first: int, p: nat)
    requires 2 * next <= kept + 1 && kept * p <= first + p
    ensures next * (2 * p) <= first + 2 * p
  {
    TimesAtMost(2 * next, kept + 1, p);
    assert next * (2 * p) == (2 * next) * p && (kept + 1) * p == kept * p + p;
  }

  /** At least how much of a publication a feature must be missing from. */
  function AbsenceBound(first: int, power: nat, window: nat): real
    requires window > 0 && power > 0
  {
    1.0 - (first as real / power as real + 1.0) / window as real
  }

  predicate Shows(gauge: map<string, Share>, name: string, bound: real) {
    name in gauge && gauge[name].seen > 0 && Ratio(gauge[name]) >= bound
  }

  /** A feature that was known from the first batch and is absent from now on: after k halvings
      every window publication is at least 1 - (p / 2^k + 1) / window, where p is how much of
      its count was present when it disappeared. */
  lemma AbsenceShows(t: Tracker, window: nat, batches: seq<seq<Row>>, last: seq<Row>, name: string, k: nat)
    requires window > 0 && Consistent(t) && AlwaysKnown(t, name)
    requires Absent(batches, name) && Present(last, name) == 0 && last != []
    requires Run(t, window, batches).halvings == t.halvings + k
    requires Run(t, window, batches).count + |last| >= window
    ensures
      var v := Observed(Run(t, window, batches), window, last);
      v.halvings == t.halvings + k + 1 && Shows(v.gauge, name, AbsenceBound(Kept(t, name), Power(k), window))
  {
    var j := AbsentRun(t, window, batches, name);
    assert j == k;
    var u, first, power := Run(t, window, batches), Kept(t, name), Power(k);
    AbsenceShowsNext(u, window, last, name, first, power);
  }

  lemma AbsenceShowsNext(u: Tracker, window: nat, last: seq<Row>, name: string, first: int, power: nat)
    requires window > 0 && power > 0 && Consistent(u) && AlwaysKnown(u, name)
    requires Present(last, name) == 0 && last != [] && u.count + |last| >= window
    requires Kept(u, name) * power <= first + power
    ensures
      var v := Observed(u, window, last);
      v.halvings == u.halvings + 1 && Shows(v.gauge, name, AbsenceBound(first, power, window))
  {
    PublishedRatio(u, window, last, name);
    RatioBound(u.missing[name] + |last|, u.count + |last|, Kept(u, name), first, power, window);
  }

  lemma PublishedRatio(u: Tracker, window: nat, last: seq<Row>, name: string)
    requires Consistent(u) && AlwaysKnown(u, name) && Present(last, name) == 0
    requires last != [] && u.count + |last| >= window
    ensures
      var v := Observed(u, window, last);
      && v.halvings == u.halvings + 1 && name in v.gauge
      && v.gauge[name] == Share(u.missing[name] + |last|, u.count + |last|)
  {
    AddedAbsent(u, last, name);
    PublishedGauge(Added(u, last), name, u.missing[name] + |last|, u.count + |last|);
  }

  lemma AddedAbsent(u: Tracker, last: seq<Row>, name: string)
    requires Consistent(u) && AlwaysKnown(u, name) && Present(last, name) == 0
    ensures
      var added := Added(u, last);
      name in added.seen && added.seen[name] == u.count + |last| && At(added.missing, name) == u.missing[name] + |last|
  {}

  lemma PublishedGauge(t: Tracker, name: string, missing: nat, seen: nat)
    requires name in t.seen && t.seen[name] == seen > 0 && At(t.missing, name) == missing
    ensures
      var v := Halved(Published(t));
      v.halvings == t.halvings + 1 && name in v.gauge && v.gauge[name] == Share(missing, seen)
  {}

  lemma RatioBound(missing: nat, seen: nat, kept: nat, first: int, power: nat, window: nat)
    requires 0 < window <= seen && missing + kept == seen && power > 0 && kept * power <= first + power
    ensures Ratio(Share(missing, seen)) >= AbsenceBound(first, power, window)
  {
    CastProduct(kept, power);
    KeptBound(kept as real, first as real, power as real);
    QuotientBound(missing as real, seen as real, kept as real, first as real / power as real + 1.0, window as real);
  }

  lemma CastProduct(a: nat, b: nat)
    ensures (a * b) as real == a as real * b as real
  {}

  lemma NonNegative(r: real, q: real)
    requires q > 0.0 && r * q >= 0.0
    ensures r >= 0.0
  {}

  lemma KeptBound(k: real, f: real, q: real)
    requires q > 0.0 && k * q <= f + q
    ensures k <= f / q + 1.0
  {
    var x := f / q;
    assert x * q == f;
    assert (x + 1.0 - k) * q == x * q + q - k * q;
    NonNegative(x + 1.0 - k, q);
  }

  lemma QuotientBound(m: real, s: real, k: real, b: real, w: real)
    requires 0.0 < w <= s && m + k == s && 0.0 <= k <= b
    ensures m / s >= 1.0 - b / w
  {
    var x, y := m / s, b / w;
    assert x * s == m && y * w == b;
    NonNegative(y, w);
    assert y * (s - w) >= 0.0;
    assert y * s == y * w + y * (s - w);
    assert (x + y - 1.0) * s == x * s + y * s - s;
    NonNegative(x + y - 1.0, s);
  }

  // --- the first window ----------------------------------------------------

  /** Rows without a value for the feature, whether it is null or not there at all. */
  function Lacking(rows: seq<Row>, name: string): nat {
    if rows == [] then 0
    else
      var row := rows[|rows| - 1];
      Lacking(rows[..|rows| - 1], name) + if name !in row || row[name] == false then 1 else 0
  }

  lemma {:induction false} LackingIsNotPresent(rows: seq<Row>, name: string)
    ensures Lacking(rows, name) + Present(rows, name) == |rows|
  {
    if rows != [] {
      LackingIsNotPresent(rows[..|rows| - 1], name);
    }
  }

  function AllRows(batches: seq<seq<Row>>): nat {
    if batches == [] then 0 else AllRows(batches[..|batches| - 1]) + |batches[|batches| - 1]|
  }

  function AllLacking(batches: seq<seq<Row>>, name: string): nat {
    if batches == [] then 0
    else AllLacking(batches[..|batches| - 1], name) + Lacking(batches[|batches| - 1], name)
  }

  /** A batch that does not fill the window only adds to the counters. */
  lemma QuietBatch(t: Tracker, window: nat, batch: seq<Row>, name: string)
    requires name in t.seen.Keys + Names(batch) && batch != [] && t.count + |batch| < window
    ensures
      var u := Observed(t, window, batch);
      && name in u.seen && u.seen[name] == At(t.seen, name) + |batch|
      && At(u.missing, name) == At(t.missing, name) + Lacking(batch, name) && u.count == t.count + |batch|
  {
    LackingIsNotPresent(batch, name);
  }

  lemma {:induction false} FillingUp(window: nat, batches: seq<seq<Row>>, name: string)
    requires batches != [] && batches[0] != [] && name in Names(batches[0]) && AllRows(batches) < window
    ensures
      var t := Run(NEW, window, batches);
      && name in t.seen && t.seen[name] == t.count == AllRows(batches)
      && At(t.missing, name) == AllLacking(batches, name)
  {
    var before, batch := batches[..|batches| - 1], batches[|batches| - 1];
    if before == [] {
      assert Run(NEW, window, before) == NEW && AllRows(before) == 0 && AllLacking(before, name) == 0;
      QuietBatch(NEW, window, batch, name);
    } else {
      FillingUp(window, before, name);
      if batch != [] {
        QuietBatch(Run(NEW, window, before), window, batch, name);
      }
    }
  }

  /** A batch that fills the window publishes what has been seen and missed of a known feature. */
  lemma FullBatch(t: Tracker, window: nat, last: seq<Row>, name: string)
    requires name in t.seen && t.seen[name] == t.count > 0 && last != [] && t.count + |last| >= window
    ensures
      var gauge := Observed(t, window, last).gauge;
      name in gauge && gauge[name] == Share(At(t.missing, name) + Lacking(last, name), t.count + |last|)
  {
    var added := Added(t, last);
    LackingIsNotPresent(last, name);
    assert added.seen[name] == t.count + |last|;
    PublishedGauge(added, name, At(added.missing, name), added.seen[name]);
  }

  lemma {:induction false} FirstOfAll(batches: seq<seq<Row>>)
    requires batches != []
    ensures AllRows(batches) >= |batches[0]|
  {
    if |batches| > 1 {
      FirstOfAll(batches[..|batches| - 1]);
    }
  }

  /** What is first published of a feature that was there from the first batch on is the exact share of
      the rows so far that lack it. */
  lemma FirstWindowIsExact(window: nat, batches: seq<seq<Row>>, last: seq<Row>, name: string)
    requires batches != [] && batches[0] != [] && name in Names(batches[0]) && AllRows(batches) < window
    requires AllRows(batches) + |last| >= window
    ensures
      var gauge := Observed(Run(NEW, window, batches), window, last).gauge;
      && name in gauge
      && gauge[name] == Share(AllLacking(batches, name) + Lacking(last, name), AllRows(batches) + |last|)
  {
    FillingUp(window, batches, name);
    var t := Run(NEW, window, batches);
    assert t.count > 0 by {
      FirstOfAll(batches);
    }
    FullBatch(t, window, last, name);
  }
}
