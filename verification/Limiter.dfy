/** The login limiter's in-process counter: windows opened by the first attempt, and a sweep of
    expired ones that nobody can notice. */
module Limiter {
  import opened Wrappers

  /** In milliseconds. */
  const WINDOW: int := 300_000
  const SWEEP_ABOVE: nat := 4096

  datatype Window = Window(count: nat, reset: int)

  type Local = map<string, Window>

  datatype Answer = Answer(allowed: bool, remaining: nat)

  // --- specification -------------------------------------------------------

  function Remaining(count: int, limit: nat): nat { if limit - count > 0 then limit - count else 0 }

  function AnswerFor(count: int, limit: nat): Answer { Answer(count <= limit, Remaining(count, limit)) }

  /** The window an attempt falls into, itself counted: a new one when there is none or the
      old one is over. */
  function Counted(local: Local, key: string, now: int): Window {
    if key !in local || now > local[key].reset then Window(1, now + WINDOW)
    else Window(local[key].count + 1, local[key].reset)
  }

  function Swept(local: Local, now: int): Local { map k | k in local && now <= local[k].reset :: local[k] }

  function Tidied(local: Local, now: int): Local { if |local| > SWEEP_ABOVE then Swept(local, now) else local }

  datatype Op = Attempt(key: string, limit: nat, at: int) | Forget(key: string)

  /** The map as it is, and as it would be if it were never swept. */
  function Step(local: Local, op: Op, sweeping: bool): Local {
    match op
    case Forget(key) => local - {key}
    case Attempt(key, _, at) =>
      var counted := local[key := Counted(local, key, at)];
      if sweeping then Tidied(counted, at) else counted
  }

  function Run(ops: seq<Op>, sweeping: bool): Local {
    if ops == [] then map[] else Step(Run(ops[..|ops| - 1], sweeping), ops[|ops| - 1], sweeping)
  }

  /** What the k-th operation, an attempt, is told. */
  function Told(ops: seq<Op>, k: nat, sweeping: bool): Answer
    requires k < |ops| && ops[k].Attempt?
  {
    AnswerFor(Counted(Run(ops[..k], sweeping), ops[k].key, ops[k].at).count, ops[k].limit)
  }

  // --- the object ----------------------------------------------------------

  class LoginLimiter {
    var local: Local

    constructor ()
      ensures local == map[]
    {
      local := map[];
    }

    /** remote is Redis's count for this attempt, or None when it does not answer. */
    method Allow(key: string, limit: nat, now: int, remote: Option<nat>) returns (a: Answer)
      modifies this
      ensures remote.Some? ==>
        && (a.allowed <==> remote.value <= limit) && local == old(local)
        && a.remaining == if remote.value < limit then limit - remote.value else 0
      ensures remote.None? ==>
        && a == AnswerFor(Counted(old(local), key, now).count, limit)
        && local == Step(old(local), Attempt(key, limit, now), true)
    {
      if remote.Some? {
        return Answer(remote.value <= limit, Remaining(remote.value, limit));
      }
      a := AllowLocal(key, limit, now);
    }

    method AllowLocal(key: string, limit: nat, now: int) returns (a: Answer)
      modifies this
      ensures a == AnswerFor(Counted(old(local), key, now).count, limit)
      ensures local == Step(old(local), Attempt(key, limit, now), true)
    {
      var w := Window(0, now + WINDOW);
      if key in local && now <= local[key].reset {
        w := local[key];
      }
      w := w.(count := w.count + 1);
      local := local[key := w];
      if |local| > SWEEP_ABOVE {
        Sweep(now);
      }
      a := Answer(w.count <= limit, Remaining(w.count, limit));
    }

    method Sweep(now: int)
      modifies this
      ensures local == Swept(old(local), now)
    {
      ghost var was := local;
      var todo := local.Keys;
      while todo != {}
        invariant todo <= was.Keys && todo <= local.Keys
        invariant forall k :: k in local <==> k in was && (k in todo || now <= was[k].reset)
        invariant forall k :: k in local ==> local[k] == was[k]
        decreases todo
      {
        var k :| k in todo;
        if now > local[k].reset {
          local := local - {k};
        }
        todo := todo - {k};
      }
    }

    method Reset(key: string)
      modifies this
      ensures local == Step(old(local), Forget(key), true)
    {
      local := local - {key};
    }
  }

  // --- the sweep cannot be noticed -----------------------------------------

  /** Attempts come in the order of their times. */
  predicate Monotone(ops: seq<Op>) {
    forall i, j :: 0 <= i < j < |ops| && ops[i].Attempt? && ops[j].Attempt? ==> ops[i].at <= ops[j].at
  }

  predicate Over(local: Local, key: string, now: int) { key !in local || now > local[key].reset }

  /** From now on no attempt can tell the two maps apart. */
  predicate SameFrom(a: Local, b: Local, key: string, now: int) {
    (Over(a, key, now) && Over(b, key, now)) || (key in a && key in b && a[key] == b[key])
  }

  /** No attempt comes before the time. */
  predicate NotAfter(ops: seq<Op>, now: int) { forall i :: 0 <= i < |ops| && ops[i].Attempt? ==> ops[i].at <= now }

  lemma StepKeepsSame(a: Local, b: Local, op: Op, key: string, now: int)
    requires op.Attempt? ==> op.at <= now && SameFrom(a, b, key, op.at) && SameFrom(a, b, op.key, op.at)
    requires op.Forget? ==> SameFrom(a, b, key, now)
    ensures SameFrom(Step(a, op, true), Step(b, op, false), key, now)
  {}

  lemma {:induction false} SweptIsSame(ops: seq<Op>, key: string, now: int)
    requires Monotone(ops) && NotAfter(ops, now)
    ensures SameFrom(Run(ops, true), Run(ops, false), key, now)
  {
    if ops != [] {
      var before, op := ops[..|ops| - 1], ops[|ops| - 1];
      if op.Attempt? {
        SweptIsSame(before, key, op.at);
        SweptIsSame(before, op.key, op.at);
      } else {
        SweptIsSame(before, key, now);
      }
      StepKeepsSame(Run(before, true), Run(before, false), op, key, now);
    }
  }

  /** The sweep changes no answer. */
  lemma SweepIsUnobservable(ops: seq<Op>, k: nat)
    requires Monotone(ops) && k < |ops| && ops[k].Attempt?
    ensures Told(ops, k, true) == Told(ops, k, false)
  {
    SweptIsSame(ops[..k], ops[k].key, ops[k].at);
  }

  // --- what a reset does ---------------------------------------------------

  /** How many of the operations are attempts on the key. */
  function AttemptsOn(ops: seq<Op>, key: string): nat {
    if ops == [] then 0
    else
      var op := ops[|ops| - 1];
      AttemptsOn(ops[..|ops| - 1], key) + if op.Attempt? && op.key == key then 1 else 0
  }

  lemma AttemptsOnMore(ops: seq<Op>, n: nat, k: nat, key: string)
    requires n <= k < |ops|
    ensures ops[..k + 1][..k] == ops[..k]
    ensures AttemptsOn(ops[n..k + 1], key)
         == AttemptsOn(ops[n..k], key) + if ops[k].Attempt? && ops[k].key == key then 1 else 0
  {
    assert ops[n..k + 1][..k - n] == ops[n..k];
  }

  function CountOn(local: Local, key: string): nat { if key in local then local[key].count else 0 }

  lemma StepCounts(local: Local, op: Op, key: string, sweeping: bool)
    ensures CountOn(Step(local, op, sweeping), key)
         <= CountOn(local, key) + if op.Attempt? && op.key == key then 1 else 0
    ensures op == Forget(key) ==> key !in Step(local, op, sweeping)
  {
  }

  lemma RunMore(ops: seq<Op>, op: Op, sweeping: bool)
    ensures Run(ops + [op], sweeping) == Step(Run(ops, sweeping), op, sweeping)
  {
    assert (ops + [op])[..|ops|] == ops;
  }

  lemma {:induction false} CountedSinceReset(before: seq<Op>, key: string, after: seq<Op>, sweeping: bool)
    ensures CountOn(Run(before + [Forget(key)] + after, sweeping), key) <= AttemptsOn(after, key)
  {
    var start := before + [Forget(key)];
    if after == [] {
      assert start + after == start;
      RunMore(before, Forget(key), sweeping);
      StepCounts(Run(before, sweeping), Forget(key), key, sweeping);
    } else {
      var last, op := after[..|after| - 1], after[|after| - 1];
      CountedSinceReset(before, key, last, sweeping);
      assert start + after == (start + last) + [op];
      RunMore(start + last, op, sweeping);
      StepCounts(Run(start + last, sweeping), op, key, sweeping);
    }
  }

  /** A reset gives the whole limit back: of the attempts on the key that follow it, whenever they come,
      the first `limit` are allowed, each with at least what they leave over remaining. */
  lemma ResetGivesBack(ops: seq<Op>, n: nat, k: nat, key: string, sweeping: bool)
    requires n < k < |ops| && ops[n] == Forget(key) && ops[k].Attempt? && ops[k].key == key
    requires AttemptsOn(ops[n + 1..k], key) < ops[k].limit
    ensures Told(ops, k, sweeping).allowed
    ensures Told(ops, k, sweeping).remaining >= ops[k].limit - AttemptsOn(ops[n + 1..k], key) - 1
  {
    assert ops[..k] == ops[..n] + [Forget(key)] + ops[n + 1..k];
    CountedSinceReset(ops[..n], key, ops[n + 1..k], sweeping);
  }

  /** The operations on one key. */
  function Own(ops: seq<Op>, key: string): seq<Op> {
    if ops == [] then []
    else Own(ops[..|ops| - 1], key) + if ops[|ops| - 1].key == key then [ops[|ops| - 1]] else []
  }

  lemma {:induction false} OwnRun(ops: seq<Op>, key: string)
    ensures
      var a, b := Run(ops, false), Run(Own(ops, key), false);
      (key in a <==> key in b) && (key in a ==> a[key] == b[key])
  {
    if ops != [] {
      var before, op := ops[..|ops| - 1], ops[|ops| - 1];
      OwnRun(before, key);
      assert Own(ops, key) == if op.key == key then Own(before, key) + [op] else Own(before, key);
      RunMore(Own(before, key), op, false);
    }
  }

  lemma OwnOfParts(a: seq<Op>, b: seq<Op>, key: string)
    ensures Own(a + b, key) == Own(a, key) + Own(b, key)
  {
    if b == [] {
      assert a + b == a;
    } else {
      OwnOfParts(a, b[..|b| - 1], key);
      assert (a + b)[..|a + b| - 1] == a + b[..|b| - 1];
    }
  }

  /** Keys are independent: an answer is a matter of the operations on its own key. */
  lemma KeysAreIndependent(ops: seq<Op>, others: seq<Op>, op: Op)
    requires Monotone(ops + [op]) && Monotone(others + [op]) && op.Attempt?
    requires Own(ops, op.key) == Own(others, op.key)
    ensures Told(ops + [op], |ops|, true) == Told(others + [op], |others|, true)
  {
    SweepIsUnobservable(ops + [op], |ops|);
    SweepIsUnobservable(others + [op], |others|);
    assert (ops + [op])[..|ops|] == ops && (others + [op])[..|others|] == others;
    OwnRun(ops, op.key);
    OwnRun(others, op.key);
  }

  lemma OwnWithout(before: seq<Op>, key: string, after: seq<Op>, other: string)
    requires other != key
    ensures Own(before + [Forget(key)] + after, other) == Own(before + after, other)
  {
    OwnOfParts(before + [Forget(key)], after, other);
    OwnOfParts(before, [Forget(key)], other);
    OwnOfParts(before, after, other);
    assert [Forget(key)][..0] == [];
    assert Own([Forget(key)], other) == [];
  }

  /** So a reset is felt under its own key only. */
  lemma ResetConcernsOneKey(before: seq<Op>, key: string, after: seq<Op>, op: Op)
    requires Monotone(before + [Forget(key)] + after + [op]) && op.Attempt? && op.key != key
    ensures
      var run, without := before + [Forget(key)] + after + [op], before + after + [op];
      Told(run, |run| - 1, true) == Told(without, |without| - 1, true)
  {
    var run, rest := before + [Forget(key)] + after, before + after;
    assert Monotone(rest + [op]) by {
      assert before + [Forget(key)] + (after + [op]) == run + [op] && before + (after + [op]) == rest + [op];
      ShorterIsMonotone(before, Forget(key), after + [op]);
    }
    OwnWithout(before, key, after, op.key);
    KeysAreIndependent(run, rest, op);
  }

  lemma ShorterIsMonotone(before: seq<Op>, op: Op, after: seq<Op>)
    requires Monotone(before + [op] + after)
    ensures Monotone(before + after)
  {
    var a, b, n := before + [op] + after, before + after, |before|;
    forall i, j | 0 <= i < j < |b| && b[i].Attempt? && b[j].Attempt? ensures b[i].at <= b[j].at {
      var k, l := if i < n then i else i + 1, if j < n then j else j + 1;
      assert b[i] == a[k] && b[j] == a[l];
    }
  }

  // --- what a window does --------------------------------------------------

  /** A stretch of operations in which a key's window was opened by its first attempt: it begins with
      the run or after a reset of the key, and knows no other reset. */
  predicate Stretch(ops: seq<Op>, n: nat, first: nat, k: nat, key: string) {
    && n <= first <= k < |ops| && (n == 0 || ops[n - 1] == Forget(key))
    && ops[first].Attempt? && ops[first].key == key && AttemptsOn(ops[n..first], key) == 0
    && forall i :: n <= i < k ==> ops[i] != Forget(key)
  }

  lemma {:induction false} NothingCounted(ops: seq<Op>, n: nat, k: nat, key: string)
    requires n <= k <= |ops| && (n == 0 || ops[n - 1] == Forget(key)) && AttemptsOn(ops[n..k], key) == 0
    ensures key !in Run(ops[..k], false)
    decreases k
  {
    if k > n {
      AttemptsOnMore(ops, n, k - 1, key);
      NothingCounted(ops, n, k - 1, key);
    } else if n > 0 {
      assert ops[..n][..n - 1] == ops[..n - 1];
    }
  }

  lemma {:induction false} WindowCounts(ops: seq<Op>, n: nat, first: nat, k: nat, key: string)
    requires Stretch(ops, n, first, k, key) && first < k
    requires forall i :: first < i < k && ops[i].Attempt? ==> ops[i].at <= ops[first].at + WINDOW
    ensures
      var local := Run(ops[..k], false);
      key in local && local[key] == Window(AttemptsOn(ops[n..k], key), ops[first].at + WINDOW)
    decreases k
  {
    AttemptsOnMore(ops, n, k - 1, key);
    if k - 1 == first {
      NothingCounted(ops, n, first, key);
    } else {
      WindowCounts(ops, n, first, k - 1, key);
    }
  }

  /** Inside a window the limit is enforced exactly: an attempt is allowed if and only if fewer than the
      limit came before it, and it is told what is left after it. */
  lemma WindowIsExact(ops: seq<Op>, n: nat, first: nat, k: nat, key: string)
    requires Monotone(ops) && Stretch(ops, n, first, k, key) && ops[k].Attempt? && ops[k].key == key
    requires ops[k].at <= ops[first].at + 300_000
    ensures
      var i, limit := AttemptsOn(ops[n..k], key), ops[k].limit;
      && (Told(ops, k, true).allowed <==> i < limit)
      && Told(ops, k, true).remaining == if i < limit then limit - i - 1 else 0
  {
    SweepIsUnobservable(ops, k);
    if first == k {
      NothingCounted(ops, n, k, key);
    } else {
      WindowCounts(ops, n, first, k, key);
    }
  }

  /** And when it is over, the next attempt starts a new one. */
  lemma WindowEnds(ops: seq<Op>, n: nat, first: nat, k: nat, key: string)
    requires Monotone(ops) && Stretch(ops, n, first, k, key) && ops[k].Attempt? && ops[k].key == key
    requires ops[k].at > ops[first].at + 300_000
    requires forall i :: first < i < k && ops[i].Attempt? ==> ops[i].at <= ops[first].at + 300_000
    ensures Told(ops, k, true) == Answer(1 <= ops[k].limit, if ops[k].limit == 0 then 0 else ops[k].limit - 1)
  {
    SweepIsUnobservable(ops, k);
    if first < k {
      WindowCounts(ops, n, first, k, key);
    }
  }

  // --- how many attempts get through ---------------------------------------

  predicate Within(at: int, from: int) { from <= at <= from + WINDOW }

  /** Attempts on the key that were allowed at times in [from, from + WINDOW], since its last reset. */
  function AllowedIn(ops: seq<Op>, key: string, from: int): nat {
    if ops == [] then 0
    else
      var before, op := ops[..|ops| - 1], ops[|ops| - 1];
      if op.key != key then AllowedIn(before, key, from)
      else if op.Forget? then 0
      else AllowedIn(before, key, from) + if Within(op.at, from) && Told(ops, |ops| - 1, true).allowed then 1 else 0
  }

  /** Every attempt on the key has this limit. */
  predicate OneLimit(ops: seq<Op>, key: string, limit: nat) {
    forall i :: 0 <= i < |ops| && ops[i].Attempt? && ops[i].key == key ==> ops[i].limit == limit
  }

  function Capped(count: nat, limit: nat): nat { if count < limit then count else limit }

  /** By when the current window opened: before the interval, the opening attempt lies outside
      it; inside the interval, so did the previous window's. */
  predicate Bounded(local: Local, key: string, allowed: nat, from: int, limit: nat) {
    if key !in local then allowed == 0
    else
      var w := local[key];
      var start := w.reset - WINDOW;
      && w.count >= 1 && allowed <= 2 * limit - 1
      && (start < from ==> allowed <= Capped(w.count, limit) - 1)
      && (from <= start <= from + WINDOW ==> allowed <= limit - 1 + Capped(w.count, limit))
  }

  lemma {:induction false} AttemptsBounded(ops: seq<Op>, key: string, from: int, limit: nat, now: int)
    requires Monotone(ops) && OneLimit(ops, key, limit) && limit >= 1 && NotAfter(ops, now)
    ensures Bounded(Run(ops, false), key, AllowedIn(ops, key, from), from, limit)
    ensures key in Run(ops, false) ==> Run(ops, false)[key].reset <= now + WINDOW
    ensures now < from ==> AllowedIn(ops, key, from) == 0
  {
    if ops != [] {
      var before, op := ops[..|ops| - 1], ops[|ops| - 1];
      if op.Attempt? {
        AttemptsBounded(before, key, from, limit, op.at);
        SweepIsUnobservable(ops, |ops| - 1);
      } else {
        AttemptsBounded(before, key, from, limit, now);
      }
    }
  }

  /** Between two resets, at most twice the limit less one attempts on a key are allowed in any
      interval as long as a window. */
  lemma AttemptsPerWindow(ops: seq<Op>, key: string, from: int, limit: nat)
    requires Monotone(ops) && OneLimit(ops, key, limit)
    ensures AllowedIn(ops, key, from) <= if limit == 0 then 0 else 2 * limit - 1
  {
    if limit == 0 {
      NoneAllowed(ops, key, from);
    } else {
      AttemptsBounded(ops, key, from, limit, LastAt(ops));
    }
  }

  lemma {:induction false} NoneAllowed(ops: seq<Op>, key: string, from: int)
    requires OneLimit(ops, key, 0)
    ensures AllowedIn(ops, key, from) == 0
  {
    if ops != [] {
      NoneAllowed(ops[..|ops| - 1], key, from);
    }
  }

  function LastAt(ops: seq<Op>): (now: int)
    requires Monotone(ops)
    ensures NotAfter(ops, now)
  {
    if ops == [] then 0
    else if ops[|ops| - 1].Attempt? then ops[|ops| - 1].at
    else LastAt(ops[..|ops| - 1])
  }

  /** One attempt, then the rest of the limit at the end of its window, then a full limit as
      soon as the next window can open. */
  function BurstAt(limit: nat, i: nat): int { if i == 0 then 0 else if i < limit then WINDOW else WINDOW + 1 }

  function Burst(limit: nat, n: nat): seq<Op> { seq(n, i requires 0 <= i < n => Attempt("", limit, BurstAt(limit, i))) }

  function BurstWindow(limit: nat, n: nat): Window
    requires n > 0
  {
    if n <= limit then Window(n, WINDOW) else Window((n - limit) as nat, 2 * WINDOW + 1)
  }

  /** The next attempt of the burst meets the window so far. */
  lemma BurstGoesOn(limit: nat, n: nat, before: Local)
    requires limit >= 1 && n >= 1 && before == if n == 1 then map[] else map["" := BurstWindow(limit, n - 1)]
    ensures Counted(before, "", BurstAt(limit, n - 1)) == BurstWindow(limit, n)
    ensures before["" := BurstWindow(limit, n)] == map["" := BurstWindow(limit, n)]
  {
  }

  lemma {:induction false} BurstRuns(limit: nat, n: nat)
    requires limit >= 1
    ensures Run(Burst(limit, n), true) == if n == 0 then map[] else map["" := BurstWindow(limit, n)]
  {
    if n > 0 {
      assert Burst(limit, n)[..n - 1] == Burst(limit, n - 1);
      BurstRuns(limit, n - 1);
      BurstGoesOn(limit, n, Run(Burst(limit, n - 1), true));
      assert |map["" := BurstWindow(limit, n)]| == 1;
    }
  }

  /** Every attempt of the burst is allowed. */
  lemma BurstIsTold(limit: nat, n: nat)
    requires limit >= 1 && 1 <= n <= 2 * limit
    ensures Told(Burst(limit, n), n - 1, true).allowed
  {
    assert Burst(limit, n)[..n - 1] == Burst(limit, n - 1);
    BurstRuns(limit, n - 1);
    BurstGoesOn(limit, n, Run(Burst(limit, n - 1), true));
  }

  lemma {:induction false} BurstCounts(limit: nat, n: nat)
    requires limit >= 1 && n <= 2 * limit
    ensures AllowedIn(Burst(limit, n), "", 1) == if n == 0 then 0 else n - 1
  {
    if n > 0 {
      assert Burst(limit, n)[..n - 1] == Burst(limit, n - 1);
      BurstCounts(limit, n - 1);
      BurstIsTold(limit, n);
      assert Within(BurstAt(limit, n - 1), 1) <==> n > 1;
    }
  }

  /** The bound is the best possible. */
  lemma BoundIsAttained(limit: nat)
    requires limit >= 1
    ensures
      var ops := Burst(limit, 2 * limit);
      Monotone(ops) && OneLimit(ops, "", limit) && AllowedIn(ops, "", 1) == 2 * limit - 1
  {
    BurstCounts(limit, 2 * limit);
  }
}
