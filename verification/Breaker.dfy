/** The circuit breaker in front of the inference service, under any interleaving of callers
    with a clock that does not run backwards. */
module Breaker {

  /** Times in milliseconds. */
  datatype Config = Config(failureThreshold: int, openDuration: int, halfOpenSuccesses: int)

  const DEFAULTS := Config(5, 30_000, 2)

  predicate Positive(cfg: Config) {
    cfg.failureThreshold > 0 && cfg.openDuration > 0 && cfg.halfOpenSuccesses > 0
  }

  datatype State = Closed | Open | HalfOpen

  datatype Status = Status(state: State, fails: nat, successes: nat, openedAt: int)

  const FRESH := Status(Closed, 0, 0, 0)

  // --- specification -------------------------------------------------------

  /** Reading the state is what lets a cooled-down breaker try again. */
  function Advanced(cfg: Config, b: Status, now: int): Status {
    if b.state.Open? && now - b.openedAt >= cfg.openDuration then b.(state := HalfOpen, successes := 0) else b
  }

  function Succeeded(cfg: Config, b: Status): Status {
    var c := b.(fails := 0);
    if !b.state.HalfOpen? then c
    else if b.successes + 1 >= cfg.halfOpenSuccesses then c.(state := Closed, successes := 0)
    else c.(successes := b.successes + 1)
  }

  function Failed(cfg: Config, b: Status, now: int): Status {
    match b.state
    case HalfOpen => b.(state := Open, openedAt := now, successes := 0)
    case Closed =>
      if b.fails + 1 >= cfg.failureThreshold then b.(fails := b.fails + 1, state := Open, openedAt := now)
      else b.(fails := b.fails + 1)
    case Open => b
  }

  /** What callers do to the breaker: ask, and later report. */
  datatype Kind = Ask | Success | Failure

  datatype Call = Call(kind: Kind, at: int)

  function Apply(cfg: Config, b: Status, c: Call): Status {
    match c.kind
    case Ask => Advanced(cfg, b, c.at)
    case Success => Succeeded(cfg, b)
    case Failure => Failed(cfg, b, c.at)
  }

  function From(cfg: Config, b: Status, calls: seq<Call>): Status {
    if calls == [] then b else Apply(cfg, From(cfg, b, calls[..|calls| - 1]), calls[|calls| - 1])
  }

  function Run(cfg: Config, calls: seq<Call>): Status { From(cfg, FRESH, calls) }

  lemma {:induction false} FromConcat(cfg: Config, b: Status, first: seq<Call>, rest: seq<Call>)
    ensures From(cfg, b, first + rest) == From(cfg, From(cfg, b, first), rest)
  {
    if rest == [] {
      assert first + rest == first;
    } else {
      var last := |rest| - 1;
      assert (first + rest)[..|first| + last] == first + rest[..last];
      FromConcat(cfg, b, first, rest[..last]);
    }
  }

  /** A call that would run from start to end if it is let through. */
  datatype Attempt = Attempt(start: int, end: int, fails: bool)

  predicate Tried(cfg: Config, b: Status, a: Attempt) { !Advanced(cfg, b, a.start).state.Open? }

  /** What the breaker sees of one attempt, and of others while it runs. */
  function Calls(a: Attempt, meanwhile: seq<Call>, tried: bool): seq<Call> {
    var asked := [Call(Ask, a.start)];
    if tried then asked + meanwhile + [Call(if a.fails then Failure else Success, a.end)] else asked
  }

  /** The k-th call asked and was let through. */
  predicate Admitted(cfg: Config, calls: seq<Call>, k: nat)
    requires k < |calls|
  {
    calls[k].kind.Ask? && !Run(cfg, calls[..k + 1]).state.Open?
  }

  // --- the object ----------------------------------------------------------

  class CircuitBreaker {
    const cfg: Config
    var state: State
    var consecutiveFails: nat
    var halfOpenSuccesses: nat
    var openedAt: int

    ghost function View(): Status
      reads this
    {
      Status(state, consecutiveFails, halfOpenSuccesses, openedAt)
    }

    constructor (cfg: Config)
      ensures Positive(this.cfg) && (Positive(cfg) ==> this.cfg == cfg) && View() == FRESH
      ensures cfg.failureThreshold <= 0 ==> this.cfg.failureThreshold == 5
      ensures cfg.openDuration <= 0 ==> this.cfg.openDuration == 30_000
      ensures cfg.halfOpenSuccesses <= 0 ==> this.cfg.halfOpenSuccesses == 2
    {
      this.cfg := Config(
        if cfg.failureThreshold <= 0 then DEFAULTS.failureThreshold else cfg.failureThreshold,
        if cfg.openDuration <= 0 then DEFAULTS.openDuration else cfg.openDuration,
        if cfg.halfOpenSuccesses <= 0 then DEFAULTS.halfOpenSuccesses else cfg.halfOpenSuccesses);
      state, consecutiveFails, halfOpenSuccesses, openedAt := Closed, 0, 0, 0;
    }

    method ReadState(now: int) returns (s: State)
      modifies this
      ensures View() == Advanced(cfg, old(View()), now) && s == state
    {
      if state == Open && now - openedAt >= cfg.openDuration {
        state := HalfOpen;
        halfOpenSuccesses := 0;
      }
      s := state;
    }

    method Allow(now: int) returns (ok: bool)
      modifies this
      ensures View() == Advanced(cfg, old(View()), now) && ok == !state.Open?
    {
      var s := ReadState(now);
      ok := s != Open;
    }

    method RecordSuccess()
      modifies this
      ensures View() == Succeeded(cfg, old(View()))
    {
      consecutiveFails := 0;
      if state == HalfOpen {
        halfOpenSuccesses := halfOpenSuccesses + 1;
        if halfOpenSuccesses >= cfg.halfOpenSuccesses {
          state := Closed;
          halfOpenSuccesses := 0;
        }
      }
    }

    method RecordFailure(now: int)
      modifies this
      ensures View() == Failed(cfg, old(View()), now)
    {
      match state
      case HalfOpen =>
        state := Open;
        openedAt := now;
        halfOpenSuccesses := 0;
      case Closed =>
        consecutiveFails := consecutiveFails + 1;
        if consecutiveFails >= cfg.failureThreshold {
          state := Open;
          openedAt := now;
        }
      case Open =>
    }

    /** What other callers do while a call of this one is under way. */
    method Others(calls: seq<Call>)
      modifies this
      ensures View() == From(cfg, old(View()), calls)
    {
      var i := 0;
      while i < |calls|
        invariant i <= |calls| && View() == From(cfg, old(View()), calls[..i])
      {
        assert calls[..i + 1][..i] == calls[..i];
        match calls[i].kind {
          case Ask => var state := ReadState(calls[i].at);
          case Success => RecordSuccess();
          case Failure => RecordFailure(calls[i].at);
        }
        i := i + 1;
      }
      assert calls[..i] == calls;
    }

    /** One call: attempted at start if allowed, reported at end, with anything in between. */
    method Do(a: Attempt, meanwhile: seq<Call>) returns (attempted: bool)
      modifies this
      ensures attempted == Tried(cfg, old(View()), a)
      ensures View() == From(cfg, old(View()), Calls(a, meanwhile, attempted))
    {
      ghost var before := View();
      attempted := Allow(a.start);
      AttemptedIs(cfg, before, a, meanwhile);
      if !attempted {
        return;
      }
      Others(meanwhile);
      if a.fails {
        RecordFailure(a.end);
      } else {
        RecordSuccess();
      }
    }
  }

  lemma AttemptedIs(cfg: Config, b: Status, a: Attempt, meanwhile: seq<Call>)
    ensures From(cfg, b, Calls(a, meanwhile, false)) == Advanced(cfg, b, a.start)
    ensures
      var c := From(cfg, Advanced(cfg, b, a.start), meanwhile);
      From(cfg, b, Calls(a, meanwhile, true)) == if a.fails then Failed(cfg, c, a.end) else Succeeded(cfg, c)
  {
    var asked := [Call(Ask, a.start)];
    assert asked[..0] == [];
    FromConcat(cfg, b, asked, meanwhile);
    var all := Calls(a, meanwhile, true);
    assert all[..|all| - 1] == asked + meanwhile;
  }

  // --- trips and recoveries, under any interleaving ------------------------

  predicate Monotone(calls: seq<Call>) { forall i, j :: 0 <= i < j < |calls| ==> calls[i].at <= calls[j].at }

  /** Failures reported since the last success. */
  function FailuresInARow(calls: seq<Call>): nat {
    if calls == [] || calls[|calls| - 1].kind.Success? then 0
    else FailuresInARow(calls[..|calls| - 1]) + if calls[|calls| - 1].kind.Failure? then 1 else 0
  }

  lemma {:induction false} CountersAreRuns(cfg: Config, calls: seq<Call>)
    requires Positive(cfg)
    ensures
      var b := Run(cfg, calls);
      && b.fails <= FailuresInARow(calls) && (b.state.Closed? ==> b.fails < cfg.failureThreshold)
      && (b.state.HalfOpen? ==> b.successes < cfg.halfOpenSuccesses)
  {
    if calls != [] {
      CountersAreRuns(cfg, calls[..|calls| - 1]);
    }
  }

  /** The k-th call changes the state. */
  predicate Moves(cfg: Config, calls: seq<Call>, k: nat, from: State, to: State)
    requires k < |calls|
  {
    Run(cfg, calls[..k]).state == from && Run(cfg, calls[..k + 1]).state == to
  }

  /** A closed breaker trips only on a failure that completes a threshold of failures without
      a success among them. */
  lemma TripNeedsFailures(cfg: Config, calls: seq<Call>, k: nat)
    requires Positive(cfg) && k < |calls| && Moves(cfg, calls, k, Closed, Open)
    ensures calls[k].kind.Failure? && FailuresInARow(calls[..k + 1]) >= cfg.failureThreshold
  {
    assert calls[..k + 1][..k] == calls[..k];
    CountersAreRuns(cfg, calls[..k]);
  }

  /** The breaker moved to half open with the h-th call and has been so for the calls up to k. */
  ghost predicate HalfOpenSince(cfg: Config, calls: seq<Call>, h: nat, k: nat) {
    && h < k <= |calls| && Moves(cfg, calls, h, Open, HalfOpen)
    && forall i :: h < i <= k ==> Run(cfg, calls[..i]).state == HalfOpen
  }

  /** Successes reported in calls[i..j]. */
  function Successes(calls: seq<Call>, i: nat, j: nat): nat
    requires i <= j <= |calls|
  {
    if i == j then 0 else Successes(calls, i, j - 1) + if calls[j - 1].kind.Success? then 1 else 0
  }

  lemma {:induction false} HalfOpenBegan(cfg: Config, calls: seq<Call>, k: nat) returns (h: nat)
    requires k <= |calls| && Run(cfg, calls[..k]).state == HalfOpen
    ensures HalfOpenSince(cfg, calls, h, k)
  {
    assert k > 0 && calls[..k][..k - 1] == calls[..k - 1];
    if Run(cfg, calls[..k - 1]).state == HalfOpen {
      h := HalfOpenBegan(cfg, calls, k - 1);
    } else {
      h := k - 1;
    }
  }

  /** While half open the counter holds the successes reported since the move, and no failure
      has been reported since then. */
  lemma {:induction false} HalfOpenCounts(cfg: Config, calls: seq<Call>, h: nat, k: nat)
    requires HalfOpenSince(cfg, calls, h, k)
    ensures Run(cfg, calls[..k]).successes == Successes(calls, h + 1, k)
    ensures forall i :: h < i < k ==> !calls[i].kind.Failure?
  {
    assert calls[..k][..k - 1] == calls[..k - 1];
    if k > h + 1 {
      HalfOpenCounts(cfg, calls, h, k - 1);
    }
  }

  /** A half-open breaker closes with a call if and only if that call is the last of the
      required successes reported since it moved to half open, with no failure among them; it
      opens again if and only if the call is a failure. */
  lemma ClosingExactly(cfg: Config, calls: seq<Call>, h: nat, k: nat)
    requires Positive(cfg) && k < |calls| && HalfOpenSince(cfg, calls, h, k)
    ensures Run(cfg, calls[..k + 1]).state == Closed <==>
              calls[k].kind.Success? && Successes(calls, h + 1, k + 1) == cfg.halfOpenSuccesses
    ensures Run(cfg, calls[..k + 1]).state == Open <==> calls[k].kind.Failure?
    ensures forall i :: h < i < k ==> !calls[i].kind.Failure?
  {
    assert calls[..k + 1][..k] == calls[..k];
    CountersAreRuns(cfg, calls[..k]);
    HalfOpenCounts(cfg, calls, h, k);
  }

  /** It closes in no other way: each closing is preceded by a move to half open, and exactly the
      required number of successes and no failure lie between. */
  lemma ClosingNeedsSuccesses(cfg: Config, calls: seq<Call>, k: nat) returns (h: nat)
    requires Positive(cfg) && k < |calls|
    requires Run(cfg, calls[..k]).state != Closed && Run(cfg, calls[..k + 1]).state == Closed
    ensures HalfOpenSince(cfg, calls, h, k) && calls[k].kind.Success?
    ensures Successes(calls, h + 1, k + 1) == cfg.halfOpenSuccesses
    ensures forall i :: h < i <= k ==> !calls[i].kind.Failure?
  {
    assert calls[..k + 1][..k] == calls[..k];
    h := HalfOpenBegan(cfg, calls, k);
    ClosingExactly(cfg, calls, h, k);
  }

  lemma {:induction false} StaysOpen(cfg: Config, calls: seq<Call>, k: nat, n: nat)
    requires Positive(cfg) && Monotone(calls) && k < n <= |calls|
    requires Run(cfg, calls[..k]).state != Open && Run(cfg, calls[..k + 1]).state == Open
    requires calls[n - 1].at < calls[k].at + cfg.openDuration
    ensures Run(cfg, calls[..n]).state == Open && Run(cfg, calls[..n]).openedAt == calls[k].at
  {
    assert calls[..n][..n - 1] == calls[..n - 1];
    if n > k + 1 {
      StaysOpen(cfg, calls, k, n - 1);
    }
  }

  /** After a trip nothing is let through until the open duration has passed. */
  lemma NothingAdmittedWhileOpen(cfg: Config, calls: seq<Call>, k: nat, j: nat)
    requires Positive(cfg) && Monotone(calls) && k < j < |calls|
    requires Run(cfg, calls[..k]).state != Open && Run(cfg, calls[..k + 1]).state == Open
    requires calls[j].at < calls[k].at + cfg.openDuration
    ensures !Admitted(cfg, calls, j)
  {
    StaysOpen(cfg, calls, k, j + 1);
  }

  // --- sequential callers --------------------------------------------------

  function Done(cfg: Config, b: Status, a: Attempt): Status {
    var c := Advanced(cfg, b, a.start);
    if c.state.Open? then c else if a.fails then Failed(cfg, c, a.end) else Succeeded(cfg, c)
  }

  /** Without anyone else in between, the general account of an attempt is the sequential one. */
  lemma DoneIsCalls(cfg: Config, b: Status, a: Attempt)
    ensures From(cfg, b, Calls(a, [], Tried(cfg, b, a))) == Done(cfg, b, a)
  {
    AttemptedIs(cfg, b, a, []);
  }

  function DoAll(cfg: Config, b: Status, attempts: seq<Attempt>): Status {
    if attempts == [] then b else Done(cfg, DoAll(cfg, b, attempts[..|attempts| - 1]), attempts[|attempts| - 1])
  }

  /** How many of the calls reached the service. */
  function TriedCount(cfg: Config, b: Status, attempts: seq<Attempt>): nat {
    if attempts == [] then 0
    else
      var before := attempts[..|attempts| - 1];
      TriedCount(cfg, b, before) + if Tried(cfg, DoAll(cfg, b, before), attempts[|attempts| - 1]) then 1 else 0
  }

  /** One call after another, each ending after it starts. */
  predicate Sequential(attempts: seq<Attempt>) {
    && (forall i :: 0 <= i < |attempts| ==> attempts[i].start <= attempts[i].end)
    && (forall i, j :: 0 <= i < j < |attempts| ==> attempts[i].end <= attempts[j].start)
  }

  predicate AllFail(attempts: seq<Attempt>) { forall i :: 0 <= i < |attempts| ==> attempts[i].fails }

  /** Whole open durations that fit between two times. */
  function Durations(cfg: Config, from: int, to: int): int
    requires Positive(cfg)
  {
    (to - from) / cfg.openDuration
  }

  lemma TimesAtMost(a: int, b: int, d: int)
    requires d >= 0 && a <= b
    ensures a * d <= b * d
  {
    assert (b - a) * d >= 0;
  }

  lemma FitsAtLeast(x: int, q: int, d: int)
    requires d > 0 && q * d <= x
    ensures q <= x / d
  {
    var k := x / d;
    assert x == k * d + x % d;
    if q > k {
      TimesAtMost(k + 1, q, d);
    }
  }

  lemma FitsExactly(q: int, d: int)
    requires d > 0
    ensures (q * d) / d == q
  {
    var x := q * d;
    var k := x / d;
    FitsAtLeast(x, q, d);
    assert x == k * d + x % d;
    assert k * d <= q * d;
    assert (k - q) * d <= 0;
  }

  lemma DurationsGrow(cfg: Config, from: int, a: int, b: int)
    requires Positive(cfg) && from <= a
    ensures Durations(cfg, from, a) >= 0
    ensures a <= b ==> Durations(cfg, from, a) <= Durations(cfg, from, b)
    ensures a + cfg.openDuration <= b ==> Durations(cfg, from, a) + 1 <= Durations(cfg, from, b)
  {
    var d, q := cfg.openDuration, Durations(cfg, from, a);
    assert q * d <= a - from && (q + 1) * d == q * d + d;
    FitsAtLeast(a - from, 0, d);
    if a <= b {
      FitsAtLeast(b - from, q, d);
    }
    if a + d <= b {
      FitsAtLeast(b - from, q + 1, d);
    }
  }

  /** The attempts of an outage so far, by the state they led to. */
  predicate Within(cfg: Config, b: Status, tried: nat, from: int)
    requires Positive(cfg)
  {
    match b.state
    case Closed => tried <= b.fails < cfg.failureThreshold
    case HalfOpen => tried == 0
    case Open => tried > 0 ==> from <= b.openedAt && tried <= cfg.failureThreshold + Durations(cfg, from, b.openedAt)
  }

  lemma {:induction false} OutageInvariant(cfg: Config, b: Status, attempts: seq<Attempt>, from: int)
    requires Positive(cfg) && (b.state.Closed? ==> b.fails < cfg.failureThreshold)
    requires Sequential(attempts) && AllFail(attempts)
    requires attempts != [] ==> from <= attempts[0].start
    ensures Within(cfg, DoAll(cfg, b, attempts), TriedCount(cfg, b, attempts), from)
    ensures attempts != [] ==>
      TriedCount(cfg, b, attempts) <= cfg.failureThreshold + Durations(cfg, from, attempts[|attempts| - 1].start)
    ensures attempts != [] && TriedCount(cfg, b, attempts) > 0 && DoAll(cfg, b, attempts).state.Open? ==>
      DoAll(cfg, b, attempts).openedAt <= attempts[|attempts| - 1].end
  {
    if attempts != [] {
      var before, last := attempts[..|attempts| - 1], attempts[|attempts| - 1];
      OutageInvariant(cfg, b, before, from);
      var c, n := DoAll(cfg, b, before), TriedCount(cfg, b, before);
      DurationsGrow(cfg, from, last.start, last.end);
      if n > 0 && c.state.Open? {
        DurationsGrow(cfg, from, c.openedAt, last.start);
      }
    }
  }

  /** While every call fails, sequential callers reach the service at most a threshold of
      times, and once more for every whole open duration the outage lasts. */
  lemma OutageAttempts(cfg: Config, b: Status, attempts: seq<Attempt>)
    requires Positive(cfg) && (b.state.Closed? ==> b.fails < cfg.failureThreshold)
    requires attempts != [] && Sequential(attempts) && AllFail(attempts)
    ensures
      TriedCount(cfg, b, attempts)
      <= cfg.failureThreshold + Durations(cfg, attempts[0].start, attempts[|attempts| - 1].start)
  {
    OutageInvariant(cfg, b, attempts, attempts[0].start);
  }

  /** The calls of an outage that reach that bound: a threshold of them at once, then one as soon
      as each open duration has passed. */
  function InsistentAt(cfg: Config, i: nat): int {
    if i < cfg.failureThreshold then 0 else (i - cfg.failureThreshold + 1) * cfg.openDuration
  }

  function Insistent(cfg: Config, n: nat): seq<Attempt> {
    seq(n, i requires 0 <= i < n => Attempt(InsistentAt(cfg, i), InsistentAt(cfg, i), true))
  }

  lemma InsistentIsSequential(cfg: Config, n: nat)
    requires Positive(cfg)
    ensures Sequential(Insistent(cfg, n)) && AllFail(Insistent(cfg, n))
  {
    forall i, j | 0 <= i < j < n ensures InsistentAt(cfg, i) <= InsistentAt(cfg, j) {
      if j >= cfg.failureThreshold {
        TimesAtMost(if i < cfg.failureThreshold then 0 else i - cfg.failureThreshold + 1,
                    j - cfg.failureThreshold + 1, cfg.openDuration);
      }
    }
  }

  lemma {:induction false} InsistentAreTried(cfg: Config, n: nat)
    requires Positive(cfg)
    ensures
      var b := DoAll(cfg, FRESH, Insistent(cfg, n));
      && TriedCount(cfg, FRESH, Insistent(cfg, n)) == n
      && (if n < cfg.failureThreshold then b.state == Closed && b.fails == n
          else b.state == Open && b.openedAt == InsistentAt(cfg, n - 1))
  {
    if n > 0 {
      assert Insistent(cfg, n)[..n - 1] == Insistent(cfg, n - 1);
      InsistentAreTried(cfg, n - 1);
      assert n > cfg.failureThreshold ==>
        InsistentAt(cfg, n - 1) - InsistentAt(cfg, n - 2) >= cfg.openDuration by {
        if n > cfg.failureThreshold {
          OneMoreDuration(cfg, n - 2);
        }
      }
    }
  }

  lemma OneMoreDuration(cfg: Config, i: nat)
    requires Positive(cfg) && i + 1 >= cfg.failureThreshold
    ensures InsistentAt(cfg, i + 1) == InsistentAt(cfg, i) + cfg.openDuration
  {
    var k := i + 1 - cfg.failureThreshold;
    assert (k + 1) * cfg.openDuration == k * cfg.openDuration + cfg.openDuration;
  }

  /** The bound on attempts is the best possible. */
  lemma OutageBoundIsAttained(cfg: Config, n: nat)
    requires Positive(cfg) && n >= cfg.failureThreshold
    ensures
      var attempts := Insistent(cfg, n);
      && Sequential(attempts) && AllFail(attempts)
      && TriedCount(cfg, FRESH, attempts)
         == cfg.failureThreshold + Durations(cfg, attempts[0].start, attempts[n - 1].start)
  {
    InsistentIsSequential(cfg, n);
    InsistentAreTried(cfg, n);
    var attempts := Insistent(cfg, n);
    assert attempts[0].start == 0;
    assert attempts[n - 1].start == InsistentAt(cfg, n - 1);
    FitsExactly(n - cfg.failureThreshold, cfg.openDuration);
  }

  /** From closed, an unbroken row of failures trips the breaker at the threshold, not before. */
  lemma {:induction false} FailuresTrip(cfg: Config, b: Status, attempts: seq<Attempt>)
    requires Positive(cfg) && b.state.Closed? && b.fails < cfg.failureThreshold
    requires AllFail(attempts) && |attempts| <= cfg.failureThreshold - b.fails
    ensures DoAll(cfg, b, attempts).state == if |attempts| < cfg.failureThreshold - b.fails then Closed else Open
    ensures DoAll(cfg, b, attempts).fails == b.fails + |attempts|
  {
    if attempts != [] {
      FailuresTrip(cfg, b, attempts[..|attempts| - 1]);
    }
  }

  /** From open, once the duration has passed, the required number of successful calls closes
      it, and fewer leave it half open. */
  lemma {:induction false} SuccessesClose(cfg: Config, b: Status, attempts: seq<Attempt>)
    requires Positive(cfg) && b.state.Open? && 0 < |attempts| <= cfg.halfOpenSuccesses
    requires b.openedAt + cfg.openDuration <= attempts[0].start
    requires forall i :: 0 <= i < |attempts| ==> !attempts[i].fails
    ensures
      var c := DoAll(cfg, b, attempts);
      if |attempts| < cfg.halfOpenSuccesses then c.state == HalfOpen && c.successes == |attempts| else c.state == Closed
  {
    var before := attempts[..|attempts| - 1];
    if before == [] {
      assert DoAll(cfg, b, before) == b;
    } else {
      SuccessesClose(cfg, b, before);
    }
  }
}
