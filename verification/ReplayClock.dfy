/** Synthetic pitch times for replayed outings, and the simulator that emits them. Times are in
    nanoseconds. */
module ReplayClock {
  import opened Wrappers
  import opened Tape

  const SECOND: int := 1_000_000_000
  const MINUTE: int := 60 * SECOND
  const HOUR: int := 60 * MINUTE
  const GAP_BASES_EMPTY: int := 19 * SECOND
  const GAP_RUNNERS_ON: int := 23 * SECOND
  const TWO_STRIKE_EXTRA: int := 2 * SECOND
  const AT_BAT_BREAK: int := 25 * SECOND
  const HALF_INNING_BREAK: int := 150 * SECOND
  const JITTER_MIN: int := -2 * SECOND
  const JITTER_MAX: int := 4 * SECOND

  /** The generator: its k-th draw for a seed, before it is reduced to a range. */
  type Random = (int, nat) -> int

  /** Parsing a calendar date to the start of its day. */
  type Calendar = string -> Option<int>

  // --- the clock -----------------------------------------------------------

  function Start(day: int, firstInning: int): int {
    day + 19 * HOUR + 10 * MINUTE + if firstInning > 1 then (firstInning - 1) * 20 * MINUTE else 0
  }

  function Jitter(random: Random, seed: int, k: nat): int {
    JITTER_MIN + random(seed, k) % (JITTER_MAX - JITTER_MIN + 1)
  }

  /** The pause before a pitch, given the pitch before it. */
  function Pause(before: Record, r: Record, jitter: int): int {
    var runners := r.context.on1B || r.context.on2B || r.context.on3B;
    var base := (if runners then GAP_RUNNERS_ON else GAP_BASES_EMPTY)
                + (if r.context.strikes >= 2 then TWO_STRIKE_EXTRA else 0);
    var turn := if r.context.inning != before.context.inning then HALF_INNING_BREAK
                else if r.atBat != before.atBat then AT_BAT_BREAK else 0;
    var gap := base + turn + jitter;
    if gap < SECOND then SECOND else gap
  }

  /** The time of each pitch: the first at the start, the others a pause after the one before. */
  function TimeOf(random: Random, seed: int, start: int, pitches: seq<Record>, i: nat): int
    requires i < |pitches|
  {
    if i == 0 then start
    else
      TimeOf(random, seed, start, pitches, i - 1)
      + Pause(pitches[i - 1], pitches[i], Jitter(random, seed, i - 1))
  }

  class Clock {
    const random: Random
    const seed: int
    var drawn: nat
    var current: int
    var lastAtBat: int
    var lastInning: int
    var started: bool

    constructor (random: Random, day: int, firstInning: int, seed: int)
      ensures this.random == random && this.seed == seed && !started && drawn == 0
      ensures current == Start(day, firstInning)
    {
      this.random, this.seed, drawn, started := random, seed, 0, false;
      current, lastAtBat, lastInning := Start(day, firstInning), 0, firstInning;
    }

    /** The clock has just timed pitch i. */
    ghost predicate At(start: int, pitches: seq<Record>, i: nat)
      requires i < |pitches|
      reads this
    {
      && started && drawn == i && lastAtBat == pitches[i].atBat && lastInning == pitches[i].context.inning
      && current == TimeOf(random, seed, start, pitches, i)
    }

    method Next(r: Record, ghost start: int, ghost pitches: seq<Record>, ghost i: nat) returns (at: int)
      requires i < |pitches| && pitches[i] == r
      requires if i == 0 then !started && drawn == 0 && current == start else At(start, pitches, i - 1)
      modifies this
      ensures At(start, pitches, i) && at == TimeOf(random, seed, start, pitches, i)
    {
      if !started {
        started, lastAtBat, lastInning := true, r.atBat, r.context.inning;
        return current;
      }
      var gap := GAP_BASES_EMPTY;
      if r.context.on1B || r.context.on2B || r.context.on3B {
        gap := GAP_RUNNERS_ON;
      }
      if r.context.strikes >= 2 {
        gap := gap + TWO_STRIKE_EXTRA;
      }
      if r.context.inning != lastInning {
        gap := gap + HALF_INNING_BREAK;
      } else if r.atBat != lastAtBat {
        gap := gap + AT_BAT_BREAK;
      }
      gap := gap + Jitter(random, seed, drawn);
      drawn := drawn + 1;
      if gap < SECOND {
        gap := SECOND;
      }
      current := current + gap;
      lastAtBat, lastInning := r.atBat, r.context.inning;
      at := current;
    }
  }

  /** Within an outing every pitch comes 17 to 179 seconds after the one before: over any
      stretch times strictly increase, and the lower bound on a pause is never reached. */
  lemma {:induction false} PausesAreBounded(random: Random, seed: int, start: int, pitches: seq<Record>, i: nat, j: nat)
    requires i <= j < |pitches|
    ensures
      var d := TimeOf(random, seed, start, pitches, j) - TimeOf(random, seed, start, pitches, i);
      (j - i) * 17 * SECOND <= d <= (j - i) * 179 * SECOND
  {
    if i < j {
      PausesAreBounded(random, seed, start, pitches, i, j - 1);
    }
  }

  /** The pause alone tells what happened before a pitch: at most 29 seconds if and only if the
      batter is the same, 42 to 54 for a new batter, 167 and more for a new inning. */
  lemma PausesTellBreaks(random: Random, seed: int, start: int, pitches: seq<Record>, i: nat)
    requires 0 < i < |pitches|
    ensures
      var d := TimeOf(random, seed, start, pitches, i) - TimeOf(random, seed, start, pitches, i - 1);
      var before, r := pitches[i - 1], pitches[i];
      && (d >= 167 * SECOND <==> r.context.inning != before.context.inning)
      && (42 * SECOND <= d <= 54 * SECOND <==> r.context.inning == before.context.inning && r.atBat != before.atBat)
      && (d <= 29 * SECOND <==> r.context.inning == before.context.inning && r.atBat == before.atBat)
  {
    var jitter := Jitter(random, seed, i - 1);
    assert JITTER_MIN <= jitter <= JITTER_MAX;
    assert TimeOf(random, seed, start, pitches, i) - TimeOf(random, seed, start, pitches, i - 1)
        == Pause(pitches[i - 1], pitches[i], jitter);
  }

  /** A pause, in full: longer with runners on and at two strikes, a break for a new inning or else for a
      new batter, and a draw between minus two and four seconds that does not depend on the game. */
  lemma PausesAddUp(random: Random, seed: int, start: int, pitches: seq<Record>, i: nat)
    requires 0 < i < |pitches|
    ensures
      var before, now := pitches[i - 1].context, pitches[i].context;
      && TimeOf(random, seed, start, pitches, i) - TimeOf(random, seed, start, pitches, i - 1)
         == Jitter(random, seed, i - 1)
            + (if now.on1B || now.on2B || now.on3B then 23_000_000_000 else 19_000_000_000)
            + (if now.strikes < 2 then 0 else 2_000_000_000)
            + (if now.inning != before.inning then 150_000_000_000
               else if pitches[i].atBat != pitches[i - 1].atBat then 25_000_000_000 else 0)
      && -2_000_000_000 <= Jitter(random, seed, i - 1) <= 4_000_000_000
  {
    assert TimeOf(random, seed, start, pitches, i) - TimeOf(random, seed, start, pitches, i - 1)
        == Pause(pitches[i - 1], pitches[i], Jitter(random, seed, i - 1));
  }

  // --- the simulator -------------------------------------------------------

  datatype Emitted = Emitted(uid: string, rec: Record, at: int)

  /** today is the day a session without a date is given. */
  datatype Setup = Setup(random: Random, calendar: Calendar, hash: string -> int, seed: int)

  function SessionStart(setup: Setup, s: Session, today: int): int
    requires s.pitches != []
  {
    var day := match setup.calendar(s.date) case Some(d) => d case None => today;
    Start(day, s.pitches[0].context.inning)
  }

  function PitchTime(setup: Setup, s: Session, today: int, i: nat): int
    requires i < |s.pitches|
  {
    TimeOf(setup.random, setup.seed + setup.hash(s.uid), SessionStart(setup, s, today), s.pitches, i)
  }

  /** What one outing emits. */
  function Outing(setup: Setup, s: Session, today: int): seq<Emitted> {
    seq(|s.pitches|, i requires 0 <= i < |s.pitches| => Emitted(s.uid, s.pitches[i], PitchTime(setup, s, today, i)))
  }

  function SpanOf(setup: Setup, s: Session, today: int): int {
    if s.pitches == [] then 0
    else PitchTime(setup, s, today, |s.pitches| - 1) - PitchTime(setup, s, today, 0)
  }

  /** The outings one after another; todays is the day on which each is replayed. */
  function Emission(setup: Setup, tape: seq<Session>, todays: seq<int>): seq<Emitted>
    requires |todays| == |tape|
  {
    if tape == [] then []
    else
      Emission(setup, tape[..|tape| - 1], todays[..|tape| - 1])
      + Outing(setup, tape[|tape| - 1], todays[|tape| - 1])
  }

  function TotalSpan(setup: Setup, tape: seq<Session>, todays: seq<int>): int
    requires |todays| == |tape|
  {
    if tape == [] then 0
    else
      TotalSpan(setup, tape[..|tape| - 1], todays[..|tape| - 1])
      + SpanOf(setup, tape[|tape| - 1], todays[|tape| - 1])
  }

  datatype Stats = Stats(sessions: nat, pitches: nat, span: int)

  /** An outing begins at ten past seven in the evening of its day, or of the day it is replayed if it
      has none, and twenty minutes later for every inning before its first; it emits each of its pitches,
      in their order, under its own identifier. */
  lemma OutingBegins(setup: Setup, s: Session, today: int)
    requires s.pitches != [] && s.pitches[0].context.inning >= 1
    ensures |Outing(setup, s, today)| == |s.pitches|
    ensures forall i :: 0 <= i < |s.pitches| ==>
      Outing(setup, s, today)[i].uid == s.uid && Outing(setup, s, today)[i].rec == s.pitches[i]
    ensures
      var day := if setup.calendar(s.date) == None then today else setup.calendar(s.date).value;
      Outing(setup, s, today)[0].at
      == day + 69_000_000_000_000 + (s.pitches[0].context.inning - 1) * 1_200_000_000_000
  {
  }

  /** Each further pitch comes a pause after the one before, with the draws of this outing's own seed. */
  lemma OutingGoesOn(setup: Setup, s: Session, today: int, i: nat)
    requires 0 < i < |s.pitches|
    ensures
      var all := Outing(setup, s, today);
      all[i].at - all[i - 1].at
      == Pause(s.pitches[i - 1], s.pitches[i], Jitter(setup.random, setup.seed + setup.hash(s.uid), i - 1))
  {
  }

  class Simulator {
    const setup: Setup
    /** How many more events the emitter accepts before it fails or is interrupted. */
    var budget: nat
    var emitted: seq<Emitted>

    constructor (setup: Setup, budget: nat)
      ensures this.setup == setup && this.budget == budget && emitted == []
    {
      this.setup, this.budget, emitted := setup, budget, [];
    }

    method Emit(e: Emitted) returns (ok: bool)
      modifies this
      ensures ok == (old(budget) > 0)
      ensures emitted == if ok then old(emitted) + [e] else old(emitted)
      ensures budget == if ok then old(budget) - 1 else 0
    {
      ok := budget > 0;
      if ok {
        budget, emitted := budget - 1, emitted + [e];
      }
    }

    /** One outing: all of it, or the beginning the emitter took. */
    method RunSession(s: Session, today: int) returns (ok: bool, span: int, count: nat)
      requires s.pitches != []
      modifies this
      ensures ok == (old(budget) >= |s.pitches|)
      ensures count == if ok then |s.pitches| else old(budget)
      ensures emitted == old(emitted) + Outing(setup, s, today)[..count] && budget == old(budget) - count
      ensures ok ==> span == SpanOf(setup, s, today)
    {
      var day := today;
      if setup.calendar(s.date).Some? {
        day := setup.calendar(s.date).value;
      }
      var clock := new Clock(setup.random, day, s.pitches[0].context.inning, setup.seed + setup.hash(s.uid));
      ghost var start := SessionStart(setup, s, today);
      ghost var all := Outing(setup, s, today);
      var previous, first := 0, 0;
      count, span := 0, 0;
      while count < |s.pitches|
        invariant count <= |s.pitches| && count <= old(budget)
        invariant budget == old(budget) - count && emitted == old(emitted) + all[..count]
        invariant clock.random == setup.random && clock.seed == setup.seed + setup.hash(s.uid)
        invariant if count == 0 then !clock.started && clock.drawn == 0 && clock.current == start
                  else clock.At(start, s.pitches, count - 1)
        invariant count > 0 ==> previous == all[count - 1].at && first == all[0].at
      {
        var at := clock.Next(s.pitches[count], start, s.pitches, count);
        previous := at;
        assert all[count] == Emitted(s.uid, s.pitches[count], at);
        var sent := Emit(Emitted(s.uid, s.pitches[count], at));
        if !sent {
          return false, 0, count;
        }
        if count == 0 {
          first := at;
        }
        count := count + 1;
      }
      ok, span := true, previous - first;
    }

    /** The outings in order, none interleaved; on failure, the beginning of what they emit. */
    method Run(tape: seq<Session>, todays: seq<int>) returns (ok: bool, stats: Stats)
      requires |todays| == |tape| && emitted == []
      modifies this
      ensures emitted <= Emission(setup, tape, todays)
      ensures |emitted| == Smaller(old(budget), |Emission(setup, tape, todays)|)
      ensures ok == (old(budget) >= |Emission(setup, tape, todays)|)
      ensures stats.sessions == |tape| && stats.pitches == |emitted|
      ensures ok ==> stats.span == TotalSpan(setup, tape, todays)
    {
      stats := Stats(|tape|, 0, 0);
      var n := 0;
      while n < |tape|
        invariant n <= |tape| && emitted == Emission(setup, tape[..n], todays[..n])
        invariant budget == old(budget) - |emitted| && |emitted| <= old(budget)
        invariant stats == Stats(|tape|, |emitted|, TotalSpan(setup, tape[..n], todays[..n]))
      {
        assert tape[..n + 1][..n] == tape[..n] && todays[..n + 1][..n] == todays[..n];
        EmissionGrows(setup, tape, todays, n + 1);
        if tape[n].pitches == [] {
          assert Outing(setup, tape[n], todays[n]) == [];
        } else {
          var done, span, count := RunSession(tape[n], todays[n]);
          stats := stats.(pitches := stats.pitches + count);
          if !done {
            assert emitted <= Emission(setup, tape[..n + 1], todays[..n + 1]);
            return false, stats;
          }
          assert Outing(setup, tape[n], todays[n])[..count] == Outing(setup, tape[n], todays[n]);
          stats := stats.(span := stats.span + span);
        }
        n := n + 1;
      }
      assert tape[..n] == tape && todays[..n] == todays;
      ok := true;
    }
  }

  function Smaller(a: nat, b: nat): nat { if a < b then a else b }

  lemma {:induction false} EmissionGrows(setup: Setup, tape: seq<Session>, todays: seq<int>, n: nat)
    requires |todays| == |tape| && n <= |tape|
    ensures Emission(setup, tape[..n], todays[..n]) <= Emission(setup, tape, todays)
  {
    if n < |tape| {
      EmissionGrows(setup, tape[..|tape| - 1], todays[..|tape| - 1], n);
      assert tape[..|tape| - 1][..n] == tape[..n] && todays[..|tape| - 1][..n] == todays[..n];
    } else {
      assert tape[..n] == tape && todays[..n] == todays;
    }
  }

  // --- what is emitted -----------------------------------------------------

  /** The events of one outing among all. */
  function EventsOf(es: seq<Emitted>, uid: string): seq<Emitted> {
    if es == [] then []
    else EventsOf(es[..|es| - 1], uid) + if es[|es| - 1].uid == uid then [es[|es| - 1]] else []
  }

  lemma {:induction false} EventsOfConcat(a: seq<Emitted>, b: seq<Emitted>, uid: string)
    ensures EventsOf(a + b, uid) == EventsOf(a, uid) + EventsOf(b, uid)
  {
    if b == [] {
      assert a + b == a && EventsOf(a, uid) + [] == EventsOf(a, uid);
    } else {
      var before, all := b[..|b| - 1], a + b;
      var own := if b[|b| - 1].uid == uid then [b[|b| - 1]] else [];
      EventsOfConcat(a, before, uid);
      assert all[..|all| - 1] == a + before && all[|all| - 1] == b[|b| - 1];
      assert EventsOf(all, uid) == EventsOf(a + before, uid) + own;
      assert EventsOf(b, uid) == EventsOf(before, uid) + own;
    }
  }

  lemma {:induction false} EventsOfOutings(es: seq<Emitted>, own: string, uid: string)
    requires forall i :: 0 <= i < |es| ==> es[i].uid == own
    ensures EventsOf(es, uid) == if own == uid then es else []
  {
    if es != [] {
      EventsOfOutings(es[..|es| - 1], own, uid);
    }
  }

  predicate DistinctSessions(tape: seq<Session>) { forall i, j :: 0 <= i < j < |tape| ==> tape[i].uid != tape[j].uid }

  lemma {:induction false} NoEventsOfOthers(setup: Setup, tape: seq<Session>, todays: seq<int>, uid: string)
    requires |todays| == |tape| && forall i :: 0 <= i < |tape| ==> tape[i].uid != uid
    ensures EventsOf(Emission(setup, tape, todays), uid) == []
  {
    if tape != [] {
      var before, last := tape[..|tape| - 1], tape[|tape| - 1];
      NoEventsOfOthers(setup, before, todays[..|tape| - 1], uid);
      EventsOfConcat(Emission(setup, before, todays[..|tape| - 1]), Outing(setup, last, todays[|tape| - 1]), uid);
      EventsOfOutings(Outing(setup, last, todays[|tape| - 1]), last.uid, uid);
    }
  }

  /** The last outing adds its events to its own session's. */
  lemma LastOutingAdds(setup: Setup, tape: seq<Session>, todays: seq<int>, uid: string)
    requires |todays| == |tape| && tape != []
    ensures
      var n := |tape| - 1;
      EventsOf(Emission(setup, tape, todays), uid)
      == EventsOf(Emission(setup, tape[..n], todays[..n]), uid)
         + if tape[n].uid == uid then Outing(setup, tape[n], todays[n]) else []
  {
    var n := |tape| - 1;
    EventsOfConcat(Emission(setup, tape[..n], todays[..n]), Outing(setup, tape[n], todays[n]), uid);
    EventsOfOutings(Outing(setup, tape[n], todays[n]), tape[n].uid, uid);
  }

  lemma {:induction false} EventsOfSession(setup: Setup, tape: seq<Session>, todays: seq<int>, k: nat)
    requires |todays| == |tape| && DistinctSessions(tape) && k < |tape|
    ensures EventsOf(Emission(setup, tape, todays), tape[k].uid) == Outing(setup, tape[k], todays[k])
  {
    var n := |tape| - 1;
    LastOutingAdds(setup, tape, todays, tape[k].uid);
    if k < n {
      EventsOfSession(setup, tape[..n], todays[..n], k);
    } else {
      NoEventsOfOthers(setup, tape[..n], todays[..n], tape[k].uid);
    }
  }

  /** A dated outing is replayed with the same events and times on any two tapes that hold it,
      whatever else is on them, wherever it stands and on whatever day it is replayed. */
  lemma DatedOutingsAreIndependent(setup: Setup, a: seq<Session>, b: seq<Session>, todaysA: seq<int>, todaysB: seq<int>,
                                   i: nat, j: nat)
    requires |todaysA| == |a| && |todaysB| == |b| && DistinctSessions(a) && DistinctSessions(b)
    requires i < |a| && j < |b| && a[i] == b[j] && setup.calendar(a[i].date).Some?
    ensures EventsOf(Emission(setup, a, todaysA), a[i].uid) == EventsOf(Emission(setup, b, todaysB), a[i].uid)
  {
    EventsOfSession(setup, a, todaysA, i);
    EventsOfSession(setup, b, todaysB, j);
    var s := a[i];
    assert forall k :: 0 <= k < |s.pitches| ==>
      PitchTime(setup, s, todaysA[i], k) == PitchTime(setup, s, todaysB[j], k);
    assert Outing(setup, s, todaysA[i]) == Outing(setup, s, todaysB[j]);
  }

  /** All pauses of the tape together: between 17 and 179 seconds each. */
  lemma {:induction false} SpanIsBounded(setup: Setup, tape: seq<Session>, todays: seq<int>)
    requires |todays| == |tape| && forall i :: 0 <= i < |tape| ==> tape[i].pitches != []
    ensures
      var pauses := |Emission(setup, tape, todays)| - |tape|;
      pauses * 17 * SECOND <= TotalSpan(setup, tape, todays) <= pauses * 179 * SECOND
  {
    if tape != [] {
      var s, today := tape[|tape| - 1], todays[|tape| - 1];
      SpanIsBounded(setup, tape[..|tape| - 1], todays[..|tape| - 1]);
      PausesAreBounded(setup.random, setup.seed + setup.hash(s.uid), SessionStart(setup, s, today), s.pitches,
                       0, |s.pitches| - 1);
    }
  }
}
