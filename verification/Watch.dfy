/** The reference client: it notices missing numbers, and what it reports is exactly what the
    server's side of the connection did not deliver. */
module Watch {
  import opened Wrappers
  import opened ClientQueue
  import opened ClientNumbers
  import Hub
  import HubTheorems

  /** One frame as read: None when it cannot be decoded. */
  type Frame = Option<nat>

  datatype Gap = Gap(expected: nat, got: nat)

  function Decoded(frames: seq<Frame>): seq<nat> {
    if frames == [] then []
    else
      Decoded(frames[..|frames| - 1])
      + match frames[|frames| - 1] case Some(n) => [n] case None => []
  }

  function Expected(ns: seq<nat>): nat { if ns == [] then 0 else ns[|ns| - 1] + 1 }

  function Reports(ns: seq<nat>): seq<Gap> {
    if ns == [] then []
    else
      var before, n := Reports(ns[..|ns| - 1]), ns[|ns| - 1];
      if n > Expected(ns[..|ns| - 1]) then before + [Gap(Expected(ns[..|ns| - 1]), n)] else before
  }

  function Sum(gaps: seq<Gap>): int {
    if gaps == [] then 0 else Sum(gaps[..|gaps| - 1]) + gaps[|gaps| - 1].got - gaps[|gaps| - 1].expected
  }

  /** The read loop, until the connection ends. */
  method Observe(frames: seq<Frame>) returns (reports: seq<Gap>)
    ensures reports == Reports(Decoded(frames))
  {
    reports := [];
    var expected := 0;
    var i := 0;
    while i < |frames|
      invariant i <= |frames|
      invariant reports == Reports(Decoded(frames[..i])) && expected == Expected(Decoded(frames[..i]))
    {
      assert frames[..i + 1][..i] == frames[..i];
      if frames[i].Some? {
        var number := frames[i].value;
        ghost var ns := Decoded(frames[..i]);
        assert (ns + [number])[..|ns|] == ns;
        if number > expected {
          reports := reports + [Gap(expected, number)];
        }
        expected := number + 1;
      } else {
        assert Decoded(frames[..i + 1]) == Decoded(frames[..i]);
      }
      i := i + 1;
    }
    assert frames[..i] == frames;
  }

  predicate Increasing(ns: seq<nat>) { forall i, j :: 0 <= i < j < |ns| ==> ns[i] < ns[j] }

  /** The numbers up to the last received one that were not received. */
  function Missing(ns: seq<nat>): set<nat> { set n | 0 <= n < Expected(ns) && n !in ns }

  function Interval(lo: nat, hi: nat): (r: set<nat>)
    requires lo <= hi
    ensures |r| == hi - lo && forall n: nat :: n in r <==> lo <= n < hi
  {
    if lo == hi then {} else Interval(lo, hi - 1) + {hi - 1}
  }

  lemma BelowExpected(ns: seq<nat>)
    requires Increasing(ns)
    ensures forall m :: m in ns ==> m < Expected(ns)
    ensures ns != [] ==> Expected(ns[..|ns| - 1]) <= ns[|ns| - 1]
  {}

  lemma MissingGrows(before: seq<nat>, n: nat)
    requires Expected(before) <= n && forall m :: m in before ==> m < Expected(before)
    ensures |Missing(before + [n])| == |Missing(before)| + n - Expected(before)
  {
    var skipped := Interval(Expected(before), n);
    assert forall m :: m in before + [n] <==> m in before || m == n;
    assert Missing(before + [n]) == Missing(before) + skipped;
    assert Missing(before) !! skipped;
  }

  /** The gaps reported add up to the count of missing numbers. */
  lemma {:induction false} GapsAddUp(ns: seq<nat>)
    requires Increasing(ns)
    ensures Sum(Reports(ns)) == |Missing(ns)|
  {
    if ns == [] {
      assert Missing(ns) == {};
    } else {
      var before, n := ns[..|ns| - 1], ns[|ns| - 1];
      assert ns == before + [n];
      GapsAddUp(before);
      BelowExpected(ns);
      BelowExpected(before);
      MissingGrows(before, n);
      if n > Expected(before) {
        assert Reports(ns)[..|Reports(before)|] == Reports(before);
      }
    }
  }

  predicate Reported(gaps: seq<Gap>, m: nat) {
    exists i :: 0 <= i < |gaps| && gaps[i].expected <= m < gaps[i].got
  }

  lemma ReportedMore(gaps: seq<Gap>, gap: Gap, m: nat)
    ensures Reported(gaps + [gap], m) <==> Reported(gaps, m) || gap.expected <= m < gap.got
  {
    var more := gaps + [gap];
    if Reported(gaps, m) {
      var i :| 0 <= i < |gaps| && gaps[i].expected <= m < gaps[i].got;
      assert more[i] == gaps[i];
    }
    assert more[|gaps|] == gap;
  }

  /** A number lies in a reported gap if and only if it is missing. */
  lemma {:induction false} GapsAreTheMissing(ns: seq<nat>, m: nat)
    requires Increasing(ns)
    ensures Reported(Reports(ns), m) <==> m < Expected(ns) && m !in ns
  {
    if ns != [] {
      var before, n := ns[..|ns| - 1], ns[|ns| - 1];
      assert ns == before + [n];
      GapsAreTheMissing(before, m);
      BelowExpected(ns);
      BelowExpected(before);
      if n > Expected(before) {
        ReportedMore(Reports(before), Gap(Expected(before), n), m);
      }
    }
  }

  // --- end to end ----------------------------------------------------------

  function WrittenNumbers(ts: seq<Taken>): seq<nat> {
    if ts == [] then []
    else
      WrittenNumbers(ts[..|ts| - 1])
      + if ts[|ts| - 1].outcome.Written? then [ts[|ts| - 1].m.number] else []
  }

  lemma {:induction false} WrittenMeans(ts: seq<Taken>, n: nat)
    ensures n in WrittenNumbers(ts) <==> exists i :: 0 <= i < |ts| && ts[i].outcome.Written? && ts[i].m.number == n
  {
    if ts != [] {
      var before := ts[..|ts| - 1];
      WrittenMeans(before, n);
      if n in WrittenNumbers(before) {
        var i :| 0 <= i < |before| && before[i].outcome.Written? && before[i].m.number == n;
        assert ts[i] == before[i];
      }
      if i :| 0 <= i < |ts| && ts[i].outcome.Written? && ts[i].m.number == n {
        assert i < |before| ==> before[i] == ts[i];
      }
    }
  }

  lemma {:induction false} WrittenIncrease(ts: seq<Taken>)
    requires forall i, j :: 0 <= i < j < |ts| ==> ts[i].m.number < ts[j].m.number
    ensures Increasing(WrittenNumbers(ts))
  {
    if ts != [] {
      var before := ts[..|ts| - 1];
      WrittenIncrease(before);
      var ns := WrittenNumbers(before);
      forall i | 0 <= i < |ns| ensures ns[i] < ts[|ts| - 1].m.number {
        WrittenMeans(before, ns[i]);
      }
    }
  }

  /** The number was spent on a message that did not fit. */
  predicate NotQueued(c: Queue, n: nat) { 1 <= n <= |c.ledger| && !Arrives(c.ledger[n - 1]) }

  /** The number's message was taken but could not be written. */
  predicate NotWritten(c: Queue, k: nat, n: nat)
    requires k <= |c.taken|
  {
    exists i :: 0 <= i < k && c.taken[i].m.number == n && !c.taken[i].outcome.Written?
  }

  lemma TakenIncrease(c: Queue)
    requires Sound(c)
    ensures forall i, j :: 0 <= i < j < |c.taken| ==> c.taken[i].m.number < c.taken[j].m.number
    ensures forall i :: 0 <= i < |c.taken| ==> Numbers(Stream(c))[i] == c.taken[i].m.number
  {
    AcceptedIncrease(c.ledger);
    forall i | 0 <= i < |c.taken| ensures Numbers(Stream(c))[i] == c.taken[i].m.number {
      assert Stream(c)[i] == c.taken[i].m;
    }
  }

  /** A number up to that of the j-th taken message was taken by then, or never queued. */
  lemma TakenOrNotQueued(c: Queue, j: nat, n: nat)
    requires Sound(c) && j < |c.taken| && n <= c.taken[j].m.number
    ensures NotQueued(c, n) <==> !exists i :: 0 <= i <= j && c.taken[i].m.number == n
  {
    TakenIncrease(c);
    AcceptedMeans(c.ledger, n);
    var ns := Numbers(Stream(c));
    if n in AcceptedNumbers(c.ledger) {
      var i :| 0 <= i < |ns| && ns[i] == n;
      AcceptedIncrease(c.ledger);
      assert i <= j && c.taken[i].m.number == n;
    } else {
      forall i | 0 <= i <= j ensures c.taken[i].m.number != n {
        assert ns[i] in AcceptedNumbers(c.ledger);
      }
      assert ns[j] in AcceptedNumbers(c.ledger);
      AcceptedMeans(c.ledger, ns[j]);
    }
  }

  lemma MissingIsLost(c: Queue, k: nat, n: nat)
    requires Sound(c) && k <= |c.taken|
    requires n < Expected(WrittenNumbers(c.taken[..k]))
    ensures n !in WrittenNumbers(c.taken[..k]) <==> NotQueued(c, n) || NotWritten(c, k, n)
  {
    var ts := c.taken[..k];
    WrittenMeans(ts, n);
    var last := WrittenNumbers(ts)[|WrittenNumbers(ts)| - 1];
    WrittenMeans(ts, last);
    var j :| 0 <= j < k && ts[j].outcome.Written? && ts[j].m.number == last;
    TakenOrNotQueued(c, j, n);
    TakenIncrease(c);
    if i :| 0 <= i <= j && c.taken[i].m.number == n {
      assert ts[i] == c.taken[i];
    }
  }

  /** End to end, in every run of the hub: a client that has read the first k written messages
      of a connection has reported, in sum, exactly the numbers below its last one that were
      spent without being queued or were taken without being written. */
  lemma ReportsAreTheLosses(events: seq<Hub.Event>, id: Hub.Id, k: nat)
    requires id in Hub.Run(events).conns && k <= |Hub.Run(events).conns[id].c.taken|
    ensures
      var c := Hub.Run(events).conns[id].c;
      var ns := WrittenNumbers(c.taken[..k]);
      && Sum(Reports(ns)) == |Missing(ns)|
      && forall n: nat :: n in Missing(ns) <==> n < Expected(ns) && (NotQueued(c, n) || NotWritten(c, k, n))
  {
    HubTheorems.RunKeepsInv(events);
    assert HubTheorems.ConnOk(Hub.Run(events), id);
    var c := Hub.Run(events).conns[id].c;
    var ts := c.taken[..k];
    TakenIncrease(c);
    WrittenIncrease(ts);
    GapsAddUp(WrittenNumbers(ts));
    forall n: nat | n < Expected(WrittenNumbers(ts))
      ensures n !in WrittenNumbers(ts) <==> NotQueued(c, n) || NotWritten(c, k, n)
    {
      MissingIsLost(c, k, n);
    }
  }
}
