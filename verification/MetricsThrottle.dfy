/** The per-session throttle of live metrics. */
module MetricsThrottle {

  /** In milliseconds. */
  const INTERVAL: int := 1_000
  const SWEEP_ABOVE: nat := 1024

  type Session = string

  type Sent = map<Session, int>

  datatype Ask = Ask(session: Session, at: int)

  predicate Blocks(sent: Sent, session: Session, now: int) { session in sent && now - sent[session] < INTERVAL }

  function Swept(sent: Sent, now: int): Sent { map k | k in sent && now - sent[k] <= 10 * INTERVAL :: sent[k] }

  function Step(sent: Sent, ask: Ask, sweeping: bool): Sent {
    if Blocks(sent, ask.session, ask.at) then sent
    else
      var noted := sent[ask.session := ask.at];
      if sweeping && |noted| > SWEEP_ABOVE then Swept(noted, ask.at) else noted
  }

  function Run(asks: seq<Ask>, sweeping: bool): Sent {
    if asks == [] then map[] else Step(Run(asks[..|asks| - 1], sweeping), asks[|asks| - 1], sweeping)
  }

  predicate Sends(asks: seq<Ask>, k: nat, sweeping: bool)
    requires k < |asks|
  {
    !Blocks(Run(asks[..k], sweeping), asks[k].session, asks[k].at)
  }

  class Throttle {
    var lastSent: Sent

    method ShouldSend(session: Session, now: int) returns (send: bool)
      modifies this
      ensures send == !Blocks(old(lastSent), session, now)
      ensures lastSent == Step(old(lastSent), Ask(session, now), true)
    {
      if session in lastSent && now - lastSent[session] < INTERVAL {
        return false;
      }
      lastSent := lastSent[session := now];
      if |lastSent| > SWEEP_ABOVE {
        Sweep(now);
      }
      send := true;
    }

    method Sweep(now: int)
      modifies this
      ensures lastSent == Swept(old(lastSent), now)
    {
      ghost var was := lastSent;
      var todo := lastSent.Keys;
      while todo != {}
        invariant todo <= was.Keys && todo <= lastSent.Keys
        invariant forall k :: k in lastSent <==> k in was && (k in todo || now - was[k] <= 10 * INTERVAL)
        invariant forall k :: k in lastSent ==> lastSent[k] == was[k]
        decreases todo
      {
        var k :| k in todo;
        if now - lastSent[k] > 10 * INTERVAL {
          lastSent := lastSent - {k};
        }
        todo := todo - {k};
      }
    }
  }

  predicate Monotone(asks: seq<Ask>) { forall i, j :: 0 <= i < j < |asks| ==> asks[i].at <= asks[j].at }

  predicate NotAfter(asks: seq<Ask>, now: int) { forall i :: 0 <= i < |asks| ==> asks[i].at <= now }

  predicate SameFrom(a: Sent, b: Sent, session: Session, now: int) {
    (!Blocks(a, session, now) && !Blocks(b, session, now)) || (session in a && session in b && a[session] == b[session])
  }

  lemma {:induction false} SweptIsSame(asks: seq<Ask>, session: Session, now: int)
    requires Monotone(asks) && NotAfter(asks, now)
    ensures SameFrom(Run(asks, true), Run(asks, false), session, now)
  {
    if asks != [] {
      var before, ask := asks[..|asks| - 1], asks[|asks| - 1];
      SweptIsSame(before, session, ask.at);
      SweptIsSame(before, ask.session, ask.at);
    }
  }

  /** The sweep changes no answer. */
  lemma SweepIsUnobservable(asks: seq<Ask>, k: nat)
    requires Monotone(asks) && k < |asks|
    ensures Sends(asks, k, true) <==> Sends(asks, k, false)
  {
    SweptIsSame(asks[..k], asks[k].session, asks[k].at);
  }

  lemma {:induction false} SentIsRemembered(asks: seq<Ask>, i: nat, n: nat)
    requires Monotone(asks) && i < n <= |asks| && Sends(asks, i, false)
    ensures asks[i].session in Run(asks[..n], false) && Run(asks[..n], false)[asks[i].session] >= asks[i].at
  {
    assert asks[..n][..n - 1] == asks[..n - 1];
    if i < n - 1 {
      SentIsRemembered(asks, i, n - 1);
    }
  }

  /** Two sends for one session are at least an interval apart, sweeping or not. */
  lemma SendsAreSpaced(asks: seq<Ask>, i: nat, j: nat)
    requires Monotone(asks) && i < j < |asks| && asks[i].session == asks[j].session
    requires Sends(asks, i, true) && Sends(asks, j, true)
    ensures asks[j].at - asks[i].at >= 1_000
  {
    SweepIsUnobservable(asks, i);
    SweepIsUnobservable(asks, j);
    SentIsRemembered(asks, i, j);
  }

  /** What is remembered of a session is a send. */
  lemma {:induction false} RememberedWasSent(asks: seq<Ask>, n: nat, session: Session) returns (i: nat)
    requires n <= |asks| && session in Run(asks[..n], false)
    ensures i < n && asks[i].session == session && Sends(asks, i, false)
    ensures Run(asks[..n], false)[session] == asks[i].at
  {
    assert asks[..n][..n - 1] == asks[..n - 1];
    if asks[n - 1].session == session && Sends(asks, n - 1, false) {
      i := n - 1;
    } else {
      i := RememberedWasSent(asks, n - 1, session);
    }
  }

  /** And that is all that holds a session back: it is sent if and only if it was not sent within the
      last interval. */
  lemma SendsExactly(asks: seq<Ask>, k: nat)
    requires Monotone(asks) && k < |asks|
    ensures Sends(asks, k, true) <==>
      forall i :: 0 <= i < k && asks[i].session == asks[k].session && Sends(asks, i, true) ==>
        asks[k].at - asks[i].at >= 1_000
  {
    if Sends(asks, k, true) {
      forall i | 0 <= i < k && asks[i].session == asks[k].session && Sends(asks, i, true)
        ensures asks[k].at - asks[i].at >= 1_000
      {
        SendsAreSpaced(asks, i, k);
      }
    } else {
      SweepIsUnobservable(asks, k);
      var i := RememberedWasSent(asks, k, asks[k].session);
      SweepIsUnobservable(asks, i);
    }
  }
}
