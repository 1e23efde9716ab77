/** The dead-letter replay tool on one partition: what one drain reads, replays and leaves in
    place, and when it is sure to end although replayed messages may come back as letters. */
module Drain {
  import opened Wrappers
  import opened Wire
  import Ingest

  /** A message of the dead-letter topic. */
  datatype Entry = Undecodable | Decoded(letter: Letter, topic: string)

  /** The flags: an empty filter or target is None, zero means no limit or no ceiling. */
  datatype Flags = Flags(
    filter: Option<ErrorClass>, target: Option<string>, dryRun: bool, limit: nat, maxReplays: nat)

  datatype Tally = Tally(read: nat, replayed: nat, skipped: nat, exhausted: nat, failed: nat)

  datatype Sent = Sent(topic: string, rec: Record)

  /** inFlight holds the letters that replayed messages may yet become here. */
  datatype Queue = Queue(
    entries: seq<Entry>, position: nat, inFlight: seq<Entry>,
    sent: seq<Sent>, origins: seq<nat>, tally: Tally)

  /** How a publish turns out: an error may be reported although the broker took the message. */
  datatype Sending = Acknowledged | NotSent | AcknowledgementLost

  /** Between two reads, some messages in flight come back as letters, with the class their
      new failure has; then the next publish turns out one way or another. */
  datatype Pulse = Pulse(comebacks: seq<(nat, ErrorClass)>, sending: Sending)

  // --- one iteration -------------------------------------------------------

  function Return(q: Queue, pick: (nat, ErrorClass)): Queue {
    if pick.0 >= |q.inFlight| || q.inFlight[pick.0].Undecodable? then q
    else
      var back := q.inFlight[pick.0];
      q.(entries := q.entries + [back.(letter := back.letter.(errorClass := pick.1))],
         inFlight := q.inFlight[..pick.0] + q.inFlight[pick.0 + 1..])
  }

  function ReturnAll(q: Queue, picks: seq<(nat, ErrorClass)>): Queue {
    if picks == [] then q else Return(ReturnAll(q, picks[..|picks| - 1]), picks[|picks| - 1])
  }

  predicate LimitReached(flags: Flags, q: Queue) { flags.limit > 0 && q.tally.replayed >= flags.limit }

  predicate Stopped(flags: Flags, q: Queue) { LimitReached(flags, q) || q.position >= |q.entries| }

  function Destination(flags: Flags, e: Entry): string
    requires e.Decoded?
  {
    match flags.target case Some(t) => t case None => e.topic
  }

  /** The letter the work topic's consumer files if the replayed message fails again. */
  function AgainLetter(e: Entry): Entry
    requires e.Decoded?
  {
    e.(letter := e.letter.(replayCount := e.letter.replayCount + 1))
  }

  /** Up to d letters can come of one replayed message, because its consumer may crash between
      filing a letter and committing. */
  function Copies(e: Entry, d: nat): seq<Entry>
    requires e.Decoded?
  {
    seq(d, _ => AgainLetter(e))
  }

  /** A publish the broker took is sent, whether its acknowledgement arrives or not. */
  function Replayed(d: nat, q: Queue, topic: string, e: Entry, at: nat, sending: Sending): Queue
    requires e.Decoded?
  {
    var t := if sending.Acknowledged? then q.tally.(replayed := q.tally.replayed + 1)
             else q.tally.(failed := q.tally.failed + 1);
    if sending.NotSent? then q.(tally := t)
    else q.(tally := t, sent := q.sent + [Sent(topic, Ingest.Republished(e.letter))], origins := q.origins + [at],
            inFlight := q.inFlight + Copies(e, d))
  }

  /** The filter, the ceiling and the destination let this letter through. */
  predicate Eligible(flags: Flags, e: Entry) {
    && e.Decoded? && (flags.filter.Some? ==> e.letter.errorClass == flags.filter.value)
    && (flags.maxReplays > 0 ==> e.letter.replayCount < flags.maxReplays)
    && Destination(flags, e) != ""
  }

  /** How a letter that is not published is counted. */
  function Passed(flags: Flags, e: Entry, t: Tally): Tally {
    if e.Undecodable? then t.(failed := t.failed + 1)
    else if flags.filter.Some? && e.letter.errorClass != flags.filter.value then t.(skipped := t.skipped + 1)
    else if flags.maxReplays > 0 && e.letter.replayCount >= flags.maxReplays then
      t.(exhausted := t.exhausted + 1)
    else if Destination(flags, e) == "" then t.(failed := t.failed + 1)
    else t.(replayed := t.replayed + 1)
  }

  /** The body of the read loop for the entry at the position. */
  function ReadOne(flags: Flags, d: nat, q: Queue, sending: Sending): Queue
    requires q.position < |q.entries|
  {
    var e := q.entries[q.position];
    var next := q.(position := q.position + 1, tally := q.tally.(read := q.tally.read + 1));
    if Eligible(flags, e) && !flags.dryRun then Replayed(d, next, Destination(flags, e), e, q.position, sending)
    else next.(tally := Passed(flags, e, next.tally))
  }

  function Iterate(flags: Flags, d: nat, q: Queue, pulse: Pulse): Queue {
    var arrived := ReturnAll(q, pulse.comebacks);
    if Stopped(flags, arrived) then arrived else ReadOne(flags, d, arrived, pulse.sending)
  }

  function Run(flags: Flags, d: nat, q: Queue, pulses: seq<Pulse>): Queue {
    if pulses == [] then q
    else Iterate(flags, d, Run(flags, d, q, pulses[..|pulses| - 1]), pulses[|pulses| - 1])
  }

  // --- the loop ------------------------------------------------------------

  class Drainer {
    const flags: Flags
    /** The most letters that come of one replayed message. */
    const d: nat
    var entries: seq<Entry>
    var position: nat
    var inFlight: seq<Entry>
    var sent: seq<Sent>
    ghost var origins: seq<nat>
    var read: nat
    var replayed: nat
    var skipped: nat
    var exhausted: nat
    var failed: nat

    ghost function Counts(): Tally
      reads this
    {
      Tally(read, replayed, skipped, exhausted, failed)
    }

    ghost function State(): Queue
      reads this
    {
      Queue(entries, position, inFlight, sent, origins, Counts())
    }

    constructor (flags: Flags, d: nat, letters: seq<Entry>)
      ensures this.flags == flags && this.d == d
      ensures State() == Queue(letters, 0, [], [], [], Tally(0, 0, 0, 0, 0))
    {
      this.flags, this.d, entries, position, inFlight, sent, origins := flags, d, letters, 0, [], [], [];
      read, replayed, skipped, exhausted, failed := 0, 0, 0, 0, 0;
    }

    /** The rest of the system: replayed messages fail again and are filed again. */
    method Arrive(picks: seq<(nat, ErrorClass)>)
      modifies this`entries, this`inFlight
      ensures State() == ReturnAll(old(State()), picks)
    {
      var i := 0;
      while i < |picks|
        invariant i <= |picks|
        invariant State() == ReturnAll(old(State()), picks[..i])
      {
        var pick := picks[i];
        assert picks[..i + 1][..i] == picks[..i];
        if pick.0 < |inFlight| && inFlight[pick.0].Decoded? {
          var back := inFlight[pick.0];
          entries := entries + [back.(letter := back.letter.(errorClass := pick.1))];
          inFlight := inFlight[..pick.0] + inFlight[pick.0 + 1..];
        }
        i := i + 1;
      }
      assert picks[..i] == picks;
    }

    /** drainPartition: it returns on the limit and on a partition with nothing left to read;
        the pulses run out when it is interrupted. */
    method DrainPartition(pulses: seq<Pulse>) returns (n: nat)
      modifies this
      ensures n <= |pulses| && State() == Run(flags, d, old(State()), pulses[..n])
      ensures
        var stopped := (flags.limit > 0 && replayed >= flags.limit) || position >= |entries|;
        && (n < |pulses| ==> stopped)
        && (read == old(read) + n || (n > 0 && read == old(read) + n - 1 && stopped))
    {
      n := 0;
      while n < |pulses|
        invariant n <= |pulses| && read == old(read) + n
        invariant State() == Run(flags, d, old(State()), pulses[..n])
      {
        assert pulses[..n + 1][..n] == pulses[..n];
        Arrive(pulses[n].comebacks);
        n := n + 1;
        if flags.limit > 0 && replayed >= flags.limit {
          return;
        }
        if position >= |entries| {
          return;
        }
        ReadLetter(pulses[n - 1].sending);
      }
    }

    /** publishRaw: an error does not mean that the broker has not taken the message. */
    method PublishRaw(topic: string, rec: Record, e: Entry, ghost at: nat, sending: Sending) returns (err: bool)
      requires e.Decoded?
      modifies `sent, `origins, `inFlight
      ensures err == !sending.Acknowledged?
      ensures if sending.NotSent? then sent == old(sent) && origins == old(origins) && inFlight == old(inFlight)
              else && sent == old(sent) + [Sent(topic, rec)] && origins == old(origins) + [at]
                   && inFlight == old(inFlight) + Copies(e, d)
    {
      err := sending != Acknowledged;
      if sending != NotSent {
        sent, origins, inFlight := sent + [Sent(topic, rec)], origins + [at], inFlight + Copies(e, d);
      }
    }

    method ReadLetter(sending: Sending)
      requires position < |entries|
      modifies this
      ensures State() == ReadOne(flags, d, old(State()), sending)
    {
      var e := entries[position];
      ghost var at := position;
      position, read := position + 1, read + 1;
      var topic := Sift(e);
      if topic.Some? {
        Replay(topic.value, e, at, sending);
      }
    }

    /** Where the letter is to go; if nowhere, it is counted. */
    method Sift(e: Entry) returns (topic: Option<string>)
      modifies `replayed, `skipped, `exhausted, `failed
      ensures if Eligible(flags, e) && !flags.dryRun
              then topic == Some(Destination(flags, e)) && Counts() == old(Counts())
              else topic == None && Counts() == Passed(flags, e, old(Counts()))
    {
      if e.Undecodable? {
        failed := failed + 1;
        return None;
      }
      if flags.filter.Some? && e.letter.errorClass != flags.filter.value {
        skipped := skipped + 1;
        return None;
      }
      if flags.maxReplays > 0 && e.letter.replayCount >= flags.maxReplays {
        exhausted := exhausted + 1;
        return None;
      }
      var to := e.topic;
      if flags.target.Some? {
        to := flags.target.value;
      }
      if to == "" {
        failed := failed + 1;
        return None;
      }
      if flags.dryRun {
        replayed := replayed + 1;
        return None;
      }
      return Some(to);
    }

    /** Publishing one letter, and counting how that went. */
    method Replay(topic: string, e: Entry, ghost at: nat, sending: Sending)
      requires e.Decoded?
      modifies `sent, `origins, `inFlight, `failed, `replayed
      ensures State() == Replayed(d, old(State()), topic, e, at, sending)
    {
      var rec := Record(e.letter.key, e.letter.payload, ReplayHeaders(e.letter.replayCount + 1));
      var err := PublishRaw(topic, rec, e, at, sending);
      if err {
        failed := failed + 1;
        return;
      }
      replayed := replayed + 1;
    }
  }

  // --- how long a drain can last -------------------------------------------

  /** The reads one letter can cause, itself included, with r replays left and d letters coming
      of each: 1 + d + d * d + ... + d^r, which for d = 1 is r + 1. */
  function Reads(d: nat, r: nat): (n: nat)
    ensures n >= 1 && (d == 1 ==> n == r + 1)
  {
    if r == 0 then 1 else 1 + d * Reads(d, r - 1)
  }

  function ReplaysLeft(flags: Flags, e: Entry): nat {
    if e.Undecodable? || e.letter.replayCount >= flags.maxReplays then 0
    else flags.maxReplays - e.letter.replayCount
  }

  function Weight(flags: Flags, d: nat, e: Entry): nat { Reads(d, ReplaysLeft(flags, e)) }

  function TotalWeight(flags: Flags, d: nat, es: seq<Entry>): nat {
    if es == [] then 0 else TotalWeight(flags, d, es[..|es| - 1]) + Weight(flags, d, es[|es| - 1])
  }

  lemma {:induction false} WeightConcat(flags: Flags, d: nat, a: seq<Entry>, b: seq<Entry>)
    ensures TotalWeight(flags, d, a + b) == TotalWeight(flags, d, a) + TotalWeight(flags, d, b)
  {
    if b == [] {
      assert a + b == a;
    } else {
      WeightConcat(flags, d, a, b[..|b| - 1]);
      assert (a + b)[..|a + b| - 1] == a + b[..|b| - 1];
    }
  }

  lemma WeightOne(flags: Flags, d: nat, e: Entry)
    ensures TotalWeight(flags, d, [e]) == Weight(flags, d, e)
  {
    assert [e][..0] == [];
  }

  lemma {:induction false} WeightCopies(flags: Flags, d: nat, e: Entry, n: nat)
    requires e.Decoded?
    ensures TotalWeight(flags, d, Copies(e, n)) == n * Weight(flags, d, AgainLetter(e))
  {
    if n > 0 {
      assert Copies(e, n)[..n - 1] == Copies(e, n - 1);
      WeightCopies(flags, d, e, n - 1);
    }
  }

  predicate InRange(q: Queue) { q.position <= |q.entries| }

  /** The reads the letters on hand can cause. With d = 1 that is, over the unread letters and
      those that may yet come, the sum of the replays each has left plus one. */
  function Budget(flags: Flags, d: nat, q: Queue): nat
    requires InRange(q)
  {
    TotalWeight(flags, d, q.entries[q.position..]) + TotalWeight(flags, d, q.inFlight)
  }

  lemma ReturnKeepsBudget(flags: Flags, d: nat, q: Queue, pick: (nat, ErrorClass))
    requires InRange(q)
    ensures InRange(Return(q, pick)) && Budget(flags, d, Return(q, pick)) == Budget(flags, d, q)
  {
    if pick.0 < |q.inFlight| && q.inFlight[pick.0].Decoded? {
      var r, e, i := Return(q, pick), q.inFlight[pick.0], pick.0;
      var back := r.entries[|q.entries|];
      assert r.entries[q.position..] == q.entries[q.position..] + [back];
      WeightConcat(flags, d, q.entries[q.position..], [back]);
      assert q.inFlight == q.inFlight[..i] + [e] + q.inFlight[i + 1..];
      WeightConcat(flags, d, q.inFlight[..i] + [e], q.inFlight[i + 1..]);
      WeightConcat(flags, d, q.inFlight[..i], [e]);
      WeightConcat(flags, d, q.inFlight[..i], q.inFlight[i + 1..]);
      WeightOne(flags, d, e);
      WeightOne(flags, d, back);
    }
  }

  lemma {:induction false} ReturnAllKeepsBudget(flags: Flags, d: nat, q: Queue, picks: seq<(nat, ErrorClass)>)
    requires InRange(q)
    ensures
      var r := ReturnAll(q, picks);
      InRange(r) && Budget(flags, d, r) == Budget(flags, d, q) && r.tally == q.tally
  {
    if picks != [] {
      ReturnAllKeepsBudget(flags, d, q, picks[..|picks| - 1]);
      ReturnKeepsBudget(flags, d, ReturnAll(q, picks[..|picks| - 1]), picks[|picks| - 1]);
    }
  }

  /** What one read does to the budget, by whether its message may come back. */
  lemma ReadWeighs(flags: Flags, d: nat, q: Queue, sending: Sending)
    requires q.position < |q.entries|
    ensures
      var r, e := ReadOne(flags, d, q, sending), q.entries[q.position];
      && InRange(r) && (r.sent != q.sent ==> e.Decoded?)
      && Budget(flags, d, r) == Budget(flags, d, q) - Weight(flags, d, e)
                                + if r.sent != q.sent then d * Weight(flags, d, AgainLetter(e)) else 0
  {
    var e, r := q.entries[q.position], ReadOne(flags, d, q, sending);
    assert q.entries[q.position..] == [e] + q.entries[q.position + 1..];
    WeightConcat(flags, d, [e], q.entries[q.position + 1..]);
    WeightOne(flags, d, e);
    if r.sent != q.sent {
      WeightConcat(flags, d, q.inFlight, Copies(e, d));
      WeightCopies(flags, d, e, d);
    }
  }

  /** The ceiling, or a dry run, keeps replayed letters from coming round for ever. */
  predicate Bounded(flags: Flags) { flags.maxReplays > 0 || flags.dryRun }

  /** Then every read spends some of the budget, even when its message comes back. */
  lemma ReadSpendsBudget(flags: Flags, d: nat, q: Queue, sending: Sending)
    requires Bounded(flags) && q.position < |q.entries|
    ensures InRange(ReadOne(flags, d, q, sending))
    ensures Budget(flags, d, ReadOne(flags, d, q, sending)) < Budget(flags, d, q)
  {
    ReadWeighs(flags, d, q, sending);
    var e := q.entries[q.position];
    if ReadOne(flags, d, q, sending).sent != q.sent {
      assert ReplaysLeft(flags, e) == ReplaysLeft(flags, AgainLetter(e)) + 1;
    }
  }

  /** A drain with a ceiling or a dry run ends: whatever comes back, however often and whenever,
      and whatever becomes of the publishes, it reads at most its initial budget. */
  lemma {:induction false} ReadsBounded(flags: Flags, d: nat, q: Queue, pulses: seq<Pulse>)
    requires Bounded(flags) && InRange(q)
    ensures
      var r := Run(flags, d, q, pulses);
      && InRange(r) && q.tally.read <= r.tally.read
      && r.tally.read - q.tally.read <= Budget(flags, d, q) - Budget(flags, d, r)
  {
    if pulses != [] {
      var before, pulse := pulses[..|pulses| - 1], pulses[|pulses| - 1];
      ReadsBounded(flags, d, q, before);
      var mid := Run(flags, d, q, before);
      ReturnAllKeepsBudget(flags, d, mid, pulse.comebacks);
      var arrived := ReturnAll(mid, pulse.comebacks);
      if !Stopped(flags, arrived) {
        ReadSpendsBudget(flags, d, arrived, pulse.sending);
      }
    }
  }

  // --- what a limit alone is worth -----------------------------------------

  /** The letters that lost acknowledgements can bring, d for each. */
  function Unforeseen(d: nat, pulses: seq<Pulse>): nat {
    if pulses == [] then 0
    else Unforeseen(d, pulses[..|pulses| - 1]) + if pulses[|pulses| - 1].sending.AcknowledgementLost? then d else 0
  }

  /** Letters on hand, and those the replays still allowed can bring. */
  function LimitBudget(flags: Flags, d: nat, q: Queue): nat
    requires InRange(q)
  {
    |q.entries| - q.position + |q.inFlight| + d * LimitLeft(flags, q)
  }

  function LimitLeft(flags: Flags, q: Queue): nat {
    if q.tally.replayed < flags.limit then flags.limit - q.tally.replayed else 0
  }

  lemma {:induction false} ReturnAllKeepsLetters(q: Queue, picks: seq<(nat, ErrorClass)>)
    requires InRange(q)
    ensures
      var r := ReturnAll(q, picks);
      && InRange(r) && r.tally == q.tally
      && |r.entries| - r.position + |r.inFlight| == |q.entries| - q.position + |q.inFlight|
  {
    if picks != [] {
      ReturnAllKeepsLetters(q, picks[..|picks| - 1]);
    }
  }

  lemma ReadSpendsLimit(flags: Flags, d: nat, q: Queue, sending: Sending)
    requires flags.limit > 0 && q.position < |q.entries| && !LimitReached(flags, q)
    ensures InRange(ReadOne(flags, d, q, sending))
    ensures LimitBudget(flags, d, ReadOne(flags, d, q, sending))
         <= LimitBudget(flags, d, q) - 1 + if sending.AcknowledgementLost? then d else 0
  {
    var r, left := ReadOne(flags, d, q, sending), LimitLeft(flags, q);
    OneLess(d, left);
    assert LimitLeft(flags, r) == if r.tally.replayed > q.tally.replayed then left - 1 else left;
    assert |r.inFlight| == |q.inFlight| + if r.sent != q.sent then d else 0;
  }

  lemma OneLess(d: nat, left: int)
    ensures d * left == d * (left - 1) + d
  {}

  lemma PulseSpendsLimit(flags: Flags, d: nat, q: Queue, pulse: Pulse)
    requires flags.limit > 0 && InRange(q)
    ensures
      var r := Iterate(flags, d, q, pulse);
      && InRange(r)
      && r.tally.read - q.tally.read
         <= LimitBudget(flags, d, q) - LimitBudget(flags, d, r) + if pulse.sending.AcknowledgementLost? then d else 0
  {
    ReturnAllKeepsLetters(q, pulse.comebacks);
    var arrived := ReturnAll(q, pulse.comebacks);
    if !Stopped(flags, arrived) {
      ReadSpendsLimit(flags, d, arrived, pulse.sending);
    }
  }

  /** With a limit and nothing else, reads are bounded only by what gets lost: each lost
      acknowledgement can bring d letters more. */
  lemma {:induction false} LimitBoundsByLosses(flags: Flags, d: nat, q: Queue, pulses: seq<Pulse>)
    requires flags.limit > 0 && InRange(q)
    ensures
      var r := Run(flags, d, q, pulses);
      && InRange(r)
      && r.tally.read - q.tally.read
         <= LimitBudget(flags, d, q) - LimitBudget(flags, d, r) + Unforeseen(d, pulses)
  {
    if pulses != [] {
      var before, pulse := pulses[..|pulses| - 1], pulses[|pulses| - 1];
      LimitBoundsByLosses(flags, d, q, before);
      PulseSpendsLimit(flags, d, Run(flags, d, q, before), pulse);
    }
  }

  // --- and when reads cannot be bounded ------------------------------------

  function Stubborn(flags: Flags): Entry {
    var failure := match flags.filter case Some(c) => c case None => RetryExhausted;
    Entry.Decoded(Letter(0, Malformed("", Deserialization), 0, 0, "", failure, 1), "topic")
  }

  function Comeback(flags: Flags): Pulse { Pulse([(0, Stubborn(flags).letter.errorClass)], AcknowledgementLost) }

  function Alone(flags: Flags): Queue { Queue([Stubborn(flags)], 0, [], [], [], Tally(0, 0, 0, 0, 0)) }

  /** Everything has been read, n times in all, each publish landed and reported an error, and
      letters are in flight again. */
  predicate Circling(flags: Flags, q: Queue, n: nat) {
    && q.tally == Tally(n, 0, 0, 0, n)
    && q.position == |q.entries| == n && q.inFlight != []
    && forall i :: 0 <= i < |q.inFlight| ==> q.inFlight[i].Decoded? && q.inFlight[i].topic == "topic"
  }

  lemma CircleOnce(flags: Flags, d: nat, q: Queue, n: nat)
    requires d >= 1 && !Bounded(flags) && (flags.target.Some? ==> flags.target.value != "")
    requires if n == 0 then q == Alone(flags) else Circling(flags, q, n)
    ensures Circling(flags, Iterate(flags, d, q, Comeback(flags)), n + 1)
  {
    var back := Comeback(flags).comebacks;
    assert back[..0] == [] && ReturnAll(q, back) == Return(q, back[0]);
    var arrived := Return(q, back[0]);
    assert arrived.position == n && |arrived.entries| == n + 1;
    assert arrived.entries[n].letter.errorClass == back[0].1;
    var r := ReadOne(flags, d, arrived, AcknowledgementLost);
    assert r.inFlight == arrived.inFlight + Copies(arrived.entries[n], d);
  }

  /** Without a ceiling and not dry, one letter can be read any number of times in one drain,
      whatever the limit is. */
  lemma {:induction false} StubbornLetterCircles(flags: Flags, d: nat, n: nat)
    requires d >= 1 && !Bounded(flags) && (flags.target.Some? ==> flags.target.value != "") && n >= 1
    ensures Circling(flags, Run(flags, d, Alone(flags), seq(n, _ => Comeback(flags))), n)
  {
    var pulses := seq(n, _ => Comeback(flags));
    assert pulses[..n - 1] == seq(n - 1, _ => Comeback(flags));
    if n > 1 {
      StubbornLetterCircles(flags, d, n - 1);
    }
    CircleOnce(flags, d, Run(flags, d, Alone(flags), pulses[..n - 1]), n - 1);
  }

  ghost predicate ReadsAtMost(flags: Flags, d: nat, q: Queue, bound: int) {
    forall pulses :: Run(flags, d, q, pulses).tally.read <= bound
  }

  /** The guard is exactly what termination needs: reads are bounded for every queue and every
      behaviour of the system if and only if a ceiling or a dry run is set; a limit is neither
      needed nor enough. (A target that is given is not empty.) */
  lemma BoundedExactly(flags: Flags, d: nat)
    requires d >= 1 && (flags.target.Some? ==> flags.target.value != "")
    ensures Bounded(flags) <==>
      forall q :: InRange(q) ==> exists bound :: ReadsAtMost(flags, d, q, bound)
  {
    if Bounded(flags) {
      forall q | InRange(q) ensures exists bound :: ReadsAtMost(flags, d, q, bound) {
        forall pulses ensures Run(flags, d, q, pulses).tally.read <= q.tally.read + Budget(flags, d, q) {
          ReadsBounded(flags, d, q, pulses);
        }
        assert ReadsAtMost(flags, d, q, q.tally.read + Budget(flags, d, q));
      }
    } else {
      assert InRange(Alone(flags));
      forall bound ensures !ReadsAtMost(flags, d, Alone(flags), bound) {
        var n := if bound < 0 then 1 else bound + 1;
        StubbornLetterCircles(flags, d, n);
        assert Run(flags, d, Alone(flags), seq(n, _ => Comeback(flags))).tally.read == n;
      }
    }
  }

  // --- what a drain does ---------------------------------------------------

  /** Every message sent carries the exact payload, key and next count of one letter that filter and
      ceiling let through, to the topic it came from or to the target; no letter is sent twice; every
      letter read is accounted for once, under what stopped it; what was sent is what was counted as
      replayed and at most what failed besides; and a drain without failures has sent every such
      letter it read. */
  ghost predicate Faithful(flags: Flags, q: Queue) {
    InRange(q) && Tallied(flags, q) && Sorted(flags, q) && Delivered(flags, q)
  }

  predicate Tallied(flags: Flags, q: Queue) {
    && q.tally.read == q.tally.replayed + q.tally.skipped + q.tally.exhausted + q.tally.failed
    && (flags.limit > 0 ==> q.tally.replayed <= flags.limit)
    && (flags.dryRun ==> q.sent == [])
    && (!flags.dryRun ==> q.tally.replayed <= |q.sent| <= q.tally.replayed + q.tally.failed)
  }

  predicate Filtered(flags: Flags, e: Entry) {
    e.Decoded? && flags.filter != None && e.letter.errorClass != flags.filter.value
  }

  predicate Spent(flags: Flags, e: Entry) {
    e.Decoded? && flags.maxReplays > 0 && e.letter.replayCount >= flags.maxReplays
  }

  predicate Homeless(flags: Flags, e: Entry) {
    e.Undecodable? || (if flags.target == None then e.topic == "" else flags.target.value == "")
  }

  function CountFiltered(flags: Flags, es: seq<Entry>): nat {
    if es == [] then 0
    else CountFiltered(flags, es[..|es| - 1]) + if Filtered(flags, es[|es| - 1]) then 1 else 0
  }

  function CountSpent(flags: Flags, es: seq<Entry>): nat {
    if es == [] then 0
    else
      var e := es[|es| - 1];
      CountSpent(flags, es[..|es| - 1]) + if !Filtered(flags, e) && Spent(flags, e) then 1 else 0
  }

  function CountHomeless(flags: Flags, es: seq<Entry>): nat {
    if es == [] then 0
    else
      var e := es[|es| - 1];
      CountHomeless(flags, es[..|es| - 1])
      + if !Filtered(flags, e) && !Spent(flags, e) && Homeless(flags, e) then 1 else 0
  }

  /** What was read is counted under what stopped it; a publish can fail besides, but not in a dry run. */
  predicate Sorted(flags: Flags, q: Queue)
    requires InRange(q)
  {
    var es := q.entries[..q.position];
    && q.tally.skipped == CountFiltered(flags, es) && q.tally.exhausted == CountSpent(flags, es)
    && q.tally.failed >= CountHomeless(flags, es) && (flags.dryRun ==> q.tally.failed == CountHomeless(flags, es))
  }

  predicate Traced(flags: Flags, q: Queue)
    requires InRange(q)
  {
    && |q.sent| == |q.origins|
    && (forall i, j :: 0 <= i < j < |q.origins| ==> q.origins[i] < q.origins[j])
    && (forall i :: 0 <= i < |q.origins| ==> SentFrom(flags, q, i))
  }

  ghost predicate Delivered(flags: Flags, q: Queue)
    requires InRange(q)
  {
    && Traced(flags, q)
    && (!flags.dryRun && q.tally.failed == 0 ==> AllSent(flags, q))
  }

  /** Nothing stops this letter. */
  predicate Passes(flags: Flags, e: Entry) { !Filtered(flags, e) && !Spent(flags, e) && !Homeless(flags, e) }

  predicate AllSent(flags: Flags, q: Queue)
    requires InRange(q)
  {
    forall o :: 0 <= o < q.position && Passes(flags, q.entries[o]) ==> o in q.origins
  }

  predicate SentFrom(flags: Flags, q: Queue, i: nat)
    requires i < |q.sent| == |q.origins|
  {
    var o := q.origins[i];
    && o < q.position <= |q.entries| && Passes(flags, q.entries[o])
    && var e := q.entries[o];
       && q.sent[i].topic == (if flags.target == None then e.topic else flags.target.value)
       && q.sent[i].rec.key == e.letter.key && q.sent[i].rec.value == e.letter.payload
       && ReplayCount(q.sent[i].rec.headers) == e.letter.replayCount + 1
  }

  lemma PassesIsEligible(flags: Flags, e: Entry)
    ensures Passes(flags, e) <==> Eligible(flags, e)
  {
  }

  lemma {:induction false} ReturnAllAppends(q: Queue, picks: seq<(nat, ErrorClass)>)
    ensures
      var r := ReturnAll(q, picks);
      && q.entries <= r.entries && r.position == q.position
      && r.sent == q.sent && r.origins == q.origins && r.tally == q.tally
  {
    if picks != [] {
      ReturnAllAppends(q, picks[..|picks| - 1]);
    }
  }

  lemma ReturnAllKeepsFaithful(flags: Flags, q: Queue, picks: seq<(nat, ErrorClass)>)
    requires Faithful(flags, q)
    ensures Faithful(flags, ReturnAll(q, picks))
  {
    var r := ReturnAll(q, picks);
    ReturnAllAppends(q, picks);
    assert r.entries[..q.position] == q.entries[..q.position];
    forall i | 0 <= i < |r.origins| ensures SentFrom(flags, r, i) {
      assert SentFrom(flags, q, i);
    }
  }

  lemma ReadKeepsTallied(flags: Flags, d: nat, q: Queue, sending: Sending)
    requires Tallied(flags, q) && q.position < |q.entries| && !LimitReached(flags, q)
    ensures Tallied(flags, ReadOne(flags, d, q, sending))
  {}

  lemma ReadKeepsSorted(flags: Flags, d: nat, q: Queue, sending: Sending)
    requires q.position < |q.entries| && Sorted(flags, q)
    ensures InRange(ReadOne(flags, d, q, sending)) && Sorted(flags, ReadOne(flags, d, q, sending))
  {
    assert q.entries[..q.position + 1][..q.position] == q.entries[..q.position];
  }

  lemma SentStays(flags: Flags, q: Queue, r: Queue, i: nat)
    requires InRange(q) && InRange(r) && r.entries == q.entries && q.position <= r.position
    requires |q.sent| == |q.origins| && |r.sent| == |r.origins| && q.sent <= r.sent && q.origins <= r.origins
    requires i < |q.sent| && SentFrom(flags, q, i)
    ensures SentFrom(flags, r, i) && r.origins[i] < q.position
  {
    assert r.sent[i] == q.sent[i] && r.origins[i] == q.origins[i];
  }

  lemma ReadSends(flags: Flags, d: nat, q: Queue, sending: Sending)
    requires InRange(q) && |q.sent| == |q.origins| && q.position < |q.entries|
    ensures
      var r := ReadOne(flags, d, q, sending);
      && InRange(r) && r.entries == q.entries && r.position == q.position + 1
      && ((r.sent == q.sent && r.origins == q.origins)
          || (|r.sent| == |q.sent| + 1 && q.sent <= r.sent && r.origins == q.origins + [q.position]
              && SentFrom(flags, r, |q.sent|)))
  {
    var e := q.entries[q.position];
    PassesIsEligible(flags, e);
    if e.Decoded? {
      ReplayCountRoundTrip(e.letter.replayCount + 1);
    }
  }

  lemma ReadKeepsTraced(flags: Flags, d: nat, q: Queue, sending: Sending)
    requires InRange(q) && Traced(flags, q) && q.position < |q.entries|
    ensures Traced(flags, ReadOne(flags, d, q, sending))
  {
    var r := ReadOne(flags, d, q, sending);
    ReadSends(flags, d, q, sending);
    forall i | 0 <= i < |q.origins| ensures SentFrom(flags, r, i) && r.origins[i] < q.position {
      SentStays(flags, q, r, i);
    }
  }

  lemma ReadKeepsDelivered(flags: Flags, d: nat, q: Queue, sending: Sending)
    requires InRange(q) && Delivered(flags, q) && q.position < |q.entries|
    ensures Delivered(flags, ReadOne(flags, d, q, sending))
  {
    var r := ReadOne(flags, d, q, sending);
    ReadKeepsTraced(flags, d, q, sending);
    if !flags.dryRun && r.tally.failed == 0 {
      ReadKeepsAllSent(flags, d, q, sending);
    }
  }

  lemma ReadKeepsAllSent(flags: Flags, d: nat, q: Queue, sending: Sending)
    requires q.position < |q.entries| && AllSent(flags, q) && !flags.dryRun
    requires ReadOne(flags, d, q, sending).tally.failed == q.tally.failed
    ensures AllSent(flags, ReadOne(flags, d, q, sending))
  {
    var r, at := ReadOne(flags, d, q, sending), q.position;
    PassesIsEligible(flags, q.entries[at]);
    if Passes(flags, q.entries[at]) {
      assert r.origins == q.origins + [at];
    }
    forall o | 0 <= o < r.position && Passes(flags, r.entries[o]) ensures o in r.origins {
      assert o < at ==> o in q.origins;
    }
  }

  lemma {:induction false} DrainIsFaithful(flags: Flags, d: nat, q: Queue, pulses: seq<Pulse>)
    requires Faithful(flags, q)
    ensures Faithful(flags, Run(flags, d, q, pulses))
  {
    if pulses != [] {
      var before, pulse := pulses[..|pulses| - 1], pulses[|pulses| - 1];
      DrainIsFaithful(flags, d, q, before);
      ReturnAllKeepsFaithful(flags, Run(flags, d, q, before), pulse.comebacks);
      var arrived := ReturnAll(Run(flags, d, q, before), pulse.comebacks);
      if !Stopped(flags, arrived) {
        ReadKeepsTallied(flags, d, arrived, pulse.sending);
        ReadKeepsSorted(flags, d, arrived, pulse.sending);
        ReadKeepsDelivered(flags, d, arrived, pulse.sending);
      }
    }
  }
}
