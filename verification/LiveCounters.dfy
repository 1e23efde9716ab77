/** The live-session hash: counters incremented once per pitch, against the same numbers
    recomputed from the rows. */
module LiveCounters {
  import opened Wrappers
  import opened PitchTable

  datatype Field = PitchCount | SumSpeed | CountSpeed | SumSpin | CountSpin | SumScore | CountScore | WhiffCount

  /** One session's hash; an absent field reads as zero. */
  type Hash = map<Field, real>

  datatype Command = Incr(field: Field, amount: real)

  /** The increments RecordPitch pipelines, in order. A missing reading sends nothing. */
  function Commands(row: Row): seq<Command> {
    [Incr(PitchCount, 1.0)]
    + (match row.speed case None => [] case Some(v) => [Incr(SumSpeed, v), Incr(CountSpeed, 1.0)])
    + (match row.spin case None => [] case Some(v) => [Incr(SumSpin, v), Incr(CountSpin, 1.0)])
    + (match row.answer case None => [] case Some(a) => [Incr(SumScore, a.score), Incr(CountScore, 1.0)])
    + (if row.whiff then [Incr(WhiffCount, 1.0)] else [])
  }

  function Get(h: Hash, f: Field): real { if f in h then h[f] else 0.0 }

  function Execute(h: Hash, commands: seq<Command>): Hash {
    if commands == [] then h
    else
      var c := commands[|commands| - 1];
      var before := Execute(h, commands[..|commands| - 1]);
      before[c.field := Get(before, c.field) + c.amount]
  }

  /** average: a sum over its own count; nothing when the count is zero or the sum is absent. */
  function Average(h: Hash, sum: Field, count: Field): Option<real> {
    if Get(h, count) <= 0.0 || sum !in h then None else Some(h[sum] / Get(h, count))
  }

  // --- the same numbers from the rows --------------------------------------

  /** What one row adds to a field; for the scores, what the answer held for it does. */
  function Contribution(row: Row, f: Field): real {
    match f
    case PitchCount => 1.0
    case SumSpeed => if row.speed.Some? then row.speed.value else 0.0
    case CountSpeed => if row.speed.Some? then 1.0 else 0.0
    case SumSpin => if row.spin.Some? then row.spin.value else 0.0
    case CountSpin => if row.spin.Some? then 1.0 else 0.0
    case SumScore => if row.answer.Some? then row.answer.value.score else 0.0
    case CountScore => if row.answer.Some? then 1.0 else 0.0
    case WhiffCount => if row.whiff then 1.0 else 0.0
  }

  function Total(t: Table, session: string, f: Field): real {
    if t == [] then 0.0
    else
      Total(t[..|t| - 1], session, f)
      + if t[|t| - 1].session == session then Contribution(t[|t| - 1], f) else 0.0
  }

  /** The average over the rows with a reading; nothing when there are none. */
  function RowAverage(t: Table, session: string, sum: Field, count: Field): Option<real> {
    if Total(t, session, count) <= 0.0 then None
    else Some(Total(t, session, sum) / Total(t, session, count))
  }

  // --- the ledger tying the two --------------------------------------------

  /** One row's increment of one field has reached the hash that now stands under the key. */
  datatype Credit = Credit(session: string, uid: string, field: Field)

  function CreditedTotal(t: Table, session: string, f: Field, credits: set<Credit>): real {
    if t == [] then 0.0
    else
      var row := t[|t| - 1];
      CreditedTotal(t[..|t| - 1], session, f, credits)
      + if row.session == session && Credit(session, row.uid, f) in credits then Contribution(row, f) else 0.0
  }

  predicate HashAgrees(h: Hash, t: Table, session: string, credits: set<Credit>) {
    forall f: Field :: Get(h, f) == CreditedTotal(t, session, f, credits)
  }

  function CreditsOf(row: Row, commands: seq<Command>): set<Credit> {
    set i | 0 <= i < |commands| :: Credit(row.session, row.uid, commands[i].field)
  }

  lemma {:induction false} UnseenCreditChangesNothing(
    t: Table, session: string, f: Field, credits: set<Credit>, c: Credit)
    requires c.session != session || c.field != f || !Has(t, c.uid) || c in credits
    ensures CreditedTotal(t, session, f, credits + {c}) == CreditedTotal(t, session, f, credits)
  {
    if t != [] {
      var before := t[..|t| - 1];
      assert forall i :: 0 <= i < |before| ==> before[i] == t[i];
      if c !in credits && c.session == session && c.field == f {
        assert t[|t| - 1].uid != c.uid;
      }
      UnseenCreditChangesNothing(before, session, f, credits, c);
    }
  }

  lemma {:induction false} CreditAddsContribution(
    t: Table, i: nat, f: Field, credits: set<Credit>)
    requires UniqueUids(t) && i < |t|
    requires Credit(t[i].session, t[i].uid, f) !in credits
    ensures CreditedTotal(t, t[i].session, f, credits + {Credit(t[i].session, t[i].uid, f)})
         == CreditedTotal(t, t[i].session, f, credits) + Contribution(t[i], f)
  {
    var last := |t| - 1;
    var c := Credit(t[i].session, t[i].uid, f);
    if i == last {
      assert !Has(t[..last], c.uid);
      UnseenCreditChangesNothing(t[..last], t[i].session, f, credits, c);
    } else {
      CreditAddsContribution(t[..last], i, f, credits);
    }
  }

  /** Each field appears at most once, with the row's contribution. */
  predicate Fits(row: Row, commands: seq<Command>) {
    && (forall k :: 0 <= k < |commands| ==> commands[k].amount == Contribution(row, commands[k].field))
    && (forall j, k :: 0 <= j < k < |commands| ==> commands[j].field != commands[k].field)
  }

  lemma CommandsContribute(row: Row)
    ensures forall k :: 0 <= k < |Commands(row)| ==>
      Commands(row)[k].amount == Contribution(row, Commands(row)[k].field)
  {
  }

  lemma CommandsFit(row: Row)
    ensures Fits(row, Commands(row))
  {
    CommandsContribute(row);
  }

  lemma CreditsGrow(row: Row, commands: seq<Command>, c: Command)
    ensures CreditsOf(row, commands + [c]) == CreditsOf(row, commands) + {Credit(row.session, row.uid, c.field)}
  {
    var all := commands + [c];
    forall x | x in CreditsOf(row, commands) ensures x in CreditsOf(row, all) {
      var i :| 0 <= i < |commands| && x == Credit(row.session, row.uid, commands[i].field);
      assert all[i] == commands[i];
    }
    assert all[|commands|] == c;
  }

  /** One more command adds its contribution, and credits it. */
  lemma IncrementAgrees(h: Hash, t: Table, i: nat, c: Command, credits: set<Credit>)
    requires UniqueUids(t) && i < |t| && HashAgrees(h, t, t[i].session, credits)
    requires c.amount == Contribution(t[i], c.field) && Credit(t[i].session, t[i].uid, c.field) !in credits
    ensures HashAgrees(h[c.field := Get(h, c.field) + c.amount], t, t[i].session,
                       credits + {Credit(t[i].session, t[i].uid, c.field)})
  {
    CreditAddsContribution(t, i, c.field, credits);
    forall f: Field | f != c.field {
      UnseenCreditChangesNothing(t, t[i].session, f, credits, Credit(t[i].session, t[i].uid, c.field));
    }
  }

  lemma CreditIsNew(row: Row, commands: seq<Command>, c: Command, credits: set<Credit>)
    requires Fits(row, commands + [c]) && Credit(row.session, row.uid, c.field) !in credits
    ensures Credit(row.session, row.uid, c.field) !in credits + CreditsOf(row, commands)
    ensures credits + CreditsOf(row, commands + [c])
         == credits + CreditsOf(row, commands) + {Credit(row.session, row.uid, c.field)}
  {
    CreditsGrow(row, commands, c);
    var all := commands + [c];
    assert forall j :: 0 <= j < |commands| ==> all[j] == commands[j] && all[j].field != all[|commands|].field;
  }

  lemma {:induction false} ExecuteAgrees(h: Hash, t: Table, i: nat, commands: seq<Command>, credits: set<Credit>)
    requires UniqueUids(t) && i < |t| && Fits(t[i], commands) && HashAgrees(h, t, t[i].session, credits)
    requires forall f: Field :: Credit(t[i].session, t[i].uid, f) !in credits
    ensures HashAgrees(Execute(h, commands), t, t[i].session, credits + CreditsOf(t[i], commands))
  {
    if commands == [] {
      assert credits + CreditsOf(t[i], commands) == credits;
    } else {
      var before, c := commands[..|commands| - 1], commands[|commands| - 1];
      ExecuteAgrees(h, t, i, before, credits);
      assert commands == before + [c];
      CreditIsNew(t[i], before, c, credits);
      IncrementAgrees(Execute(h, before), t, i, c, credits + CreditsOf(t[i], before));
    }
  }

  /** Executing any prefix of a row's commands credits exactly those increments. */
  lemma ExecuteKeepsAgreement(
    h: Hash, t: Table, i: nat, k: nat, session: string, credits: set<Credit>)
    requires UniqueUids(t) && i < |t| && k <= |Commands(t[i])|
    requires session == t[i].session && HashAgrees(h, t, session, credits)
    requires forall f: Field :: Credit(session, t[i].uid, f) !in credits
    ensures HashAgrees(Execute(h, Commands(t[i])[..k]), t, session,
                       credits + CreditsOf(t[i], Commands(t[i])[..k]))
  {
    CommandsFit(t[i]);
    ExecuteAgrees(h, t, i, Commands(t[i])[..k], credits);
  }

  lemma {:induction false} CommandsCover(row: Row, f: Field)
    requires Contribution(row, f) != 0.0
    ensures exists k :: 0 <= k < |Commands(row)| && Commands(row)[k].field == f
  {
    var all := Commands(row);
    assert all[0].field == PitchCount;
    var afterSpeed := if row.speed.Some? then 3 else 1;
    var afterSpin := if row.spin.Some? then afterSpeed + 2 else afterSpeed;
    if row.speed.Some? {
      assert all[1].field == SumSpeed && all[2].field == CountSpeed;
    }
    if row.spin.Some? {
      assert all[afterSpeed].field == SumSpin && all[afterSpeed + 1].field == CountSpin;
    }
    var afterScore := if row.answer.Some? then afterSpin + 2 else afterSpin;
    if row.answer.Some? {
      assert all[afterSpin].field == SumScore && all[afterSpin + 1].field == CountScore;
    }
    if row.whiff {
      assert all[afterScore].field == WhiffCount;
    }
  }

  /** A stored row that no command has counted yet leaves every hash in agreement. */
  lemma AppendKeepsAgreement(h: Hash, t: Table, row: Row, session: string, credits: set<Credit>)
    requires HashAgrees(h, t, session, credits)
    requires forall f: Field :: Credit(row.session, row.uid, f) !in credits
    ensures HashAgrees(h, t + [row], session, credits)
  {
    assert (t + [row])[..|t|] == t;
  }

  /** A total depends only on the credits of its own session. */
  lemma {:induction false} SameCreditsSameTotal(
    t: Table, session: string, f: Field, credits: set<Credit>, others: set<Credit>)
    requires forall uid :: Credit(session, uid, f) in credits <==> Credit(session, uid, f) in others
    ensures CreditedTotal(t, session, f, credits) == CreditedTotal(t, session, f, others)
  {
    if t != [] {
      SameCreditsSameTotal(t[..|t| - 1], session, f, credits, others);
    }
  }

  lemma {:induction false} NoCreditsNoTotal(t: Table, session: string, f: Field, credits: set<Credit>)
    requires forall c :: c in credits ==> c.session != session
    ensures CreditedTotal(t, session, f, credits) == 0.0
  {
    if t != [] {
      NoCreditsNoTotal(t[..|t| - 1], session, f, credits);
    }
  }

  predicate IsCount(f: Field) {
    f == PitchCount || f == CountSpeed || f == CountSpin || f == CountScore || f == WhiffCount
  }

  lemma {:induction false} CreditedAtMostTotal(t: Table, session: string, f: Field, credits: set<Credit>)
    requires IsCount(f)
    ensures 0.0 <= CreditedTotal(t, session, f, credits) <= Total(t, session, f)
  {
    if t != [] {
      CreditedAtMostTotal(t[..|t| - 1], session, f, credits);
    }
  }

  predicate RowCredited(row: Row, credits: set<Credit>) {
    forall f: Field :: Contribution(row, f) != 0.0 ==> Credit(row.session, row.uid, f) in credits
  }

  predicate FullyCredited(t: Table, session: string, credits: set<Credit>) {
    forall i :: 0 <= i < |t| && t[i].session == session ==> RowCredited(t[i], credits)
  }

  /** A row whose every command was executed is credited in full. */
  lemma AllCommandsCredit(row: Row)
    ensures RowCredited(row, CreditsOf(row, Commands(row)))
  {
    forall f: Field | Contribution(row, f) != 0.0
      ensures Credit(row.session, row.uid, f) in CreditsOf(row, Commands(row))
    {
      CommandsCover(row, f);
    }
  }

  lemma {:induction false} CreditedEqualsTotal(t: Table, session: string, f: Field, credits: set<Credit>)
    requires FullyCredited(t, session, credits)
    ensures CreditedTotal(t, session, f, credits) == Total(t, session, f)
  {
    if t != [] {
      var before := t[..|t| - 1];
      assert forall i :: 0 <= i < |before| ==> before[i] == t[i];
      CreditedEqualsTotal(before, session, f, credits);
      assert t[|t| - 1].session == session ==> RowCredited(t[|t| - 1], credits);
    }
  }

  /** A hash never holds a count without its sum: the sum is incremented first. */
  predicate Shaped(h: Hash) {
    && (CountSpeed in h ==> SumSpeed in h)
    && (CountSpin in h ==> SumSpin in h)
    && (CountScore in h ==> SumScore in h)
  }

  function SumOf(f: Field): Field {
    match f case CountSpeed => SumSpeed case CountSpin => SumSpin case CountScore => SumScore case _ => f
  }

  /** A count comes right after its sum. */
  predicate Paired(commands: seq<Command>) { forall i :: 0 <= i < |commands| ==> PairedAt(commands, i) }

  predicate PairedAt(commands: seq<Command>, i: nat)
    requires i < |commands|
  {
    var f := commands[i].field;
    f == SumOf(f) || (i > 0 && commands[i - 1].field == SumOf(f))
  }

  lemma CommandsPaired(row: Row)
    ensures Paired(Commands(row))
  {
  }

  lemma {:induction false} ExecuteKeepsShape(h: Hash, commands: seq<Command>)
    requires Shaped(h) && Paired(commands)
    ensures Shaped(Execute(h, commands)) && h.Keys <= Execute(h, commands).Keys
    ensures commands != [] ==> commands[|commands| - 1].field in Execute(h, commands)
  {
    if commands != [] {
      var before := commands[..|commands| - 1];
      forall i | 0 <= i < |before| ensures PairedAt(before, i) {
        assert PairedAt(commands, i);
      }
      ExecuteKeepsShape(h, before);
      assert PairedAt(commands, |before|);
    }
  }

  /** A hash that has seen every row of a session gives the averages PostgreSQL gives:
      over the rows that have a reading, and nothing when none has. */
  lemma AveragesAgree(h: Hash, t: Table, session: string, credits: set<Credit>)
    requires Shaped(h) && HashAgrees(h, t, session, credits) && FullyCredited(t, session, credits)
    ensures forall f: Field :: Get(h, f) == Total(t, session, f)
    ensures Average(h, SumSpeed, CountSpeed) == RowAverage(t, session, SumSpeed, CountSpeed)
    ensures Average(h, SumSpin, CountSpin) == RowAverage(t, session, SumSpin, CountSpin)
    ensures Average(h, SumScore, CountScore) == RowAverage(t, session, SumScore, CountScore)
  {
    forall f: Field ensures Get(h, f) == Total(t, session, f) {
      CreditedEqualsTotal(t, session, f, credits);
    }
  }
}
