/** Replay tapes: lines grouped into outings in the order they are first seen, each outing
    stably sorted by at-bat and pitch number. */
module Tape {
  import opened Wrappers
  import Decimal

  datatype Context = Context(inning: int, strikes: int, on1B: bool, on2B: bool, on3B: bool)

  /** rest stands for the fields that are passed through untouched. */
  datatype Record = Record(
    gameRef: string, atBat: int, pitchNumber: int, date: string,
    sessionUid: string, pitcher: int, opponent: string, context: Context, rest: int)

  datatype Line = Blank | Undecodable | Decoded(rec: Record)

  datatype Session = Session(
    uid: string, pitcher: int, gameRef: string, date: string, opponent: string, pitches: seq<Record>)

  datatype TapeError = NotDecodable(line: nat) | NoSessionUid(line: nat) | ReadFailed | EmptyTape

  // --- stable sorting ------------------------------------------------------

  type Key = (int, int)

  function KeyOf(r: Record): Key { (r.atBat, r.pitchNumber) }

  predicate Before(a: Key, b: Key) { a.0 < b.0 || (a.0 == b.0 && a.1 < b.1) }

  function Insert(s: seq<Record>, r: Record): (t: seq<Record>)
    ensures |t| == |s| + 1
  {
    if s == [] || !Before(KeyOf(r), KeyOf(s[|s| - 1])) then s + [r]
    else Insert(s[..|s| - 1], r) + [s[|s| - 1]]
  }

  function StableSort(s: seq<Record>): (t: seq<Record>)
    ensures |t| == |s|
  {
    if s == [] then [] else Insert(StableSort(s[..|s| - 1]), s[|s| - 1])
  }

  predicate Sorted(s: seq<Record>) { forall i, j :: 0 <= i < j < |s| ==> !Before(KeyOf(s[j]), KeyOf(s[i])) }

  /** The records with one key, in order. */
  function WithKey(s: seq<Record>, k: Key): seq<Record> {
    if s == [] then []
    else WithKey(s[..|s| - 1], k) + if KeyOf(s[|s| - 1]) == k then [s[|s| - 1]] else []
  }

  predicate NoneAfter(s: seq<Record>, k: Key) { forall i :: 0 <= i < |s| ==> !Before(k, KeyOf(s[i])) }

  lemma {:induction false} InsertBounded(s: seq<Record>, r: Record, k: Key)
    requires NoneAfter(s, k) && !Before(k, KeyOf(r))
    ensures NoneAfter(Insert(s, r), k)
  {
    if s != [] && Before(KeyOf(r), KeyOf(s[|s| - 1])) {
      InsertBounded(s[..|s| - 1], r, k);
    }
  }

  lemma {:induction false} InsertSorts(s: seq<Record>, r: Record)
    requires Sorted(s)
    ensures Sorted(Insert(s, r))
  {
    if s != [] {
      var before, last := s[..|s| - 1], s[|s| - 1];
      if Before(KeyOf(r), KeyOf(last)) {
        InsertSorts(before, r);
        InsertBounded(before, r, KeyOf(last));
      } else {
        forall i | 0 <= i < |s| ensures !Before(KeyOf(r), KeyOf(s[i])) {
          assert i < |s| - 1 ==> !Before(KeyOf(last), KeyOf(s[i]));
        }
      }
    }
  }

  lemma {:induction false} InsertKeepsKeys(s: seq<Record>, r: Record, k: Key)
    requires Sorted(s)
    ensures WithKey(Insert(s, r), k) == WithKey(s + [r], k)
  {
    assert (s + [r])[..|s|] == s;
    if s != [] && Before(KeyOf(r), KeyOf(s[|s| - 1])) {
      var before, last := s[..|s| - 1], s[|s| - 1];
      InsertKeepsKeys(before, r, k);
      assert (before + [r])[..|before|] == before;
      assert Insert(s, r)[..|s|] == Insert(before, r);
    }
  }

  /** Sorting orders by key and keeps every key's records in their order: a stable permutation. */
  lemma {:induction false} SortIsStable(s: seq<Record>, k: Key)
    ensures Sorted(StableSort(s)) && WithKey(StableSort(s), k) == WithKey(s, k)
  {
    if s != [] {
      var before, last := s[..|s| - 1], s[|s| - 1];
      SortIsStable(before, k);
      InsertSorts(StableSort(before), last);
      InsertKeepsKeys(StableSort(before), last, k);
      assert (StableSort(before) + [last])[..|before|] == StableSort(before);
    }
  }

  lemma {:induction false} InsertKeeps(s: seq<Record>, r: Record)
    ensures multiset(Insert(s, r)) == multiset(s) + multiset{r}
  {
    if s != [] && Before(KeyOf(r), KeyOf(s[|s| - 1])) {
      InsertKeeps(s[..|s| - 1], r);
      assert s == s[..|s| - 1] + [s[|s| - 1]];
    }
  }

  lemma {:induction false} SortKeeps(s: seq<Record>)
    ensures multiset(StableSort(s)) == multiset(s)
  {
    if s != [] {
      SortKeeps(s[..|s| - 1]);
      InsertKeeps(StableSort(s[..|s| - 1]), s[|s| - 1]);
      assert s == s[..|s| - 1] + [s[|s| - 1]];
    }
  }

  // --- grouping ------------------------------------------------------------

  function RecordOf(line: Line): seq<Record> {
    match line case Decoded(r) => [r] case Blank => [] case Undecodable => []
  }

  /** The records of the lines, blank ones left out. */
  function Records(lines: seq<Line>): seq<Record> {
    if lines == [] then [] else Records(lines[..|lines| - 1]) + RecordOf(lines[|lines| - 1])
  }

  lemma RecordsGrow(lines: seq<Line>, n: nat)
    requires n < |lines|
    ensures Records(lines[..n + 1]) == Records(lines[..n]) + RecordOf(lines[n])
  {
    assert lines[..n + 1][..n] == lines[..n];
  }

  predicate Bad(line: Line) { line.Undecodable? || (line.Decoded? && line.rec.sessionUid == "") }

  /** Session identifiers in the order they are first seen. */
  function FirstSeen(rs: seq<Record>): seq<string> {
    if rs == [] then []
    else
      var before, uid := FirstSeen(rs[..|rs| - 1]), rs[|rs| - 1].sessionUid;
      if uid in before then before else before + [uid]
  }

  function Group(rs: seq<Record>, uid: string): seq<Record> {
    if rs == [] then []
    else Group(rs[..|rs| - 1], uid) + if rs[|rs| - 1].sessionUid == uid then [rs[|rs| - 1]] else []
  }

  /** An outing takes its header from its first record. */
  function Headed(uid: string, pitches: seq<Record>): Session
    requires pitches != []
  {
    Session(uid, pitches[0].pitcher, pitches[0].gameRef, pitches[0].date, pitches[0].opponent, pitches)
  }

  function SortedSession(s: Session): Session { s.(pitches := StableSort(s.pitches)) }

  /** The tape the lines describe. */
  ghost predicate Describes(rs: seq<Record>, tape: seq<Session>) {
    && |tape| == |FirstSeen(rs)|
    && forall i :: 0 <= i < |tape| ==>
      var uid := FirstSeen(rs)[i];
      Group(rs, uid) != [] && tape[i] == SortedSession(Headed(uid, Group(rs, uid)))
  }

  lemma {:induction false} GroupsAreSeen(rs: seq<Record>, uid: string)
    ensures uid in FirstSeen(rs) <==> Group(rs, uid) != []
  {
    if rs != [] {
      GroupsAreSeen(rs[..|rs| - 1], uid);
    }
  }

  /** Each session seen so far has its header and its records. */
  ghost predicate Grouped(rs: seq<Record>, byUid: map<string, Session>, order: seq<string>) {
    && order == FirstSeen(rs)
    && (forall uid :: uid in byUid <==> uid in order)
    && (forall uid :: uid in byUid ==> Group(rs, uid) != [] && byUid[uid] == Headed(uid, Group(rs, uid)))
  }

  lemma KnownSessionGrows(rs: seq<Record>, byUid: map<string, Session>, order: seq<string>, rec: Record)
    requires Grouped(rs, byUid, order) && rec.sessionUid in byUid
    ensures
      var s := byUid[rec.sessionUid];
      Grouped(rs + [rec], byUid[s.uid := s.(pitches := s.pitches + [rec])], order)
  {
    var s := byUid[rec.sessionUid];
    var grown := byUid[s.uid := s.(pitches := s.pitches + [rec])];
    SeenGrows(rs, rec);
    forall u | u in grown ensures Group(rs + [rec], u) != [] && grown[u] == Headed(u, Group(rs + [rec], u)) {
      GroupGrows(rs, rec, u);
    }
  }

  lemma NewSessionStarts(rs: seq<Record>, byUid: map<string, Session>, order: seq<string>, rec: Record)
    requires Grouped(rs, byUid, order) && rec.sessionUid !in byUid
    ensures Grouped(rs + [rec], byUid[rec.sessionUid := Headed(rec.sessionUid, [rec])], order + [rec.sessionUid])
  {
    var uid := rec.sessionUid;
    var grown := byUid[uid := Headed(uid, [rec])];
    SeenGrows(rs, rec);
    GroupsAreSeen(rs, uid);
    forall u | u in grown ensures Group(rs + [rec], u) != [] && grown[u] == Headed(u, Group(rs + [rec], u)) {
      GroupGrows(rs, rec, u);
      assert [] + [rec] == [rec];
    }
  }

  method AddRecord(byUid: map<string, Session>, order: seq<string>, rec: Record, ghost rs: seq<Record>)
    returns (byUid': map<string, Session>, order': seq<string>)
    requires Grouped(rs, byUid, order)
    ensures Grouped(rs + [rec], byUid', order')
  {
    var uid := rec.sessionUid;
    if uid in byUid {
      KnownSessionGrows(rs, byUid, order, rec);
      return byUid[uid := byUid[uid].(pitches := byUid[uid].pitches + [rec])], order;
    }
    NewSessionStarts(rs, byUid, order, rec);
    return byUid[uid := Session(uid, rec.pitcher, rec.gameRef, rec.date, rec.opponent, [rec])], order + [uid];
  }

  /** Every line up to the n-th is blank or a record with a session. */
  predicate GoodUpTo(lines: seq<Line>, n: nat)
    requires n <= |lines|
  {
    forall i :: 0 <= i < n ==> !Bad(lines[i])
  }

  /** The error names a bad line before which there is none. */
  predicate FirstBad(lines: seq<Line>, e: TapeError) {
    && (e.NotDecodable? || e.NoSessionUid?)
    && 1 <= e.line <= |lines| && GoodUpTo(lines, e.line - 1) && Bad(lines[e.line - 1])
    && (e.NotDecodable? <==> lines[e.line - 1].Undecodable?)
  }

  method ReadLine(
    line: Line, number: nat, byUid: map<string, Session>, order: seq<string>, ghost rs: seq<Record>)
    returns (byUid': map<string, Session>, order': seq<string>, error: Option<TapeError>)
    requires Grouped(rs, byUid, order)
    ensures error.Some? <==> Bad(line)
    ensures error.Some? ==> error.value == if line.Undecodable? then NotDecodable(number) else NoSessionUid(number)
    ensures error.None? ==> Grouped(rs + RecordOf(line), byUid', order')
  {
    byUid', order', error := byUid, order, None;
    match line
    case Blank =>
      assert rs + [] == rs;
    case Undecodable =>
      error := Some(NotDecodable(number));
    case Decoded(rec) =>
      if rec.sessionUid == "" {
        error := Some(NoSessionUid(number));
      } else {
        byUid', order' := AddRecord(byUid, order, rec, rs);
      }
  }

  method GroupLines(lines: seq<Line>)
    returns (byUid: map<string, Session>, order: seq<string>, error: Option<TapeError>)
    ensures error.None? ==> GoodUpTo(lines, |lines|) && Grouped(Records(lines), byUid, order)
    ensures error.Some? ==> FirstBad(lines, error.value)
  {
    byUid, order, error := map[], [], None;
    ghost var rs := [];
    var n := 0;
    while n < |lines|
      invariant n <= |lines| && error == None && GoodUpTo(lines, n)
      invariant rs == Records(lines[..n]) && Grouped(rs, byUid, order)
    {
      RecordsGrow(lines, n);
      byUid, order, error := ReadLine(lines[n], n + 1, byUid, order, rs);
      if error.Some? {
        return;
      }
      rs := rs + RecordOf(lines[n]);
      n := n + 1;
    }
    assert lines[..n] == lines;
  }

  /** Reading stops at the first bad line and says which it is; otherwise every outing is there,
      in first-seen order, with its own records. broken tells that the scanner gave up after
      these lines, as it does on a line that is too long. */
  method ReadTape(lines: seq<Line>, broken: bool) returns (r: Result<seq<Session>, TapeError>)
    ensures r.Ok? <==> GoodUpTo(lines, |lines|) && !broken && Records(lines) != []
    ensures r.Ok? ==> Describes(Records(lines), r.value)
    ensures r.Err? && !GoodUpTo(lines, |lines|) ==> FirstBad(lines, r.error)
    ensures r.Err? && GoodUpTo(lines, |lines|) ==> r.error == if broken then ReadFailed else EmptyTape
  {
    var byUid, order, error := GroupLines(lines);
    if error.Some? {
      return Err(error.value);
    }
    if broken {
      return Err(ReadFailed);
    }
    if order == [] {
      assert Records(lines) != [] ==> FirstSeen(Records(lines)) != [];
      return Err(EmptyTape);
    }
    var tape := SortSessions(byUid, order, Records(lines));
    r := Ok(tape);
  }

  method SortSessions(byUid: map<string, Session>, order: seq<string>, ghost rs: seq<Record>)
    returns (tape: seq<Session>)
    requires Grouped(rs, byUid, order)
    ensures Describes(rs, tape)
  {
    tape := [];
    for i := 0 to |order|
      invariant |tape| == i
      invariant forall j :: 0 <= j < i ==> order[j] in byUid && tape[j] == SortedSession(byUid[order[j]])
    {
      tape := tape + [SortedSession(byUid[order[i]])];
    }
  }

  lemma SeenGrows(rs: seq<Record>, rec: Record)
    ensures FirstSeen(rs + [rec]) ==
      if rec.sessionUid in FirstSeen(rs) then FirstSeen(rs) else FirstSeen(rs) + [rec.sessionUid]
  {
    assert (rs + [rec])[..|rs|] == rs;
  }

  lemma GroupGrows(rs: seq<Record>, rec: Record, uid: string)
    ensures Group(rs + [rec], uid) == if rec.sessionUid == uid then Group(rs, uid) + [rec] else Group(rs, uid)
  {
    assert (rs + [rec])[..|rs|] == rs;
    assert Group(rs, uid) + [] == Group(rs, uid);
  }

  // --- nothing is lost -----------------------------------------------------

  function Pitches(tape: seq<Session>): multiset<Record> {
    if tape == [] then multiset{} else Pitches(tape[..|tape| - 1]) + multiset(tape[|tape| - 1].pitches)
  }

  function CountOf(tape: seq<Session>): nat {
    if tape == [] then 0 else CountOf(tape[..|tape| - 1]) + |tape[|tape| - 1].pitches|
  }

  method PitchCount(tape: seq<Session>) returns (n: nat)
    ensures n == CountOf(tape) == |Pitches(tape)|
  {
    n := 0;
    for i := 0 to |tape|
      invariant n == CountOf(tape[..i]) == |Pitches(tape[..i])|
    {
      assert tape[..i + 1][..i] == tape[..i];
      n := n + |tape[i].pitches|;
    }
    assert tape[..|tape|] == tape;
  }

  predicate Distinct(uids: seq<string>) { forall i, j :: 0 <= i < j < |uids| ==> uids[i] != uids[j] }

  lemma {:induction false} FirstSeenDistinct(rs: seq<Record>)
    ensures Distinct(FirstSeen(rs))
  {
    if rs != [] {
      FirstSeenDistinct(rs[..|rs| - 1]);
    }
  }

  predicate Holds(rs: seq<Record>, uid: string) { exists i :: 0 <= i < |rs| && rs[i].sessionUid == uid }

  lemma HoldsMore(rs: seq<Record>, rec: Record, uid: string)
    ensures Holds(rs + [rec], uid) <==> Holds(rs, uid) || rec.sessionUid == uid
  {
    if Holds(rs, uid) {
      var i :| 0 <= i < |rs| && rs[i].sessionUid == uid;
      assert (rs + [rec])[i] == rs[i];
    }
    assert (rs + [rec])[|rs|] == rec;
  }

  lemma {:induction false} SeenAreHeld(rs: seq<Record>, uid: string)
    ensures uid in FirstSeen(rs) <==> Holds(rs, uid)
  {
    if rs != [] {
      SeenAreHeld(rs[..|rs| - 1], uid);
      HoldsMore(rs[..|rs| - 1], rs[|rs| - 1], uid);
      assert rs == rs[..|rs| - 1] + [rs[|rs| - 1]];
    }
  }

  /** The order of the outings is that of their first records: somewhere in the lines the earlier one has
      begun and the later one has not. */
  lemma {:induction false} FirstSeenInOrder(rs: seq<Record>, i: nat, j: nat) returns (n: nat)
    requires i < j < |FirstSeen(rs)|
    ensures n <= |rs| && Holds(rs[..n], FirstSeen(rs)[i]) && !Holds(rs[..n], FirstSeen(rs)[j])
  {
    var before := rs[..|rs| - 1];
    if j < |FirstSeen(before)| {
      n := FirstSeenInOrder(before, i, j);
      assert before[..n] == rs[..n];
    } else {
      n := |before|;
      SeenAreHeld(before, FirstSeen(rs)[i]);
      SeenAreHeld(before, FirstSeen(rs)[j]);
    }
  }

  /** The records of the first n sessions seen. */
  function GroupsOf(rs: seq<Record>, uids: seq<string>): multiset<Record> {
    if uids == [] then multiset{}
    else GroupsOf(rs, uids[..|uids| - 1]) + multiset(Group(rs, uids[|uids| - 1]))
  }

  lemma {:induction false} GroupCounts(rs: seq<Record>, uid: string, x: Record)
    ensures multiset(Group(rs, uid))[x] == if x.sessionUid == uid then multiset(rs)[x] else 0
  {
    if rs != [] {
      var before, last := rs[..|rs| - 1], rs[|rs| - 1];
      GroupCounts(before, uid, x);
      assert rs == before + [last];
      GroupGrows(before, last, uid);
    }
  }

  lemma {:induction false} GroupsCount(rs: seq<Record>, uids: seq<string>, x: Record)
    requires Distinct(uids)
    ensures GroupsOf(rs, uids)[x] == if x.sessionUid in uids then multiset(rs)[x] else 0
  {
    if uids != [] {
      var before, last := uids[..|uids| - 1], uids[|uids| - 1];
      GroupsCount(rs, before, x);
      GroupCounts(rs, last, x);
      assert uids == before + [last] && last !in before;
    }
  }

  lemma GroupsKeepAll(rs: seq<Record>)
    ensures GroupsOf(rs, FirstSeen(rs)) == multiset(rs)
  {
    forall x ensures GroupsOf(rs, FirstSeen(rs))[x] == multiset(rs)[x] {
      FirstSeenDistinct(rs);
      GroupsCount(rs, FirstSeen(rs), x);
      GroupsAreSeen(rs, x.sessionUid);
      GroupCounts(rs, x.sessionUid, x);
    }
  }

  lemma {:induction false} TapeHasGroups(rs: seq<Record>, uids: seq<string>, tape: seq<Session>)
    requires |tape| == |uids|
    requires forall i :: 0 <= i < |tape| ==> multiset(tape[i].pitches) == multiset(Group(rs, uids[i]))
    ensures Pitches(tape) == GroupsOf(rs, uids)
  {
    if tape != [] {
      TapeHasGroups(rs, uids[..|uids| - 1], tape[..|tape| - 1]);
    }
  }

  /** A tape holds exactly the records of its lines. */
  lemma TapeKeepsAll(rs: seq<Record>, tape: seq<Session>)
    requires Describes(rs, tape)
    ensures Pitches(tape) == multiset(rs)
  {
    var uids := FirstSeen(rs);
    forall i | 0 <= i < |tape| ensures multiset(tape[i].pitches) == multiset(Group(rs, uids[i])) {
      SortKeeps(Group(rs, uids[i]));
    }
    TapeHasGroups(rs, uids, tape);
    GroupsKeepAll(rs);
  }

  /** It has one outing per session identifier, in first-seen order; each holds the identifier's
      own records by at-bat and pitch number, records with both equal in the order of the lines, and
      is headed by the first of them. */
  lemma OutingsAreSorted(rs: seq<Record>, tape: seq<Session>, i: nat, k: Key)
    requires Describes(rs, tape) && i < |tape|
    ensures Distinct(FirstSeen(rs)) && |tape| == |FirstSeen(rs)| && tape[i].uid == FirstSeen(rs)[i]
    ensures tape[i].pitches != []
    ensures
      var ps := tape[i].pitches;
      forall a, b :: 0 <= a < b < |ps| ==>
        ps[a].atBat < ps[b].atBat || (ps[a].atBat == ps[b].atBat && ps[a].pitchNumber <= ps[b].pitchNumber)
    ensures WithKey(tape[i].pitches, k) == WithKey(Group(rs, tape[i].uid), k)
    ensures
      var first := Group(rs, tape[i].uid)[0];
      && tape[i].pitcher == first.pitcher && tape[i].gameRef == first.gameRef
      && tape[i].date == first.date && tape[i].opponent == first.opponent
  {
    FirstSeenDistinct(rs);
    SortIsStable(Group(rs, FirstSeen(rs)[i]), k);
    var ps := tape[i].pitches;
    forall a, b | 0 <= a < b < |ps|
      ensures ps[a].atBat < ps[b].atBat || (ps[a].atBat == ps[b].atBat && ps[a].pitchNumber <= ps[b].pitchNumber)
    {
      assert !Before(KeyOf(ps[b]), KeyOf(ps[a]));
    }
  }

  // --- filtering -----------------------------------------------------------

  predicate Wanted(s: Session, pitcher: string, gameRef: string) {
    (gameRef == "" || s.gameRef == gameRef) && (pitcher == "" || Decimal.PrintInt(s.pitcher) == pitcher)
  }

  /** The printed identifier picks that pitcher's outings and no other's, a game reference those of the
      game. */
  lemma PrintedPitcherPicks(s: Session, pitcher: int, gameRef: string)
    ensures Wanted(s, Decimal.PrintInt(pitcher), gameRef) <==>
              s.pitcher == pitcher && (gameRef == "" || s.gameRef == gameRef)
    ensures Wanted(s, "", gameRef) <==> gameRef == "" || s.gameRef == gameRef
  {
    Decimal.AtoiOfPrintInt(s.pitcher);
    Decimal.AtoiOfPrintInt(pitcher);
  }

  function Chosen(tape: seq<Session>, pitcher: string, gameRef: string): seq<Session> {
    if tape == [] then []
    else
      Chosen(tape[..|tape| - 1], pitcher, gameRef)
      + if Wanted(tape[|tape| - 1], pitcher, gameRef) then [tape[|tape| - 1]] else []
  }

  lemma {:induction false} ChosenGrow(tape: seq<Session>, pitcher: string, gameRef: string, n: nat)
    requires n <= |tape|
    ensures Chosen(tape[..n], pitcher, gameRef) <= Chosen(tape, pitcher, gameRef)
  {
    if n < |tape| {
      assert tape[..|tape| - 1][..n] == tape[..n];
      ChosenGrow(tape[..|tape| - 1], pitcher, gameRef, n);
    } else {
      assert tape[..n] == tape;
    }
  }

  /** The wanted outings in order, at most so many; zero and empty arguments do not filter. */
  method Filter(tape: seq<Session>, maxSessions: int, pitcher: string, gameRef: string) returns (out: seq<Session>)
    ensures out <= Chosen(tape, pitcher, gameRef)
    ensures |out| == if 0 < maxSessions < |Chosen(tape, pitcher, gameRef)| then maxSessions
                     else |Chosen(tape, pitcher, gameRef)|
  {
    out := [];
    for i := 0 to |tape|
      invariant out == Chosen(tape[..i], pitcher, gameRef) && (maxSessions > 0 ==> |out| < maxSessions)
    {
      assert tape[..i + 1][..i] == tape[..i];
      if gameRef != "" && tape[i].gameRef != gameRef {
        continue;
      }
      if pitcher != "" && Decimal.PrintInt(tape[i].pitcher) != pitcher {
        continue;
      }
      out := out + [tape[i]];
      if maxSessions > 0 && |out| >= maxSessions {
        ChosenGrow(tape, pitcher, gameRef, i + 1);
        return;
      }
    }
    assert tape[..|tape|] == tape;
  }

  lemma {:induction false} NoFilterKeepsAll(tape: seq<Session>)
    ensures Chosen(tape, "", "") == tape
  {
    if tape != [] {
      NoFilterKeepsAll(tape[..|tape| - 1]);
    }
  }
}
