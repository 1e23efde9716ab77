/** Keyset pagination: pages cut by the last row's key, walked while rows are being inserted. */
module Pagination {
  import opened Wrappers
  import Decimal

  datatype Row = Row(
    id: int, session: int, index: int, pitcher: int, thrownAt: int,
    pitchType: string, outcome: string, speed: Option<real>)

  datatype Filter =
    | ByPitcher(pitcher: int, pitchType: Option<string>, outcome: Option<string>,
                from: Option<int>, to: Option<int>, minSpeed: Option<real>, maxSpeed: Option<real>)
    | BySession(session: int)

  /** The orders of the three queries. */
  datatype Order = NewestFirst | IndexUp | IndexDown

  datatype Cursor = Cursor(time: Option<int>, id: Option<int>, index: Option<int>)

  const FIRST := Cursor(None, None, None)

  datatype Response = Response(rows: seq<Row>, hasMore: bool, next: Option<Cursor>)

  // --- the queries ---------------------------------------------------------

  /** A missing measurement satisfies no speed bound. */
  predicate Matches(f: Filter, r: Row) {
    match f
    case BySession(session) => r.session == session
    case ByPitcher(pitcher, pitchType, outcome, from, to, minSpeed, maxSpeed) =>
      && r.pitcher == pitcher
      && (pitchType.Some? ==> r.pitchType == pitchType.value)
      && (outcome.Some? ==> r.outcome == outcome.value)
      && (from.Some? ==> r.thrownAt >= from.value)
      && (to.Some? ==> r.thrownAt <= to.value)
      && (minSpeed.Some? ==> r.speed.Some? && r.speed.value >= minSpeed.value)
      && (maxSpeed.Some? ==> r.speed.Some? && r.speed.value <= maxSpeed.value)
  }

  predicate Precedes(order: Order, a: Row, b: Row) {
    match order
    case NewestFirst => a.thrownAt > b.thrownAt || (a.thrownAt == b.thrownAt && a.id > b.id)
    case IndexUp => a.index < b.index
    case IndexDown => a.index > b.index
  }

  /** The cursor condition; the time is used only together with the identifier. */
  predicate Beyond(order: Order, c: Cursor, r: Row) {
    match order
    case NewestFirst =>
      c.time.Some? && c.id.Some? ==>
        r.thrownAt < c.time.value || (r.thrownAt == c.time.value && r.id < c.id.value)
    case IndexUp => c.index.Some? ==> r.index > c.index.value
    case IndexDown => c.index.Some? ==> r.index < c.index.value
  }

  function CursorAt(order: Order, r: Row): Cursor {
    if order.NewestFirst? then Cursor(Some(r.thrownAt), Some(r.id), None) else Cursor(None, None, Some(r.index))
  }

  /** A cursor taken from a row selects exactly what the order puts after that row. */
  lemma CursorCutsThere(order: Order, a: Row, b: Row)
    ensures Beyond(order, CursorAt(order, a), b) <==> Precedes(order, a, b)
  {}

  function Insert(order: Order, s: seq<Row>, r: Row): (t: seq<Row>)
    ensures |t| == |s| + 1
  {
    if s == [] || Precedes(order, s[|s| - 1], r) then s + [r]
    else Insert(order, s[..|s| - 1], r) + [s[|s| - 1]]
  }

  /** All rows the query could return, in its order. */
  function Listing(order: Order, f: Filter, c: Cursor, table: seq<Row>): seq<Row> {
    if table == [] then []
    else
      var before, r := Listing(order, f, c, table[..|table| - 1]), table[|table| - 1];
      if Matches(f, r) && Beyond(order, c, r) then Insert(order, before, r) else before
  }

  function Query(order: Order, f: Filter, c: Cursor, table: seq<Row>, n: nat): seq<Row> {
    var all := Listing(order, f, c, table);
    if |all| <= n then all else all[..n]
  }

  // --- the handler ---------------------------------------------------------

  /** The page size asked for: the default when there is none, an error when out of range. */
  function Limit(raw: string, default: nat, max: nat): (r: Result<nat, string>)
    ensures r.Ok? ==> r.value == default || 1 <= r.value <= max
  {
    if raw == "" then Ok(default)
    else match Decimal.Atoi(raw)
      case None => Err("limit must be an integer")
      case Some(n) => if n < 1 || n > max then Err("limit is out of range") else Ok(n)
  }

  lemma LimitTakesPrintedNumbers(n: int, default: nat, max: nat)
    ensures
      var r := Limit(Decimal.PrintInt(n), default, max);
      if 1 <= n <= max then r == Ok(n) else r.Err?
  {
    Decimal.AtoiOfPrintInt(n);
  }

  /** One page: one row more than the page holds is fetched to know whether there is a next. */
  function Respond(order: Order, f: Filter, c: Cursor, table: seq<Row>, limit: nat): Response {
    var rows := Query(order, f, c, table, limit + 1);
    var page := if |rows| > limit then rows[..limit] else rows;
    var hasMore := |rows| > limit;
    Response(page, hasMore, if hasMore && page != [] then Some(CursorAt(order, page[|page| - 1])) else None)
  }

  method ListPitches(order: Order, f: Filter, c: Cursor, table: seq<Row>, limit: nat) returns (r: Response)
    ensures r == Respond(order, f, c, table, limit)
  {
    var rows := Query(order, f, c, table, limit + 1);
    var pitches := [];
    for i := 0 to |rows|
      invariant pitches == rows[..i]
    {
      pitches := pitches + [rows[i]];
    }
    var hasMore := false;
    if |pitches| > limit {
      pitches, hasMore := pitches[..limit], true;
    }
    var next := None;
    if hasMore && |pitches| > 0 {
      next := Some(CursorAt(order, pitches[|pitches| - 1]));
    }
    r := Response(pitches, hasMore, next);
  }

  // --- what a query returns ------------------------------------------------

  predicate Ordered(order: Order, s: seq<Row>) { forall i, j :: 0 <= i < j < |s| ==> Precedes(order, s[i], s[j]) }

  predicate Comparable(order: Order, a: Row, b: Row) { Precedes(order, a, b) || Precedes(order, b, a) }

  /** No two matching rows share a key: identifiers are unique, and so are the indexes of one
      session. */
  predicate Keyed(order: Order, f: Filter, table: seq<Row>) {
    forall i, j :: 0 <= i < j < |table| && Matches(f, table[i]) && Matches(f, table[j]) ==>
      Comparable(order, table[i], table[j])
  }

  lemma {:induction false} InsertMeans(order: Order, s: seq<Row>, r: Row, x: Row)
    ensures x in Insert(order, s, r) <==> x in s || x == r
  {
    if s != [] && !Precedes(order, s[|s| - 1], r) {
      InsertMeans(order, s[..|s| - 1], r, x);
      assert s == s[..|s| - 1] + [s[|s| - 1]];
    }
  }

  lemma {:induction false} InsertOrders(order: Order, s: seq<Row>, r: Row)
    requires Ordered(order, s) && forall i :: 0 <= i < |s| ==> Comparable(order, s[i], r)
    ensures Ordered(order, Insert(order, s, r))
  {
    if s != [] && !Precedes(order, s[|s| - 1], r) {
      var before, last := s[..|s| - 1], s[|s| - 1];
      InsertOrders(order, before, r);
      var t := Insert(order, before, r);
      forall i | 0 <= i < |t| ensures Precedes(order, t[i], last) {
        InsertMeans(order, before, r, t[i]);
        assert t[i] in t;
        assert Comparable(order, last, r);
      }
    }
  }

  predicate Listed(f: Filter, c: Cursor, order: Order, table: seq<Row>, r: Row) {
    r in table && Matches(f, r) && Beyond(order, c, r)
  }

  lemma {:induction false} ListingMeans(order: Order, f: Filter, c: Cursor, table: seq<Row>, r: Row)
    ensures r in Listing(order, f, c, table) <==> Listed(f, c, order, table, r)
  {
    if table != [] {
      var before, last := table[..|table| - 1], table[|table| - 1];
      ListingMeans(order, f, c, before, r);
      InsertMeans(order, Listing(order, f, c, before), last, r);
      assert table == before + [last];
    }
  }

  lemma {:induction false} ListingIsOrdered(order: Order, f: Filter, c: Cursor, table: seq<Row>)
    requires Keyed(order, f, table)
    ensures Ordered(order, Listing(order, f, c, table))
  {
    if table != [] {
      var before, last := table[..|table| - 1], table[|table| - 1];
      ListingIsOrdered(order, f, c, before);
      if Matches(f, last) && Beyond(order, c, last) {
        var s := Listing(order, f, c, before);
        forall i | 0 <= i < |s| ensures Comparable(order, s[i], last) {
          ListingMeans(order, f, c, before, s[i]);
          assert s[i] in s;
          var k :| 0 <= k < |before| && before[k] == s[i];
          assert table[k] == s[i] && table[|table| - 1] == last;
        }
        InsertOrders(order, s, last);
      }
    }
  }

  /** A page is ordered and holds only what was asked for; what it leaves out comes after its
      last row, and it leaves nothing out unless it says so. */
  lemma PageIsPrefix(order: Order, f: Filter, c: Cursor, table: seq<Row>, limit: nat)
    requires Keyed(order, f, table) && limit >= 1
    ensures
      var p := Respond(order, f, c, table, limit);
      && Ordered(order, p.rows)
      && (forall i :: 0 <= i < |p.rows| ==> Listed(f, c, order, table, p.rows[i]))
      && (p.hasMore ==> |p.rows| == limit && p.next == Some(CursorAt(order, p.rows[limit - 1])))
      && (forall r :: Listed(f, c, order, table, r) && r !in p.rows ==>
            p.hasMore && Precedes(order, p.rows[limit - 1], r))
  {
    var all, p := Listing(order, f, c, table), Respond(order, f, c, table, limit);
    ListingIsOrdered(order, f, c, table);
    assert p.rows <= all;
    forall i | 0 <= i < |p.rows| ensures Listed(f, c, order, table, p.rows[i]) {
      ListingMeans(order, f, c, table, p.rows[i]);
      assert p.rows[i] == all[i];
    }
    forall r | Listed(f, c, order, table, r) && r !in p.rows
      ensures p.hasMore && Precedes(order, p.rows[limit - 1], r)
    {
      ListingMeans(order, f, c, table, r);
      var k :| 0 <= k < |all| && all[k] == r;
      assert forall i :: 0 <= i < |p.rows| ==> p.rows[i] == all[i];
      assert k >= limit;
    }
  }

  // --- walking the pages ---------------------------------------------------

  /** The rows a client collects, one request on each table in turn, until a page is the last. */
  function Walk(order: Order, f: Filter, c: Cursor, tables: seq<seq<Row>>, limit: nat): seq<Row>
    decreases |tables|
  {
    if tables == [] then []
    else
      var p := Respond(order, f, c, tables[0], limit);
      p.rows + match p.next case Some(next) => Walk(order, f, next, tables[1..], limit) case None => []
  }

  predicate Finished(order: Order, f: Filter, c: Cursor, tables: seq<seq<Row>>, limit: nat)
    decreases |tables|
  {
    tables != [] &&
    match Respond(order, f, c, tables[0], limit).next
    case Some(next) => Finished(order, f, next, tables[1..], limit)
    case None => true
  }

  /** Between requests rows are only inserted; keys stay distinct. */
  ghost predicate Growing(order: Order, f: Filter, tables: seq<seq<Row>>) {
    && (forall i :: 0 <= i < |tables| ==> Keyed(order, f, tables[i]))
    && (forall i, j :: 0 <= i < j < |tables| ==> tables[i] <= tables[j])
  }

  lemma PrecedesChains(order: Order, a: Row, b: Row, d: Row)
    requires Precedes(order, a, b) && Precedes(order, b, d)
    ensures Precedes(order, a, d)
  {}

  lemma BeyondChains(order: Order, c: Cursor, a: Row, b: Row)
    requires Beyond(order, c, a) && Precedes(order, a, b)
    ensures Beyond(order, c, b)
  {}

  lemma GrowingTail(order: Order, f: Filter, tables: seq<seq<Row>>)
    requires Growing(order, f, tables) && tables != []
    ensures Growing(order, f, tables[1..])
    ensures forall i :: 0 <= i < |tables| ==> tables[0] <= tables[i]
  {
    assert forall i :: 0 <= i < |tables| - 1 ==> tables[1..][i] == tables[i + 1];
  }

  /** A page followed by rows beyond its last one. */
  lemma PageThenRest(order: Order, f: Filter, c: Cursor, table: seq<Row>, final: seq<Row>, limit: nat, rest: seq<Row>)
    requires Keyed(order, f, table) && limit >= 1 && Ordered(order, rest)
    requires Respond(order, f, c, table, limit).next.Some?
    requires
      var next := Respond(order, f, c, table, limit).next.value;
      forall i :: 0 <= i < |rest| ==> Listed(f, next, order, final, rest[i])
    ensures Ordered(order, Respond(order, f, c, table, limit).rows + rest)
    ensures forall i :: 0 <= i < |rest| ==> Listed(f, c, order, final, rest[i])
  {
    PageIsPrefix(order, f, c, table, limit);
    var p := Respond(order, f, c, table, limit);
    var last := p.rows[limit - 1];
    assert Listed(f, c, order, table, last);
    forall i | 0 <= i < |rest| ensures Precedes(order, last, rest[i]) && Listed(f, c, order, final, rest[i]) {
      assert Listed(f, p.next.value, order, final, rest[i]);
      CursorCutsThere(order, last, rest[i]);
      BeyondChains(order, c, last, rest[i]);
    }
    forall i, j | 0 <= i < |p.rows| && 0 <= j < |rest| ensures Precedes(order, p.rows[i], rest[j]) {
      if i < limit - 1 {
        PrecedesChains(order, p.rows[i], last, rest[j]);
      }
    }
  }

  /** What is collected is strictly ordered, hence free of repeats, and holds only rows that
      match, lie beyond the cursor and were inserted by the end. */
  lemma {:induction false} WalkIsOrdered(order: Order, f: Filter, c: Cursor, tables: seq<seq<Row>>, limit: nat)
    requires Growing(order, f, tables) && tables != [] && limit >= 1
    ensures
      var w := Walk(order, f, c, tables, limit);
      Ordered(order, w) && forall i :: 0 <= i < |w| ==> Listed(f, c, order, tables[|tables| - 1], w[i])
    decreases |tables|
  {
    var p, final := Respond(order, f, c, tables[0], limit), tables[|tables| - 1];
    GrowingTail(order, f, tables);
    PageIsPrefix(order, f, c, tables[0], limit);
    forall i | 0 <= i < |p.rows| ensures Listed(f, c, order, final, p.rows[i]) {
      assert Listed(f, c, order, tables[0], p.rows[i]) && tables[0] <= final;
    }
    if p.next.Some? {
      var rest := Walk(order, f, p.next.value, tables[1..], limit);
      if |tables| > 1 {
        WalkIsOrdered(order, f, p.next.value, tables[1..], limit);
        assert tables[1..][|tables| - 2] == final;
      }
      PageThenRest(order, f, c, tables[0], final, limit, rest);
    }
  }

  /** A finished walk holds every matching row that was there at the first request. */
  lemma {:induction false} WalkIsComplete(
    order: Order, f: Filter, c: Cursor, tables: seq<seq<Row>>, limit: nat, r: Row)
    requires Growing(order, f, tables) && limit >= 1 && Finished(order, f, c, tables, limit)
    requires Listed(f, c, order, tables[0], r)
    ensures r in Walk(order, f, c, tables, limit)
    decreases |tables|
  {
    var p := Respond(order, f, c, tables[0], limit);
    PageIsPrefix(order, f, c, tables[0], limit);
    if r !in p.rows {
      assert p.hasMore && Precedes(order, p.rows[limit - 1], r);
      CursorCutsThere(order, p.rows[limit - 1], r);
      GrowingTail(order, f, tables);
      assert tables[0] <= tables[1..][0];
      WalkIsComplete(order, f, p.next.value, tables[1..], limit, r);
    }
  }

  /** A walk that never ends its tables collects a full page from each. */
  lemma {:induction false} UnfinishedWalkIsFull(
    order: Order, f: Filter, c: Cursor, tables: seq<seq<Row>>, limit: nat)
    requires Growing(order, f, tables) && limit >= 1 && !Finished(order, f, c, tables, limit)
    ensures |Walk(order, f, c, tables, limit)| == |tables| * limit
    decreases |tables|
  {
    if tables != [] {
      var p, rest := Respond(order, f, c, tables[0], limit), tables[1..];
      GrowingTail(order, f, tables);
      assert |p.rows| == limit && p.next.Some? by {
        PageIsPrefix(order, f, c, tables[0], limit);
      }
      assert Walk(order, f, c, tables, limit) == p.rows + Walk(order, f, p.next.value, rest, limit);
      UnfinishedWalkIsFull(order, f, p.next.value, rest, limit);
      OneMore(|rest|, limit);
    }
  }

  lemma OneMore(n: nat, limit: nat)
    ensures (n + 1) * limit == limit + n * limit
  {}

  function Elements(s: seq<Row>): (e: set<Row>)
    ensures |e| <= |s| && forall r :: r in e <==> r in s
  {
    if s == [] then {}
    else
      assert s == s[..|s| - 1] + [s[|s| - 1]];
      Elements(s[..|s| - 1]) + {s[|s| - 1]}
  }

  lemma {:induction false} OrderedIsDistinct(order: Order, s: seq<Row>)
    requires Ordered(order, s)
    ensures |Elements(s)| == |s|
  {
    if s != [] {
      OrderedIsDistinct(order, s[..|s| - 1]);
      var last := s[|s| - 1];
      forall i | 0 <= i < |s| - 1 ensures s[i] != last {
        assert Precedes(order, s[i], last);
      }
    }
  }

  lemma SubsetSize(a: set<Row>, b: set<Row>)
    requires a <= b
    ensures |a| <= |b|
  {
    if a != {} {
      var x :| x in a;
      SubsetSize(a - {x}, b - {x});
    }
  }

  /** So a walk over a table that stops growing ends: it takes at most one request more than
      full pages fit into the final table. */
  lemma WalkEnds(order: Order, f: Filter, c: Cursor, tables: seq<seq<Row>>, limit: nat)
    requires Growing(order, f, tables) && tables != [] && limit >= 1
    requires |tables| * limit > |tables[|tables| - 1]|
    ensures Finished(order, f, c, tables, limit)
  {
    if !Finished(order, f, c, tables, limit) {
      var w, final := Walk(order, f, c, tables, limit), tables[|tables| - 1];
      UnfinishedWalkIsFull(order, f, c, tables, limit);
      WalkIsOrdered(order, f, c, tables, limit);
      OrderedIsDistinct(order, w);
      forall r | r in Elements(w) ensures r in Elements(final) {
        var i :| 0 <= i < |w| && w[i] == r;
        assert Listed(f, c, order, final, w[i]);
      }
      SubsetSize(Elements(w), Elements(final));
    }
  }

  /** The law of the walk: from the first page to the last, every matching row present since
      the first request is returned exactly once, in order, whatever is inserted meanwhile. */
  lemma WalkReturnsEachOnce(order: Order, f: Filter, tables: seq<seq<Row>>, limit: nat, r: Row)
    requires Growing(order, f, tables) && tables != [] && limit >= 1
    requires |tables| * limit > |tables[|tables| - 1]|
    requires r in tables[0] && Matches(f, r)
    ensures
      var w := Walk(order, f, FIRST, tables, limit);
      && Ordered(order, w)
      && exists i :: 0 <= i < |w| && w[i] == r && forall j :: 0 <= j < |w| && j != i ==> w[j] != r
  {
    var w := Walk(order, f, FIRST, tables, limit);
    WalkEnds(order, f, FIRST, tables, limit);
    WalkIsOrdered(order, f, FIRST, tables, limit);
    WalkIsComplete(order, f, FIRST, tables, limit, r);
    var i :| 0 <= i < |w| && w[i] == r;
    forall j | 0 <= j < |w| && j != i ensures w[j] != r {
      assert Precedes(order, w[j], w[i]) || Precedes(order, w[i], w[j]);
    }
  }

  // --- distinct keys -------------------------------------------------------

  predicate UniqueIds(table: seq<Row>) { forall i, j :: 0 <= i < j < |table| ==> table[i].id != table[j].id }

  predicate UniqueIndexes(table: seq<Row>, session: int) {
    forall i, j :: 0 <= i < j < |table| && table[i].session == session == table[j].session ==>
      table[i].index != table[j].index
  }

  /** Equal timestamps do no harm: identifiers alone keep the keys apart. */
  lemma IdsKeyThePitcher(f: Filter, table: seq<Row>)
    requires UniqueIds(table)
    ensures Keyed(NewestFirst, f, table)
  {}

  lemma IndexesKeyTheSession(order: Order, session: int, table: seq<Row>)
    requires UniqueIndexes(table, session) && !order.NewestFirst?
    ensures Keyed(order, BySession(session), table)
  {}

  // --- the two walks, told by the columns ----------------------------------

  ghost predicate GrowingIds(tables: seq<seq<Row>>) {
    && (forall i :: 0 <= i < |tables| ==> UniqueIds(tables[i]))
    && (forall i, j :: 0 <= i < j < |tables| ==> tables[i] <= tables[j])
  }

  /** A walk over a pitcher's pitches: newest first, by identifier where times are equal; only pitches of
      the pitcher that meet every condition given, a missing speed meeting none; and each of those there
      at the first request exactly once. */
  lemma PitcherWalk(f: Filter, tables: seq<seq<Row>>, limit: nat, r: Row)
    requires f.ByPitcher? && GrowingIds(tables) && tables != [] && limit >= 1
    requires |tables| * limit > |tables[|tables| - 1]|
    ensures
      var w := Walk(NewestFirst, f, FIRST, tables, limit);
      && (forall i, j :: 0 <= i < j < |w| ==>
            w[i].thrownAt > w[j].thrownAt || (w[i].thrownAt == w[j].thrownAt && w[i].id > w[j].id))
      && (forall i :: 0 <= i < |w| ==>
            && w[i] in tables[|tables| - 1] && w[i].pitcher == f.pitcher
            && (f.pitchType == None || Some(w[i].pitchType) == f.pitchType)
            && (f.outcome == None || Some(w[i].outcome) == f.outcome)
            && (f.from == None || f.from.value <= w[i].thrownAt) && (f.to == None || w[i].thrownAt <= f.to.value)
            && (f.minSpeed == None || (w[i].speed != None && f.minSpeed.value <= w[i].speed.value))
            && (f.maxSpeed == None || (w[i].speed != None && w[i].speed.value <= f.maxSpeed.value)))
    ensures
      r in tables[0] && r.pitcher == f.pitcher
      && (f.pitchType == None || Some(r.pitchType) == f.pitchType)
      && (f.outcome == None || Some(r.outcome) == f.outcome)
      && (f.from == None || f.from.value <= r.thrownAt) && (f.to == None || r.thrownAt <= f.to.value)
      && (f.minSpeed == None || (r.speed != None && f.minSpeed.value <= r.speed.value))
      && (f.maxSpeed == None || (r.speed != None && r.speed.value <= f.maxSpeed.value))
      ==>
      var w := Walk(NewestFirst, f, FIRST, tables, limit);
      exists i :: 0 <= i < |w| && w[i] == r && forall j :: 0 <= j < |w| && j != i ==> w[j] != r
  {
    forall i | 0 <= i < |tables| ensures Keyed(NewestFirst, f, tables[i]) {
      IdsKeyThePitcher(f, tables[i]);
    }
    WalkIsSound(NewestFirst, f, tables, limit);
    if r in tables[0] && Matches(f, r) {
      WalkReturnsEachOnce(NewestFirst, f, tables, limit, r);
    }
  }

  lemma WalkIsSound(order: Order, f: Filter, tables: seq<seq<Row>>, limit: nat)
    requires Growing(order, f, tables) && tables != [] && limit >= 1
    ensures
      var w := Walk(order, f, FIRST, tables, limit);
      && (forall i, j :: 0 <= i < j < |w| ==> Precedes(order, w[i], w[j]))
      && (forall i :: 0 <= i < |w| ==> w[i] in tables[|tables| - 1] && Matches(f, w[i]))
  {
    WalkIsOrdered(order, f, FIRST, tables, limit);
    var w := Walk(order, f, FIRST, tables, limit);
    forall i | 0 <= i < |w| ensures w[i] in tables[|tables| - 1] && Matches(f, w[i]) {
      assert Listed(f, FIRST, order, tables[|tables| - 1], w[i]);
    }
  }

  ghost predicate GrowingIndexes(tables: seq<seq<Row>>, session: int) {
    && (forall i :: 0 <= i < |tables| ==> UniqueIndexes(tables[i], session))
    && (forall i, j :: 0 <= i < j < |tables| ==> tables[i] <= tables[j])
  }

  /** A walk over a session's pitches: by their index, upwards or downwards as asked, only pitches of the
      session, and each of those there at the first request exactly once. */
  lemma SessionWalk(session: int, up: bool, tables: seq<seq<Row>>, limit: nat, r: Row)
    requires GrowingIndexes(tables, session) && tables != [] && limit >= 1
    requires |tables| * limit > |tables[|tables| - 1]|
    ensures
      var w := Walk(if up then IndexUp else IndexDown, BySession(session), FIRST, tables, limit);
      && (forall i, j :: 0 <= i < j < |w| ==> if up then w[i].index < w[j].index else w[i].index > w[j].index)
      && (forall i :: 0 <= i < |w| ==> w[i] in tables[|tables| - 1] && w[i].session == session)
      && (r in tables[0] && r.session == session ==>
            exists i :: 0 <= i < |w| && w[i] == r && forall j :: 0 <= j < |w| && j != i ==> w[j] != r)
  {
    var order := if up then IndexUp else IndexDown;
    forall i | 0 <= i < |tables| ensures Keyed(order, BySession(session), tables[i]) {
      IndexesKeyTheSession(order, session, tables[i]);
    }
    WalkIsSound(order, BySession(session), tables, limit);
    if r in tables[0] && r.session == session {
      WalkReturnsEachOnce(order, BySession(session), tables, limit, r);
    }
  }
}
