/** The median and the median absolute deviation over reals, and how many values an adversary
    must replace to move them. */
module OrderStatistics {

  // --- sorting -------------------------------------------------------------

  predicate Sorted(s: seq<real>) { forall i, j :: 0 <= i < j < |s| ==> s[i] <= s[j] }

  function Insert(s: seq<real>, x: real): (r: seq<real>)
    ensures |r| == |s| + 1
  {
    if s == [] || s[|s| - 1] <= x then s + [x] else Insert(s[..|s| - 1], x) + [s[|s| - 1]]
  }

  function Sort(s: seq<real>): (r: seq<real>)
    ensures |r| == |s|
  {
    if s == [] then [] else Insert(Sort(s[..|s| - 1]), s[|s| - 1])
  }

  predicate AllAtMost(s: seq<real>, b: real) { forall i :: 0 <= i < |s| ==> s[i] <= b }

  lemma {:induction false} InsertBounded(s: seq<real>, x: real, b: real)
    requires AllAtMost(s, b) && x <= b
    ensures AllAtMost(Insert(s, x), b)
  {
    if s != [] && s[|s| - 1] > x {
      InsertBounded(s[..|s| - 1], x, b);
    }
  }

  lemma {:induction false} InsertSorts(s: seq<real>, x: real)
    requires Sorted(s)
    ensures Sorted(Insert(s, x))
  {
    if s != [] && s[|s| - 1] > x {
      InsertSorts(s[..|s| - 1], x);
      InsertBounded(s[..|s| - 1], x, s[|s| - 1]);
    }
  }

  lemma {:induction false} InsertKeeps(s: seq<real>, x: real)
    ensures multiset(Insert(s, x)) == multiset(s) + multiset{x}
  {
    if s != [] && s[|s| - 1] > x {
      InsertKeeps(s[..|s| - 1], x);
      assert s == s[..|s| - 1] + [s[|s| - 1]];
    }
  }

  /** Sorting orders the values and keeps every one of them. */
  lemma {:induction false} SortSorts(s: seq<real>)
    ensures Sorted(Sort(s)) && multiset(Sort(s)) == multiset(s)
  {
    if s != [] {
      SortSorts(s[..|s| - 1]);
      InsertSorts(Sort(s[..|s| - 1]), s[|s| - 1]);
      InsertKeeps(Sort(s[..|s| - 1]), s[|s| - 1]);
      assert s == s[..|s| - 1] + [s[|s| - 1]];
    }
  }

  // --- the statistics ------------------------------------------------------

  /** The middle value, or the mean of the two middle ones. */
  function Middle(t: seq<real>): real
    requires t != []
  {
    var mid := |t| / 2;
    if |t| % 2 == 1 then t[mid] else (t[mid - 1] + t[mid]) / 2.0
  }

  function Median(s: seq<real>): real
    requires s != []
  {
    Middle(Sort(s))
  }

  function Abs(x: real): real { if x < 0.0 then -x else x }

  function Deviations(s: seq<real>, m: real): seq<real> { seq(|s|, i requires 0 <= i < |s| => Abs(s[i] - m)) }

  /** The median absolute deviation from the median. */
  function MAD(s: seq<real>): real
    requires s != []
  {
    Median(Deviations(s, Median(s)))
  }

  // --- counting ------------------------------------------------------------

  function Below(s: seq<real>, lo: real): nat {
    if s == [] then 0 else Below(s[..|s| - 1], lo) + if s[|s| - 1] < lo then 1 else 0
  }

  function Above(s: seq<real>, hi: real): nat {
    if s == [] then 0 else Above(s[..|s| - 1], hi) + if s[|s| - 1] > hi then 1 else 0
  }

  function Outside(s: seq<real>, lo: real, hi: real): nat { Below(s, lo) + Above(s, hi) }

  lemma {:induction false} InsertCounts(s: seq<real>, x: real, b: real)
    ensures Below(Insert(s, x), b) == Below(s, b) + if x < b then 1 else 0
    ensures Above(Insert(s, x), b) == Above(s, b) + if x > b then 1 else 0
  {
    var r := Insert(s, x);
    if s == [] || s[|s| - 1] <= x {
      assert r[..|r| - 1] == s;
    } else {
      InsertCounts(s[..|s| - 1], x, b);
      assert r[..|r| - 1] == Insert(s[..|s| - 1], x);
    }
  }

  lemma {:induction false} SortCounts(s: seq<real>, b: real)
    ensures Below(Sort(s), b) == Below(s, b) && Above(Sort(s), b) == Above(s, b)
  {
    if s != [] {
      SortCounts(s[..|s| - 1], b);
      InsertCounts(Sort(s[..|s| - 1]), s[|s| - 1], b);
    }
  }

  /** In sorted order the values below b come first, and those above it last. */
  lemma {:induction false} CountsInOrder(t: seq<real>, b: real)
    requires Sorted(t)
    ensures Below(t, b) <= |t| && Above(t, b) <= |t|
    ensures forall i :: 0 <= i < |t| ==> (t[i] < b <==> i < Below(t, b))
    ensures forall i :: 0 <= i < |t| ==> (t[i] > b <==> i >= |t| - Above(t, b))
  {
    if t != [] {
      CountsInOrder(t[..|t| - 1], b);
    }
  }

  lemma MiddleBounds(t: seq<real>, b: real)
    requires t != [] && Sorted(t)
    ensures 2 * Below(t, b) < |t| ==> Middle(t) >= b
    ensures 2 * Above(t, b) < |t| ==> Middle(t) <= b
  {
    CountsInOrder(t, b);
  }

  /** The median is at most b as soon as fewer than half the values are above it, and likewise
      from below. */
  lemma MedianBounds(s: seq<real>, b: real)
    requires s != []
    ensures 2 * Below(s, b) < |s| ==> Median(s) >= b
    ensures 2 * Above(s, b) < |s| ==> Median(s) <= b
  {
    SortSorts(s);
    SortCounts(s, b);
    MiddleBounds(Sort(s), b);
  }

  lemma {:induction false} DeviationsCount(s: seq<real>, m: real, lo: real, hi: real)
    requires lo <= m <= hi
    ensures Below(Deviations(s, m), 0.0) == 0
    ensures Above(Deviations(s, m), hi - lo) <= Outside(s, lo, hi)
  {
    if s != [] {
      DeviationsCount(s[..|s| - 1], m, lo, hi);
      assert Deviations(s, m)[..|s| - 1] == Deviations(s[..|s| - 1], m);
    }
  }

  /** While fewer than half the values lie outside an interval, the median is inside it and
      the deviation is at most its width. */
  lemma MinorityCannotMove(s: seq<real>, lo: real, hi: real)
    requires lo <= hi && 2 * Outside(s, lo, hi) < |s|
    ensures lo <= Median(s) <= hi && 0.0 <= MAD(s) <= hi - lo
  {
    MedianBounds(s, lo);
    MedianBounds(s, hi);
    var d := Deviations(s, Median(s));
    DeviationsCount(s, Median(s), lo, hi);
    MedianBounds(d, 0.0);
    MedianBounds(d, hi - lo);
  }

  // --- the breakdown point -------------------------------------------------

  /** How many values differ. */
  function Replaced(c: seq<real>, s: seq<real>): nat
    requires |c| == |s|
  {
    if c == [] then 0
    else Replaced(c[..|c| - 1], s[..|s| - 1]) + if c[|c| - 1] != s[|s| - 1] then 1 else 0
  }

  predicate Within(c: seq<real>, lo: real, hi: real) { forall i :: 0 <= i < |c| ==> lo <= c[i] <= hi }

  lemma {:induction false} ReplacedBoundsOutside(c: seq<real>, s: seq<real>, lo: real, hi: real)
    requires |c| == |s| && lo <= hi && Within(c, lo, hi)
    ensures Outside(s, lo, hi) <= Replaced(c, s)
  {
    if c != [] {
      ReplacedBoundsOutside(c[..|c| - 1], s[..|s| - 1], lo, hi);
    }
  }

  /** Replacing fewer than half the values of a sample by anything keeps the median between
      the sample's extremes and the deviation below their distance. */
  lemma MinorityReplaced(c: seq<real>, s: seq<real>, lo: real, hi: real)
    requires |c| == |s| && lo <= hi && Within(c, lo, hi) && 2 * Replaced(c, s) < |c|
    ensures lo <= Median(s) <= hi && 0.0 <= MAD(s) <= hi - lo
  {
    ReplacedBoundsOutside(c, s, lo, hi);
    MinorityCannotMove(s, lo, hi);
  }

  function Max(c: seq<real>): (r: real)
    ensures forall i :: 0 <= i < |c| ==> c[i] <= r
  {
    if c == [] then 0.0 else
      var m := Max(c[..|c| - 1]);
      if m < c[|c| - 1] then c[|c| - 1] else m
  }

  function Min(c: seq<real>): (r: real)
    ensures forall i :: 0 <= i < |c| ==> r <= c[i]
  {
    if c == [] then 0.0 else
      var m := Min(c[..|c| - 1]);
      if m > c[|c| - 1] then c[|c| - 1] else m
  }

  /** The first values replaced by those of p. */
  function Poisoned(c: seq<real>, p: seq<real>): seq<real>
    requires |p| <= |c|
  {
    p + c[|p|..]
  }

  lemma {:induction false} PoisonedCounts(c: seq<real>, p: seq<real>, b: real)
    requires |p| <= |c| && forall i :: 0 <= i < |p| ==> p[i] > b
    ensures Replaced(c, Poisoned(c, p)) <= |p| && Above(Poisoned(c, p), b) >= |p|
  {
    var s := Poisoned(c, p);
    if c != [] {
      var d := c[..|c| - 1];
      if |p| < |c| {
        assert s[..|s| - 1] == Poisoned(d, p);
        PoisonedCounts(d, p, b);
      } else {
        assert s[..|s| - 1] == Poisoned(d, p[..|p| - 1]);
        PoisonedCounts(d, p[..|p| - 1], b);
      }
    }
  }

  predicate AllAtLeast(s: seq<real>, b: real) { forall i :: 0 <= i < |s| ==> s[i] >= b }

  lemma SortKeepsAtLeast(s: seq<real>, b: real)
    requires AllAtLeast(s, b)
    ensures AllAtLeast(Sort(s), b)
  {
    SortSorts(s);
    forall i | 0 <= i < |s| ensures Sort(s)[i] >= b {
      assert Sort(s)[i] in multiset(Sort(s));
      assert Sort(s)[i] in s;
    }
  }

  lemma MiddleAbove(t: seq<real>, b: real, rest: real)
    requires t != [] && Sorted(t) && 2 * Above(t, b) >= |t| && AllAtLeast(t, rest) && rest <= b
    ensures Middle(t) >= (rest + b) / 2.0
  {
    CountsInOrder(t, b);
    assert t[|t| / 2] > b;
  }

  /** With half the values above b, and none below rest, the median is above their mean. */
  lemma HalfAbove(s: seq<real>, b: real, rest: real)
    requires s != [] && 2 * Above(s, b) >= |s| && AllAtLeast(s, rest) && rest <= b
    ensures Median(s) >= (rest + b) / 2.0
  {
    SortKeepsAtLeast(s, rest);
    SortSorts(s);
    SortCounts(s, b);
    MiddleAbove(Sort(s), b, rest);
  }

  /** Replacing at least half of them moves the median beyond any bound. */
  lemma MajorityMoves(c: seq<real>, k: nat, bound: real) returns (s: seq<real>)
    requires c != [] && k <= |c| <= 2 * k
    ensures |s| == |c| && Replaced(c, s) <= k && Median(s) > bound
  {
    var low, b := Min(c), 2.0 * Abs(bound) + Abs(Min(c)) + 2.0;
    var p := seq(k, _ => b + 1.0);
    s := Poisoned(c, p);
    PoisonedCounts(c, p, b);
    assert AllAtLeast(s, low);
    HalfAbove(s, b, low);
  }

  ghost predicate Holds(c: seq<real>, k: nat, lo: real, hi: real) {
    forall s :: |s| == |c| && s != [] && Replaced(c, s) <= k ==> lo <= Median(s) <= hi
  }

  /** The breakdown point is exactly one half: the median stays bounded under any k
      replacements if and only if they are fewer than half. */
  lemma BreakdownPoint(c: seq<real>, k: nat)
    requires c != [] && k <= |c|
    ensures (exists lo, hi :: Holds(c, k, lo, hi)) <==> 2 * k < |c|
  {
    if 2 * k < |c| {
      var lo, hi := Min(c), Max(c);
      assert c[0] >= lo && c[0] <= hi;
      forall s | |s| == |c| && s != [] && Replaced(c, s) <= k ensures lo <= Median(s) <= hi {
        MinorityReplaced(c, s, lo, hi);
      }
      assert Holds(c, k, lo, hi);
    } else {
      forall lo, hi ensures !Holds(c, k, lo, hi) {
        var s := MajorityMoves(c, k, hi);
      }
    }
  }

  // --- the breakdown point of the deviation --------------------------------

  /** The i-th of values that are further and further away. */
  function Spread(x: real, i: nat): real { (i + 1) as real * x }

  lemma SpreadApart(x: real, i: nat, j: nat)
    requires x >= 0.0 && i < j
    ensures Spread(x, i) + x <= Spread(x, j) && x <= Spread(x, i)
  {
    assert Spread(x, j) - Spread(x, i) == (j - i) as real * x;
    assert (j - i - 1) as real * x >= 0.0 && i as real * x >= 0.0;
  }

  lemma {:induction false} NoneBelow(d: seq<real>, b: real)
    requires AllAtLeast(d, b)
    ensures Below(d, b) == 0
  {
    if d != [] {
      NoneBelow(d[..|d| - 1], b);
    }
  }

  lemma {:induction false} AtMostOneBelow(d: seq<real>, b: real)
    requires forall i, j :: 0 <= i < j < |d| ==> d[i] >= b || d[j] >= b
    ensures Below(d, b) <= 1
  {
    if d != [] {
      if d[|d| - 1] < b {
        NoneBelow(d[..|d| - 1], b);
      } else {
        AtMostOneBelow(d[..|d| - 1], b);
      }
    }
  }

  /** Values far apart from each other and from the kept ones, of which none is near m: at most
      one value is near m. */
  lemma AtMostOneNear(c: seq<real>, k: nat, x: real, m: real, b: real)
    requires k <= |c| && b >= 0.0 && x >= 2.0 * b
    requires forall i :: 0 <= i < |c| ==> c[i] + b <= m
    ensures Below(Deviations(Poisoned(c, seq(k, i requires 0 <= i < k => Spread(x, i))), m), b) <= 1
  {
    var s := Poisoned(c, seq(k, i requires 0 <= i < k => Spread(x, i)));
    var d := Deviations(s, m);
    forall i, j | 0 <= i < j < |d| ensures d[i] >= b || d[j] >= b {
      if j < k {
        SpreadApart(x, i, j);
      }
    }
    AtMostOneBelow(d, b);
  }

  /** Of three values or more, at least half replaced: they can be spread so far that the deviation
      exceeds any bound. */
  lemma SpreadMoves(c: seq<real>, k: nat, bound: real) returns (s: seq<real>)
    requires |c| >= 3 && k <= |c| <= 2 * k
    ensures |s| == |c| && Replaced(c, s) <= k && MAD(s) > bound
  {
    var b := Abs(bound) + 1.0;
    var low, far := Min(c), 2.0 * Abs(Max(c)) + Abs(Min(c)) + 2.0 * b;
    var x := far + 1.0;
    var p := seq(k, i requires 0 <= i < k => Spread(x, i));
    s := Poisoned(c, p);
    forall i | 0 <= i < k ensures p[i] > far && p[i] >= low {
      SpreadApart(x, i, i + 1);
    }
    PoisonedCounts(c, p, far);
    assert AllAtLeast(s, low);
    HalfAbove(s, far, low);
    AtMostOneNear(c, k, x, Median(s), b);
    MedianBounds(Deviations(s, Median(s)), b);
  }

  lemma PairMedian(x: real, y: real)
    ensures Median([x, y]) == (x + y) / 2.0
  {
    assert [x, y][..1] == [x] && [x][..0] == [];
    assert Sort([x]) == [x];
    assert Sort([x, y]) == Insert([x], y);
    assert [x][..0] == [] && Insert([], y) == [y];
  }

  /** Of two values one is enough. */
  lemma PairMoves(c: seq<real>, bound: real) returns (s: seq<real>)
    requires |c| == 2
    ensures |s| == 2 && Replaced(c, s) <= 1 && MAD(s) > bound
  {
    var y := c[1] + 2.0 * Abs(bound) + 2.0;
    s := [y, c[1]];
    assert c[..1] == [c[0]] && s[..1] == [y];
    assert Replaced(c[..1], s[..1]) <= 1;
    PairMedian(y, c[1]);
    var d := Deviations(s, Median(s));
    assert d == [Abs(bound) + 1.0, Abs(bound) + 1.0];
    PairMedian(Abs(bound) + 1.0, Abs(bound) + 1.0);
  }

  ghost predicate DeviationHolds(c: seq<real>, k: nat, hi: real) {
    forall s :: |s| == |c| && s != [] && Replaced(c, s) <= k ==> MAD(s) <= hi
  }

  lemma SingleDeviation(s: seq<real>)
    requires |s| == 1
    ensures MAD(s) == 0.0
  {
    assert s[..0] == [] && Sort(s) == s;
    var d := Deviations(s, Median(s));
    assert d == [0.0] && d[..0] == [] && Sort(d) == d;
  }

  /** The deviation breaks down at one half as well: it stays bounded under any k replacements
      if and only if they are fewer than half, or there is a single value. */
  lemma DeviationBreakdownPoint(c: seq<real>, k: nat)
    requires c != [] && k <= |c|
    ensures (exists hi :: DeviationHolds(c, k, hi)) <==> 2 * k < |c| || |c| == 1
  {
    if 2 * k < |c| {
      var lo, hi := Min(c), Max(c);
      assert c[0] >= lo && c[0] <= hi;
      forall s | |s| == |c| && s != [] && Replaced(c, s) <= k ensures MAD(s) <= hi - lo {
        MinorityReplaced(c, s, lo, hi);
      }
      assert DeviationHolds(c, k, hi - lo);
    } else if |c| == 1 {
      forall s | |s| == |c| && s != [] ensures MAD(s) <= 0.0 {
        SingleDeviation(s);
      }
      assert DeviationHolds(c, k, 0.0);
    } else {
      forall hi ensures !DeviationHolds(c, k, hi) {
        var s;
        if |c| == 2 {
          s := PairMoves(c, hi);
        } else {
          s := SpreadMoves(c, k, hi);
        }
      }
    }
  }
}
