/** The anomaly detector: one observation against the robust centre and scale of its trailing
    window. A value that is not a number is None. */
module Detector {
  import opened Wrappers
  import opened OrderStatistics

  type Metric = string

  datatype Direction = Increase | Decrease

  datatype Severity = Medium | High

  datatype Config = Config(
    windowSessions: int, minWindowSessions: int, minPitches: int, high: real, medium: real,
    sigmaFloor: map<Metric, real>)

  datatype SessionPoint = SessionPoint(pitchCount: int, value: Option<real>)

  datatype Observation = Observation(metric: Metric, value: Option<real>, pitchCount: int)

  datatype Finding = Finding(
    observed: real, median: real, sigma: real, z: real, direction: Direction, severity: Severity, sessions: nat)

  const MAD_SCALE: real := 1.4826

  const DEFAULT_FLOORS: map<Metric, real> := map[
    "release_speed" := 0.25, "release_spin_rate" := 25.0, "release_pos_x_arm" := 0.02,
    "release_pos_z" := 0.02, "release_extension" := 0.03, "pfx_x_arm" := 0.03, "pfx_z" := 0.03]

  predicate Tuned(c: Config) {
    c.windowSessions > 0 && c.minWindowSessions > 0 && c.minPitches > 0 && c.high > 0.0 && c.medium > 0.0
  }

  // --- specification -------------------------------------------------------

  predicate Counts(cfg: Config, p: SessionPoint) { p.pitchCount >= cfg.minPitches && p.value.Some? }

  /** The values of the points that count, in order. */
  function Values(cfg: Config, window: seq<SessionPoint>): seq<real> {
    if window == [] then []
    else
      Values(cfg, window[..|window| - 1])
      + if Counts(cfg, window[|window| - 1]) then [window[|window| - 1].value.value] else []
  }

  function First(s: seq<real>, n: int): seq<real>
    requires n > 0
  {
    if |s| <= n then s else s[..n]
  }

  function Usable(cfg: Config, window: seq<SessionPoint>): seq<real>
    requires Tuned(cfg)
  {
    First(Values(cfg, window), cfg.windowSessions)
  }

  function Floor(cfg: Config, metric: Metric): Option<real> {
    if metric in cfg.sigmaFloor then Some(cfg.sigmaFloor[metric]) else None
  }

  /** The robust sigma, not below the metric's floor if it has one. */
  function Sigma(cfg: Config, metric: Metric, usable: seq<real>): real
    requires usable != []
  {
    var sigma := MAD_SCALE * MAD(usable);
    match Floor(cfg, metric)
    case Some(floor) => if sigma < floor then floor else sigma
    case None => sigma
  }

  /** There is enough data on both sides to say something. */
  predicate Judged(cfg: Config, obs: Observation, window: seq<SessionPoint>)
    requires Tuned(cfg)
  {
    obs.pitchCount >= cfg.minPitches && |Usable(cfg, window)| >= cfg.minWindowSessions && obs.value.Some?
  }

  // --- the methods ---------------------------------------------------------

  method New(cfg: Config, noFloors: bool) returns (d: Config)
    ensures Tuned(d)
    ensures Tuned(cfg) && !noFloors ==> d == cfg
    ensures noFloors ==> d.sigmaFloor == DEFAULT_FLOORS
    ensures cfg.windowSessions <= 0 ==> d.windowSessions == 10
    ensures cfg.minWindowSessions <= 0 ==> d.minWindowSessions == 5
    ensures cfg.minPitches <= 0 ==> d.minPitches == 5
    ensures cfg.high <= 0.0 ==> d.high == 3.0
    ensures cfg.medium <= 0.0 ==> d.medium == 2.5
  {
    d := cfg;
    if d.windowSessions <= 0 { d := d.(windowSessions := 10); }
    if d.minWindowSessions <= 0 { d := d.(minWindowSessions := 5); }
    if d.minPitches <= 0 { d := d.(minPitches := 5); }
    if d.high <= 0.0 { d := d.(high := 3.0); }
    if d.medium <= 0.0 { d := d.(medium := 2.5); }
    if noFloors { d := d.(sigmaFloor := DEFAULT_FLOORS); }
  }

  method ComputeMAD(values: seq<real>) returns (mad: real)
    requires values != []
    ensures mad == MAD(values)
  {
    var median := Median(values);
    var deviations := new real[|values|];
    for i := 0 to |values|
      invariant forall j :: 0 <= j < i ==> deviations[j] == Abs(values[j] - median)
    {
      deviations[i] := Abs(values[i] - median);
    }
    assert deviations[..] == Deviations(values, median);
    mad := Median(deviations[..]);
  }

  method CollectUsable(cfg: Config, window: seq<SessionPoint>) returns (usable: seq<real>)
    requires Tuned(cfg)
    ensures usable == Usable(cfg, window)
  {
    usable := [];
    var i := 0;
    while i < |window|
      invariant i <= |window| && usable == Values(cfg, window[..i]) && |usable| < cfg.windowSessions
    {
      var p := window[i];
      assert window[..i + 1][..i] == window[..i];
      if p.pitchCount >= cfg.minPitches && p.value.Some? {
        usable := usable + [p.value.value];
      }
      i := i + 1;
      if |usable| >= cfg.windowSessions {
        ValuesGrow(cfg, window, i);
        return;
      }
    }
    assert window[..i] == window;
  }

  lemma {:induction false} ValuesGrow(cfg: Config, window: seq<SessionPoint>, i: nat)
    requires i <= |window|
    ensures Values(cfg, window[..i]) <= Values(cfg, window)
  {
    if i == |window| {
      assert window[..i] == window;
    } else {
      assert window[..|window| - 1][..i] == window[..i];
      ValuesGrow(cfg, window[..|window| - 1], i);
    }
  }

  /** What is reported of a value against a centre and a positive scale: nothing below the
      medium threshold; otherwise its grade and its side. */
  predicate Grades(cfg: Config, value: real, median: real, sigma: real, finding: Option<Finding>) {
    var distance := Abs(value - median);
    && (finding.Some? <==> distance >= cfg.high * sigma || distance >= cfg.medium * sigma)
    && (finding.Some? ==>
          var f := finding.value;
          && (f.severity.High? <==> distance >= cfg.high * sigma)
          && (f.direction.Increase? <==> value >= median)
          && f.observed == value && f.median == median && f.sigma == sigma)
  }

  /** The reported score is the distance in units of the reported scale. */
  predicate Scored(finding: Option<Finding>) {
    finding.Some? ==> finding.value.z * finding.value.sigma == finding.value.observed - finding.value.median
  }

  /** Without a positive scale nothing is reported. */
  predicate Decided(cfg: Config, value: real, median: real, sigma: real, finding: Option<Finding>) {
    if sigma <= 0.0 then finding.None? else Grades(cfg, value, median, sigma, finding)
  }

  /** A finding needs enough data on both sides; it carries the baseline it was judged by. */
  predicate Verdict(cfg: Config, obs: Observation, window: seq<SessionPoint>, finding: Option<Finding>)
    requires Tuned(cfg)
  {
    if !Judged(cfg, obs, window) then finding.None?
    else
      var usable := Usable(cfg, window);
      && Decided(cfg, obs.value.value, Median(usable), Sigma(cfg, obs.metric, usable), finding)
      && (finding.Some? ==> finding.value.sessions == |usable|)
  }

  lemma QuotientAgainst(x: real, sigma: real, threshold: real)
    requires sigma > 0.0
    ensures (x / sigma) * sigma == x && (x / sigma < 0.0 <==> x < 0.0)
    ensures Abs(x / sigma) >= threshold <==> Abs(x) >= threshold * sigma
  {
    var z := x / sigma;
    assert z * sigma == x;
    assert Abs(x) == Abs(z) * sigma;
    if Abs(z) >= threshold {
      assert (Abs(z) - threshold) * sigma >= 0.0;
    } else {
      assert (threshold - Abs(z)) * sigma > 0.0;
    }
  }

  method Grade(cfg: Config, value: real, median: real, sigma: real, sessions: nat) returns (finding: Option<Finding>)
    requires Tuned(cfg) && sigma > 0.0
    ensures Grades(cfg, value, median, sigma, finding) && Scored(finding)
    ensures finding.Some? ==> finding.value.sessions == sessions
  {
    var z := (value - median) / sigma;
    QuotientAgainst(value - median, sigma, cfg.high);
    QuotientAgainst(value - median, sigma, cfg.medium);
    var severity := High;
    if Abs(z) >= cfg.high {
    } else if Abs(z) >= cfg.medium {
      severity := Medium;
    } else {
      return None;
    }
    var direction := Increase;
    if z < 0.0 {
      direction := Decrease;
    }
    finding := Some(Finding(value, median, sigma, z, direction, severity, sessions));
  }

  method Evaluate(cfg: Config, obs: Observation, window: seq<SessionPoint>) returns (finding: Option<Finding>)
    requires Tuned(cfg)
    ensures Verdict(cfg, obs, window, finding) && Scored(finding)
  {
    finding := None;
    if obs.pitchCount < cfg.minPitches {
      return;
    }
    var usable := CollectUsable(cfg, window);
    if |usable| < cfg.minWindowSessions {
      return;
    }
    var mad := ComputeMAD(usable);
    var sigma := MAD_SCALE * mad;
    if obs.metric in cfg.sigmaFloor && sigma < cfg.sigmaFloor[obs.metric] {
      sigma := cfg.sigmaFloor[obs.metric];
    }
    if sigma <= 0.0 || obs.value.None? {
      return;
    }
    finding := Grade(cfg, obs.value.value, Median(usable), sigma, |usable|);
  }

  // --- outliers in the window ----------------------------------------------

  /** An upper bound of the scale when fewer than half the window leaves [lo, hi]. */
  function SigmaBound(cfg: Config, metric: Metric, lo: real, hi: real): real {
    var sigma := MAD_SCALE * (hi - lo);
    match Floor(cfg, metric)
    case Some(floor) => if sigma < floor then floor else sigma
    case None => sigma
  }

  lemma SigmaIsBounded(cfg: Config, metric: Metric, usable: seq<real>, lo: real, hi: real)
    requires lo <= hi && 2 * Outside(usable, lo, hi) < |usable|
    ensures 0.0 <= Sigma(cfg, metric, usable) <= SigmaBound(cfg, metric, lo, hi)
    ensures lo <= Median(usable) <= hi
  {
    MinorityCannotMove(usable, lo, hi);
  }

  /** Fewer than half the usable sessions leave the interval. */
  predicate MostlyWithin(cfg: Config, window: seq<SessionPoint>, lo: real, hi: real)
    requires Tuned(cfg)
  {
    lo <= hi && 2 * Outside(Usable(cfg, window), lo, hi) < |Usable(cfg, window)|
  }

  predicate Flagged(finding: Option<Finding>, direction: Direction) {
    finding.Some? && finding.value.severity.High? && finding.value.direction == direction
  }

  lemma TimesAtMost(h: real, a: real, b: real)
    requires h > 0.0 && a <= b
    ensures h * a <= h * b && (a > 0.0 ==> h * a > 0.0)
  {}

  lemma FarIsFlagged(cfg: Config, value: real, median: real, sigma: real, finding: Option<Finding>,
                     lo: real, hi: real, bound: real)
    requires Tuned(cfg) && lo <= median <= hi && sigma <= bound
    requires Decided(cfg, value, median, sigma, finding)
    ensures value >= hi + cfg.high * bound ==> (Flagged(finding, Increase) <==> sigma > 0.0)
    ensures value <= lo - cfg.high * bound ==> (Flagged(finding, Decrease) <==> sigma > 0.0)
  {
    TimesAtMost(cfg.high, sigma, bound);
  }

  /** Outliers cannot mask an anomaly: whatever the sessions outside [lo, hi] are, as long as
      they are fewer than half, an observation that far above hi is flagged high and as an
      increase, and one that far below lo as a decrease, exactly when the scale is positive. */
  lemma OutliersCannotMask(cfg: Config, obs: Observation, window: seq<SessionPoint>, finding: Option<Finding>,
                           lo: real, hi: real)
    requires Tuned(cfg) && Verdict(cfg, obs, window, finding)
    requires Judged(cfg, obs, window) && MostlyWithin(cfg, window, lo, hi)
    ensures
      var margin := cfg.high * SigmaBound(cfg, obs.metric, lo, hi);
      var positive := Sigma(cfg, obs.metric, Usable(cfg, window)) > 0.0;
      && (obs.value.value >= hi + margin ==> (Flagged(finding, Increase) <==> positive))
      && (obs.value.value <= lo - margin ==> (Flagged(finding, Decrease) <==> positive))
  {
    var usable := Usable(cfg, window);
    var sigma, median := Sigma(cfg, obs.metric, usable), Median(usable);
    SigmaIsBounded(cfg, obs.metric, usable, lo, hi);
    FarIsFlagged(cfg, obs.value.value, median, sigma, finding, lo, hi, SigmaBound(cfg, obs.metric, lo, hi));
  }

  /** The scale is never below the floor, so a positive floor makes it positive. */
  lemma FloorHolds(cfg: Config, metric: Metric, usable: seq<real>)
    requires usable != [] && metric in cfg.sigmaFloor
    ensures Sigma(cfg, metric, usable) >= cfg.sigmaFloor[metric]
  {}

  lemma FloorHides(cfg: Config, value: real, median: real, sigma: real, finding: Option<Finding>,
                   lo: real, hi: real, floor: real)
    requires Tuned(cfg) && sigma >= floor && lo <= median <= hi && lo <= value <= hi
    requires Decided(cfg, value, median, sigma, finding)
    requires hi - lo < cfg.high * floor && hi - lo < cfg.medium * floor
    ensures finding.None?
  {
    TimesAtMost(cfg.high, floor, sigma);
    TimesAtMost(cfg.medium, floor, sigma);
    assert Abs(value - median) <= hi - lo;
    assert Abs(value - median) < cfg.high * sigma && Abs(value - median) < cfg.medium * sigma;
  }

  /** The centre and the scale a verdict was reached by, when fewer than half the sessions leave [lo, hi]. */
  lemma BaselineOf(cfg: Config, obs: Observation, window: seq<SessionPoint>, finding: Option<Finding>,
                   lo: real, hi: real) returns (median: real, sigma: real)
    requires Tuned(cfg) && Verdict(cfg, obs, window, finding)
    requires Judged(cfg, obs, window) && MostlyWithin(cfg, window, lo, hi) && obs.metric in cfg.sigmaFloor
    ensures lo <= median <= hi && sigma >= cfg.sigmaFloor[obs.metric]
    ensures Decided(cfg, obs.value.value, median, sigma, finding)
  {
    var usable := Usable(cfg, window);
    median, sigma := Median(usable), Sigma(cfg, obs.metric, usable);
    MinorityCannotMove(usable, lo, hi);
    FloorHolds(cfg, obs.metric, usable);
  }

  /** Nor can outliers make an ordinary value look like an anomaly: a value within [lo, hi] is
      not reported if the interval is narrower than either threshold times the floor. */
  lemma OutliersCannotFake(cfg: Config, obs: Observation, window: seq<SessionPoint>, finding: Option<Finding>,
                           lo: real, hi: real)
    requires Tuned(cfg) && Verdict(cfg, obs, window, finding)
    requires Judged(cfg, obs, window) && MostlyWithin(cfg, window, lo, hi)
    requires lo <= obs.value.value <= hi && obs.metric in cfg.sigmaFloor
    requires hi - lo < cfg.high * cfg.sigmaFloor[obs.metric] && hi - lo < cfg.medium * cfg.sigmaFloor[obs.metric]
    ensures finding.None?
  {
    var value, floor := obs.value.value, cfg.sigmaFloor[obs.metric];
    assert finding.None? by {
      var median, sigma := BaselineOf(cfg, obs, window, finding, lo, hi);
      if finding.Some? {
        FloorHides(cfg, value, median, sigma, finding, lo, hi, floor);
      }
    }
  }

  // --- which sessions count ------------------------------------------------

  lemma {:induction false} ValuesOfParts(cfg: Config, a: seq<SessionPoint>, b: seq<SessionPoint>)
    ensures Values(cfg, a + b) == Values(cfg, a) + Values(cfg, b)
  {
    if b == [] {
      assert a + b == a;
    } else {
      ValuesOfParts(cfg, a, b[..|b| - 1]);
      assert (a + b)[..|a + b| - 1] == a + b[..|b| - 1];
    }
  }

  /** How many sessions of a window have enough pitches and a value. */
  function Thick(cfg: Config, window: seq<SessionPoint>): nat {
    if window == [] then 0
    else
      var p := window[|window| - 1];
      Thick(cfg, window[..|window| - 1]) + if p.pitchCount < cfg.minPitches || p.value == None then 0 else 1
  }

  lemma {:induction false} ValuesAreThick(cfg: Config, window: seq<SessionPoint>)
    ensures |Values(cfg, window)| == Thick(cfg, window)
  {
    if window != [] {
      ValuesAreThick(cfg, window[..|window| - 1]);
    }
  }

  /** A thin history is silent, whatever it says, and so is a thin observation: with fewer sessions of
      enough pitches and a value than the minimum nothing is reported. */
  lemma ThinHistoryIsSilent(cfg: Config, obs: Observation, window: seq<SessionPoint>, finding: Option<Finding>)
    requires Tuned(cfg) && Verdict(cfg, obs, window, finding)
    requires Thick(cfg, window) < cfg.minWindowSessions || obs.pitchCount < cfg.minPitches || obs.value == None
    ensures finding.None?
  {
    ValuesAreThick(cfg, window);
  }

  /** A session with too few pitches or without a value may as well not be there: adding it, leaving it
      out or exchanging it for another such one changes no verdict. */
  lemma ThinSessionsDoNotMatter(
    cfg: Config, obs: Observation, before: seq<SessionPoint>, p: SessionPoint, q: SessionPoint,
    after: seq<SessionPoint>, finding: Option<Finding>)
    requires Tuned(cfg) && (p.pitchCount < cfg.minPitches || p.value == None)
    requires q.pitchCount < cfg.minPitches || q.value == None
    ensures Verdict(cfg, obs, before + [p] + after, finding) <==> Verdict(cfg, obs, before + after, finding)
    ensures Verdict(cfg, obs, before + [p] + after, finding) <==> Verdict(cfg, obs, before + [q] + after, finding)
  {
    LeftOut(cfg, before, p, after);
    LeftOut(cfg, before, q, after);
  }

  lemma LeftOut(cfg: Config, before: seq<SessionPoint>, p: SessionPoint, after: seq<SessionPoint>)
    requires p.pitchCount < cfg.minPitches || p.value == None
    ensures Values(cfg, before + [p] + after) == Values(cfg, before + after)
  {
    ValuesOfParts(cfg, before + [p], after);
    ValuesOfParts(cfg, before, [p]);
    ValuesOfParts(cfg, before, after);
    assert [p][..0] == [];
    assert Values(cfg, [p]) == [];
  }

  /** Only the first sessions that count do, as many as the window is long. */
  lemma LaterSessionsDoNotMatter(
    cfg: Config, obs: Observation, window: seq<SessionPoint>, more: seq<SessionPoint>, finding: Option<Finding>)
    requires Tuned(cfg) && Thick(cfg, window) >= cfg.windowSessions
    ensures Verdict(cfg, obs, window + more, finding) <==> Verdict(cfg, obs, window, finding)
  {
    ValuesAreThick(cfg, window);
    ValuesOfParts(cfg, window, more);
    assert Usable(cfg, window + more) == Usable(cfg, window);
  }

  /** And each of those counts, with its own value. */
  lemma {:induction false} ThickSessionsCount(cfg: Config, window: seq<SessionPoint>)
    requires forall i :: 0 <= i < |window| ==> window[i].pitchCount >= cfg.minPitches && window[i].value != None
    ensures |Values(cfg, window)| == |window|
    ensures forall i :: 0 <= i < |window| ==> Values(cfg, window)[i] == window[i].value.value
  {
    if window != [] {
      ThickSessionsCount(cfg, window[..|window| - 1]);
    }
  }

  // --- two verdicts by hand ------------------------------------------------

  /** The distance at which a value is reported, in units of the scale. */
  function Threshold(cfg: Config): real { if cfg.high < cfg.medium then cfg.high else cfg.medium }

  /** The finding for a value against a centre and a scale. */
  predicate Reports(cfg: Config, value: real, median: real, sigma: real, finding: Option<Finding>) {
    var distance := Abs(value - median);
    if distance < Threshold(cfg) * sigma then finding == None
    else
      && finding != None
      && finding.value.severity == (if distance >= cfg.high * sigma then High else Medium)
      && finding.value.direction == (if value < median then Decrease else Increase)
      && finding.value.observed == value && finding.value.median == median && finding.value.sigma == sigma
  }

  lemma DecidedReports(cfg: Config, value: real, median: real, sigma: real, finding: Option<Finding>)
    requires Tuned(cfg) && sigma > 0.0 && Decided(cfg, value, median, sigma, finding)
    ensures Reports(cfg, value, median, sigma, finding)
  {
  }

  lemma {:induction false} NoneOutside(s: seq<real>, v: real)
    requires forall i :: 0 <= i < |s| ==> s[i] == v
    ensures Outside(s, v, v) == 0
  {
    if s != [] {
      NoneOutside(s[..|s| - 1], v);
    }
  }

  /** A history that always says the same: its floor is the scale, so that a pitcher who is suspiciously
      consistent is measured in units of the noise. */
  lemma SteadyHistoryUsesTheFloor(
    cfg: Config, obs: Observation, window: seq<SessionPoint>, v: real, floor: real, finding: Option<Finding>)
    requires Tuned(cfg) && Verdict(cfg, obs, window, finding)
    requires obs.pitchCount >= cfg.minPitches && obs.value != None
    requires cfg.minWindowSessions <= |window| <= cfg.windowSessions
    requires forall i :: 0 <= i < |window| ==> window[i].pitchCount >= cfg.minPitches && window[i].value == Some(v)
    requires floor > 0.0 && obs.metric in cfg.sigmaFloor && cfg.sigmaFloor[obs.metric] == floor
    ensures Reports(cfg, obs.value.value, v, floor, finding)
  {
    SteadyBaseline(cfg, obs.metric, window, v);
    DecidedReports(cfg, obs.value.value, v, floor, finding);
  }

  lemma SteadyBaseline(cfg: Config, metric: Metric, window: seq<SessionPoint>, v: real)
    requires Tuned(cfg) && 0 < |window| <= cfg.windowSessions
    requires forall i :: 0 <= i < |window| ==> window[i].pitchCount >= cfg.minPitches && window[i].value == Some(v)
    requires metric in cfg.sigmaFloor && cfg.sigmaFloor[metric] > 0.0
    ensures
      var usable := Usable(cfg, window);
      |usable| == |window| && Median(usable) == v && Sigma(cfg, metric, usable) == cfg.sigmaFloor[metric]
  {
    ThickSessionsCount(cfg, window);
    NoneOutside(Usable(cfg, window), v);
    MinorityCannotMove(Usable(cfg, window), v, v);
  }

  /** Two sessions without a floor: the centre is half way between them, the scale 1.4826 times half
      their distance. */
  lemma TwoSessionsByHand(
    cfg: Config, obs: Observation, a: SessionPoint, b: SessionPoint, finding: Option<Finding>)
    requires Tuned(cfg) && Verdict(cfg, obs, [a, b], finding)
    requires obs.pitchCount >= cfg.minPitches && obs.value != None && obs.metric !in cfg.sigmaFloor
    requires cfg.minWindowSessions <= 2 <= cfg.windowSessions
    requires a.pitchCount >= cfg.minPitches && b.pitchCount >= cfg.minPitches && a.value != None && b.value != None
    requires a.value.value != b.value.value
    ensures
      var x, y := a.value.value, b.value.value;
      Reports(cfg, obs.value.value, (x + y) / 2.0, 1.4826 * Abs(x - y) / 2.0, finding)
  {
    var x, y := a.value.value, b.value.value;
    ThickSessionsCount(cfg, [a, b]);
    assert Usable(cfg, [a, b]) == [x, y];
    PairMedian(x, y);
    var half := Abs(x - y) / 2.0;
    assert Deviations([x, y], (x + y) / 2.0) == [half, half];
    PairMedian(half, half);
    assert Sigma(cfg, obs.metric, [x, y]) == 1.4826 * half;
    DecidedReports(cfg, obs.value.value, (x + y) / 2.0, 1.4826 * half, finding);
  }
}
