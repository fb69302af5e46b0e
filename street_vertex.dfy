/**
 * One direction of a street segment: its attributes, the slope costs derived from its elevation
 * profile, whether a request may traverse it, and the weight a traversal costs.
 */
module StreetVertices {
  import opened Routing
  import SlopeSpline

  /** Energy model of a cyclist at about 5 m/s: joules per metre on the flat and per unit of slope. */
  const JOULES_PER_METER_ON_FLAT: real := 6.8
  const JOULES_SLOPE_FACTOR: real := 73.7

  /** A street whose safety length is at most this fraction of its length is a greenway. */
  const GREENWAY_SAFETY_FACTOR: real := 0.1

  /** Scales work costs to be comparable with time and safety costs. */
  const WORK_NORMALIZATION_FACTOR: real := 0.0294

  /** The steepest street on earth has a grade of 35%; steeper slopes are data errors. */
  const MAX_PLAUSIBLE_SLOPE: real := 0.35

  /** Greenways are weighted as this fraction of their safety weight. */
  const GREENWAY_DISCOUNT: real := 0.66

  /** Work cost per metre on the flat and on the steepest plausible climb: 6.8 * 0.0294 and (6.8 + 73.7 * 0.35) * 0.0294. */
  const MIN_WORK_PER_METER: real := 0.19992
  const MAX_WORK_PER_METER: real := 0.958293

  /** A sample of an elevation profile: distance along the street and altitude, in metres. */
  datatype Coordinate = Coordinate(x: real, y: real)

  /** What computeSlopeCost returns. */
  datatype SlopeCosts = SlopeCosts(slopeSpeedEffectiveLength: real, slopeWorkCost: real, maxSlope: real)

  /** Which kinds of traffic may use a street. */
  datatype StreetTraversalPermission = Permission(pedestrian: bool, bicycle: bool, car: bool)

  const ALL: StreetTraversalPermission := Permission(true, true, true)

  /** Samples are ordered by strictly increasing distance, so no interval has zero run. */
  predicate StrictlyIncreasing(elev: seq<Coordinate>) {
    forall i, j :: 0 <= i < j < |elev| ==> elev[i].x < elev[j].x
  }

  /**
   * The slope rise / run of one interval, replaced by 0 when it is steeper than 35% either way.
   */
  function ClampedSlope(rise: real, run: real): (slope: real)
    requires run > 0.0
    ensures -MAX_PLAUSIBLE_SLOPE <= slope <= MAX_PLAUSIBLE_SLOPE
  {
    var s := rise / run;
    if s > MAX_PLAUSIBLE_SLOPE || s < -MAX_PLAUSIBLE_SLOPE then 0.0 else s
  }

  /**
   * The clamped slope of interval i, from sample i to sample i + 1. Profiles are strictly
   * increasing, so the run is positive; the 0 of the other branch is never used.
   */
  function IntervalSlope(elev: seq<Coordinate>, i: nat): real
    requires i + 1 < |elev|
  {
    var run := elev[i + 1].x - elev[i].x;
    if run > 0.0 then ClampedSlope(elev[i + 1].y - elev[i].y, run) else 0.0
  }

  /** Work cost of one interval: run * (6.8 + 73.7 * max(slope, 0)) joules, normalised. */
  function IntervalWork(run: real, slope: real): real {
    run * (JOULES_PER_METER_ON_FLAT + JOULES_SLOPE_FACTOR * Max(slope, 0.0)) * WORK_NORMALIZATION_FACTOR
  }

  /** maxSlope after the first n intervals of the loop. */
  function MaxSlopeOf(elev: seq<Coordinate>, n: nat): real
    requires n == 0 || n < |elev|
  {
    if n == 0 then 0.0
    else
      var m := MaxSlopeOf(elev, n - 1);
      var s := IntervalSlope(elev, n - 1);
      if m < Abs(s) then Abs(s) else m
  }

  /** slopeWorkCost after the first n intervals of the loop. */
  function WorkCostOf(elev: seq<Coordinate>, n: nat): real
    requires n == 0 || n < |elev|
  {
    if n == 0 then 0.0
    else WorkCostOf(elev, n - 1) + IntervalWork(elev[n].x - elev[n - 1].x, IntervalSlope(elev, n - 1))
  }

  /** slopeSpeedEffectiveLength after the first n intervals of the loop. */
  function SpeedLengthOf(elev: seq<Coordinate>, n: nat): real
    requires n == 0 || n < |elev|
  {
    if n == 0 then 0.0
    else
      SpeedLengthOf(elev, n - 1) + IntervalSpeedLength(elev, n - 1)
  }

  /** The number of intervals of a profile. */
  function IntervalCount(elev: seq<Coordinate>): (n: nat)
    ensures n == 0 || n < |elev|
  {
    if |elev| == 0 then 0 else |elev| - 1
  }

  /** The costs computeSlopeCost returns for a whole profile. */
  function SlopeCostsOf(elev: seq<Coordinate>): (costs: SlopeCosts)
    ensures |elev| < 2 ==> costs == SlopeCosts(0.0, 0.0, 0.0)
  {
    var n := IntervalCount(elev);
    SlopeCosts(SpeedLengthOf(elev, n), WorkCostOf(elev, n), MaxSlopeOf(elev, n))
  }

  /**
   * The body of computeSlopeCost's loop for one interval: the clamped slope, the work cost and
   * the slope-adjusted length the interval adds.
   */
  method IntervalCosts(run: real, rise: real, altitude: real) returns (slope: real, work: real, speedLength: real)
    requires run > 0.0
    ensures slope == ClampedSlope(rise, run)
    ensures work == IntervalWork(run, slope)
    ensures speedLength == AdjustedRun(run, SlopeSpline.SplineCoefficient(slope, altitude))
  {
    slope := rise / run;
    if slope > MAX_PLAUSIBLE_SLOPE || slope < -MAX_PLAUSIBLE_SLOPE {
      slope := 0.0;
    }
    var slopeOrZero := Max(slope, 0.0);
    var joules := run * (JOULES_PER_METER_ON_FLAT + JOULES_SLOPE_FACTOR * slopeOrZero);
    work := joules * WORK_NORMALIZATION_FACTOR;
    var coefficient := SlopeSpline.SlopeSpeedCoefficient(slope, altitude);
    speedLength := run * coefficient;
    assert speedLength == AdjustedRun(run, coefficient);
  }

  /** One iteration of computeSlopeCost's loop: the running costs of i intervals become those of i + 1. */
  method AddInterval(elev: seq<Coordinate>, i: nat, maxSlope: real, slopeWorkCost: real, slopeSpeedEffectiveLength: real)
    returns (maxSlope': real, slopeWorkCost': real, slopeSpeedEffectiveLength': real)
    requires i + 1 < |elev| && elev[i].x < elev[i + 1].x
    requires maxSlope == MaxSlopeOf(elev, i) && slopeWorkCost == WorkCostOf(elev, i) && slopeSpeedEffectiveLength == SpeedLengthOf(elev, i)
    ensures maxSlope' == MaxSlopeOf(elev, i + 1) && slopeWorkCost' == WorkCostOf(elev, i + 1)
    ensures slopeSpeedEffectiveLength' == SpeedLengthOf(elev, i + 1)
  {
    var slope, work, speedLength := IntervalCosts(elev[i + 1].x - elev[i].x, elev[i + 1].y - elev[i].y, elev[i].y);
    IntervalStep(elev, i, slope, work, speedLength);
    maxSlope' := maxSlope;
    if maxSlope < Abs(slope) {
      maxSlope' := Abs(slope);
    }
    slopeWorkCost' := slopeWorkCost + work;
    slopeSpeedEffectiveLength' := slopeSpeedEffectiveLength + speedLength;
  }

  /**
   * computeSlopeCost: one pass over the intervals of the profile, clamping implausible slopes,
   * accumulating the work cost and the slope-adjusted length and tracking the steepest slope.
   */
  method ComputeSlopeCost(elev: seq<Coordinate>) returns (costs: SlopeCosts)
    requires StrictlyIncreasing(elev)
    ensures costs == SlopeCostsOf(elev)
  {
    var maxSlope := 0.0;
    var slopeSpeedEffectiveLength := 0.0;
    var slopeWorkCost := 0.0;
    var i := 0;
    while i < |elev| - 1
      invariant i <= IntervalCount(elev)
      invariant maxSlope == MaxSlopeOf(elev, i)
      invariant slopeWorkCost == WorkCostOf(elev, i)
      invariant slopeSpeedEffectiveLength == SpeedLengthOf(elev, i)
    {
      maxSlope, slopeWorkCost, slopeSpeedEffectiveLength := AddInterval(elev, i, maxSlope, slopeWorkCost, slopeSpeedEffectiveLength);
      i := i + 1;
    }
    assert i == IntervalCount(elev);
    costs := SlopeCosts(slopeSpeedEffectiveLength, slopeWorkCost, maxSlope);
  }

  /** How the three running costs grow by one interval. */
  lemma IntervalStep(elev: seq<Coordinate>, i: nat, slope: real, work: real, speedLength: real)
    requires i + 1 < |elev| && elev[i].x < elev[i + 1].x
    requires slope == ClampedSlope(elev[i + 1].y - elev[i].y, elev[i + 1].x - elev[i].x)
    requires work == IntervalWork(elev[i + 1].x - elev[i].x, slope)
    requires speedLength == AdjustedRun(elev[i + 1].x - elev[i].x, SlopeSpline.SplineCoefficient(slope, elev[i].y))
    ensures MaxSlopeOf(elev, i + 1) == if MaxSlopeOf(elev, i) < Abs(slope) then Abs(slope) else MaxSlopeOf(elev, i)
    ensures WorkCostOf(elev, i + 1) == WorkCostOf(elev, i) + work
    ensures SpeedLengthOf(elev, i + 1) == SpeedLengthOf(elev, i) + speedLength
  {
  }

  /**
   * maxSlope is the largest absolute clamped slope of the first n intervals (0 when there is
   * none), so it lies in [0, 0.35].
   */
  lemma {:induction false} MaxSlopeIsMaximum(elev: seq<Coordinate>, n: nat)
    requires n < |elev|
    ensures 0.0 <= MaxSlopeOf(elev, n) <= MAX_PLAUSIBLE_SLOPE
    ensures forall i :: 0 <= i < n ==> Abs(IntervalSlope(elev, i)) <= MaxSlopeOf(elev, n)
    ensures n == 0 ==> MaxSlopeOf(elev, n) == 0.0
    ensures n > 0 ==> exists i :: 0 <= i < n && MaxSlopeOf(elev, n) == Abs(IntervalSlope(elev, i))
  {
    if n > 0 {
      MaxSlopeIsMaximum(elev, n - 1);
      if n - 1 > 0 {
        var i :| 0 <= i < n - 1 && MaxSlopeOf(elev, n - 1) == Abs(IntervalSlope(elev, i));
        assert 0 <= i < n;
      } else {
        assert MaxSlopeOf(elev, n) == Abs(IntervalSlope(elev, 0));
      }
    }
  }

  /** One interval's work cost lies between the flat cost and the cost of the steepest plausible climb. */
  lemma IntervalWorkBounds(run: real, slope: real)
    requires run > 0.0 && slope <= MAX_PLAUSIBLE_SLOPE
    ensures MIN_WORK_PER_METER * run <= IntervalWork(run, slope) <= MAX_WORK_PER_METER * run
  {
    var p := Max(slope, 0.0);
    assert 0.0 <= p <= MAX_PLAUSIBLE_SLOPE;
    assert IntervalWork(run, slope) == run * 0.19992 + run * (p * 2.16678);
    assert run * (p * 2.16678) <= run * (0.35 * 2.16678);
  }

  /**
   * On a strictly increasing profile the work cost of the first n intervals lies between 0.19992
   * and 0.958293 times the distance they cover; in particular it is never negative.
   */
  lemma {:induction false} WorkCostBounds(elev: seq<Coordinate>, n: nat)
    requires StrictlyIncreasing(elev) && n < |elev|
    ensures MIN_WORK_PER_METER * (elev[n].x - elev[0].x) <= WorkCostOf(elev, n)
    ensures WorkCostOf(elev, n) <= MAX_WORK_PER_METER * (elev[n].x - elev[0].x)
    ensures 0.0 <= WorkCostOf(elev, n)
  {
    if n > 0 {
      WorkCostBounds(elev, n - 1);
      IntervalWorkBounds(elev[n].x - elev[n - 1].x, IntervalSlope(elev, n - 1));
      SplitSpan(MIN_WORK_PER_METER, elev[0].x, elev[n - 1].x, elev[n].x);
      SplitSpan(MAX_WORK_PER_METER, elev[0].x, elev[n - 1].x, elev[n].x);
    }
  }

  /** A run stretched by a speed coefficient. */
  function AdjustedRun(run: real, coefficient: real): real {
    run * coefficient
  }

  /** The slope-adjusted length of interval i: its run times the spline coefficient at its start. */
  function IntervalSpeedLength(elev: seq<Coordinate>, i: nat): real
    requires i + 1 < |elev|
  {
    AdjustedRun(elev[i + 1].x - elev[i].x, SlopeSpline.SplineCoefficient(IntervalSlope(elev, i), elev[i].y))
  }

  /** One interval's slope-adjusted length lies between the extreme coefficients times its run. */
  lemma IntervalSpeedLengthBounds(elev: seq<Coordinate>, i: nat)
    requires i + 1 < |elev| && elev[i].x < elev[i + 1].x
    requires 0.0 <= elev[i].y <= 5000.0
    ensures SlopeSpline.COEFF_MIN * (elev[i + 1].x - elev[i].x) <= IntervalSpeedLength(elev, i)
    ensures IntervalSpeedLength(elev, i) <= SlopeSpline.COEFF_MAX * (elev[i + 1].x - elev[i].x)
  {
    var c := SlopeSpline.SplineCoefficient(IntervalSlope(elev, i), elev[i].y);
    SlopeSpline.SplineCoefficientBounds(IntervalSlope(elev, i), elev[i].y);
    ScaledBounds(elev[i + 1].x - elev[i].x, c, SlopeSpline.COEFF_MIN, SlopeSpline.COEFF_MAX, IntervalSpeedLength(elev, i));
  }

  /**
   * When every sample before the n-th lies between 0 and 5000 m of altitude, the slope-adjusted
   * length of the first n intervals lies between the smallest and the largest spline coefficient
   * times the distance they cover.
   */
  lemma SpeedLengthBounds(elev: seq<Coordinate>, n: nat)
    requires StrictlyIncreasing(elev) && n < |elev|
    requires forall i :: 0 <= i < n ==> 0.0 <= elev[i].y <= 5000.0
    ensures SlopeSpline.COEFF_MIN * (elev[n].x - elev[0].x) <= SpeedLengthOf(elev, n)
    ensures SpeedLengthOf(elev, n) <= SlopeSpline.COEFF_MAX * (elev[n].x - elev[0].x)
  {
    SpeedLengthLower(elev, n);
    SpeedLengthUpper(elev, n);
  }

  /** The lower half of SpeedLengthBounds, by induction on n. */
  lemma {:induction false} SpeedLengthLower(elev: seq<Coordinate>, n: nat)
    requires StrictlyIncreasing(elev) && n < |elev|
    requires forall i :: 0 <= i < n ==> 0.0 <= elev[i].y <= 5000.0
    ensures SlopeSpline.COEFF_MIN * (elev[n].x - elev[0].x) <= SpeedLengthOf(elev, n)
  {
    if n > 0 {
      SpeedLengthLower(elev, n - 1);
      IntervalSpeedLengthBounds(elev, n - 1);
      SplitSpan(SlopeSpline.COEFF_MIN, elev[0].x, elev[n - 1].x, elev[n].x);
    }
  }

  /** The upper half of SpeedLengthBounds, by induction on n. */
  lemma {:induction false} SpeedLengthUpper(elev: seq<Coordinate>, n: nat)
    requires StrictlyIncreasing(elev) && n < |elev|
    requires forall i :: 0 <= i < n ==> 0.0 <= elev[i].y <= 5000.0
    ensures SpeedLengthOf(elev, n) <= SlopeSpline.COEFF_MAX * (elev[n].x - elev[0].x)
  {
    if n > 0 {
      SpeedLengthUpper(elev, n - 1);
      IntervalSpeedLengthBounds(elev, n - 1);
      SplitSpan(SlopeSpline.COEFF_MAX, elev[0].x, elev[n - 1].x, elev[n].x);
    }
  }

  /** A rate times a distance, split at an intermediate point. */
  lemma SplitSpan(k: real, x0: real, x1: real, x2: real)
    ensures k * (x2 - x0) == k * (x1 - x0) + k * (x2 - x1)
  {
  }

  /** A nonnegative factor keeps the order of bounds. */
  lemma ScaledBounds(run: real, c: real, lo: real, hi: real, product: real)
    requires 0.0 <= run && lo <= c <= hi && product == run * c
    ensures lo * run <= product <= hi * run
  {
    assert run * (c - lo) >= 0.0;
    assert run * (hi - c) >= 0.0;
  }

  /**
   * The costs of a whole profile: maxSlope in [0, 0.35], and work cost and slope-adjusted
   * length between their per-metre extremes times the profile's extent (all zero for fewer than
   * two samples).
   */
  lemma SlopeCostsBounds(elev: seq<Coordinate>)
    requires StrictlyIncreasing(elev)
    requires forall i :: 0 <= i < |elev| ==> 0.0 <= elev[i].y <= 5000.0
    ensures var costs, span := SlopeCostsOf(elev), if |elev| == 0 then 0.0 else elev[|elev| - 1].x - elev[0].x;
            && 0.0 <= costs.maxSlope <= MAX_PLAUSIBLE_SLOPE
            && MIN_WORK_PER_METER * span <= costs.slopeWorkCost <= MAX_WORK_PER_METER * span
            && SlopeSpline.COEFF_MIN * span <= costs.slopeSpeedEffectiveLength <= SlopeSpline.COEFF_MAX * span
  {
    if |elev| > 0 {
      assert IntervalCount(elev) == |elev| - 1;
      MaxSlopeIsMaximum(elev, |elev| - 1);
      WorkCostBounds(elev, |elev| - 1);
      SpeedLengthBounds(elev, |elev| - 1);
    }
  }

  /** What setElevationProfile stores: with slopeOverride set, only the first and the last sample. */
  function StoredProfile(elev: seq<Coordinate>, slopeOverride: bool): (p: seq<Coordinate>)
    requires slopeOverride ==> |elev| >= 1
    ensures slopeOverride ==> |p| == 2 && p[0] == elev[0] && p[1] == elev[|elev| - 1]
    ensures !slopeOverride ==> p == elev
  {
    if slopeOverride then [elev[0], elev[|elev| - 1]] else elev
  }

  /** computeSlopeCost on the stored profile. */
  method StoredCosts(elev: seq<Coordinate>, slopeOverride: bool, e: seq<Coordinate>) returns (costs: SlopeCosts)
    requires StrictlyIncreasing(elev) && (slopeOverride ==> |elev| >= 2)
    requires e == StoredProfile(elev, slopeOverride)
    ensures StrictlyIncreasing(e) && costs == SlopeCostsOf(e)
  {
    StoredProfileIncreasing(elev, slopeOverride);
    costs := ComputeSlopeCost(e);
  }

  /** The stored profile keeps the order of the given one. */
  lemma StoredProfileIncreasing(elev: seq<Coordinate>, slopeOverride: bool)
    requires StrictlyIncreasing(elev) && (slopeOverride ==> |elev| >= 2)
    ensures StrictlyIncreasing(StoredProfile(elev, slopeOverride))
  {
  }

  /**
   * The samples of p with start <= x <= end, in their original order, each shifted to
   * x - start.
   */
  function SubProfile(p: seq<Coordinate>, start: real, end: real): (r: seq<Coordinate>)
    ensures |r| <= |p|
  {
    if |p| == 0 then []
    else
      var c := p[|p| - 1];
      SubProfile(p[..|p| - 1], start, end) + (if c.x >= start && c.x <= end then [Coordinate(c.x - start, c.y)] else [])
  }

  /** A coordinate is in the slice exactly when it is the shift of a sample in the range. */
  lemma {:induction false} SubProfileMembers(p: seq<Coordinate>, start: real, end: real, c: Coordinate)
    ensures c in SubProfile(p, start, end)
            <==> exists i :: 0 <= i < |p| && start <= p[i].x <= end && c == Coordinate(p[i].x - start, p[i].y)
  {
    if |p| > 0 {
      var q := p[..|p| - 1];
      SubProfileMembers(q, start, end, c);
      if c in SubProfile(p, start, end) && !(c in SubProfile(q, start, end)) {
        assert c == Coordinate(p[|p| - 1].x - start, p[|p| - 1].y);
      }
      if exists i :: 0 <= i < |p| && start <= p[i].x <= end && c == Coordinate(p[i].x - start, p[i].y) {
        var i :| 0 <= i < |p| && start <= p[i].x <= end && c == Coordinate(p[i].x - start, p[i].y);
        if i < |p| - 1 {
          assert q[i] == p[i];
        }
      }
    }
  }

  /**
   * Slicing an ordered profile gives an ordered profile whose distances all lie in
   * [0, end - start].
   */
  lemma {:induction false} SubProfileOrdered(p: seq<Coordinate>, start: real, end: real)
    requires StrictlyIncreasing(p)
    ensures StrictlyIncreasing(SubProfile(p, start, end))
    ensures forall k :: 0 <= k < |SubProfile(p, start, end)| ==> 0.0 <= SubProfile(p, start, end)[k].x <= end - start
  {
    if |p| > 0 {
      var q := p[..|p| - 1];
      SubProfileOrdered(q, start, end);
      var r := SubProfile(q, start, end);
      var c := p[|p| - 1];
      if start <= c.x <= end {
        forall k | 0 <= k < |r|
          ensures r[k].x < c.x - start
        {
          SubProfileMembers(q, start, end, r[k]);
          var i :| 0 <= i < |q| && start <= q[i].x <= end && r[k] == Coordinate(q[i].x - start, q[i].y);
          assert q[i] == p[i];
        }
        assert SubProfile(p, start, end) == r + [Coordinate(c.x - start, c.y)];
      } else {
        assert SubProfile(p, start, end) == r;
      }
    }
  }

  /**
   * Whether a street is a greenway: safety / length <= 0.1 as the source evaluates it in
   * floating point, where dividing by a zero length gives -infinity (a greenway) for a negative
   * safety length, and +infinity or NaN (not a greenway) otherwise.
   */
  predicate IsGreenway(bicycleSafetyEffectiveLength: real, length: real): (g: bool)
    ensures 0.0 < length ==> (g <==> bicycleSafetyEffectiveLength <= GREENWAY_SAFETY_FACTOR * length)
    ensures length < 0.0 ==> (g <==> bicycleSafetyEffectiveLength >= GREENWAY_SAFETY_FACTOR * length)
  {
    if length != 0.0 then bicycleSafetyEffectiveLength / length <= GREENWAY_SAFETY_FACTOR
    else bicycleSafetyEffectiveLength < 0.0
  }

  class StreetVertex {
    var length: real
    var wheelchairAccessible: bool
    var maxSlope: real
    var elevationProfile: Option<seq<Coordinate>>
    var slopeOverride: bool
    var slopeSpeedEffectiveLength: real
    var slopeWorkCost: real
    var permission: StreetTraversalPermission
    var stairs: bool
    var bicycleSafetyEffectiveLength: real

    /** A new segment is flat, accessible, open to all traffic and has no profile. */
    constructor (length: real)
      ensures this.length == length
      ensures bicycleSafetyEffectiveLength == length && slopeWorkCost == length && slopeSpeedEffectiveLength == length
      ensures permission == ALL && maxSlope == 0.0 && wheelchairAccessible
      ensures elevationProfile == None && !slopeOverride && !stairs
    {
      this.length := length;
      this.bicycleSafetyEffectiveLength := length;
      this.slopeWorkCost := length;
      this.slopeSpeedEffectiveLength := length;
      this.permission := ALL;
      this.maxSlope := 0.0;
      this.wheelchairAccessible := true;
      this.elevationProfile := None;
      this.slopeOverride := false;
      this.stairs := false;
    }

    /**
     * setElevationProfile: nothing happens for a null profile; otherwise stores the profile
     * (reduced to its end points under slopeOverride) and replaces the three slope costs by
     * the costs of what was stored.
     */
    method SetElevationProfile(elev: Option<seq<Coordinate>>)
      requires elev.Some? ==> StrictlyIncreasing(elev.value) && (slopeOverride ==> |elev.value| >= 2)
      modifies this`elevationProfile, this`slopeSpeedEffectiveLength, this`maxSlope, this`slopeWorkCost
      ensures elev.None? ==> (elevationProfile == old(elevationProfile) && maxSlope == old(maxSlope)
                              && slopeSpeedEffectiveLength == old(slopeSpeedEffectiveLength) && slopeWorkCost == old(slopeWorkCost))
      ensures elev.Some? ==>
                var stored := StoredProfile(elev.value, slopeOverride);
                StrictlyIncreasing(stored) && elevationProfile == Some(stored)
                && SlopeCosts(slopeSpeedEffectiveLength, slopeWorkCost, maxSlope) == SlopeCostsOf(stored)
    {
      if elev.None? {
        return;
      }
      var e := elev.value;
      if slopeOverride {
        e := [e[0], e[|e| - 1]];
      }
      assert e == StoredProfile(elev.value, slopeOverride);
      var costs := StoredCosts(elev.value, slopeOverride, e);
      elevationProfile := Some(e);
      slopeSpeedEffectiveLength := costs.slopeSpeedEffectiveLength;
      maxSlope := costs.maxSlope;
      slopeWorkCost := costs.slopeWorkCost;
      assert SlopeCosts(slopeSpeedEffectiveLength, slopeWorkCost, maxSlope) == costs;
    }

    /**
     * getElevationProfile(start, end): null without a profile; otherwise the samples between
     * max(start, 0) and min(end, length), shifted by that start.
     */
    method GetElevationProfile(start: real, end: real) returns (r: Option<seq<Coordinate>>)
      ensures elevationProfile.None? ==> r.None?
      ensures elevationProfile.Some? ==> r == Some(SubProfile(elevationProfile.value, Max(start, 0.0), Min(end, length)))
    {
      if elevationProfile.None? {
        return None;
      }
      var s := start;
      var e := end;
      if s < 0.0 {
        s := 0.0;
      }
      if e > length {
        e := length;
      }
      var coordinates := elevationProfile.value;
      var coordList: seq<Coordinate> := [];
      for i := 0 to |coordinates|
        invariant coordList == SubProfile(coordinates[..i], s, e)
      {
        var coord := coordinates[i];
        assert coordinates[..i + 1][..i] == coordinates[..i];
        if coord.x >= s && coord.x <= e {
          coordList := coordList + [Coordinate(coord.x - s, coord.y)];
        }
      }
      assert coordinates[..|coordinates|] == coordinates;
      r := Some(coordList);
    }

    /**
     * canTraverse: a wheelchair request needs an accessible segment no steeper than it allows;
     * then some mode the request enables must be permitted on the segment.
     */
    predicate CanTraverse(wo: RoutingRequest): (b: bool)
      reads this
      ensures b && wo.wheelchairAccessible ==> wheelchairAccessible && maxSlope <= wo.maxSlope
      ensures wo.modes == {} ==> !b
    {
      if wo.wheelchairAccessible && (!wheelchairAccessible || maxSlope > wo.maxSlope) then false
      else if WALK in wo.modes && permission.pedestrian then true
      else if BICYCLE in wo.modes && permission.bicycle then true
      else if CAR in wo.modes && permission.car then true
      else false
    }

    /** The rule canTraverse implements, as one condition: both directions. */
    lemma CanTraverseRule(wo: RoutingRequest)
      ensures CanTraverse(wo) <==>
                (wo.wheelchairAccessible ==> wheelchairAccessible && maxSlope <= wo.maxSlope)
                && ((WALK in wo.modes && permission.pedestrian) || (BICYCLE in wo.modes && permission.bicycle)
                    || (CAR in wo.modes && permission.car))
    {
    }

    /** Enabling more modes never turns a traversable segment into a non-traversable one. */
    lemma CanTraverseMonotone(wo: RoutingRequest, more: set<TraverseMode>)
      requires wo.modes <= more
      ensures CanTraverse(wo) ==> CanTraverse(wo.(modes := more))
    {
    }

    /** The segment's length and the three costs derived from its profile are nonnegative. */
    predicate NonnegativeCosts()
      reads this
    {
      0.0 <= length && 0.0 <= slopeSpeedEffectiveLength && 0.0 <= slopeWorkCost && 0.0 <= bicycleSafetyEffectiveLength
    }

    /** The reluctance the weight is multiplied by: stairs or walking. */
    function Reluctance(options: RoutingRequest): (r: real)
      reads this
      ensures r == options.stairsReluctance || r == options.walkReluctance
    {
      if stairs then options.stairsReluctance else options.walkReluctance
    }

    /**
     * The weight computeWeight forms before the reluctance: slope-adjusted length over speed for
     * a wheelchair user, the optimisation criterion for a cyclist, the traversal time otherwise.
     */
    function BaseWeight(options: RoutingRequest, time: real): (w: real)
      requires options.speed > 0.0
      reads this
      ensures NonnegativeCosts() && NonnegativeFactors(options) && 0.0 <= time ==> 0.0 <= w
    {
      if options.wheelchairAccessible then slopeSpeedEffectiveLength / options.speed
      else if BICYCLE in options.modes then
        match options.optimize
        case SAFE => bicycleSafetyEffectiveLength / options.speed
        case GREENWAYS =>
          var w := bicycleSafetyEffectiveLength / options.speed;
          if IsGreenway(bicycleSafetyEffectiveLength, length) then w * GREENWAY_DISCOUNT else w
        case FLAT => length / options.speed + slopeWorkCost
        case QUICK => slopeSpeedEffectiveLength / options.speed
        case TRIANGLE =>
          var quick := slopeSpeedEffectiveLength / options.speed;
          var safety := bicycleSafetyEffectiveLength / options.speed;
          var slope := slopeWorkCost;
          quick * options.triangleTimeFactor + slope * options.triangleSlopeFactor + safety * options.triangleSafetyFactor
        case TRANSFERS => length / options.speed
      else time
    }

    /**
     * computeWeight: the base weight multiplied by the stairs or the walk reluctance. With
     * nonnegative lengths, costs, factors, reluctances and time, the weight is nonnegative.
     */
    function ComputeWeight(options: RoutingRequest, time: real): (w: real)
      requires options.speed > 0.0
      reads this
      ensures (NonnegativeCosts() && NonnegativeFactors(options) && 0.0 <= time
               && 0.0 <= options.walkReluctance && 0.0 <= options.stairsReluctance) ==> 0.0 <= w
    {
      BaseWeight(options, time) * Reluctance(options)
    }

    /**
     * A wheelchair request is weighted by slope-adjusted length whatever the modes, the
     * criterion and the time.
     */
    lemma WheelchairTakesPrecedence(options: RoutingRequest, time: real, modes: set<TraverseMode>, optimize: OptimizeType, time': real)
      requires options.speed > 0.0 && options.wheelchairAccessible
      ensures ComputeWeight(options, time) == slopeSpeedEffectiveLength / options.speed * Reluctance(options)
      ensures ComputeWeight(options, time) == ComputeWeight(options.(modes := modes, optimize := optimize), time')
    {
    }

    /** Without wheelchair and bicycle the weight is the traversal time times the reluctance. */
    lemma NonBicycleUsesTime(options: RoutingRequest, time: real)
      requires options.speed > 0.0 && !options.wheelchairAccessible && BICYCLE !in options.modes
      ensures ComputeWeight(options, time) == time * Reluctance(options)
    {
    }

    /** GREENWAYS is SAFE discounted by 0.66 exactly on greenways, and SAFE otherwise. */
    lemma GreenwaysDiscount(options: RoutingRequest, time: real)
      requires options.speed > 0.0 && !options.wheelchairAccessible && BICYCLE in options.modes
      requires options.optimize == GREENWAYS
      ensures IsGreenway(bicycleSafetyEffectiveLength, length) ==>
                ComputeWeight(options, time) == ComputeWeight(options.(optimize := SAFE), time) * GREENWAY_DISCOUNT
      ensures !IsGreenway(bicycleSafetyEffectiveLength, length) ==>
                ComputeWeight(options, time) == ComputeWeight(options.(optimize := SAFE), time)
    {
      var w := bicycleSafetyEffectiveLength / options.speed;
      if IsGreenway(bicycleSafetyEffectiveLength, length) {
        assert ComputeWeight(options, time) == (w * GREENWAY_DISCOUNT) * Reluctance(options);
        assert ComputeWeight(options.(optimize := SAFE), time) == w * Reluctance(options);
      }
    }

    /** FLAT adds the work cost, times the reluctance, to the plain length-over-speed weight. */
    lemma FlatAddsWork(options: RoutingRequest, time: real)
      requires options.speed > 0.0 && !options.wheelchairAccessible && BICYCLE in options.modes
      requires options.optimize == FLAT
      ensures ComputeWeight(options, time) == ComputeWeight(options.(optimize := TRANSFERS), time) + slopeWorkCost * Reluctance(options)
    {
      var r := Reluctance(options);
      assert ComputeWeight(options, time) == (length / options.speed + slopeWorkCost) * r;
    }

    /**
     * TRIANGLE blends the QUICK weight, the work cost and the SAFE weight with the request's
     * three factors.
     */
    lemma TriangleBlend(options: RoutingRequest, time: real)
      requires options.speed > 0.0 && !options.wheelchairAccessible && BICYCLE in options.modes
      requires options.optimize == TRIANGLE
      ensures ComputeWeight(options, time)
              == ComputeWeight(options.(optimize := QUICK), time) * options.triangleTimeFactor
                 + slopeWorkCost * Reluctance(options) * options.triangleSlopeFactor
                 + ComputeWeight(options.(optimize := SAFE), time) * options.triangleSafetyFactor
    {
      var r := Reluctance(options);
      var quick := slopeSpeedEffectiveLength / options.speed;
      var safety := bicycleSafetyEffectiveLength / options.speed;
      var tf, sf, yf := options.triangleTimeFactor, options.triangleSlopeFactor, options.triangleSafetyFactor;
      assert ComputeWeight(options, time) == (quick * tf + slopeWorkCost * sf + safety * yf) * r;
      assert (quick * tf + slopeWorkCost * sf + safety * yf) * r == (quick * r) * tf + slopeWorkCost * r * sf + (safety * r) * yf;
    }

    /**
     * The reluctance is applied exactly once: off the stairs, scaling the walk reluctance by k
     * scales the weight by k and the stairs reluctance plays no part; on the stairs, the other
     * way round.
     */
    lemma ReluctanceAppliedOnce(options: RoutingRequest, time: real, k: real, other: real)
      requires options.speed > 0.0
      ensures !stairs ==> ComputeWeight(options.(walkReluctance := k * options.walkReluctance), time) == k * ComputeWeight(options, time)
      ensures !stairs ==> ComputeWeight(options.(stairsReluctance := other), time) == ComputeWeight(options, time)
      ensures stairs ==> ComputeWeight(options.(stairsReluctance := k * options.stairsReluctance), time) == k * ComputeWeight(options, time)
      ensures stairs ==> ComputeWeight(options.(walkReluctance := other), time) == ComputeWeight(options, time)
    {
      var w := BaseWeight(options, time);
      assert BaseWeight(options.(walkReluctance := k * options.walkReluctance), time) == w;
      assert BaseWeight(options.(stairsReluctance := k * options.stairsReluctance), time) == w;
      assert BaseWeight(options.(walkReluctance := other), time) == w;
      assert BaseWeight(options.(stairsReluctance := other), time) == w;
    }

    /** setSlopeOverride. */
    method SetSlopeOverride(slopeOverride: bool)
      modifies this`slopeOverride
      ensures this.slopeOverride == slopeOverride
    {
      this.slopeOverride := slopeOverride;
    }

    /** setBicycleSafetyEffectiveLength. */
    method SetBicycleSafetyEffectiveLength(bicycleSafetyEffectiveLength: real)
      modifies this`bicycleSafetyEffectiveLength
      ensures this.bicycleSafetyEffectiveLength == bicycleSafetyEffectiveLength
    {
      this.bicycleSafetyEffectiveLength := bicycleSafetyEffectiveLength;
    }

    /** setPermission. */
    method SetPermission(permission: StreetTraversalPermission)
      modifies this`permission
      ensures this.permission == permission
    {
      this.permission := permission;
    }

    /** setWheelchairAccessible. */
    method SetWheelchairAccessible(wheelchairAccessible: bool)
      modifies this`wheelchairAccessible
      ensures this.wheelchairAccessible == wheelchairAccessible
    {
      this.wheelchairAccessible := wheelchairAccessible;
    }

    /** setStairs. */
    method SetStairs(stairs: bool)
      modifies this`stairs
      ensures this.stairs == stairs
    {
      this.stairs := stairs;
    }
  }
}
