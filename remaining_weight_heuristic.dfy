/**
 * The default remaining-weight heuristic of the A* search: a lower-bound-style estimate of the
 * weight still needed to reach the target, or -1 when the walking limit already rules the
 * state out.
 */
module RemainingWeightHeuristics {
  import opened Routing

  /** Assumed best average transit speed over a hop, in metres per second. */
  const TRANSIT_SPEED: real := 10.0

  /** The value the estimates return for a state that can no longer reach the target on foot. */
  const PRUNE: real := -1.0

  /** A graph vertex, as far as the heuristic looks at it. */
  datatype Vertex = Vertex(distanceToNearestTransitStop: real)

  /** A search state, as far as the heuristic looks at it. */
  datatype State = State(
    vertex: Vertex,
    walkDistance: real,
    alightedLocal: bool,
    onboard: bool,
    everBoarded: bool,
    options: RoutingRequest)

  /**
   * getMaxSpeed: 10 m/s when transit is enabled; otherwise the speed upper bound for QUICK
   * and ten times it for every other criterion.
   */
  function GetMaxSpeed(options: RoutingRequest): (r: real)
    ensures HasTransit(options.modes) ==> r == TRANSIT_SPEED
  {
    if HasTransit(options.modes) then TRANSIT_SPEED
    else if options.optimize == QUICK then options.speedUpperBound
    else options.speedUpperBound * 10.0
  }

  /**
   * Without transit the maximum speed is the speed upper bound exactly for QUICK and ten times
   * it otherwise, so it is never below the bound; it is positive whenever the bound is.
   */
  lemma MaxSpeedRange(options: RoutingRequest)
    requires options.speedUpperBound > 0.0
    ensures GetMaxSpeed(options) > 0.0
    ensures !HasTransit(options.modes) ==> options.speedUpperBound <= GetMaxSpeed(options) <= 10.0 * options.speedUpperBound
    ensures !HasTransit(options.modes) ==> (GetMaxSpeed(options) == options.speedUpperBound <==> options.optimize == QUICK)
  {
  }

  /** The lower bound on boarding costs still to pay: none when on board, plus the transfer penalty once boarded. */
  function BoardCost(s: State, options: RoutingRequest): (r: int)
    ensures s.onboard && !s.everBoarded ==> r == 0
    ensures !s.onboard && !s.everBoarded ==> r == options.boardCostLowerBound
    ensures options.boardCostLowerBound >= 0 && options.transferPenalty >= 0 ==>
              0 <= r <= options.boardCostLowerBound + options.transferPenalty
  {
    var boardCost := if s.onboard then 0 else options.boardCostLowerBound;
    if s.everBoarded then boardCost + options.transferPenalty else boardCost
  }

  /** The walking the estimate regards as unavoidable: to the target's stop and from this vertex's stop. */
  function MandatoryWalkDistance(s: State, target: Vertex): real {
    target.distanceToNearestTransitStop + s.vertex.distanceToNearestTransitStop
  }

  /** Whether the state's walking plus the walking still ahead breaks the request's walking limit. */
  predicate ExceedsWalkLimit(options: RoutingRequest, s: State, target: Vertex, euclidianDistance: real) {
    if s.alightedLocal || euclidianDistance < target.distanceToNearestTransitStop then
      euclidianDistance + s.walkDistance > options.maxWalkDistance
    else
      MandatoryWalkDistance(s, target) + s.walkDistance > options.maxWalkDistance
  }

  /** The time-like weight of walking a distance at a speed, scaled by the walking reluctance. */
  function WalkWeight(options: RoutingRequest, distance: real, speed: real): real
    requires speed > 0.0
  {
    options.walkReluctance * distance / speed
  }

  /**
   * The weight of walking the mandatory distance m at the speed bound and riding the rest of
   * the distance d at the maximum speed, after paying the board cost.
   */
  function RideWeight(options: RoutingRequest, d: real, m: real, maxSpeed: real, boardCost: int): real
    requires maxSpeed > 0.0 && options.speedUpperBound > 0.0
  {
    (d - m) / maxSpeed + m * options.walkReluctance / options.speedUpperBound + boardCost as real
  }

  /**
   * The estimate both computeForwardWeight and computeReverseWeight compute from the cached
   * options, transit flag and maximum speed and the straight-line distance to the target.
   */
  function RemainingWeight(options: RoutingRequest, useTransit: bool, maxSpeed: real, s: State, target: Vertex, euclidianDistance: real): (r: real)
    requires maxSpeed > 0.0 && options.speedUpperBound > 0.0
    ensures useTransit && ExceedsWalkLimit(options, s, target, euclidianDistance) ==> r == PRUNE
  {
    if useTransit then
      var speed := options.speedUpperBound;
      if s.alightedLocal then
        if euclidianDistance + s.walkDistance > options.maxWalkDistance then PRUNE
        else WalkWeight(options, euclidianDistance, speed)
      else
        var boardCost := BoardCost(s, options);
        if euclidianDistance < target.distanceToNearestTransitStop then
          if euclidianDistance + s.walkDistance > options.maxWalkDistance then PRUNE
          else WalkWeight(options, euclidianDistance, speed)
        else
          var mandatoryWalkDistance := MandatoryWalkDistance(s, target);
          if mandatoryWalkDistance + s.walkDistance > options.maxWalkDistance then PRUNE
          else
            var distance := RideWeight(options, euclidianDistance, mandatoryWalkDistance, maxSpeed, boardCost);
            Min(distance, WalkWeight(options, euclidianDistance, speed))
    else
      WalkWeight(options, euclidianDistance, maxSpeed)
  }

  /**
   * Off transit the estimate is the reluctance-weighted distance at the maximum speed, which is
   * never negative, let alone -1, for a nonnegative reluctance and distance.
   */
  lemma NonTransitEstimate(options: RoutingRequest, maxSpeed: real, s: State, target: Vertex, d: real)
    requires maxSpeed > 0.0 && options.speedUpperBound > 0.0
    ensures RemainingWeight(options, false, maxSpeed, s, target, d) == WalkWeight(options, d, maxSpeed)
    ensures 0.0 <= options.walkReluctance && 0.0 <= d ==> 0.0 <= RemainingWeight(options, false, maxSpeed, s, target, d)
  {
    if 0.0 <= options.walkReluctance && 0.0 <= d {
      WalkWeightNonnegative(options, d, maxSpeed);
    }
  }

  /** Walking a nonnegative distance with a nonnegative reluctance weighs nothing negative. */
  lemma WalkWeightNonnegative(options: RoutingRequest, distance: real, speed: real)
    requires speed > 0.0 && 0.0 <= options.walkReluctance && 0.0 <= distance
    ensures 0.0 <= WalkWeight(options, distance, speed)
  {
    assert 0.0 <= options.walkReluctance * distance;
  }

  /**
   * With transit, a state that cannot take transit any more (it alighted locally) or that is
   * nearer the target than the target is to its stop walks the rest: it is pruned when that
   * walk breaks the limit, and estimated as the reluctance-weighted walk at the speed bound
   * otherwise.
   */
  lemma WalkingEstimate(options: RoutingRequest, maxSpeed: real, s: State, target: Vertex, d: real)
    requires maxSpeed > 0.0 && options.speedUpperBound > 0.0
    requires s.alightedLocal || d < target.distanceToNearestTransitStop
    ensures d + s.walkDistance > options.maxWalkDistance ==> RemainingWeight(options, true, maxSpeed, s, target, d) == PRUNE
    ensures d + s.walkDistance <= options.maxWalkDistance ==>
              RemainingWeight(options, true, maxSpeed, s, target, d) == WalkWeight(options, d, options.speedUpperBound)
  {
  }

  /**
   * With transit and the target's stop in reach, the state is pruned when the mandatory walking
   * breaks the limit; otherwise the estimate is the smaller of walking all the way and riding
   * between the two stops after paying the board cost, so it never exceeds walking.
   */
  lemma TransitEstimate(options: RoutingRequest, maxSpeed: real, s: State, target: Vertex, d: real)
    requires maxSpeed > 0.0 && options.speedUpperBound > 0.0
    requires !s.alightedLocal && d >= target.distanceToNearestTransitStop
    ensures MandatoryWalkDistance(s, target) + s.walkDistance > options.maxWalkDistance ==>
              RemainingWeight(options, true, maxSpeed, s, target, d) == PRUNE
    ensures MandatoryWalkDistance(s, target) + s.walkDistance <= options.maxWalkDistance ==>
              var ride := RideWeight(options, d, MandatoryWalkDistance(s, target), maxSpeed, BoardCost(s, options));
              var walk := WalkWeight(options, d, options.speedUpperBound);
              && RemainingWeight(options, true, maxSpeed, s, target, d) <= walk
              && RemainingWeight(options, true, maxSpeed, s, target, d) <= ride
              && (RemainingWeight(options, true, maxSpeed, s, target, d) == walk
                  || RemainingWeight(options, true, maxSpeed, s, target, d) == ride)
  {
  }

  /**
   * Off transit the estimate is the reluctance-weighted distance at the maximum speed; with
   * transit it is -1 or at most the reluctance-weighted walk at the speed bound.
   */
  lemma EstimateAtMostWalk(options: RoutingRequest, useTransit: bool, maxSpeed: real, s: State, target: Vertex, d: real)
    requires maxSpeed > 0.0 && options.speedUpperBound > 0.0
    ensures var r := RemainingWeight(options, useTransit, maxSpeed, s, target, d);
            && (!useTransit ==> r == WalkWeight(options, d, maxSpeed))
            && (useTransit ==> r == PRUNE || r <= WalkWeight(options, d, options.speedUpperBound))
  {
    if !useTransit {
      NonTransitEstimate(options, maxSpeed, s, target, d);
    } else if s.alightedLocal || d < target.distanceToNearestTransitStop {
      WalkingEstimate(options, maxSpeed, s, target, d);
    } else {
      TransitEstimate(options, maxSpeed, s, target, d);
    }
  }

  /** A product of a nonnegative and a larger factor bounds the smaller one. */
  lemma ScaleAtLeast(x: real, small: real, large: real)
    requires 0.0 <= x && small <= large
    ensures x * small <= x * large
  {
  }

  /** A quotient of at least a tenth: 10 * a >= b > 0 gives a / b >= 1/10. */
  lemma TenthAtMost(a: real, b: real)
    requires b > 0.0 && TRANSIT_SPEED * a >= b
    ensures a / b >= 1.0 / TRANSIT_SPEED
  {
    var q := a / b;
    assert a == q * b;
    if q < 1.0 / TRANSIT_SPEED {
      assert false;
    }
  }

  /**
   * The riding estimate is nonnegative when walking reluctance per speed bound is at least that
   * of transit (10 * walkReluctance >= speedUpperBound), distances are nonnegative and board
   * costs too.
   */
  lemma RideEstimateNonnegative(options: RoutingRequest, s: State, target: Vertex, d: real)
    requires options.speedUpperBound > 0.0 && TRANSIT_SPEED * options.walkReluctance >= options.speedUpperBound
    requires options.boardCostLowerBound >= 0 && options.transferPenalty >= 0
    requires 0.0 <= target.distanceToNearestTransitStop <= d && 0.0 <= s.vertex.distanceToNearestTransitStop
    ensures 0.0 <= RideWeight(options, d, MandatoryWalkDistance(s, target), TRANSIT_SPEED, BoardCost(s, options))
  {
    var m := MandatoryWalkDistance(s, target);
    var sv := s.vertex.distanceToNearestTransitStop;
    var q := options.walkReluctance / options.speedUpperBound;
    TenthAtMost(options.walkReluctance, options.speedUpperBound);
    assert m * options.walkReluctance / options.speedUpperBound == m * q;
    ScaleAtLeast(m, 1.0 / TRANSIT_SPEED, q);
    assert (d - m) / TRANSIT_SPEED + m * (1.0 / TRANSIT_SPEED) == d / TRANSIT_SPEED;
  }

  /**
   * When a transit request values walking at least as much as riding (10 * walkReluctance >=
   * speedUpperBound) and distances, reluctance and board costs are nonnegative, the estimate
   * is -1 exactly when the walking limit is broken, and nonnegative otherwise.
   */
  lemma PruneExactlyOverWalkLimit(options: RoutingRequest, s: State, target: Vertex, d: real)
    requires options.speedUpperBound > 0.0 && TRANSIT_SPEED * options.walkReluctance >= options.speedUpperBound
    requires options.boardCostLowerBound >= 0 && options.transferPenalty >= 0
    requires 0.0 <= d && 0.0 <= target.distanceToNearestTransitStop && 0.0 <= s.vertex.distanceToNearestTransitStop
    ensures RemainingWeight(options, true, TRANSIT_SPEED, s, target, d) == PRUNE <==> ExceedsWalkLimit(options, s, target, d)
    ensures !ExceedsWalkLimit(options, s, target, d) ==> 0.0 <= RemainingWeight(options, true, TRANSIT_SPEED, s, target, d)
  {
    WalkWeightNonnegative(options, d, options.speedUpperBound);
    if s.alightedLocal || d < target.distanceToNearestTransitStop {
      WalkingEstimate(options, TRANSIT_SPEED, s, target, d);
    } else {
      TransitEstimate(options, TRANSIT_SPEED, s, target, d);
      RideEstimateNonnegative(options, s, target, d);
    }
  }

  /**
   * Without that condition the riding estimate can itself be exactly -1 although the walking
   * limit is far away, so callers cannot tell it from a pruned state: a bus request at up to
   * 40 m/s with walk reluctance 1, on board and never boarded before, 100 m from a target
   * whose stop is 100 m away, at a vertex 140/3 m from its own stop.
   */
  lemma EstimateCanEqualPrune()
    ensures var options := RoutingRequest({BUS}, QUICK, false, 0.0, 1.33, 40.0, 1.0, 1.0, 0.0, 0.0, 0.0, 1000.0, 0, 0);
            var s := State(Vertex(140.0 / 3.0), 0.0, false, true, false, options);
            var target := Vertex(100.0);
            && GetMaxSpeed(options) == TRANSIT_SPEED
            && !ExceedsWalkLimit(options, s, target, 100.0)
            && RemainingWeight(options, HasTransit(options.modes), GetMaxSpeed(options), s, target, 100.0) == PRUNE
  {
    var options := RoutingRequest({BUS}, QUICK, false, 0.0, 1.33, 40.0, 1.0, 1.0, 0.0, 0.0, 0.0, 1000.0, 0, 0);
    assert IsTransitMode(BUS) && BUS in options.modes;
  }

  class DefaultRemainingWeightHeuristic {
    var options: Option<RoutingRequest>
    var useTransit: bool
    var maxSpeed: real

    /** Before computeInitialWeight no options are cached, transit is off and the speed is 0. */
    constructor ()
      ensures options == None && !useTransit && maxSpeed == 0.0
    {
      options := None;
      useTransit := false;
      maxSpeed := 0.0;
    }

    /** The cache computeInitialWeight sets up, which the other estimates rely on. */
    predicate Ready()
      reads this
    {
      && options.Some?
      && options.value.speedUpperBound > 0.0
      && useTransit == HasTransit(options.value.modes)
      && maxSpeed == GetMaxSpeed(options.value)
    }

    /**
     * computeInitialWeight: caches the state's options, whether they enable transit and their
     * maximum speed, and estimates the straight-line distance at that speed.
     */
    method ComputeInitialWeight(s: State, target: Vertex, euclidianDistance: real) returns (r: real)
      requires s.options.speedUpperBound > 0.0
      modifies this
      ensures Ready() && options == Some(s.options)
      ensures maxSpeed > 0.0 && r == euclidianDistance / maxSpeed
    {
      options := Some(s.options);
      useTransit := HasTransit(s.options.modes);
      MaxSpeedRange(s.options);
      maxSpeed := GetMaxSpeed(s.options);
      r := euclidianDistance / maxSpeed;
    }

    /**
     * computeForwardWeight: off transit, the reluctance-weighted distance at the maximum speed;
     * with transit, -1 or at most the reluctance-weighted walk at the speed bound.
     */
    function ComputeForwardWeight(s: State, target: Vertex, euclidianDistance: real): (r: real)
      requires Ready()
      reads this
      ensures !useTransit ==> r == WalkWeight(options.value, euclidianDistance, maxSpeed)
      ensures useTransit ==> r == PRUNE || r <= WalkWeight(options.value, euclidianDistance, options.value.speedUpperBound)
    {
      MaxSpeedRange(options.value);
      EstimateAtMostWalk(options.value, useTransit, maxSpeed, s, target, euclidianDistance);
      RemainingWeight(options.value, useTransit, maxSpeed, s, target, euclidianDistance)
    }

    /** computeReverseWeight: the same estimate as the forward one, for every state and target. */
    function ComputeReverseWeight(s: State, target: Vertex, euclidianDistance: real): (r: real)
      requires Ready()
      reads this
      ensures r == ComputeForwardWeight(s, target, euclidianDistance)
    {
      MaxSpeedRange(options.value);
      RemainingWeight(options.value, useTransit, maxSpeed, s, target, euclidianDistance)
    }

    /** reset: nothing is cleared; the cached options and speed stay as they are. */
    method Reset()
      ensures unchanged(this)
    {
    }
  }
}
