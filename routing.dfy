/** Types shared by the street cost model and the remaining-weight heuristic. */
module Routing {

  /** A Java reference that may be null. */
  datatype Option<+T> = None | Some(value: T)

  /** Travel modes of org.opentripplanner.routing.core.TraverseMode that the core distinguishes. */
  datatype TraverseMode = WALK | BICYCLE | CAR | TRAM | SUBWAY | RAIL | BUS | FERRY

  predicate IsTransitMode(m: TraverseMode) {
    m.TRAM? || m.SUBWAY? || m.RAIL? || m.BUS? || m.FERRY?
  }

  /** `getModes().isTransit()` and `getModes().contains(TraverseMode.TRANSIT)`: some transit vehicle mode is enabled. */
  predicate HasTransit(modes: set<TraverseMode>) {
    exists m :: m in modes && IsTransitMode(m)
  }

  /** The optimisation criterion of a request (org.opentripplanner.routing.core.OptimizeType). */
  datatype OptimizeType = QUICK | SAFE | FLAT | GREENWAYS | TRIANGLE | TRANSFERS

  /**
   * The read-only options of one search. The street vertex code still calls this record
   * TraverseOptions; RoutingRequest is its later name. `speedUpperBound`, `boardCostLowerBound`
   * and the mode set are what the request's accessor methods return.
   */
  datatype RoutingRequest = RoutingRequest(
    modes: set<TraverseMode>,
    optimize: OptimizeType,
    wheelchairAccessible: bool,
    maxSlope: real,
    speed: real,
    speedUpperBound: real,
    walkReluctance: real,
    stairsReluctance: real,
    triangleTimeFactor: real,
    triangleSlopeFactor: real,
    triangleSafetyFactor: real,
    maxWalkDistance: real,
    boardCostLowerBound: int,
    transferPenalty: int)

  /** The three TRIANGLE weighting factors of a request are nonnegative. */
  predicate NonnegativeFactors(options: RoutingRequest) {
    0.0 <= options.triangleTimeFactor && 0.0 <= options.triangleSlopeFactor && 0.0 <= options.triangleSafetyFactor
  }

  /** java.lang.Math.abs, max and min on doubles, read over the reals. */
  function Abs(x: real): real { if x < 0.0 then -x else x }

  function Max(a: real, b: real): real { if a >= b then a else b }

  function Min(a: real, b: real): real { if a <= b then a else b }
}
