# OpenTripPlanner street costs and remaining-weight heuristic, in Dafny

This project models three pieces of OpenTripPlanner's routing core and proves properties of them.

- **`StreetVertex`**: one direction of a street segment.
  - The object keeps a length, an accessibility flag, a stairs flag, traffic permissions and an optional elevation profile.
  - It also keeps three costs derived from that profile: the slope-adjusted length, the work cost and the steepest slope.
  - `computeSlopeCost` walks the profile interval by interval. It clamps implausible slopes (steeper than 35%) to 0 and accumulates the costs.
  - `slopeSpeedCoefficient` evaluates a bivariate quadratic B-spline in slope and altitude. It uses the de Boor recursion on scratch arrays.
  - `canTraverse` decides whether a request may use the segment.
  - `computeWeight` prices one traversal for wheelchair users, for cyclists under each optimisation criterion, and for everyone else. The price is then scaled by the stairs or walk reluctance.
- **`DefaultRemainingWeightHeuristic`**: the A* estimate of the weight still needed to reach the target.
  - `computeInitialWeight` caches the request, whether it uses transit, and a maximum speed.
  - The forward and reverse estimates return -1 when the walking limit rules the state out.
  - Otherwise they return an estimate from walking or from riding transit between the nearest stops.
  - The riding estimate is not always nonnegative. When the speed upper bound exceeds ten times the walk reluctance it can be negative, and even exactly -1, so a state within the walking limit then looks pruned (EstimateCanEqualPrune gives such a request; PruneExactlyOverWalkLimit shows that -1 means pruning whenever the bound is at most ten times the reluctance).
- **`TimePeriod`**: a `[startTime, endTime)` value with field equality and a hash built from the low 15 bits of each end.

Files:

- `routing.dfy` holds the shared request, mode and optimisation types.
- `slope_spline.dfy` holds the spline.
- `street_vertex.dfy` holds the slope-cost loop and the `StreetVertex` class.
- `remaining_weight_heuristic.dfy` holds the heuristic.
- `time_period.dfy` holds the time period.

Where the source changes state, the model is imperative:

- `StreetVertex` and `DefaultRemainingWeightHeuristic` are classes with the source's fields.
- `computeSlopeCost`, `getElevationProfile` and the spline are methods with loops. The spline fills arrays in place.
- Each method is proved equal to a recursive specification function, and the properties are proved about that function.

Java `double` is read as a real number. In `TimePeriod`, Java `long` and `int` are bounded newtypes. The request's `int` fields, the board cost lower bound and the transfer penalty, are unbounded integers.

The source's `DefaultRemainingWeightHeuristic.java` contains unresolved merge markers. The model follows the `OpenPlans-remote/master` side, which uses `RoutingRequest` and a local `speed = getSpeedUpperBound()`. `TraverseOptions`, the older name of the same request record, is modelled by the same `RoutingRequest` datatype.

The heuristic's `reset()` is empty in the code and clears nothing. The model follows the code.

## Model

| member | source | states |
|---|---|---|
| SlopeSpline.Basis | opentripplanner-routing/src/main/java/org/opentripplanner/routing/edgetype/StreetVertex.java:277-294 | the basis row the two nested loops of the de Boor recursion leave in h[0..j], starting from what h held before; it has j + 1 entries |
| SlopeSpline.SplineCoefficient | opentripplanner-routing/src/main/java/org/opentripplanner/routing/edgetype/StreetVertex.java:227-352 | the speed coefficient: the tensor sum of the coefficient table against the altitude row w_x and the slope row w_y at the spans the two knot searches find |
| SlopeSpline.KnotSpan | opentripplanner-routing/src/main/java/org/opentripplanner/routing/edgetype/StreetVertex.java:272-275 | the knot search stops at an index in [first, last]; every knot it passes is at most v, and it stops at `last` or at the first knot above v |
| SlopeSpline.FindSpan | opentripplanner-routing/src/main/java/org/opentripplanner/routing/edgetype/StreetVertex.java:267-275 | the while loop ends at the span KnotSpan describes, inside [k+1, n-k-1], so every later knot read is in bounds |
| SlopeSpline.RaiseDegree | opentripplanner-routing/src/main/java/org/opentripplanner/routing/edgetype/StreetVertex.java:279-293 | one degree-raising pass over the arrays leaves h[0..j] equal to the pass's functional description and changes no later entry |
| SlopeSpline.CopyRow | opentripplanner-routing/src/main/java/org/opentripplanner/routing/edgetype/StreetVertex.java:279-281 | the copy loop leaves dst[0..n) equal to src[0..n) and every later entry of dst as it was (used for hh = h and for h = w_x) |
| SlopeSpline.FillBasis | opentripplanner-routing/src/main/java/org/opentripplanner/routing/edgetype/StreetVertex.java:277-294 | the nested loops leave in h[0..k] the basis row Basis(...) of the found span and leave the rest of h unchanged |
| SlopeSpline.DirectionBasis | opentripplanner-routing/src/main/java/org/opentripplanner/routing/edgetype/StreetVertex.java:267-299 | knot search, basis and copy for one direction: the offset is the span minus k+1, w[0..k] equals the basis row, and h and w keep every entry past k |
| SlopeSpline.Accumulate | opentripplanner-routing/src/main/java/org/opentripplanner/routing/edgetype/StreetVertex.java:335-349 | the double loop returns the sum over i, j < 3 of coeff[l1 + 7i + j] * h[i] * w_y[j], and every coeff read lies in 0..27 |
| SlopeSpline.SlopeSpeedCoefficient | opentripplanner-routing/src/main/java/org/opentripplanner/routing/edgetype/StreetVertex.java:227-352 | the whole array computation returns SplineCoefficient(slope, altitude) for every slope and altitude |
| SlopeSpline.InnerLoopIsDeBoorRow | opentripplanner-routing/src/main/java/org/opentripplanner/routing/edgetype/StreetVertex.java:283-293 | with distinct knots, one pass of the inner loop computes one row of the Cox-de Boor recursion |
| SlopeSpline.BasisIsDeBoor | opentripplanner-routing/src/main/java/org/opentripplanner/routing/edgetype/StreetVertex.java:277-294 | on separated knots the in-place recursion computes the B-spline values of the reference recursion DeBoor, whatever the stale contents of h |
| SlopeSpline.SharesAddUp | opentripplanner-routing/src/main/java/org/opentripplanner/routing/edgetype/StreetVertex.java:287-289 | the two shares f*(t[li]-v) and f*(v-t[lj]) of hh[i] add up to hh[i] |
| SlopeSpline.DeBoorRowSum | opentripplanner-routing/src/main/java/org/opentripplanner/routing/edgetype/StreetVertex.java:283-293 | a pass keeps the sum of the row |
| SlopeSpline.DeBoorPartitionOfUnity | opentripplanner-routing/src/main/java/org/opentripplanner/routing/edgetype/StreetVertex.java:277-294 | on a knot interval containing v, the B-spline values are nonnegative and sum to 1 |
| SlopeSpline.KnotsSorted | opentripplanner-routing/src/main/java/org/opentripplanner/routing/edgetype/StreetVertex.java:233-239 | both knot tables are sorted |
| SlopeSpline.AltitudeInInterval | opentripplanner-routing/src/main/java/org/opentripplanner/routing/edgetype/StreetVertex.java:267-275 | for an altitude in [0, 5000] the span found is a nonempty altitude knot interval containing it |
| SlopeSpline.SlopeInInterval | opentripplanner-routing/src/main/java/org/opentripplanner/routing/edgetype/StreetVertex.java:301-309 | for a slope in [-0.35, 0.35] the span found is a nonempty slope knot interval containing it |
| SlopeSpline.CoefficientRange | opentripplanner-routing/src/main/java/org/opentripplanner/routing/edgetype/StreetVertex.java:240-249 | all 28 coefficients lie between 0.055464612133430242 and 5.6384893192212662 |
| SlopeSpline.SplineWeights | opentripplanner-routing/src/main/java/org/opentripplanner/routing/edgetype/StreetVertex.java:277-333 | for slope and altitude in range, w_x and w_y are nonnegative and each sums to 1 |
| SlopeSpline.ConvexTensorSum | opentripplanner-routing/src/main/java/org/opentripplanner/routing/edgetype/StreetVertex.java:340-349 | with such weights, the accumulated sum lies between the smallest and the largest coefficient |
| SlopeSpline.SplineCoefficientBounds | opentripplanner-routing/src/main/java/org/opentripplanner/routing/edgetype/StreetVertex.java:227-352 | for a slope in [-0.35, 0.35] and an altitude in [0, 5000], the coefficient lies in [0.055464612133430242, 5.6384893192212662] |
| StreetVertices.ClampedSlope | opentripplanner-routing/src/main/java/org/opentripplanner/routing/edgetype/StreetVertex.java:196-204 | the slope lies in [-0.35, 0.35]; it equals rise/run exactly when rise/run lies in that range, and it is 0 otherwise |
| StreetVertices.SlopeCostsOf | opentripplanner-routing/src/main/java/org/opentripplanner/routing/edgetype/StreetVertex.java:190-224 | a profile with fewer than two samples has all three costs 0 |
| StreetVertices.IntervalCosts | opentripplanner-routing/src/main/java/org/opentripplanner/routing/edgetype/StreetVertex.java:194-222 | one loop iteration yields the clamped slope, run*(6.8+73.7*max(slope,0))*0.0294, and run times the spline coefficient at the interval's start altitude |
| StreetVertices.AddInterval | opentripplanner-routing/src/main/java/org/opentripplanner/routing/edgetype/StreetVertex.java:193-223 | one loop iteration turns the running maximum slope, work cost and slope-adjusted length of the first i intervals into those of the first i + 1 |
| StreetVertices.ComputeSlopeCost | opentripplanner-routing/src/main/java/org/opentripplanner/routing/edgetype/StreetVertex.java:187-225 | the loop returns the costs SlopeCostsOf specifies: the running maximum of \|slope\|, the summed work cost and the summed slope-adjusted length |
| StreetVertices.MaxSlopeIsMaximum | opentripplanner-routing/src/main/java/org/opentripplanner/routing/edgetype/StreetVertex.java:196-207 | maxSlope is at least every \|clamped slope\|, is attained by one of them (0 with no interval), and lies in [0, 0.35] |
| StreetVertices.IntervalWorkBounds | opentripplanner-routing/src/main/java/org/opentripplanner/routing/edgetype/StreetVertex.java:219-221 | one interval's work lies between 0.19992 and 0.958293 times its run |
| StreetVertices.WorkCostBounds | opentripplanner-routing/src/main/java/org/opentripplanner/routing/edgetype/StreetVertex.java:219-221 | on strictly increasing x, the work cost lies between 0.19992 and 0.958293 times x_last - x_first, so it is never negative |
| StreetVertices.IntervalSpeedLengthBounds | opentripplanner-routing/src/main/java/org/opentripplanner/routing/edgetype/StreetVertex.java:222 | one interval's slope-adjusted length lies between the extreme coefficients times its run |
| StreetVertices.SpeedLengthBounds | opentripplanner-routing/src/main/java/org/opentripplanner/routing/edgetype/StreetVertex.java:222 | with altitudes in [0, 5000], the slope-adjusted length lies between 0.0554... and 5.638... times x_last - x_first |
| StreetVertices.SlopeCostsBounds | opentripplanner-routing/src/main/java/org/opentripplanner/routing/edgetype/StreetVertex.java:187-225 | for a whole profile: maxSlope in [0, 0.35], and the work cost and slope-adjusted length within their per-metre bounds times the profile's extent |
| StreetVertices.StoredProfile | opentripplanner-routing/src/main/java/org/opentripplanner/routing/edgetype/StreetVertex.java:175-178 | under slopeOverride only the first and the last sample are kept; otherwise the profile is kept as given |
| StreetVertices.StoredProfileIncreasing | opentripplanner-routing/src/main/java/org/opentripplanner/routing/edgetype/StreetVertex.java:175-178 | the reduced profile stays strictly increasing |
| StreetVertices.SubProfile | opentripplanner-routing/src/main/java/org/opentripplanner/routing/edgetype/StreetVertex.java:161-165 | the samples with start <= x <= end, in order, each shifted to x - start; never longer than the profile |
| StreetVertices.SubProfileMembers | opentripplanner-routing/src/main/java/org/opentripplanner/routing/edgetype/StreetVertex.java:161-165 | a coordinate is in the slice exactly when it is (x - start, y) for a sample with start <= x <= end |
| StreetVertices.SubProfileOrdered | opentripplanner-routing/src/main/java/org/opentripplanner/routing/edgetype/StreetVertex.java:156-165 | the slice keeps the samples' order, and all its x lie in [0, end - start] |
| StreetVertices.StreetVertex.constructor | opentripplanner-routing/src/main/java/org/opentripplanner/routing/edgetype/StreetVertex.java:115-124 | a new segment is flat: the safety, work and speed lengths equal length, permission is ALL, maxSlope is 0, it is accessible and not stairs, and it has no profile |
| StreetVertices.StreetVertex.SetElevationProfile | opentripplanner-routing/src/main/java/org/opentripplanner/routing/edgetype/StreetVertex.java:171-185 | null changes nothing; otherwise the stored profile (reduced under slopeOverride) is kept, and the three costs become exactly that profile's computed costs |
| StreetVertices.StreetVertex.GetElevationProfile | opentripplanner-routing/src/main/java/org/opentripplanner/routing/edgetype/StreetVertex.java:151-169 | null without a profile; otherwise the slice between max(start, 0) and min(end, length) |
| StreetVertices.StreetVertex.CanTraverse | opentripplanner-routing/src/main/java/org/opentripplanner/routing/edgetype/StreetVertex.java:354-377 | canTraverse: a traversable segment meets a wheelchair request's accessibility and slope limit, and a request with no modes can traverse nothing (CanTraverseRule gives the whole rule) |
| StreetVertices.StreetVertex.CanTraverseRule | opentripplanner-routing/src/main/java/org/opentripplanner/routing/edgetype/StreetVertex.java:354-377 | traversal is allowed exactly when a wheelchair request finds an accessible segment no steeper than its maxSlope, and some enabled walk, bicycle or car mode is permitted |
| StreetVertices.StreetVertex.CanTraverseMonotone | opentripplanner-routing/src/main/java/org/opentripplanner/routing/edgetype/StreetVertex.java:364-376 | enabling more modes never makes a traversable segment non-traversable |
| StreetVertices.IsGreenway | opentripplanner-routing/src/main/java/org/opentripplanner/routing/edgetype/StreetVertex.java:394 | the greenway test safety / length <= 0.1, stated without division: safety <= 0.1 * length on a positive length, safety >= 0.1 * length on a negative one |
| StreetVertices.StreetVertex.Reluctance | opentripplanner-routing/src/main/java/org/opentripplanner/routing/edgetype/StreetVertex.java:430-434 | the factor the weight is multiplied by is the stairs reluctance or the walk reluctance |
| StreetVertices.StreetVertex.BaseWeight | opentripplanner-routing/src/main/java/org/opentripplanner/routing/edgetype/StreetVertex.java:381-429 | the weight before reluctance: slope-adjusted length over speed for wheelchairs, the criterion's weight for cyclists, the time otherwise; nonnegative for nonnegative lengths, costs, factors and time |
| StreetVertices.StreetVertex.ComputeWeight | opentripplanner-routing/src/main/java/org/opentripplanner/routing/edgetype/StreetVertex.java:379-436 | computeWeight: the base weight times the reluctance; with nonnegative lengths, costs, factors, reluctances and time, the weight is nonnegative |
| StreetVertices.StreetVertex.WheelchairTakesPrecedence | opentripplanner-routing/src/main/java/org/opentripplanner/routing/edgetype/StreetVertex.java:381-387 | a wheelchair request costs slopeSpeedEffectiveLength/speed times the reluctance, whatever the modes, criterion and time |
| StreetVertices.StreetVertex.NonBicycleUsesTime | opentripplanner-routing/src/main/java/org/opentripplanner/routing/edgetype/StreetVertex.java:427-429 | without wheelchair or bicycle the weight is the given time times the reluctance |
| StreetVertices.StreetVertex.GreenwaysDiscount | opentripplanner-routing/src/main/java/org/opentripplanner/routing/edgetype/StreetVertex.java:392-398 | GREENWAYS is the SAFE weight times 0.66 when safety/length <= 0.1, and the SAFE weight otherwise |
| StreetVertices.StreetVertex.FlatAddsWork | opentripplanner-routing/src/main/java/org/opentripplanner/routing/edgetype/StreetVertex.java:399-410 | FLAT is the length/speed weight plus slopeWorkCost times the reluctance |
| StreetVertices.StreetVertex.TriangleBlend | opentripplanner-routing/src/main/java/org/opentripplanner/routing/edgetype/StreetVertex.java:414-423 | TRIANGLE is QUICK·timeFactor + work·slopeFactor + SAFE·safetyFactor |
| StreetVertices.StreetVertex.ReluctanceAppliedOnce | opentripplanner-routing/src/main/java/org/opentripplanner/routing/edgetype/StreetVertex.java:430-434 | the weight is scaled exactly once: by stairsReluctance on stairs and by walkReluctance elsewhere, and the other factor plays no part |
| StreetVertices.StreetVertex.SetSlopeOverride | opentripplanner-routing/src/main/java/org/opentripplanner/routing/edgetype/StreetVertex.java:438-440 | sets slopeOverride and nothing else |
| StreetVertices.StreetVertex.SetBicycleSafetyEffectiveLength | opentripplanner-routing/src/main/java/org/opentripplanner/routing/edgetype/StreetVertex.java:442-444 | sets the safety length and nothing else |
| StreetVertices.StreetVertex.SetPermission | opentripplanner-routing/src/main/java/org/opentripplanner/routing/edgetype/StreetVertex.java:470-472 | sets the permission and nothing else |
| StreetVertices.StreetVertex.SetWheelchairAccessible | opentripplanner-routing/src/main/java/org/opentripplanner/routing/edgetype/StreetVertex.java:474-476 | sets accessibility and nothing else |
| StreetVertices.StreetVertex.SetStairs | opentripplanner-routing/src/main/java/org/opentripplanner/routing/edgetype/StreetVertex.java:518-520 | sets the stairs flag and nothing else |
| RemainingWeightHeuristics.GetMaxSpeed | opentripplanner-routing/src/main/java/org/opentripplanner/routing/algorithm/strategies/DefaultRemainingWeightHeuristic.java:171-176 | with transit among the modes the maximum speed is 10 |
| RemainingWeightHeuristics.MaxSpeedRange | opentripplanner-routing/src/main/java/org/opentripplanner/routing/algorithm/strategies/DefaultRemainingWeightHeuristic.java:171-185 | the maximum speed is positive; without transit it lies between the speed bound and ten times it, and it equals the bound exactly for QUICK |
| RemainingWeightHeuristics.BoardCost | opentripplanner-routing/src/main/java/org/opentripplanner/routing/algorithm/strategies/DefaultRemainingWeightHeuristic.java:77-85 | 0 on board, the board-cost bound off board, plus the transfer penalty only once boarded; with nonnegative inputs it lies in [0, bound + penalty] |
| RemainingWeightHeuristics.NonTransitEstimate | opentripplanner-routing/src/main/java/org/opentripplanner/routing/algorithm/strategies/DefaultRemainingWeightHeuristic.java:109-112 | off transit the estimate is walkReluctance·d/maxSpeed, never negative (so never -1) for nonnegative reluctance and distance |
| RemainingWeightHeuristics.WalkWeightNonnegative | opentripplanner-routing/src/main/java/org/opentripplanner/routing/algorithm/strategies/DefaultRemainingWeightHeuristic.java:111 | walking a nonnegative distance with a nonnegative reluctance has a nonnegative weight at any positive speed |
| RemainingWeightHeuristics.RemainingWeight | opentripplanner-routing/src/main/java/org/opentripplanner/routing/algorithm/strategies/DefaultRemainingWeightHeuristic.java:65-112 | the estimate computeForwardWeight and computeReverseWeight return from the cached fields; with transit it is -1 whenever the walking limit is exceeded (WalkingEstimate and TransitEstimate give the other outcomes) |
| RemainingWeightHeuristics.WalkingEstimate | opentripplanner-routing/src/main/java/org/opentripplanner/routing/algorithm/strategies/DefaultRemainingWeightHeuristic.java:67-94 | alighted, or nearer the target than the target's stop: -1 when d + walked exceeds the limit, else walkReluctance·d/speedUpperBound |
| RemainingWeightHeuristics.TransitEstimate | opentripplanner-routing/src/main/java/org/opentripplanner/routing/algorithm/strategies/DefaultRemainingWeightHeuristic.java:95-106 | otherwise -1 when mandatory walk + walked exceeds the limit, else the smaller of the riding estimate and the walking bound |
| RemainingWeightHeuristics.EstimateAtMostWalk | opentripplanner-routing/src/main/java/org/opentripplanner/routing/algorithm/strategies/DefaultRemainingWeightHeuristic.java:65-112 | with transit the estimate is -1 or at most walkReluctance·d/speedUpperBound; without transit it is walkReluctance·d/maxSpeed |
| RemainingWeightHeuristics.RideEstimateNonnegative | opentripplanner-routing/src/main/java/org/opentripplanner/routing/algorithm/strategies/DefaultRemainingWeightHeuristic.java:101-103 | when 10·walkReluctance >= speedUpperBound and distances and board costs are nonnegative, the riding estimate is nonnegative |
| RemainingWeightHeuristics.PruneExactlyOverWalkLimit | opentripplanner-routing/src/main/java/org/opentripplanner/routing/algorithm/strategies/DefaultRemainingWeightHeuristic.java:65-106 | under that condition, with transit the estimate is -1 exactly when the walking limit is exceeded, and nonnegative otherwise |
| RemainingWeightHeuristics.EstimateCanEqualPrune | opentripplanner-routing/src/main/java/org/opentripplanner/routing/algorithm/strategies/DefaultRemainingWeightHeuristic.java:96-105 | without that condition the riding estimate can be exactly -1 while the walking limit is respected, so the value cannot be told apart from a pruned state |
| RemainingWeightHeuristics.DefaultRemainingWeightHeuristic.constructor | opentripplanner-routing/src/main/java/org/opentripplanner/routing/algorithm/strategies/DefaultRemainingWeightHeuristic.java:34-39 | no options are cached, useTransit is false and maxSpeed is 0 |
| RemainingWeightHeuristics.DefaultRemainingWeightHeuristic.ComputeInitialWeight | opentripplanner-routing/src/main/java/org/opentripplanner/routing/algorithm/strategies/DefaultRemainingWeightHeuristic.java:42-47 | caches the state's options, their transit flag and their maximum speed, and returns distance/maxSpeed |
| RemainingWeightHeuristics.DefaultRemainingWeightHeuristic.ComputeForwardWeight | opentripplanner-routing/src/main/java/org/opentripplanner/routing/algorithm/strategies/DefaultRemainingWeightHeuristic.java:50-113 | without transit walkReluctance·d/maxSpeed; with transit -1 or at most walkReluctance·d/speedUpperBound |
| RemainingWeightHeuristics.DefaultRemainingWeightHeuristic.ComputeReverseWeight | opentripplanner-routing/src/main/java/org/opentripplanner/routing/algorithm/strategies/DefaultRemainingWeightHeuristic.java:116-168 | equals the forward estimate for every state, target and distance |
| RemainingWeightHeuristics.DefaultRemainingWeightHeuristic.Reset | opentripplanner-routing/src/main/java/org/opentripplanner/routing/algorithm/strategies/DefaultRemainingWeightHeuristic.java:187-189 | changes no field |
| Patch.Create | opentripplanner-routing/src/main/java/org/opentripplanner/routing/patch/TimePeriod.java:26-29 | the constructor sets startTime = start and endTime = end |
| Patch.CreateDefault | opentripplanner-routing/src/main/java/org/opentripplanner/routing/patch/TimePeriod.java:31-38 | the no-argument constructor leaves both ends at 0 |
| Patch.Low15 | opentripplanner-routing/src/main/java/org/opentripplanner/routing/patch/TimePeriod.java:49 | x & 0x7fff lies in [0, 0x7fff] |
| Patch.HashCode | opentripplanner-routing/src/main/java/org/opentripplanner/routing/patch/TimePeriod.java:48-50 | the hash lies in [0, 65534] |
| Patch.Equals | opentripplanner-routing/src/main/java/org/opentripplanner/routing/patch/TimePeriod.java:40-46 | equals: true only for a time period, and true for the period itself (EqualsIsFieldEquality gives the exact rule) |
| Patch.EqualsIsFieldEquality | opentripplanner-routing/src/main/java/org/opentripplanner/routing/patch/TimePeriod.java:40-46 | equals holds exactly for a time period with both fields equal, and is false for null or any other class |
| Patch.EqualsIsEquivalence | opentripplanner-routing/src/main/java/org/opentripplanner/routing/patch/TimePeriod.java:44-45 | equals is reflexive, symmetric and transitive |
| Patch.HashConsistentWithEquals | opentripplanner-routing/src/main/java/org/opentripplanner/routing/patch/TimePeriod.java:45-49 | equal periods have equal hash codes |
| Patch.Low15Mask | opentripplanner-routing/src/main/java/org/opentripplanner/routing/patch/TimePeriod.java:49 | the mask keeps x exactly when x is in [0, 0x7fff], and removes a multiple of 0x8000 |
| Patch.HashIgnoresHighBits | opentripplanner-routing/src/main/java/org/opentripplanner/routing/patch/TimePeriod.java:49 | shifting either end by a multiple of 2^15 leaves the hash unchanged |

## Left out

- Floating point: doubles are exact reals. Rounding, NaN and infinities are not modelled, with one exception. The greenway test on a zero-length street follows IEEE division: it is a greenway only when the safety length is negative.
- StreetVertices.ComputeSlopeCost: requires strictly increasing sample distances, so `rise / run` never divides by zero. A repeated x would produce NaN or an infinity in the source.
- StreetVertices.StreetVertex.SetElevationProfile: requires at least two samples under slopeOverride. With one sample the kept end points coincide and the run is 0; with none the source throws.
- StreetVertices.StreetVertex.ComputeWeight: requires a positive request speed, because the source divides by it.
- RemainingWeightHeuristics.DefaultRemainingWeightHeuristic.ComputeForwardWeight: requires a positive speed upper bound and a prior computeInitialWeight (options non-null), because the source divides by these speeds and dereferences the cached options.
- RemainingWeightHeuristics.DefaultRemainingWeightHeuristic.ComputeReverseWeight: requires the same prior computeInitialWeight and positive speed upper bound, for the same reasons.
- RemainingWeightHeuristics.DefaultRemainingWeightHeuristic.ComputeInitialWeight: requires a positive speed upper bound even for a transit request. The source then divides only by the fixed transit speed 10 and accepts any bound. Without transit a zero bound would give an infinite or NaN estimate, which the model does not represent.
- The narrowing to `float` when a profile is stored in a `PackedCoordinateSequence.Float` is not modelled; samples keep their exact values.
- Geometry is not modelled: the start coordinate, the in and out angles, and the straight-line distance `fastDistance` from JTS and `DirectionUtils`. The distance and each vertex's distance to its nearest transit stop are parameters.
- The warning logged for implausible slopes is not modelled, and neither is the name parameter of computeSlopeCost, which only feeds that log line.
- Fields with no logic in the core are not modelled: crossable, roundabout, noThruTraffic, bogusName, notes, edgeId and name. Plain getters are field reads.
- The `int` board cost plus transfer penalty can overflow in Java; the model adds unbounded integers.
- The HEAD side of the merge conflict in the heuristic, which refers to `TraverseOptions` and `options.speed`, is not modelled.
- `TraverseModeSet` and `StreetTraversalPermission` are not part of this model. Modes are a set of `TraverseMode`, and a permission is three flags: pedestrian, bicycle and car. The source's `isTransit()` and `contains(TRANSIT)` both read as "some transit vehicle mode is enabled".
- `Edge`, `StreetEdge`, `TransitIndexService` and `TrivialPathServiceImpl` are interfaces or thin wrappers with no logic. They are not part of this model.
- XML binding annotations and serialisation are not modelled.
