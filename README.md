# Pathfinder motion planning, modelled in Dafny

A Dafny model of the core of the Python Pathfinder library
(utk-robotics-2017/pathfinder_python). The library plans smooth robot paths:

- it fits splines through waypoints (quintic and cubic fits in the chord
  frame of each pair of waypoints, and two generations of cubic Hermite
  splines);
- it measures their arc lengths with a trapezoid sum and finds the parameter
  at which a given distance is reached;
- it plans a velocity profile along the path (a second-order filter planner,
  two copies of a trapezoidal profile, and the branch logic of an S-curve
  profile);
- it places the planned segments on the splines (the single-track generator
  and the coupled tank-drive generator);
- it derives wheel paths for tank and swerve drives;
- it follows a path with a PD plus feed-forward controller, fed either a
  distance or an encoder reading;
- it converts between units of measure.

The model works on exact reals. The transcendental functions (square root,
sine, cosine, tangent, arctangent) are the fields of a `MathLib` value passed
to every operation that needs them. `Transcendental.Axioms` states the few
facts the proofs use about them:

- the square root is exact on non-negative arguments;
- sin² + cos² = 1;
- the chord length and `atan2` give back the chord: r·cos(atan2(y, x)) = x and r·sin(atan2(y, x)) = y.

`fmod` and `ceil` are defined exactly.

Objects whose fields the source updates in place are Dafny classes:

- the followers;
- the planner and both generators;
- the tank and swerve modifiers;
- the S-curve profile;
- the Hermite spline of spline/hermite.py.

Each of their methods is specified by a pure function of the old state, and
the properties are proved about those functions. Loops are methods with
invariants. Computations that are pure expressions in the source are Dafny
functions over datatypes. An exception in the source is `None` (an `Option`)
or a `Fault` outcome in the model, unless the model states the condition as
a precondition; those cases are listed under "Left out".

## Model

| member | source | states |
|---|---|---|
| MathUtil.BoundHalfDegrees | mathutil.py:5-11 | `boundHalfDegress` as written: the result lies in [180, 540) and differs from the input by a whole number of turns |
| MathUtil.HalfDegreesOfZero | mathutil.py:4-11 | an angle of 0 comes back as 360, which is outside the −180..180 the comment promises |
| MathUtil.BoundHalfDegreesIntended | mathutil.py:4 | the intended bound: the result lies in [−180, 180) and differs from the input by a whole number of turns |
| MathUtil.BoundAngle | mathutil.py:16-18 | fmod followed by adding one period when the remainder is negative: the result lies in [0, period) and is congruent to the input |
| MathUtil.BoundRadians | mathutil.py:14-19 | `bound_radians` lies in [0, TAU) and differs from the input by a whole number of TAU |
| MathUtil.BoundAngleIdentity | mathutil.py:16-19 | an angle already in [0, period) is returned unchanged |
| MathUtil.BoundAngleIdempotent | mathutil.py:14-19 | bounding twice is bounding once |
| MathUtil.BoundAngleCongruent | mathutil.py:14-19 | congruent inputs are bounded to the same value, so the result depends only on the angle modulo the period |
| Transcendental.FMod | mathutil.py:16 | `math.fmod`: the result has the sign of the dividend, is smaller than the divisor in magnitude, and is x − trunc(x/y)·y |
| Transcendental.Ceil | TrajectoryPlanner.py:20-24 | `math.ceil`: the least integer not below x |
| SplineGenerator.Prepare | spline_generator.py:52-60 | `prepare`: the spline sits at the first waypoint; its knot distance is the chord length and its angle offset the chord's atan2 |
| SplineGenerator.PrepareChord | spline_generator.py:57 | the knot distance is non-negative, its square is dx² + dy², and it is 0 exactly when the waypoints coincide |
| SplineGenerator.CubicEnds | spline_generator.py:28-32 | the cubic coefficients make y(knot) = 0 and y′(knot) equal to the end slope |
| SplineGenerator.CubicFit | spline_generator.py:22-34 | `cubic_fit`: a = b = 0; y(0) = y(knot) = 0; y′(0) and y′(knot) are the tangents of the waypoint headings relative to the chord, bounded first; placement fields come from `prepare` |
| SplineGenerator.QuinticEnds | spline_generator.py:44-48 | the quintic coefficients make y(knot) = 0, y′(knot) the end slope and y″(knot) = 0 |
| SplineGenerator.QuinticFit | spline_generator.py:36-50 | `quintic_fit`: d = 0; y vanishes at both ends; the end slopes are the heading tangents; y″(0) = y″(knot) = 0 |
| SplineGenerator.Fit | spline_generator.py:16-20 | `fit` dispatches on the fit type; an unrecognised type gives no spline |
| SplineGenerator.FitPlaced | spline_generator.py:16-20 | either fit is placed at the first waypoint along the chord to the second |
| SplineGenerator.FitEndpoints | spline_generator.py:16-20 | either fit leaves and rejoins the chord with the slopes the headings ask for |
| Splines.LocalSlopeIsDerivative | spline_utils.py:10 | the slope polynomial is the derivative of the spline polynomial: y(x+h) − y(x) = h·y′(x) + h²·(remainder) |
| Splines.LocalCurvatureIsDerivative | spline_utils.py:20 | the curvature polynomial is the derivative of the slope polynomial |
| Splines.LocalAtZero | spline_utils.py:10 | at local x = 0 the spline is 0, its slope is e and its curvature 2d |
| Splines.Expanded | spline_utils.py:10 | the nested form the source evaluates equals the power-sum a·x⁵ + b·x⁴ + c·x³ + d·x² + e·x |
| Splines.ExpandedSlope | spline_utils.py:20 | the nested slope form equals the power-sum derivative |
| SplineUtils.Clamp | spline_utils.py:8 | the percentage is clamped to [0, 1]; values inside are kept |
| SplineUtils.GetCoords | spline_utils.py:7-16 | `get_coords`: at or below percentage 0 the result is the spline's offsets exactly; above 1 it is the point at 1 |
| SplineUtils.GetCoordsClamps | spline_utils.py:8 | `get_coords` of a percentage equals `get_coords` of its clamped value |
| SplineUtils.GetCoordsRotates | spline_utils.py:9-16 | the returned point lies at distance √(x² + y²) from the offsets, for the local point (x, y): the rotation keeps lengths |
| SplineUtils.PolarChord | spline_generator.py:57-59 | the chord length and the chord's atan2 give back the chord: r·cos θ = dx and r·sin θ = dy |
| SplineUtils.CoordsAtKnot | spline_utils.py:9-16 | when y(knot) = 0 the point at 1 is the offsets plus knot·(cos, sin) of the angle offset |
| SplineUtils.LandsOn | spline_utils.py:7-16 | a spline placed on the chord from a to b that returns to its chord reaches b at percentage 1 |
| SplineUtils.FitReachesEnd | spline_utils.py:7-16 | every fit from a to b passes through b at percentage 1 |
| SplineUtils.GetDeriv | spline_utils.py:18-20 | `get_deriv` is the slope of the local polynomial at x = percentage·knot |
| SplineUtils.GetDeriv2Agrees | spline_utils.py:22-24 | `get_deriv_2` with the spline's coefficients equals `get_deriv` |
| SplineUtils.GetAngle | spline_utils.py:26-27 | `get_angle` lies in [0, TAU) and is congruent to atan(slope) + angle offset |
| SplineUtils.SlopeCoefficientsAgree | spline_utils.py:22-24 | the slope as a polynomial in the percentage (coefficient list) equals `get_deriv_2` |
| SplineUtils.OrdinateAtSample | spline_utils.py:48-50 | the loop's integrand at sample i is √(1 + slope(i/n)²)/n |
| SplineUtils.SumOrdinates | spline_utils.py:45-52 | the integration loop runs n + 1 times and accumulates the trapezoid sum |
| SplineUtils.GetArcLength | spline_utils.py:29-55 | `get_arc_length` returns knot × the sum and stores that value in the spline's arc length, changing nothing else |
| SplineUtils.ArcLengthAtLeastChord | spline_utils.py:45-55 | for n > 0 and a non-negative knot the arc length is at least the knot distance |
| SplineUtils.ArcLengthOfStraight | spline_utils.py:45-55 | for an all-zero spline the arc length is knot·(n+1)/n |
| ArcLength.IntegrandAtLeast | spline_utils.py:49-50 | every sample's ordinate √(1 + slope²)/n is at least 1/n |
| ArcLength.RunningStep | spline_utils.py:47-52 | each pass adds the average of this sample's ordinate and the previous one's (the first pass adds the first ordinate) |
| ArcLength.ScaledAtLeast | spline_utils.py:53-55 | knot times the finished sum is at least the knot distance |
| ArcLength.ScaledFlat | spline_utils.py:53-55 | for a flat spline knot times the finished sum is knot·(n+1)/n |
| ArcLength.CumAtLeast | spline_utils.py:47-52 | after pass i the running sum is at least (i+1)/n, since each ordinate is at least 1/n |
| ArcLength.CumIncreasing | spline_utils.py:47-52 | the running sum strictly increases at every pass |
| ArcLength.CumFlat | spline_utils.py:47-52 | for a zero slope the running sum after pass i is exactly (i+1)/n |
| ArcLength.PolyZero | spline_utils.py:22-24 | a polynomial with all-zero coefficients is 0 |
| SplineUtils.FirstAbove | spline_utils.py:79-86 | the index the scan breaks at: every earlier running sum is ≤ the target and, if it is within the samples, its own sum is above it |
| SplineUtils.ProgressAt | spline_utils.py:79-86 | the break index is the first sample whose running sum is strictly greater than distance/knot |
| SplineUtils.ScanStep | spline_utils.py:80-87 | one pass of the scan either breaks at the first sum above the target or moves on with the last sums updated |
| SplineUtils.ScanDone | spline_utils.py:89-93 | when the scan breaks or ends, the interpolation gives the specified progress |
| SplineUtils.GetProgressForDistance | spline_utils.py:57-93 | the loop of `get_progress_for_distance` computes the specified progress |
| SplineUtils.ProgressNoBreak | spline_utils.py:79-93 | if no running sum exceeds the target, the result is exactly 1.0 |
| SplineUtils.ProgressBreakBounds | spline_utils.py:84-92 | on a break at sample j with a non-negative target, the result lies in [t_j − 1/n, t_j) |
| SplineUtils.ProgressOfZero | spline_utils.py:84-92 | distance 0 gives −1/n, a percentage only `get_coords` later clamps |
| SplineUtils.ProgressNegativeCount | spline_utils.py:79-93 | with a negative sample count the loop never runs and the result is 0.0 |
| SplineUtils.ProgressMonotone | spline_utils.py:77-93 | for a positive knot distance and a non-zero sample count, a larger distance never gives a smaller parameter: the result of `get_progress_for_distance` is non-decreasing in the distance |
| SplineUtils.ProgressForMonotone | spline_utils.py:79-93 | for a positive sample count, the scan-and-interpolate result is non-decreasing in the target distance/knot, within one bracket and across brackets |
| HermiteCubic.CubicEnds | spline/hermite.py:37 | y(0) = y(1) = 0; y′(0) = a and y′(1) = b |
| HermiteCubic.CubicDerivIsDerivative | spline/hermite.py:47-48 | `deriv` is dy/dt of the cubic: y(t+h) − y(t) = h·deriv(t) + h²·(remainder) |
| HermiteCubic.DerivCoefficientsAgree | spline/hermite.py:47-48 | `deriv` as a coefficient list equals the source's expression |
| HermiteCubic.LoopOrdinateAgrees | spline/hermite.py:62-63 | the loop's integrand √(1 + deriv²)·dt is the shared trapezoid ordinate |
| HermiteCubic.ArangeValue | spline/hermite.py:61 | the i-th value of np.arange(0, 1, dt) is i/n |
| HermiteCubic.SampleLast | spline/hermite.py:67 | the final term is taken at t = 1 |
| HermiteCubic.LastStep | spline/hermite.py:67-70 | the closing term at t = 1 adds the average of the last ordinate and the one at 1 |
| HermiteCubic.RangeSum | spline/hermite.py:55-65 | the arange loop accumulates the trapezoid sum and keeps the last ordinate |
| HermiteCubic.HermiteSum | spline/hermite.py:50-70 | the whole sum, loop and closing term, is the specified Hermite sum |
| HermiteCubic.HermiteArcLengthAtLeastChord | spline/hermite.py:72 | for samples > 0 and a non-negative chord the arc length is at least the chord |
| HermiteCubic.HermiteArcLengthStraight | spline/hermite.py:72 | with zero tangents the arc length is hyp·(n+1)/n |
| SplineHermite.HypDistanceIsChord | spline/hermite.py:22 | `hyp_distance` is the Euclidean chord length |
| SplineHermite.OnChordEnd | spline/hermite.py:41-42 | a local point (hyp, 0) is rotated and moved onto the end of the chord |
| SplineHermite.Hermite.constructor | spline/hermite.py:10-28 | offsets are the start point; angle offset, chord length, tangents and a, b are derived from the waypoints; both cache fields start at 0 |
| SplineHermite.Hermite.CalculateStart | spline/hermite.py:30-45 | `calculate(0)` is the start point, with heading atan(a + a_offset) |
| SplineHermite.Hermite.CalculateEnd | spline/hermite.py:30-45 | `calculate(1)` is the end point |
| SplineHermite.Hermite.CalculateKeepsLength | spline/hermite.py:41-42 | the rotation keeps the distance of the local point from the offsets |
| SplineHermite.Hermite.ArcLength | spline/hermite.py:50-75 | recomputes and stores the length whenever samples differs from the cache key, and the key itself is never updated (line 73 assigns a local); otherwise returns the stored value |
| SplineHermite.Hermite.ArcLengthAtLeastChord | spline/hermite.py:50-75 | the computed length is at least the chord |
| SplineHermite.Hermite.GetSplines | spline/hermite.py:77-82 | one fresh spline per adjacent waypoint pair (n − 1 of them), built between those two waypoints |
| SplinesHermite.MakeChord | splines/hermite.py:8-28 | the constructor: offsets at the start, chord length, tangents times chord as a and b, cache key 0 |
| SplinesHermite.Calculate | splines/hermite.py:30-50 | `calculate` stamps t and returns a heading in [0, 2·3.14159265) congruent to atan(deriv) + angle offset |
| SplinesHermite.CalculateStart | splines/hermite.py:30-50 | at t = 0 the point is the start point |
| SplinesHermite.CalculateEnd | splines/hermite.py:30-50 | at t = 1 the point is the end point, because the mirrored row meets a zero local y |
| SplinesHermite.MirroredAtChord | splines/hermite.py:40 | the mirrored y row still maps (hyp, 0) to the chord's end |
| SplinesHermite.CalculateDistorts | splines/hermite.py:39-40 | the distance of a point from the offsets is that of the mirrored map, not of a rotation |
| SplinesHermite.MirrorLength | splines/hermite.py:39-40 | what the x row and the mirrored y row give, as a squared distance |
| SplinesHermite.ArcLength | splines/hermite.py:55-78 | no result (UnboundLocalError at 78) when samples equals the never-updated key 0 or is 0; otherwise the Hermite arc length |
| SplinesHermite.GetSplines | splines/hermite.py:81-85 | one spline per adjacent waypoint pair, in order |
| ProfilesTrapezoidal.StoppingDistance | profiles/trapezoidal.py:16-17 | decel_distance = v²/(2a), non-negative for a > 0 |
| ProfilesTrapezoidal.Calculate | profiles/trapezoidal.py:10-43 | no result exactly when the acceleration is 0; otherwise the segment is stamped with t |
| ProfilesTrapezoidal.DefaultPrevious | profiles/trapezoidal.py:11-12 | a missing previous segment is the all-zero segment |
| ProfilesTrapezoidal.Branches | profiles/trapezoidal.py:21-43 | exactly one status, in the order DONE, DECEL, ACCEL, LEVEL, each with its one-sided condition in both directions |
| ProfilesTrapezoidal.Kinematics | profiles/trapezoidal.py:21-43 | DONE holds distance with zero velocity and acceleration; otherwise d′ = d + v·dt + ½·a′·dt²; acceleration −a, a or 0; DECEL and LEVEL integrate v; ACCEL caps v at max_velocity |
| ProfileTrapezoidal.Calculate | profile/trapezoidal.py:10-47 | no result exactly when the acceleration is 0; otherwise the segment is stamped with the requested time |
| ProfileTrapezoidal.RenamedNumbering | profile/profile.py:4-8 | the two Status enums agree in numbering only on DECEL |
| ProfileTrapezoidal.CopiesAgree | profile/trapezoidal.py:10-47 | the older copy makes the same decision and segment as profiles/trapezoidal.py, up to the status renaming |
| ProfilesScurve.Abs | profiles/scurve.py:43 | `abs` is non-negative and ±x |
| ProfilesScurve.SignedJerk | profiles/scurve.py:48-54 | the jerk is +jerk below the setpoint and −jerk at or above it |
| ProfilesScurve.DeceleratesWindow | profiles/scurve.py:95-97 | DECEL fires when the error is within tolerance or overshoots in the setpoint's direction, by the sign of the setpoint |
| ProfilesScurve.CruiseTarget | profiles/scurve.py:109 | the inner setpoint for ACCEL is ±max_velocity with the sign of the setpoint |
| ProfilesScurve.InnerInput | profiles/scurve.py:34-36 | the inner input carries the previous velocity as distance and acceleration as velocity |
| ProfilesScurve.OuterSegment | profiles/scurve.py:102-105 | inner distance becomes velocity and inner velocity becomes acceleration |
| ProfilesScurve.InnerRoundTrip | profiles/scurve.py:34-36 | shifting down and back up gives back the previous velocity and acceleration |
| ProfilesScurve.Cruise | profiles/scurve.py:119-123 | LEVEL: zero acceleration, velocity held, distance += v·dt |
| ProfilesScurve.NextStamped | profiles/scurve.py:39 | every result is stamped with t, and the setpoint is never changed |
| ProfilesScurve.NextDone | profiles/scurve.py:43-46 | DONE iff \|distance − setpoint\| < tolerance, with distance held and jerk_out 0 |
| ProfilesScurve.NextFailure | profiles/scurve.py:56-89 | a call that raises leaves the profile's state unchanged |
| ProfilesScurve.NextSteers | profiles/scurve.py:95-123 | the DECEL / ACCEL / LEVEL choice in both directions, the inner setpoint each sets, and jerk_out |
| ProfilesScurve.Scurve.constructor | profiles/scurve.py:19-31 | the limits are stored and the inner profile's setpoint is max_velocity |
| ProfilesScurve.Scurve.CalculateSingle | profiles/scurve.py:33-123 | the new state and result are those of the specified step |
| TrajectoryPlanner.ReachableSpeedCovers | TrajectoryPlanner.py:15-18 | the root the source computes is the speed whose jerk-limited ramp covers dest_pos |
| TrajectoryPlanner.RootCovers | TrajectoryPlanner.py:16-18 | the positive root v of the quadratic satisfies v·(v/a + a/j) = dest_pos |
| TrajectoryPlanner.PrepareInfo | TrajectoryPlanner.py:11-26 | `prepare` fails (math domain error or division by zero) exactly on a negative radicand or a zero max_j, max_a, dt or top speed |
| TrajectoryPlanner.PrepareMeaning | TrajectoryPlanner.py:15-26 | v ≤ max_v and ≤ the reachable speed; filter1 = ⌈(v/a)/dt⌉; filter2 = ⌈(a/j)/dt⌉; impulse·dt·v = dest_pos; length = ⌈filter1 + filter2 + impulse⌉ |
| TrajectoryPlanner.ImpulseNonNegative | TrajectoryPlanner.py:48-54 | the remaining impulse never goes negative |
| TrajectoryPlanner.ImpulseSpent | TrajectoryPlanner.py:48-54 | the impulse drops by 1 per pass until it is below 1, then becomes 0 |
| TrajectoryPlanner.InputSchedule | TrajectoryPlanner.py:48-54 | the input is 1 while whole units remain, then the fraction minus 1, then −1 |
| TrajectoryPlanner.Clamp | TrajectoryPlanner.py:63-65 | max(0, min(hi, x)) lies in [0, hi] and keeps values already inside |
| TrajectoryPlanner.WindowBounds | TrajectoryPlanner.py:62-72 | every f1 entry lies in [0, filter1], so a window of j entries lies in [0, j·filter1] |
| TrajectoryPlanner.Terms | TrajectoryPlanner.py:69-71 | the inner loop adds at most i + 1 entries, stopping early at index 0 |
| TrajectoryPlanner.VelocityFrom | TrajectoryPlanner.py:67-78 | f2 divided by filter1, then by filter2, times v, is the specified velocity |
| TrajectoryPlanner.VelocityBounds | TrajectoryPlanner.py:67-78 | segment velocity lies in [0, v] |
| TrajectoryPlanner.AdvanceKinematics | TrajectoryPlanner.py:76-83 | trapezoidal displacement, backward-difference acceleration and jerk, x = displacement, y = heading = 0 |
| TrajectoryPlanner.PlannedPrefix | TrajectoryPlanner.py:47-86 | the plan after k passes extends the plan after i ≤ k passes |
| TrajectoryPlanner.PlannedAt | TrajectoryPlanner.py:76-86 | segment i is advanced from segment i − 1 (from the seed section for i = 0) with the filtered velocity |
| TrajectoryPlanner.PlanKinematics | TrajectoryPlanner.py:76-83 | each planned segment has the filtered velocity in [0, v], follows its predecessor kinematically, and lies on the x axis |
| TrajectoryPlanner.HeadingEnds | TrajectoryPlanner.py:31-34 | the interpolated heading is src_theta at displacement 0 and dest_theta at the final displacement |
| TrajectoryPlanner.TrajectoryPlanner.constructor | TrajectoryPlanner.py:7-9 | the config is stored and there is no info yet |
| TrajectoryPlanner.TrajectoryPlanner.Prepare | TrajectoryPlanner.py:11-26 | the info becomes the specified one exactly when it exists; the config is unchanged |
| TrajectoryPlanner.TrajectoryPlanner.PlanFromSecondOrderFilter | TrajectoryPlanner.py:38-88 | exactly `info.length` segments (none for a length ≤ 0), each as specified |
| TrajectoryPlanner.TrajectoryPlanner.FirstFilter | TrajectoryPlanner.py:48-65 | one pass stores f1[i] and leaves earlier entries and the impulse schedule as specified |
| TrajectoryPlanner.TrajectoryPlanner.FilterInput | TrajectoryPlanner.py:48-65 | one pass's input and clamped f1 entry, with the impulse left for the next pass |
| TrajectoryPlanner.TrajectoryPlanner.SecondFilter | TrajectoryPlanner.py:67-72 | f2 is the sum of the last ≤ filter2 f1 entries |
| TrajectoryPlanner.TrajectoryPlanner.NextSection | TrajectoryPlanner.py:76-83 | the segment built from the last section is the specified step |
| TrajectoryPlanner.TrajectoryPlanner.Create | TrajectoryPlanner.py:28-36 | the planned segments with headings interpolated by displacement |
| TrajectoryGenerator.KnotSymmetric | TrajectoryGenerator.py:32 | the reversed fit has the same knot distance |
| TrajectoryGenerator.Candidates | TrajectoryGenerator.py:29-39 | four candidates: cubic, cubic reversed, quintic, quintic reversed, each measured |
| TrajectoryGenerator.FourShortest | TrajectoryGenerator.py:41-54 | the if-chain picks the first candidate of minimum length |
| TrajectoryGenerator.FirstShortestUnique | TrajectoryGenerator.py:43-54 | ties go to the first in order: the choice is unique |
| TrajectoryGenerator.KeptShortest | TrajectoryGenerator.py:29-54 | the kept spline is a candidate, no longer than any candidate, with the pair's knot distance |
| TrajectoryGenerator.Lengths | TrajectoryGenerator.py:57 | `length_list` holds each kept spline's arc length, index by index |
| TrajectoryGenerator.SumAppend | TrajectoryGenerator.py:58 | accumulating one more length adds it to the total |
| TrajectoryGenerator.KeptPrefixExtend | TrajectoryGenerator.py:56 | appending the spline kept for the next pair extends a valid list of kept splines |
| TrajectoryGenerator.KeptMeasurable | TrajectoryGenerator.py:28-58 | every kept spline has a non-zero knot distance, so its progress can be searched |
| TrajectoryGenerator.KeptEnds | TrajectoryGenerator.py:29-54 | the kept spline ends at b (or, reversed, at a) |
| TrajectoryGenerator.TrajectoryGenerator.constructor | TrajectoryGenerator.py:9-17 | `__init__` stores the path, builds a fresh planner for the config and runs `prepare`. Fewer than 2 waypoints leave empty lists and a planner without info. Otherwise the kept splines, their lengths and their sum are recorded, the planner's config points dest_pos at the sum and both headings at the first waypoint, its info is `PrepareInfo` of that config, and the generator is `Prepared` exactly when that info exists |
| TrajectoryGenerator.TrajectoryGenerator.ChooseAll | TrajectoryGenerator.py:28-58 | one kept spline per adjacent pair; the lengths list and total are its lengths and their sum |
| TrajectoryGenerator.TrajectoryGenerator.Choose | TrajectoryGenerator.py:29-54 | the chosen spline is the first shortest candidate and `dist` its length |
| TrajectoryGenerator.TrajectoryGenerator.Prepare | TrajectoryGenerator.py:19-68 | fewer than 2 waypoints changes nothing; otherwise the lists, total = sum, dest_pos = total, both thetas = path[0].angle, and the planner is prepared |
| TrajectoryGenerator.LocateKeepsStart | TrajectoryGenerator.py:86-100 | spline_pos_initial stays the sum of the lengths before spline_i, and the scan stops on the spline the displacement falls within |
| TrajectoryGenerator.Locate | TrajectoryGenerator.py:86-100 | spline_i never decreases and never exceeds path_length − 2 |
| TrajectoryGenerator.CursorForward | TrajectoryGenerator.py:83-100 | the spline index never decreases from one segment to the next |
| TrajectoryGenerator.CursorStart | TrajectoryGenerator.py:98-100 | at every segment spline_pos_initial is the sum of the previous lengths |
| TrajectoryGenerator.PlaceKeepsMotion | TrajectoryGenerator.py:87-108 | placing a segment changes only its x, y and heading |
| TrajectoryGenerator.PlacePinned | TrajectoryGenerator.py:101-108 | past the last spline the point is pinned to the last spline at percentage 1 |
| TrajectoryGenerator.PlacePastEnd | TrajectoryGenerator.py:101-108 | that pinned point is the last waypoint (or the one before, if that spline was kept reversed) |
| TrajectoryGenerator.MeasuredFitEnds | TrajectoryGenerator.py:29-39 | measuring a fit keeps its shape: it still reaches its end waypoint |
| TrajectoryGenerator.Generated | TrajectoryGenerator.py:83-108 | generation keeps the number of segments |
| TrajectoryGenerator.GeneratedStep | TrajectoryGenerator.py:83-108 | pass i writes exactly segment i, with the placement at the cursor reached so far |
| TrajectoryGenerator.TrajectoryGenerator.PlaceAll | TrajectoryGenerator.py:83-108 | the loop writes the first trajectory_length segments as specified and no other |
| TrajectoryGenerator.TrajectoryGenerator.Walk | TrajectoryGenerator.py:86-108 | the inner while loop ends at the located spline and places the segment on it |
| TrajectoryGenerator.TrajectoryGenerator.Generate | TrajectoryGenerator.py:70-113 | the planned, headed segments placed on the splines |
| CoupledGenerator.TotalFails | splines/spline.py:24-28 | the summed distance fails exactly when one spline's arc length fails |
| CoupledGenerator.TotalNonNegative | splines/spline.py:24-28 | with usable sample counts the total exists and is non-negative |
| CoupledGenerator.TotalPrefix | splines/spline.py:24-28 | a failure in a prefix makes the whole sum fail |
| CoupledGenerator.Distance | splines/spline.py:24-28 | the summing loop computes the specified total |
| CoupledGenerator.Wrap | trajectory_generator.py:88-91 | the corrected wrap maps a turn in (−2π, 2π) into [−π, π], by adding or subtracting 2π or neither |
| CoupledGenerator.WrapAsWrittenReverses | trajectory_generator.py:88-89 | for a turn in (π, 2π) the written rule gives the negated wrapped turn, a positive value |
| CoupledGenerator.WrapAgrees | trajectory_generator.py:88-91 | for turns in (−2π, π] the written rule agrees with the corrected wrap |
| CoupledGenerator.AngularVelocityAsWritten | trajectory_generator.py:86-95 | the division at 92 raises whenever dt = 0, before the t = 0 override |
| CoupledGenerator.FirstCallFaults | trajectory_generator.py:92-95 | the first call (t = 0 after a zero segment) always divides by zero |
| CoupledGenerator.AngularVelocity | trajectory_generator.py:86-95 | the intended rule: 0 at t = 0; otherwise the turn over dt, raising only for dt = 0 at t ≠ 0; equal to the written rule whenever dt ≠ 0 |
| CoupledGenerator.Sides | trajectory_generator.py:73-84 | the center point keeps the coordinate; left and right share its heading, their midpoint is the center, and left is (x − w·sin, y + w·cos) |
| CoupledGenerator.SidesApart | trajectory_generator.py:78-84 | the two wheel points are 2·wheelbase apart |
| CoupledGenerator.SideSpeeds | trajectory_generator.py:106-121 | vr − vl = tangential speed; the faster side gets the profile velocity by the sign of the turn |
| CoupledGenerator.Advance | trajectory_generator.py:130-140 | distance += v·dt; a backward-difference acceleration, or the carried acceleration when dt = 0 |
| CoupledGenerator.Compose | trajectory_generator.py:73-140 | all three tracks stamped with t; center velocity is the mean of the sides; the 2D midpoint is the center |
| CoupledGenerator.ComposeSpeeds | trajectory_generator.py:97-128 | vr − vl = rate·wheelbase; the dominant side has the profile velocity; no turn means all three equal it |
| CoupledGenerator.ComposeTracks | trajectory_generator.py:130-140 | each track advances by its velocity·dt; for dt = 0 the sides copy the previous center acceleration; otherwise all are backward differences |
| CoupledGenerator.Turn | trajectory_generator.py:68-91 | the turn is 0 at t = 0 (lines 69-70); otherwise it is the heading change wrapped by the rules of lines 88-91 as written |
| CoupledGenerator.Build | trajectory_generator.py:61-140 | as written, with the division at line 92 before the override at 94-95: a segment stamped with t, or a raise exactly when dt = 0 (the t = 0 call included) or the profile acceleration is 0 |
| CoupledGenerator.Locate | trajectory_generator.py:52-56 | the spline index grows by at most one; a usable length belongs to an existing spline and is non-zero |
| CoupledGenerator.Place | trajectory_generator.py:59-140 | placing through `Build` as written never finishes the run; a segment is stamped with t |
| CoupledGenerator.Step | trajectory_generator.py:46-140 | `calculate` returns None iff the current distance ≥ total; the index grows by at most one and never decreases |
| CoupledGenerator.CalculatorAdvances | trajectory_generator.py:52-56 | every call keeps the spline index or moves it by one |
| CoupledGenerator.LoopIndex | trajectory_generator.py:36-41 | over the loop the index stays between its start and start + passes |
| CoupledGenerator.LoopSegments | trajectory_generator.py:36-41 | the loop yields at most `fuel` segments, stamped t, t + dt, …, each but the last started below total_distance |
| CoupledGenerator.RunFromStart | trajectory_generator.py:29-43 | from the zero segment at t = 0 the segments are stamped 0, dt, 2dt, … |
| CoupledGenerator.RunNext | trajectory_generator.py:36-41 | a segment is appended and the loop continues from it at t + dt |
| CoupledGenerator.RunFault | trajectory_generator.py:36-41 | a raise ends `generate` with the raise |
| CoupledGenerator.RunFirstCallFaults | trajectory_generator.py:29-95 | with some distance to cover and some spline, the loop's first `calculate` (t = 0, previous time 0) raises, so `generate` yields no trajectory |
| CoupledGenerator.RunStops | trajectory_generator.py:36 | the loop stops with no segment once the distance or spline index guard fails |
| CoupledGenerator.StampedCons | trajectory_generator.py:41 | prepending a segment at t to segments stamped from t + dt keeps the time stamps |
| CoupledGenerator.ShortCons | trajectory_generator.py:36 | prepending a segment below total_distance keeps the loop guard's record |
| CoupledGenerator.TrajectoryGenerator.constructor | trajectory_generator.py:8-18 | config and spline type stored; the profile is the trapezoid of the config's limits |
| CoupledGenerator.TrajectoryGenerator.Calculate | trajectory_generator.py:46-140 | the outcome and the new spline index are those of the specified step; nothing else changes |
| CoupledGenerator.TrajectoryGenerator.Seek | trajectory_generator.py:52-56 | the spline lookup as specified |
| CoupledGenerator.TrajectoryGenerator.Position | trajectory_generator.py:59-140 | the rest of `calculate` as specified |
| CoupledGenerator.TrajectoryGenerator.Tick | trajectory_generator.py:37-41 | one pass of the loop matches the specified run |
| CoupledGenerator.TrajectoryGenerator.Walk | trajectory_generator.py:33-43 | the whole loop matches the specified run |
| CoupledGenerator.TrajectoryGenerator.Generate | trajectory_generator.py:20-43 | splines one per waypoint pair; the profile setpoint is the total distance; the result is the specified run, which raises on the first call whenever there is a distance to cover; a failed arc length aborts with nothing changed |
| TankModifier.WheelPath | TankModifier.py:16-48 | one wheel segment per center segment |
| TankModifier.WheelPathPrefix | TankModifier.py:16-48 | building over a prefix gives the prefix of the full build |
| TankModifier.WheelPathAt | TankModifier.py:21-45 | segment 0 is the placed copy; segment i > 0 follows the already built i − 1 |
| TankModifier.SidesApart | TankModifier.py:11-37 | left and right are centered on the path point and exactly wheelbase_width apart |
| TankModifier.FollowPlace | TankModifier.py:24-45 | a following segment keeps dt and heading, sits at its placed x, y, and its displacement is the center displacement plus this step's side distance |
| TankModifier.FollowRates | TankModifier.py:32-45 | velocity, acceleration and jerk are the step distance and backward differences over dt |
| TankModifier.FollowForward | TankModifier.py:32 | for dt > 0 the side velocity is non-negative |
| TankModifier.Distance | TankModifier.py:29 | the step distance is the Euclidean distance between consecutive wheel points |
| TankModifier.WheelPathShape | TankModifier.py:18-45 | segment i of a side path: placed x, y; dt and heading of the center; first segment otherwise unchanged; displacement = center + step distance |
| TankModifier.WheelPathRates | TankModifier.py:28-45 | each later segment's rates are backward differences, and its velocity is non-negative for dt > 0 |
| TankModifier.TankModifier.Init | TankModifier.py:5-7 | the original and width are stored, with empty side lists |
| TankModifier.TankModifier.Create | TankModifier.py:5-8 | `__init__` then `modify`: fails exactly on a zero dt after the first segment; otherwise both side paths are as specified |
| TankModifier.TankModifier.Modify | TankModifier.py:10-48 | the side paths built so far are the specified ones over a prefix; complete iff no later dt is zero; an early stop is at a zero dt; the original is never changed |
| TankModifier.TankModifier.Wheel | TankModifier.py:18-45 | one side's segment for one loop pass, as specified |
| TankModifier.Extend | TankModifier.py:47-48 | appending one more segment extends the side path by that segment |
| SwerveModifier.Corner | SwerveModifier.py:19-32 | a corner copy is moved by (dx, dy) and nothing else changes |
| SwerveModifier.ShiftedAt | SwerveModifier.py:17-37 | corner path i is the corner of center segment i, so the lists are index-aligned |
| SwerveModifier.ShiftedNext | SwerveModifier.py:34-37 | each pass appends the next corner |
| SwerveModifier.Centered | SwerveModifier.py:24-32 | the mean of the four corners is the center |
| SwerveModifier.HeadingFree | SwerveModifier.py:24-32 | the offsets do not depend on heading |
| SwerveModifier.SwerveModifier.constructor | SwerveModifier.py:5-9 | stores the original and the wheelbase, and builds the four paths |
| SwerveModifier.SwerveModifier.Modify | SwerveModifier.py:11-37 | rebuilds fl, fr, bl, br as the center path moved by (∓W/2, ±D/2); the original is unchanged |
| SwerveModifier.SwerveModifier.Corners | SwerveModifier.py:17-37 | the loop builds the four shifted lists |
| SwerveModifier.SwerveModifier.FourCorners | SwerveModifier.py:17-37 | four lists of the input's length, averaging to the center, otherwise copies of it |
| DistanceFollower.Output | distance_follower.py:37-38 | with no change of error the derivative term vanishes; with no error only feed-forward remains |
| DistanceFollower.Follow | distance_follower.py:33-44 | past the end 0.0 and no change; a zero dt raises with no change; otherwise the output is kp·e + kd·(e − last_error)/dt + kv·v + ka·a for e = planned position − distance, and last_error, heading and segment + 1 are set as the source sets them |
| DistanceFollower.KiUnused | distance_follower.py:27-38 | ki never affects a step |
| DistanceFollower.Replay | distance_follower.py:33-44 | one output per call |
| DistanceFollower.ReplayFinishes | distance_follower.py:34-44 | after n calls from segment k the follower is at min(len, k + n) and every later call yields 0.0 |
| DistanceFollower.DistanceFollower.constructor | distance_follower.py:2-12 | all gains 0, segment 0, no error |
| DistanceFollower.DistanceFollower.ConfigurePIDVA | distance_follower.py:14-31 | sets the five gains and nothing else |
| DistanceFollower.DistanceFollower.Calculate | distance_follower.py:33-44 | one specified step; gains and path unchanged; segment ≤ len is preserved |
| DistanceFollower.DistanceFollower.SetTrajectory | distance_follower.py:46-51 | replaces the path and resets |
| DistanceFollower.DistanceFollower.Reset | distance_follower.py:53-58 | segment and last error go to 0; everything else is kept |
| EncoderFollower.Complete | EncoderFollower.py:15-50 | gains are usable exactly when kd has been set |
| EncoderFollower.Covered | EncoderFollower.py:61-62 | the distance covered from the tick count; none when ticks per revolution is 0 |
| EncoderFollower.Follow | EncoderFollower.py:52-74 | past the end 0.0 and no change; raises exactly on zero ticks per revolution, unset kd or zero dt; segment ≤ len is preserved |
| EncoderFollower.Advances | EncoderFollower.py:60-72 | a step that does not raise outputs the PD + feed-forward sum and moves on one segment with the new error and heading |
| EncoderFollower.FollowsDistance | EncoderFollower.py:52-74 | the encoder follower is the distance follower fed the covered distance |
| EncoderFollower.CoveredReading | EncoderFollower.py:61-62 | the tick count for a distance is read back as that distance |
| EncoderFollower.OnPlan | EncoderFollower.py:60-72 | on plan with no prior error the output is pure feed-forward and no error is carried |
| EncoderFollower.EncoderFollower.constructor | EncoderFollower.py:8-19 | zero calibration and gains, kd unset, segment 0 |
| EncoderFollower.EncoderFollower.ConfigureEncoder | EncoderFollower.py:21-31 | sets the calibration only |
| EncoderFollower.EncoderFollower.ConfigurePIDVA | EncoderFollower.py:33-50 | sets all five gains, kd included, and nothing else |
| EncoderFollower.EncoderFollower.Calculate | EncoderFollower.py:52-74 | one specified step; calibration, gains and path unchanged; segment ≤ len preserved |
| EncoderFollower.EncoderFollower.SetTrajectory | EncoderFollower.py:76-81 | replaces the path and resets |
| EncoderFollower.EncoderFollower.Reset | EncoderFollower.py:83-88 | segment and last error go to 0; calibration, gains and path kept |
| Units.Make | util/units.py:12-16 | `Unit(v)` stores v; `Unit(v, u)` reads back as v in u for u ≠ 0 |
| Units.To | util/units.py:18-20 | `to(u)` raises only for u = 0; result·u = base value |
| Units.MakeTo | util/units.py:12-20 | building from `to(u)` in u gives back the same unit |
| Units.Add | util/units.py:22-24 | subtraction undoes addition |
| Units.AddLaws | util/units.py:22-24 | addition is commutative and associative with unit zero |
| Units.Neg | util/units.py:63-65 | a unit plus its negation is zero |
| Units.NegNeg | util/units.py:63-65 | negating twice gives back the unit |
| Units.Pos | util/units.py:67-69 | unary plus is the identity |
| Units.Abs | util/units.py:71-73 | abs is ≥ 0 and is either the unit or its negation |
| Units.Div | util/units.py:37-42 | division raises exactly for a zero divisor, and multiplying back gives the dividend |
| Units.DivMul | util/units.py:30-42 | dividing a product by the same non-zero factor gives back the unit |
| Units.IMul | util/units.py:52-54 | `*=` accepts only a unit: a plain number raises |
| Units.Compare | util/units.py:75-121 | comparison with a plain number raises unless it is 0; otherwise it compares base values |
| Units.CompareDual | util/units.py:75-121 | < is the negation of >=; > is the reverse of <; ≤ and ≥ together mean equality |
| Units.ZeroIsZeroUnit | util/units.py:75-121 | comparing with 0 is comparing with the zero unit |
| Units.Equal | util/units.py:95-101 | == holds exactly for equal base values |
| Units.Constant | util/units.py:126-128 | a constant is its value in unit 1 |
| Units.MeasureAsWritten | util/units.py:131-133 | the subclass constructors discard the unit argument |
| Units.MeasureAsWrittenLosesUnit | util/units.py:131-133 | `Length(5, inch)` equals `Length(5, m)` and does not read back as 5 inches |
| Units.Measure | util/units.py:131-133 | the intended constructor reads back its value in its unit |
| Units.Derived | util/units.py:134-250 | ft = 12·inch, hr = 60·minute = 3600·s, rev = 360·degree, km and mm, lbs = 16·oz, kPa = 1000·Pa |
| Units.DerivedReadings | util/units.py:139-162 | 1 ft reads as 12 inch, 1 hr as 3600 s, 1 rev as 360 degree |
| Units.InchAsWrittenLongerThanMetre | util/units.py:139 | the written inch is 39.3701 metres |
| Units.InchShorterThanMetre | util/units.py:139 | the corrected inch: a metre reads as 39.3701 inches |
| Units.RpmAsWrittenIsRps | util/units.py:190-191 | the written rpm equals rps |
| Units.RpmPerMinute | util/units.py:190-191 | the corrected rpm is a sixtieth of rps |
| Units.InvertedAsWritten | util/units.py:241-252 | the written oz exceeds a newton, lbs is under an oz, and atm and mb are under a pascal |
| Units.ForcePressureOrder | util/units.py:241-253 | the corrected oz is under a newton, lbs above it, atm and Hg above a pascal, mb = 100 Pa |
| Units.Temperature | util/units.py:275-282 | C, K and F codes build a Celsius base value; any other code leaves none |
| Units.TemperatureTo | util/units.py:284-290 | reading back is defined exactly for the three codes |
| Units.TemperatureRoundTrip | util/units.py:275-294 | `Temperature(v, u).to(u) = v` for u in C, K, F |
| Units.TemperatureScales | util/units.py:275-294 | 0 °C is 273.15 K and 32 °F; 212 °F and 373.15 K are 100 °C |

## Left out

- Floating point: the model computes on exact reals, so rounding, overflow and `np.arange`'s step count under rounding are not modelled. `np.arange(0, 1, 1/n)` is taken to give exactly n values for n > 0.
- Transcendental functions: sqrt, sin, cos, tan, atan and atan2 are parameters with only the facts in `Transcendental.Axioms`.
- Misspelled names are read as the names they evidently mean. These are `math.tna`, `math.min`, `self.derive`, `list.add`, `enumerate(n)`, the undefined bare `hyp_distance`, `b`, `a`, `splines` and `spline_number`, and `if t = 0`.
- The source also reads `self.wheelbase`, which it never sets. `CoupledGenerator.TrajectoryGenerator` takes it as a constructor argument.
- The source calls `Spline.distance(splines)` without its sample count. The model uses the configuration's sample count.
- The runtime type checks of util/decorators.py are not part of this model. As written they would reject the unit operators themselves, because the annotations are evaluated while `unit_forward_declare` is still None. The retry, timeout and thread helpers of that file are left out too.
- Printing, the GUI, the websocket server, the command-line scripts and the logger are not part of this model.
- The unfinished trajectory_planner.py stub is not part of this model.
- Record classes are datatypes with no behaviour. Deep copies are value copies. `Segment.position` in the follower files is read as `displacement`.
- Records hold base values: distances, angles and times that the source wraps in unit objects, and ints versus floats, are not distinguished.
- Conditions that make the source raise are preconditions rather than error outcomes in these members:
  - `SplineGenerator.CubicFit` and `SplineGenerator.QuinticFit`: coincident waypoints (knot distance 0).
  - `SplineUtils.GetArcLength`: a sample count of 0.
  - `SplineUtils.GetProgressForDistance`: a sample count of 0 or a knot distance of 0 (line 77 divides by the knot).
  - `TrajectoryGenerator.TrajectoryGenerator.Prepare` and `Generate`: the same conditions, and a planner whose info is usable.
  - `TrajectoryPlanner.TrajectoryPlanner.PlanFromSecondOrderFilter`: a zero top speed, filter length or dt.
- `TrajectoryPlanner.TrajectoryPlanner.Create`: the interpolation needs a non-zero final displacement.
- `CoupledGenerator.TrajectoryGenerator.Generate` runs its loop with a `fuel` bound on the number of passes. A run that needs more passes than the fuel stops early. The source's loop has no such bound.
- `CoupledGenerator.TrajectoryGenerator.Generate`: a spline type other than HERMITE_CUBIC leaves `spline_class` unset. It is the `None` outcome.
- `calculate` in trajectory_generator.py ends at line 140 without a `return`, so as written it returns None and `generate` would stop after one call. The model returns the segment it builds.
- `self.profile(t, ...)` at trajectory_generator.py:98 is read as the profile's `calculate`, and `self.profile.setpoint(...)` at line 27 as setting its setpoint. The missing `math` import and the missing colon at line 12 are read as if present.
- `get_splines` in splines/hermite.py ends without `return splines`. The model returns the list it builds. The mixed tabs and spaces of splines/hermite.py:62-77 are read as the nesting of spline/hermite.py.
- Names that trajectory_generator.py, the Hermite files and the two trapezoidal files use but never define are read as the evident ones. profiles/trapezoidal.py:12,14 and profile/trapezoidal.py:11,14 build `Segment(...)` but import only `Profile` and `Status`, so as written every `calculate` raises NameError. `Spline` (line 25) and `CoupledSegment` (line 29) are not imported. `IntEnum` is not imported in spline/hermite.py (splines/hermite.py:1 imports it). `SplineCoord` is undefined in spline/hermite.py and splines/hermite.py. splines/hermite.py:4 imports the misspelled `.spine`.
- structs/coupled_segment.py:13 reads the undefined name `kwarg`, so `CoupledSegment()` itself raises. Its `Segment()` parts have no `distance` field, which trajectory_generator.py:36 reads. The model's fresh coupled segment is all zeros, with `distance` 0.
- trajectory_generator.py:98 stores the profile's whole `(status, segment)` result in `segment.center`. The model takes the segment.
- `CoupledGenerator.TrajectoryGenerator.constructor`: line 18 builds `Trapezoidal` without its required `setpoint` argument (profiles/trapezoidal.py:5), a TypeError as written. The model starts the profile at setpoint 0, which `generate` overwrites with the total distance before any use.
- `CoupledGenerator.Build`, `CoupledGenerator.Step` and `CoupledGenerator.TrajectoryGenerator.Generate` follow lines 88-95 as written, so every run with a distance to cover raises on its first call (`CoupledGenerator.RunFirstCallFaults`). The intended rules, `CoupledGenerator.Wrap` and `CoupledGenerator.AngularVelocity`, are stated and proved on their own, and `CoupledGenerator.Compose` and its lemmas describe the segment either rule would build.
- `TrajectoryGenerator.TrajectoryGenerator.constructor`: when the planner's `prepare` raises inside `__init__`, the model still returns a generator, one whose planner has no info and which is not `Prepared`.
- `completed_splines_length` is never advanced in trajectory_generator.py. The model keeps it at 0 as the source does.
- `ProfilesScurve.Scurve.constructor`: scurve.py:30 passes four arguments to the three-parameter `Trapezoidal.__init__` (profiles/trapezoidal.py:5), so as written every construction raises TypeError. Line 31 then calls `set_setpoint`, which `Trapezoidal` does not define. The model reads the two lines as building an inner velocity profile from the acceleration and jerk limits, and reads `set_setpoint(max_velocity)` as setting that profile's setpoint to max_velocity. The inner profile itself is the `InnerProfile` parameter of `CalculateSingle`.
- `ProfilesScurve.Scurve.CalculateSingle`: the default `previous_segment=None` (scurve.py:33) makes line 34 raise AttributeError. The model takes a segment always, so this path is not modelled. Line 109's call `self.velocity_profile.setpoint(...)` is read as setting the setpoint. Line 105 reads `velocity_segment.distance_integral`, a field no trapezoidal segment has; the model takes that value from the `InnerProfile` step's `segmentDistanceIntegral`.
- `ProfilesScurve.Scurve.CalculateSingle`: the inner trapezoidal velocity profile is a function parameter. Its own state is the distance-integral field it keeps.
- `ProfilesScurve.Scurve.CalculateSingle`: the dejerk-distance arithmetic (scurve.py:56-87) is modelled but not specified beyond its failure cases.
- `SwerveModifier.SwerveModifier.Modify` builds the four lists as sequences and assigns them.
- The getters of the modifiers and followers return fields and have no contract. `IsFinished` is `segment >= |trajectory|` directly.
- `Units.Temperature`: an int value would fail the class's attribute check. The model takes every value as a real.
- These constants of util/units.py are not modelled:
  - `radian`, `quaternion`, `rad_s` and `deg_s` (they are built on π);
  - the Velocity, Acceleration, Jerk, Torque, Current and Voltage constants (each is a plain quotient or product of the modelled ones).

## Findings

| source | as written | input that shows it | evidently intended | confidence | as-written member | corrected member |
|---|---|---|---|---|---|---|
| mathutil.py:5-11 | the second loop raises every angle to at least 180, so the result is in [180, 540) | angle 0 gives 360 | a result in [−180, 180), as the comment at line 4 says | high; not executed | MathUtil.BoundHalfDegrees, MathUtil.HalfDegreesOfZero | MathUtil.BoundHalfDegreesIntended |
| trajectory_generator.py:92-95 | the angular velocity is divided by dt before the t == 0 override | the first call, t = 0 after a zero segment, divides by zero | the override guards the division | high; not executed | CoupledGenerator.AngularVelocityAsWritten, CoupledGenerator.FirstCallFaults | CoupledGenerator.AngularVelocity |
| trajectory_generator.py:88-91 | a turn above π becomes 2π − turn, reversing its sign | a turn of 1.5π gives +0.5π instead of −0.5π | a turn above π is reduced by 2π | medium; not executed | CoupledGenerator.WrapAsWrittenReverses | CoupledGenerator.Wrap, CoupledGenerator.WrapAgrees |
| util/units.py:139 | `inch = m * 39.3701` makes an inch 39.37 metres | `Length(1, m).to(inch)` would be 1/39.3701 | `m / 39.3701` | high; not executed | Units.InchAsWrittenLongerThanMetre | Units.InchShorterThanMetre |
| util/units.py:190 | `rpm = rev / s` is the same as `rps` | 60 rpm reads as 60 rps | `rev / minute` | high; not executed | Units.RpmAsWrittenIsRps | Units.RpmPerMinute |
| util/units.py:242-252 | oz, lbs, atm and mb are inverted: 1 oz is 3.6 N and 1 atm is 1e-5 Pa | the constant `Force.oz` is 3.59694309 (in newtons), where one ounce-force is about 0.278 N | N / 3.59694309, oz·16, Pa / 9.86923e-6, Pa / 0.01 | high; not executed | Units.InvertedAsWritten | Units.ForcePressureOrder |
| util/units.py:131-133 | the subclass constructors pass `unit=None`, discarding the unit | `Length(5, inch)` equals `Length(5, m)` | pass the unit on | high; not executed | Units.MeasureAsWritten, Units.MeasureAsWrittenLosesUnit | Units.Measure |
