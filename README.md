# Swing/stance trajectory planner of the CHAMP quadruped firmware, in Dafny

This project models the foot-trajectory planner of the CHAMP quadruped
controller (`trajectory_planner.cpp`). The planner belongs to one leg. It
keeps a cache of twelve working control points. These are rescaled from a
fixed reference shape for the configured swing height and step length, and
are recomputed only when the scaling ratio changes. On every control tick
`generate` produces one foot pose:

- during swing, a degree-11 Bezier curve over the working points;
- during stance, a closed-form sweep;
- otherwise the reference pose, unchanged.

`stance()` reports the last foot pose.

The model has five modules, one per file:

- `Frame` (`frame.dfy`): the foot pose, and the ground-plane mapping that both
  active branches use. The trigonometric collaborators and the
  heading derivation are uninterpreted functions (`Trig`), which the planner
  binds at construction, as the C++ planner binds its leg.
- `Bezier` (`bezier.dfy`): the factorial table, the binomial coefficients read from
  it, and the Bernstein weights. The coefficients are checked against an
  independent Pascal's-rule definition. Also the weighted sum over the points, with
  its endpoint and linearity properties.
- `ControlPoints` (`control_points.dfy`): the reference shape, the two rescaling
  rules, and the ratio-keyed cache as a value (`Cache`). Also the effect of each update on
  that value, and the cache invariant `Consistent`.
- `Trajectory` (`trajectory.dfy`): the three-way phase dispatch, the stance sweep
  and the foot target of one tick (`FootTarget`).
- `Planner` (`planner.dfy`): the planner as a class. It has the two reference arrays and the
  two working arrays, updated in place by loops, the cached ratios, and the
  foot pose. Each method is proved against the functions above. The
  constructor, the two update methods and `Generate` state their new state
  through `State()`, and `SwingCurve` states its result through `Curve`.

Arithmetic is exact (`real`). The cache check is therefore exact real
equality.

The model follows what the code does in three places where the planner's
constants and names suggest otherwise. `ConstructedPoints`, `ZeroHeightDependsOnHistory`,
`CalibrationScenario` and `LengthUpdateSplitsJoin` state each point.

- **Zero height or length at construction.** The cached ratios start at 0. So a
  swing height of 0 given to the constructor leaves the working y points equal
  to the reference y points, and the curve is not flat. The same holds for a
  step length of 0 and the x points. A zero height applied by a later update,
  after a non-zero one, does flatten the curve. If the cached height ratio is
  already 0, the update's guard skips it and the points stay as they are.
  They are the reference points only while the ratio has been 0 since
  construction.
- **At the calibration values (0.15, 0.4)** the working points are not the
  reference points. Every y point is shifted down by 0.5. The x ends are anchored
  at -0.2 and +0.2, where the reference shape has -0.15 and +0.15.
- **`updateControlPointsLength` rescales the x points only.** It does not change the step
  length that the stance sweep reads. After a length change the swing
  ends at the new +L'/2, but the stance sweep still starts at the old +L/2.

## Model

All source paths are under `champ_control/firmware/lib/qudruped_gait/`; the
table gives them in full.

| member | source | states |
|---|---|---|
| Planner.TrajectoryPlanner.constructor | champ_control/firmware/lib/qudruped_gait/trajectory_planner.cpp:3-20 | The arrays are fresh. The shape parameters and the leg collaborators (`Trig`) are stored. The working state equals the height update followed by the length update, applied to the reference points with both ratios 0. The cache invariant holds. |
| Planner.TrajectoryPlanner.UpdateControlPointsHeight | champ_control/firmware/lib/qudruped_gait/trajectory_planner.cpp:22-34 | Only the y working array and the height ratio may change, and the new state is `ApplyHeight` of the old one. The reference arrays are untouched. The cache invariant is preserved. |
| Planner.TrajectoryPlanner.UpdateControlPointsLength | champ_control/firmware/lib/qudruped_gait/trajectory_planner.cpp:36-53 | Only the x working array and the length ratio may change, and the new state is `ApplyLength` of the old one. The reference arrays are untouched. The cache invariant is preserved. |
| Planner.TrajectoryPlanner.Generate | champ_control/firmware/lib/qudruped_gait/trajectory_planner.cpp:55-98 | Only the foot pose changes. It becomes the foot target of the phase dispatch, for the current working points and the heading that the planner's bound collaborators derive from the velocity command. |
| Planner.TrajectoryPlanner.SwingCurve | champ_control/firmware/lib/qudruped_gait/trajectory_planner.cpp:66-79 | The accumulated (x, y) is exactly the degree-11 Bernstein sum over the working x and y arrays at parameter t. |
| Planner.TrajectoryPlanner.Stance | champ_control/firmware/lib/qudruped_gait/trajectory_planner.cpp:100-103 | Returns the stored foot pose and changes nothing. |
| Planner.IdleTick | champ_control/firmware/lib/qudruped_gait/trajectory_planner.cpp:94-103 | Two identical height updates leave the state of one (`ApplyHeight` of the old state), and the planner stays valid. An idle tick (neither signal positive, any velocity command) followed by `stance()` then returns the reference pose exactly. |
| Planner.TouchdownOnBaseline | champ_control/firmware/lib/qudruped_gait/trajectory_planner.cpp:26-31 | For a valid planner whose height ratio is not 0, a tick at swing signal 1 puts the foot on the reference X. Otherwise the foot is there, or the ratio is 0 and the foot is 0.5 above it (the untouched reference points). |
| Frame.PlaceInFrame | champ_control/firmware/lib/qudruped_gait/trajectory_planner.cpp:81-83 | The mapping X = ref.X + y, Y = ref.Y - x cos(heading), Z = ref.Z + x sin(heading). Its contract only notes that the X offset is the curve y. That both active branches use this one mapping is stated by `Trajectory.SwingIgnoresStance` and `Trajectory.StanceBranch`. |
| Bezier.FactorialTableWellFormed | champ_control/firmware/lib/qudruped_gait/trajectory_planner.cpp:10 | The 13-entry table starts at 1, and each entry is the previous one times its index. |
| Bezier.FactorialTableExact | champ_control/firmware/lib/qudruped_gait/trajectory_planner.cpp:10 | Every entry of any such table is the exact factorial of its index. |
| Bezier.FactorialTableIsFactorials | champ_control/firmware/lib/qudruped_gait/trajectory_planner.cpp:10 | The planner's table holds k! for k in 0..12. |
| Bezier.TablePositive | champ_control/firmware/lib/qudruped_gait/trajectory_planner.cpp:75 | Every table entry is at least 1, so the coefficient's denominator is never zero. |
| Bezier.TableChoose | champ_control/firmware/lib/qudruped_gait/trajectory_planner.cpp:75 | i! (n-i)! C(n,i) = n!, where C is defined by Pascal's rule. |
| Bezier.TableQuotientIsChoose | champ_control/firmware/lib/qudruped_gait/trajectory_planner.cpp:75 | The table quotient n! / (i! (n-i)!) equals C(n,i). |
| Bezier.Coeff | champ_control/firmware/lib/qudruped_gait/trajectory_planner.cpp:75 | The coefficient the loop reads from the table equals C(11, i). |
| Bezier.ChooseSymmetric | champ_control/firmware/lib/qudruped_gait/trajectory_planner.cpp:75 | C(n,k) = C(n,n-k). |
| Bezier.CoeffSymmetric | champ_control/firmware/lib/qudruped_gait/trajectory_planner.cpp:75 | The table coefficient is symmetric under i <-> 11 - i. |
| Bezier.PowOfOne | champ_control/firmware/lib/qudruped_gait/trajectory_planner.cpp:77-78 | Every power of 1 is 1. |
| Bezier.PowOfZero | champ_control/firmware/lib/qudruped_gait/trajectory_planner.cpp:77-78 | Every positive power of 0 is 0 (while 0^0 is 1, as `pow` returns). |
| Bezier.PowNonNegative | champ_control/firmware/lib/qudruped_gait/trajectory_planner.cpp:77-78 | A power of a non-negative number is non-negative. |
| Bezier.Weight | champ_control/firmware/lib/qudruped_gait/trajectory_planner.cpp:77-78 | The weight of point i at t: table coefficient times t^i times (1-t)^(11-i). Its properties are the rows below. |
| Bezier.WeightIsBernstein | champ_control/firmware/lib/qudruped_gait/trajectory_planner.cpp:77-78 | The weight is the Bernstein basis polynomial C(11,i) t^i (1-t)^(11-i), with the Pascal-rule binomial. |
| Bezier.WeightNonNegative | champ_control/firmware/lib/qudruped_gait/trajectory_planner.cpp:77-78 | For 0 <= t <= 1, no weight is negative. |
| Bezier.PartialSum | champ_control/firmware/lib/qudruped_gait/trajectory_planner.cpp:73-79 | The sum of the first k weighted points. Its properties are the rows below and the loop of `SwingCurve`. |
| Bezier.Curve | champ_control/firmware/lib/qudruped_gait/trajectory_planner.cpp:73-79 | The full 12-term sum: one coordinate of the swing curve. Its properties are the rows below. |
| Bezier.PartialSumStep | champ_control/firmware/lib/qudruped_gait/trajectory_planner.cpp:77-78 | Adding the weighted point k to the sum of the first k terms gives the sum of the first k+1 terms. This is the loop's accumulation step. |
| Bezier.PartialSumScales | champ_control/firmware/lib/qudruped_gait/trajectory_planner.cpp:77-78 | The weighted sum is linear: scaling every point by c scales every partial sum by c. |
| Bezier.CurveScales | champ_control/firmware/lib/qudruped_gait/trajectory_planner.cpp:73-79 | Scaling every control point by c scales the curve by c. |
| Bezier.PartialSumAtOneVanishes | champ_control/firmware/lib/qudruped_gait/trajectory_planner.cpp:73-79 | At t = 1 the first 11 weighted terms are all zero. |
| Bezier.CurveAtOne | champ_control/firmware/lib/qudruped_gait/trajectory_planner.cpp:73-79 | At t = 1 the curve is exactly the last control point. |
| Bezier.PartialSumAtZeroIsFirst | champ_control/firmware/lib/qudruped_gait/trajectory_planner.cpp:73-79 | At t = 0 (reading 0^0 as 1) every non-empty partial sum is the first point. |
| Bezier.CurveAtZero | champ_control/firmware/lib/qudruped_gait/trajectory_planner.cpp:73-79 | At t = 0 the curve is exactly the first control point. |
| ControlPoints.HeightRatio | champ_control/firmware/lib/qudruped_gait/trajectory_planner.cpp:24 | The ratio times the calibration height 0.15 gives back the swing height. |
| ControlPoints.LengthRatio | champ_control/firmware/lib/qudruped_gait/trajectory_planner.cpp:38 | The ratio times the calibration length 0.4 gives back the step length. |
| ControlPoints.ScaledY | champ_control/firmware/lib/qudruped_gait/trajectory_planner.cpp:31 | There are 12 points, and each point's height above the reference baseline 0.5 is scaled by the ratio. That is y[i] = r (ref_y[i] - 0.5). |
| ControlPoints.AnchoredX | champ_control/firmware/lib/qudruped_gait/trajectory_planner.cpp:43-51 | There are 12 points. The ends are symmetric about 0 and exactly L apart. Each interior point times 0.4 is the reference point times L. |
| ControlPoints.ApplyHeight | champ_control/firmware/lib/qudruped_gait/trajectory_planner.cpp:22-34 | The x points and the length ratio are unchanged. The new ratio h/0.15 is cached. The y points are either kept or the rescale for the new ratio. |
| ControlPoints.ApplyLength | champ_control/firmware/lib/qudruped_gait/trajectory_planner.cpp:36-53 | The y points and the height ratio are unchanged. The new ratio L/0.4 is cached. The x points are either kept or the anchored rescale for L. |
| ControlPoints.Constructed | champ_control/firmware/lib/qudruped_gait/trajectory_planner.cpp:3-20 | After construction, both requested ratios are cached and the cache invariant holds. |
| ControlPoints.Consistent | champ_control/firmware/lib/qudruped_gait/trajectory_planner.cpp:15-52 | The cache invariant: each working set is either the rescale for its cached ratio, or the untouched reference set while that ratio is 0. It implies that the y ends are level and the x ends are symmetric about 0. |
| ControlPoints.ApplyHeightRescales | champ_control/firmware/lib/qudruped_gait/trajectory_planner.cpp:24-32 | For a changed ratio r = h/0.15, every y point becomes ref_y[i] r - 0.5 r and the ratio is cached. The x points and the length ratio are unchanged. |
| ControlPoints.ApplyHeightCached | champ_control/firmware/lib/qudruped_gait/trajectory_planner.cpp:26 | With the cached ratio, the height update changes nothing. |
| ControlPoints.ApplyHeightIdempotent | champ_control/firmware/lib/qudruped_gait/trajectory_planner.cpp:26-33 | Two height updates with the same argument leave the same state as one. |
| ControlPoints.ScaledYEndsOnBaseline | champ_control/firmware/lib/qudruped_gait/trajectory_planner.cpp:31 | Every rescaled y set starts and ends at 0, since the reference y ends are 0.5. |
| ControlPoints.ApplyHeightEndsOnBaseline | champ_control/firmware/lib/qudruped_gait/trajectory_planner.cpp:26-33 | After an applied height rescale, the working y[0] and y[11] are 0. |
| ControlPoints.ScaledYLinear | champ_control/firmware/lib/qudruped_gait/trajectory_planner.cpp:31 | Each rescaled y point is additive in the swing height. |
| ControlPoints.ApplyLengthAnchors | champ_control/firmware/lib/qudruped_gait/trajectory_planner.cpp:38-51 | For a changed ratio r = L/0.4: x[0] = -L/2, x[11] = L/2, each interior x[i] = ref_x[i] r, and the ratio is cached. The y points and the height ratio are unchanged. |
| ControlPoints.ApplyLengthCached | champ_control/firmware/lib/qudruped_gait/trajectory_planner.cpp:40 | With the cached ratio, the length update changes nothing. |
| ControlPoints.ApplyLengthIdempotent | champ_control/firmware/lib/qudruped_gait/trajectory_planner.cpp:40-52 | Two length updates with the same argument leave the same state as one. |
| ControlPoints.AnchoredXLinear | champ_control/firmware/lib/qudruped_gait/trajectory_planner.cpp:45-50 | Every anchored x point, ends included, is additive in the step length. |
| ControlPoints.UpdatesCommute | champ_control/firmware/lib/qudruped_gait/trajectory_planner.cpp:18-19 | The two updates touch disjoint state, so applying them in either order gives the same state. |
| ControlPoints.InitialConsistent | champ_control/firmware/lib/qudruped_gait/trajectory_planner.cpp:11-16 | The initial state (reference points, ratios 0) satisfies the cache invariant. |
| ControlPoints.ApplyHeightConsistent | champ_control/firmware/lib/qudruped_gait/trajectory_planner.cpp:22-34 | The height update preserves the cache invariant. |
| ControlPoints.ApplyLengthConsistent | champ_control/firmware/lib/qudruped_gait/trajectory_planner.cpp:36-53 | The length update preserves the cache invariant. |
| ControlPoints.ConstructedPoints | champ_control/firmware/lib/qudruped_gait/trajectory_planner.cpp:13-20 | After construction, y is the reference y for swing height 0 and the rescale otherwise. Likewise x is the reference x for step length 0 and the anchored rescale otherwise. Both ratios are the requested ones. |
| ControlPoints.ZeroHeightDependsOnHistory | champ_control/firmware/lib/qudruped_gait/trajectory_planner.cpp:15-28 | After construction with a non-zero height, a later update to height 0 makes every y point 0. Height 0 at construction keeps the non-flat reference y points. |
| ControlPoints.CalibrationScenario | champ_control/firmware/lib/qudruped_gait/trajectory_planner.cpp:24-50 | At (0.15, 0.4) both ratios are 1. Yet y[i] = ref_y[i] - 0.5, and the x ends are -0.2 and 0.2 against the reference -0.15 and 0.15. |
| Trajectory.PhaseOf | champ_control/firmware/lib/qudruped_gait/trajectory_planner.cpp:68-97 | An active branch is selected only by a positive signal: swing only for swing > 0, stance only for stance > 0. |
| Trajectory.StanceX | champ_control/firmware/lib/qudruped_gait/trajectory_planner.cpp:87 | The sweep starts at L/2 and moves by -L per unit of stance phase. |
| Trajectory.StanceY | champ_control/firmware/lib/qudruped_gait/trajectory_planner.cpp:88 | The arch is depth times the cosine of (3.1416 x / L). A zero depth gives a flat stance whatever the cosine. |
| Trajectory.FootTarget | champ_control/firmware/lib/qudruped_gait/trajectory_planner.cpp:68-97 | Idle holds exactly the reference pose. A swing offsets X by the y curve. A stance with zero depth keeps X on the reference. |
| Trajectory.PhasePrecedence | champ_control/firmware/lib/qudruped_gait/trajectory_planner.cpp:68-97 | Swing iff swing > 0; stance iff swing <= 0 and stance > 0; idle iff both are <= 0. |
| Trajectory.StanceSweepEndpoints | champ_control/firmware/lib/qudruped_gait/trajectory_planner.cpp:87 | The sweep is L/2 at s = 0, 0 at s = 0.5 and -L/2 at s = 1. |
| Trajectory.StanceSweepMonotone | champ_control/firmware/lib/qudruped_gait/trajectory_planner.cpp:87 | For L >= 0 and 0 <= s1 <= s2 <= 1, the sweep never moves forward and stays within [-L/2, L/2]. |
| Trajectory.SwingIgnoresStance | champ_control/firmware/lib/qudruped_gait/trajectory_planner.cpp:68-84 | With a positive swing signal, the target is the mapped Bezier point, whatever the stance signal. |
| Trajectory.StanceBranch | champ_control/firmware/lib/qudruped_gait/trajectory_planner.cpp:85-93 | In stance, the target is the sweep and the cosine arch, mapped the same way as the swing point. |
| Trajectory.SwingTouchdown | champ_control/firmware/lib/qudruped_gait/trajectory_planner.cpp:73-83 | At swing signal 1, the target is the last control point, mapped into the frame. |
| Trajectory.SwingTouchdownOnBaseline | champ_control/firmware/lib/qudruped_gait/trajectory_planner.cpp:81 | With rescaled y points, the foot's X at the end of swing is the reference X. |
| Trajectory.SwingHeightScalesCurve | champ_control/firmware/lib/qudruped_gait/trajectory_planner.cpp:77-78 | At every phase, the y curve for height ratio r is r times the calibration curve. For ratio 0 the curve is 0. |
| Trajectory.SwingTouchdownConsistent | champ_control/firmware/lib/qudruped_gait/trajectory_planner.cpp:26-31 | In a consistent cache, the end of swing is on the reference X when the height ratio is not 0. Otherwise the foot is there, or the ratio is 0 and the foot is 0.5 above it. |
| Trajectory.SwingMeetsStance | champ_control/firmware/lib/qudruped_gait/trajectory_planner.cpp:45-48 | With anchored x points, the swing ends where the stance sweep starts (+L/2) and starts where it ends (-L/2). |
| Trajectory.LengthUpdateSplitsJoin | champ_control/firmware/lib/qudruped_gait/trajectory_planner.cpp:36-53 | After a length update to L', the swing ends at +L'/2. That is the stance start +L/2 only when L' = L. |

## Left out

- Floating point: the model computes in exact reals. Rounding and float drift are not modelled; the ratio cache and the factorial quotient are exact here.
- `Transformation`, `QuadrupedLeg::nominal_stance()`, `atan2`, `cos` and `sin`: their code is not part of this model, so they are uninterpreted functions in a `Trig` value that the constructor stores in the planner, the counterpart of the `leg_` binding of line 4. The heading of lines 57-64 is one fixed function of the velocity command (`Trig.heading`) for the planner's whole life. Positions only: the orientation part of a pose is not represented. The idle branch copies the whole pose, orientation included. The swing and stance branches overwrite only X, Y and Z, so after such a tick the pose keeps its previous orientation, not the reference pose's. The model cannot show this.
- The stance arch's `3.1416` is kept as a constant inside the uninterpreted cosine's argument. No trigonometric fact is proved about it.
- `pow` is the recursive `Pow` over natural exponents, with 0^0 = 1.
- The header `trajectory_planner.h` is not part of this model. The foot pose before the first `generate` is default-constructed (line 9 is commented out), so the constructor promises nothing about it.
- Planner.TrajectoryPlanner.Generate: requires a non-zero step length when the stance branch runs. The C++ planner then divides 0 by 0, and NaN has no counterpart over the reals. Callers must never run an active stance with step length 0.
- The `leg_` back-reference and `total_control_points_` are not modelled. The point count is the constant 12, and the curve's degree is 11.
