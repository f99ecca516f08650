/** The per-tick foot target: the three-way phase dispatch, the closed-form
    stance sweep and the Bezier swing, each mapped into the foot pose. */
module Trajectory {
  import opened Frame
  import opened Bezier
  import opened ControlPoints

  /** The approximation of pi the stance arch uses. */
  const PiApprox: real := 3.1416

  /** Which branch a tick takes; selected by the signs of the two phase
      signals alone. */
  datatype Phase = Swinging | Stancing | Idle

  /** An active branch is only ever selected by a positive signal. */
  function PhaseOf(swingPhase: real, stancePhase: real): (p: Phase)
    ensures p == Swinging ==> swingPhase > 0.0
    ensures p == Stancing ==> stancePhase > 0.0
  {
    if swingPhase > 0.0 then Swinging else if stancePhase > 0.0 then Stancing else Idle
  }

  /** The dispatch is fixed: swing takes precedence whatever the stance
      signal is, stance runs only when swing is inactive, and a tick with
      neither is idle. */
  lemma PhasePrecedence(swingPhase: real, stancePhase: real)
    ensures PhaseOf(swingPhase, stancePhase) == Swinging <==> swingPhase > 0.0
    ensures PhaseOf(swingPhase, stancePhase) == Stancing <==> swingPhase <= 0.0 && stancePhase > 0.0
    ensures PhaseOf(swingPhase, stancePhase) == Idle <==> swingPhase <= 0.0 && stancePhase <= 0.0
  {
  }

  /** The stance sweep along the step: +L/2 at touchdown to -L/2 at
      liftoff, moving by -L per unit of stance phase. */
  function StanceX(stepLength: real, stancePhase: real): (x: real)
    ensures x == stepLength / 2.0 - stepLength * stancePhase
  {
    (stepLength / 2.0) * (1.0 - 2.0 * stancePhase)
  }

  lemma StanceSweepEndpoints(stepLength: real)
    ensures StanceX(stepLength, 0.0) == stepLength / 2.0
    ensures StanceX(stepLength, 0.5) == 0.0
    ensures StanceX(stepLength, 1.0) == -stepLength / 2.0
  {
  }

  /** For a non-negative step length the sweep moves backwards
      monotonically and stays within the half steps. */
  lemma StanceSweepMonotone(stepLength: real, s1: real, s2: real)
    requires stepLength >= 0.0 && 0.0 <= s1 <= s2 <= 1.0
    ensures StanceX(stepLength, s2) <= StanceX(stepLength, s1)
    ensures -stepLength / 2.0 <= StanceX(stepLength, s2) <= stepLength / 2.0
  {
    var h := stepLength / 2.0;
    assert StanceX(stepLength, s1) - StanceX(stepLength, s2) == h * (2.0 * (s2 - s1));
    NonNegativeProduct(h, 2.0 * (s2 - s1));
    assert h - StanceX(stepLength, s2) == h * (2.0 * s2);
    NonNegativeProduct(h, 2.0 * s2);
    assert StanceX(stepLength, s2) + h == h * (2.0 - 2.0 * s2);
    NonNegativeProduct(h, 2.0 - 2.0 * s2);
  }

  /** The stance arch's depth term; the cosine is the collaborator's. The
      C++ planner divides by the step length here, which its callers must
      keep non-zero during stance. A zero stance depth gives a flat stance
      whatever the cosine. */
  function StanceY(stanceDepth: real, stepLength: real, x: real, trig: Trig): (y: real)
    requires stepLength != 0.0
    ensures stanceDepth == 0.0 ==> y == 0.0
  {
    stanceDepth * trig.cos((PiApprox * x) / stepLength)
  }

  /** The foot pose of one tick, for the cached control points `c`, the
      planner's step length and stance depth, the reference pose, the
      heading and the two phase signals. Idle holds the reference pose, a
      swing offsets X by the lift curve, and a stance with zero depth keeps
      X on the reference. */
  function FootTarget(c: Cache, stepLength: real, stanceDepth: real, ref: Pose, rotation: real,
                      trig: Trig, swingPhase: real, stancePhase: real): (p: Pose)
    requires |c.xs| == ControlPointCount && |c.ys| == ControlPointCount
    requires PhaseOf(swingPhase, stancePhase) == Stancing ==> stepLength != 0.0
    ensures PhaseOf(swingPhase, stancePhase) == Idle ==> p == ref
    ensures PhaseOf(swingPhase, stancePhase) == Swinging ==> p.x - ref.x == Curve(c.ys, swingPhase)
    ensures PhaseOf(swingPhase, stancePhase) == Stancing && stanceDepth == 0.0 ==> p.x == ref.x
  {
    match PhaseOf(swingPhase, stancePhase)
    case Swinging =>
      PlaceInFrame(ref, Curve(c.xs, swingPhase), Curve(c.ys, swingPhase), rotation, trig)
    case Stancing =>
      var x := StanceX(stepLength, stancePhase);
      PlaceInFrame(ref, x, StanceY(stanceDepth, stepLength, x, trig), rotation, trig)
    case Idle =>
      ref
  }

  /** A positive swing signal selects the Bezier branch: the result does not
      depend on the stance signal at all. */
  lemma SwingIgnoresStance(c: Cache, stepLength: real, stanceDepth: real, ref: Pose, rotation: real,
                           trig: Trig, swingPhase: real, stance1: real, stance2: real)
    requires |c.xs| == ControlPointCount && |c.ys| == ControlPointCount
    requires swingPhase > 0.0
    ensures FootTarget(c, stepLength, stanceDepth, ref, rotation, trig, swingPhase, stance1)
         == FootTarget(c, stepLength, stanceDepth, ref, rotation, trig, swingPhase, stance2)
         == PlaceInFrame(ref, Curve(c.xs, swingPhase), Curve(c.ys, swingPhase), rotation, trig)
  {
  }

  /** The stance branch runs exactly when swing is inactive and stance is
      active, and maps the sweep the same way the swing branch maps the
      curve. */
  lemma StanceBranch(c: Cache, stepLength: real, stanceDepth: real, ref: Pose, rotation: real,
                     trig: Trig, swingPhase: real, stancePhase: real)
    requires |c.xs| == ControlPointCount && |c.ys| == ControlPointCount
    requires swingPhase <= 0.0 && stancePhase > 0.0 && stepLength != 0.0
    ensures var x := StanceX(stepLength, stancePhase);
      FootTarget(c, stepLength, stanceDepth, ref, rotation, trig, swingPhase, stancePhase)
      == PlaceInFrame(ref, x, StanceY(stanceDepth, stepLength, x, trig), rotation, trig)
  {
  }

  /** At the end of swing (signal 1) the foot is at the last control point,
      mapped into the frame. */
  lemma SwingTouchdown(c: Cache, stepLength: real, stanceDepth: real, ref: Pose, rotation: real,
                       trig: Trig, stancePhase: real)
    requires |c.xs| == ControlPointCount && |c.ys| == ControlPointCount
    ensures FootTarget(c, stepLength, stanceDepth, ref, rotation, trig, 1.0, stancePhase)
         == PlaceInFrame(ref, c.xs[Degree], c.ys[Degree], rotation, trig)
  {
    CurveAtOne(c.xs);
    CurveAtOne(c.ys);
  }

  /** Once a height rescale has been applied, the swing ends on the
      baseline: the forward coordinate is the reference pose's. */
  lemma SwingTouchdownOnBaseline(c: Cache, stepLength: real, stanceDepth: real, ref: Pose,
                                 rotation: real, trig: Trig, stancePhase: real)
    requires |c.xs| == ControlPointCount && c.ys == ScaledY(c.heightRatio)
    ensures FootTarget(c, stepLength, stanceDepth, ref, rotation, trig, 1.0, stancePhase).x == ref.x
  {
    SwingTouchdown(c, stepLength, stanceDepth, ref, rotation, trig, stancePhase);
    ScaledYEndsOnBaseline(c.heightRatio);
  }

  /** The swing height scales the lift profile: at every phase the y curve
      for height ratio r is r times the one for the calibration height. In
      particular a rescale to height 0 gives a flat swing. */
  lemma SwingHeightScalesCurve(r: real, t: real)
    ensures Curve(ScaledY(r), t) == r * Curve(ScaledY(1.0), t)
    ensures Curve(ScaledY(0.0), t) == 0.0
  {
    assert forall i :: 0 <= i < ControlPointCount ==> ScaledY(r)[i] == r * ScaledY(1.0)[i];
    CurveScales(ScaledY(r), ScaledY(1.0), r, t);
    assert forall i :: 0 <= i < ControlPointCount ==> ScaledY(0.0)[i] == 0.0 * ScaledY(1.0)[i];
    CurveScales(ScaledY(0.0), ScaledY(1.0), 0.0, t);
  }

  /** In a consistent cache the end of swing is on the reference X unless
      the height ratio is 0 and the y points are still the reference ones,
      whose end is 0.5 above it. */
  lemma SwingTouchdownConsistent(c: Cache, stepLength: real, stanceDepth: real, ref: Pose,
                                 rotation: real, trig: Trig, stancePhase: real)
    requires Consistent(c)
    ensures var foot := FootTarget(c, stepLength, stanceDepth, ref, rotation, trig, 1.0, stancePhase);
      (c.heightRatio != 0.0 ==> foot.x == ref.x) &&
      (foot.x == ref.x || (c.heightRatio == 0.0 && foot.x == ref.x + 0.5))
  {
    SwingTouchdown(c, stepLength, stanceDepth, ref, rotation, trig, stancePhase);
    var lift := c.ys[Degree];
    assert FootTarget(c, stepLength, stanceDepth, ref, rotation, trig, 1.0, stancePhase).x == ref.x + lift;
    if c.ys == ScaledY(c.heightRatio) {
      ScaledYEndsOnBaseline(c.heightRatio);
    } else {
      assert c.heightRatio == 0.0 && lift == RefY[Degree];
    }
  }

  /** With the x points anchored for step length L, the swing curve ends
      where the stance sweep begins (+L/2) and starts where the stance sweep
      ends (-L/2). */
  lemma SwingMeetsStance(xs: seq<real>, stepLength: real)
    requires xs == AnchoredX(stepLength)
    ensures Curve(xs, 1.0) == StanceX(stepLength, 0.0)
    ensures Curve(xs, 0.0) == StanceX(stepLength, 1.0)
  {
    CurveAtOne(xs);
    CurveAtZero(xs);
  }

  /** The length update rescales the x points but leaves the planner's step
      length alone, and the stance sweep reads only the latter: after a
      length change the swing ends at the new +L'/2 while the stance sweep
      still starts at the old +L/2. */
  lemma LengthUpdateSplitsJoin(c: Cache, stepLength: real, newLength: real)
    requires LengthRatio(newLength) != c.lengthRatio
    ensures Curve(ApplyLength(c, newLength).xs, 1.0) == StanceX(newLength, 0.0)
    ensures Curve(ApplyLength(c, newLength).xs, 1.0) == StanceX(stepLength, 0.0) <==> newLength == stepLength
  {
    SwingMeetsStance(ApplyLength(c, newLength).xs, newLength);
  }
}
