/** The trajectory planner object: the reference and working control-point
    arrays, the cached ratios and the foot pose, updated in place. */
module Planner {
  import opened Frame
  import opened Bezier
  import opened ControlPoints
  import opened Trajectory

  class TrajectoryPlanner {
    /** Shape parameters, fixed when the planner is built. The two update
        methods rescale the working points but do not change these; the
        stance sweep reads `stepLength`. */
    const swingHeight: real
    const stepLength: real
    const stanceDepth: real

    /** The leg's collaborators, bound for the planner's whole life: the
        heading derivation from the leg's nominal stance, and cos/sin. */
    const trig: Trig

    /** The reference control points and the working (rescaled) ones. */
    const refX: array<real>
    const refY: array<real>
    const pointsX: array<real>
    const pointsY: array<real>

    /** The ratios the working points were last computed for. */
    var heightRatio: real
    var lengthRatio: real

    /** The foot pose of the last tick. */
    var foot: Pose

    ghost predicate Valid()
      reads this, refX, refY, pointsX, pointsY
    {
      refX.Length == ControlPointCount && refY.Length == ControlPointCount &&
      pointsX.Length == ControlPointCount && pointsY.Length == ControlPointCount &&
      pointsX != pointsY && pointsX != refX && pointsX != refY &&
      pointsY != refX && pointsY != refY &&
      refX[..] == RefX && refY[..] == RefY &&
      Consistent(State())
    }

    /** The cached state as a value. */
    ghost function State(): Cache
      reads this, pointsX, pointsY
    {
      Cache(pointsX[..], pointsY[..], heightRatio, lengthRatio)
    }

    /** Builds the planner: reference and working points start at the
        reference shape, both ratios at 0, and the height and length updates
        are then applied. The foot pose is left at an unspecified value until
        the first tick. */
    constructor (trig: Trig, swingHeight: real, stepLength: real, stanceDepth: real)
      ensures Valid()
      ensures fresh(refX) && fresh(refY) && fresh(pointsX) && fresh(pointsY)
      ensures this.swingHeight == swingHeight && this.stepLength == stepLength
      ensures this.stanceDepth == stanceDepth && this.trig == trig
      ensures State() == Constructed(swingHeight, stepLength)
    {
      this.swingHeight := swingHeight;
      this.stepLength := stepLength;
      this.stanceDepth := stanceDepth;
      this.trig := trig;
      refX := new real[ControlPointCount](i => if 0 <= i < ControlPointCount then RefX[i] else 0.0);
      refY := new real[ControlPointCount](i => if 0 <= i < ControlPointCount then RefY[i] else 0.0);
      pointsX := new real[ControlPointCount](i => if 0 <= i < ControlPointCount then RefX[i] else 0.0);
      pointsY := new real[ControlPointCount](i => if 0 <= i < ControlPointCount then RefY[i] else 0.0);
      heightRatio := 0.0;
      lengthRatio := 0.0;
      foot := Origin;
      new;
      assert refX[..] == RefX && refY[..] == RefY;
      assert State() == Initial;
      InitialConsistent();
      UpdateControlPointsHeight(swingHeight);
      UpdateControlPointsLength(stepLength);
    }

    /** Rescales the working y points for a new swing height, unless the
        height ratio is the cached one. */
    method UpdateControlPointsHeight(swingHeight: real)
      requires Valid()
      modifies this`heightRatio, pointsY
      ensures Valid()
      ensures State() == ApplyHeight(old(State()), swingHeight)
    {
      ghost var before := State();
      ghost var target := ScaledY(HeightRatio(swingHeight));
      var newHeightRatio := swingHeight / CalibrationHeight;
      if heightRatio != newHeightRatio {
        heightRatio := newHeightRatio;
        for i := 0 to ControlPointCount
          invariant heightRatio == newHeightRatio && refY[..] == RefY
          invariant forall j :: 0 <= j < i ==> pointsY[j] == target[j]
        {
          assert refY[i] == RefY[i];
          pointsY[i] := (refY[i] * heightRatio) - (0.5 * heightRatio);
          assert pointsY[i] == target[i];
        }
        assert pointsY[..] == target;
      }
      ApplyHeightConsistent(before, swingHeight);
    }

    /** Rescales the working x points for a new step length, unless the
        length ratio is the cached one; the two ends are anchored at -L/2
        and +L/2. */
    method UpdateControlPointsLength(stepLength: real)
      requires Valid()
      modifies this`lengthRatio, pointsX
      ensures Valid()
      ensures State() == ApplyLength(old(State()), stepLength)
    {
      ghost var before := State();
      ghost var target := AnchoredX(stepLength);
      var newLengthRatio := stepLength / CalibrationLength;
      if lengthRatio != newLengthRatio {
        lengthRatio := newLengthRatio;
        for i := 0 to ControlPointCount
          invariant lengthRatio == newLengthRatio && refX[..] == RefX
          invariant forall j :: 0 <= j < i ==> pointsX[j] == target[j]
        {
          if i == 0 {
            pointsX[i] := -stepLength / 2.0;
          } else if i == ControlPointCount - 1 {
            pointsX[i] := stepLength / 2.0;
          } else {
            assert refX[i] == RefX[i];
            pointsX[i] := refX[i] * lengthRatio;
          }
          assert pointsX[i] == target[i];
        }
        assert pointsX[..] == target;
      }
      ApplyLengthConsistent(before, stepLength);
    }

    /** One control tick: derives the heading from the velocity command,
        then moves the foot along the swing curve, along the stance sweep or
        holds it at the reference pose. */
    method Generate(ref: Pose, linearVelX: real, linearVelY: real, angularVelZ: real,
                    swingPhase: real, stancePhase: real)
      requires Valid()
      requires swingPhase <= 0.0 && stancePhase > 0.0 ==> stepLength != 0.0
      modifies this`foot
      ensures Valid()
      ensures foot == FootTarget(State(), stepLength, stanceDepth, ref,
                                 trig.heading(linearVelX, linearVelY, angularVelZ),
                                 trig, swingPhase, stancePhase)
    {
      var rotation := trig.heading(linearVelX, linearVelY, angularVelZ);
      if swingPhase > 0.0 {
        var x, y := SwingCurve(swingPhase);
        foot := PlaceInFrame(ref, x, y, rotation, trig);
      } else if stancePhase > 0.0 {
        var x := StanceX(stepLength, stancePhase);
        var y := StanceY(stanceDepth, stepLength, x, trig);
        foot := PlaceInFrame(ref, x, y, rotation, trig);
      } else {
        foot := ref;
      }
    }

    /** The Bernstein sum of the swing branch: accumulates the weighted
        working points, reading each binomial coefficient from the factorial
        table. */
    method SwingCurve(t: real) returns (x: real, y: real)
      requires Valid()
      ensures x == Curve(pointsX[..], t) && y == Curve(pointsY[..], t)
    {
      ghost var xs, ys := pointsX[..], pointsY[..];
      x, y := 0.0, 0.0;
      for i := 0 to ControlPointCount
        invariant x == PartialSum(xs, t, i)
        invariant y == PartialSum(ys, t, i)
      {
        var weight := Weight(i, t);
        var px, py := pointsX[i], pointsY[i];
        assert px == xs[i] && py == ys[i];
        PartialSumStep(xs, t, i, x, weight, px);
        PartialSumStep(ys, t, i, y, weight, py);
        x := x + weight * px;
        y := y + weight * py;
      }
    }

    /** The foot pose of the last tick. */
    method Stance() returns (p: Pose)
      ensures p == foot
    {
      p := foot;
    }
  }

  /** A caller's view: repeating a height update changes nothing beyond
      the first, and an idle tick (neither phase signal positive, whatever
      the velocity command) then reports the reference pose back. */
  method IdleTick(planner: TrajectoryPlanner, ref: Pose, linearVelX: real, linearVelY: real,
                  angularVelZ: real, swingPhase: real, stancePhase: real)
    returns (p: Pose)
    requires planner.Valid()
    requires swingPhase <= 0.0 && stancePhase <= 0.0
    modifies planner`foot, planner`heightRatio, planner.pointsY
    ensures planner.Valid()
    ensures planner.State() == ApplyHeight(old(planner.State()), planner.swingHeight)
    ensures p == ref
  {
    planner.UpdateControlPointsHeight(planner.swingHeight);
    planner.UpdateControlPointsHeight(planner.swingHeight);
    ApplyHeightIdempotent(old(planner.State()), planner.swingHeight);
    planner.Generate(ref, linearVelX, linearVelY, angularVelZ, swingPhase, stancePhase);
    p := planner.Stance();
  }

  /** Once the planner has applied a non-zero swing height, a tick at
      swing signal 1 puts the foot back on the reference pose's X: the
      cache invariant leaves the rescaled y points as the only possibility,
      and they end on the baseline. While the height ratio is still 0 the
      y points may be the reference ones, which end 0.5 above it. */
  lemma TouchdownOnBaseline(planner: TrajectoryPlanner, ref: Pose, rotation: real,
                            stancePhase: real)
    requires planner.Valid()
    ensures var foot := FootTarget(planner.State(), planner.stepLength, planner.stanceDepth, ref,
                                   rotation, planner.trig, 1.0, stancePhase);
      (planner.heightRatio != 0.0 ==> foot.x == ref.x) &&
      (foot.x == ref.x || (planner.heightRatio == 0.0 && foot.x == ref.x + 0.5))
  {
    SwingTouchdownConsistent(planner.State(), planner.stepLength, planner.stanceDepth, ref,
                             rotation, planner.trig, stancePhase);
  }
}
