/** The swing curve's control points: the fixed reference shape, the two
    rescaling rules and the ratio-keyed cache that decides when they run. */
module ControlPoints {
  import opened Bezier

  /** The reference shape, calibrated for a swing height of 0.15 and a step
      length of 0.4. */
  const RefX: seq<real> :=
    [-0.15, -0.2805, -0.3, -0.3, -0.3, 0.0, 0.0, 0.0, 0.3032, 0.3032, 0.2826, 0.15]
  const RefY: seq<real> :=
    [0.5, 0.5, 0.3611, 0.3611, 0.3611, 0.3611, 0.3611, 0.3214, 0.3214, 0.3214, 0.5, 0.5]

  const CalibrationHeight: real := 0.15
  const CalibrationLength: real := 0.4

  /** The height ratio: how many calibration heights the swing height
      is. */
  function HeightRatio(swingHeight: real): (r: real)
    ensures r * CalibrationHeight == swingHeight
  {
    swingHeight / CalibrationHeight
  }

  /** The length ratio: how many calibration lengths the step length
      is. */
  function LengthRatio(stepLength: real): (r: real)
    ensures r * CalibrationLength == stepLength
  {
    stepLength / CalibrationLength
  }

  /** The working y points for height ratio r: each reference y is scaled by
      r and shifted down by 0.5 r, that is, each point's height above the
      reference baseline 0.5 is scaled by r. */
  function ScaledY(r: real): (ys: seq<real>)
    ensures |ys| == ControlPointCount
    ensures forall i :: 0 <= i < ControlPointCount ==> ys[i] == r * (RefY[i] - 0.5)
  {
    seq(ControlPointCount, i requires 0 <= i < ControlPointCount => RefY[i] * r - 0.5 * r)
  }

  /** The working x points for a step length: the two ends are anchored at
      -L/2 and +L/2, the interior points are the reference x scaled by the
      length ratio. */
  function AnchoredX(stepLength: real): (xs: seq<real>)
    ensures |xs| == ControlPointCount
    ensures xs[0] == -xs[ControlPointCount - 1] && xs[ControlPointCount - 1] - xs[0] == stepLength
    ensures forall i :: 0 < i < ControlPointCount - 1 ==> xs[i] * CalibrationLength == RefX[i] * stepLength
  {
    InteriorScales(stepLength);
    seq(ControlPointCount, i requires 0 <= i < ControlPointCount =>
      if i == 0 then -stepLength / 2.0
      else if i == ControlPointCount - 1 then stepLength / 2.0
      else RefX[i] * LengthRatio(stepLength))
  }

  /** Scaling by the length ratio is scaling by L / 0.4. */
  lemma InteriorScales(stepLength: real)
    ensures forall i :: 0 < i < ControlPointCount - 1 ==>
      RefX[i] * LengthRatio(stepLength) * CalibrationLength == RefX[i] * stepLength
  {
    forall i | 0 < i < ControlPointCount - 1
      ensures RefX[i] * LengthRatio(stepLength) * CalibrationLength == RefX[i] * stepLength
    {
      Reassociate(RefX[i], LengthRatio(stepLength), CalibrationLength);
    }
  }

  lemma Reassociate(a: real, b: real, c: real)
    ensures a * b * c == a * (b * c)
  {
  }

  /** The planner's cached state: the working points and the ratios they were
      last computed for. */
  datatype Cache = Cache(xs: seq<real>, ys: seq<real>, heightRatio: real, lengthRatio: real)

  /** Before the constructor's two updates run: reference points, ratios 0. */
  const Initial: Cache := Cache(RefX, RefY, 0.0, 0.0)

  /** The effect of the height update: recompute the y points only when the
      ratio differs from the cached one. */
  function ApplyHeight(c: Cache, swingHeight: real): (d: Cache)
    ensures d.xs == c.xs && d.lengthRatio == c.lengthRatio
    ensures d.heightRatio == HeightRatio(swingHeight)
    ensures d.ys == c.ys || d.ys == ScaledY(HeightRatio(swingHeight))
  {
    var r := HeightRatio(swingHeight);
    if c.heightRatio != r then c.(ys := ScaledY(r), heightRatio := r) else c
  }

  /** The effect of the length update: recompute the x points only when the
      ratio differs from the cached one. */
  function ApplyLength(c: Cache, stepLength: real): (d: Cache)
    ensures d.ys == c.ys && d.heightRatio == c.heightRatio
    ensures d.lengthRatio == LengthRatio(stepLength)
    ensures d.xs == c.xs || d.xs == AnchoredX(stepLength)
  {
    var r := LengthRatio(stepLength);
    if c.lengthRatio != r then c.(xs := AnchoredX(stepLength), lengthRatio := r) else c
  }

  /** The state the constructor leaves: height update, then length update.
      Both requested ratios are cached and the cache invariant holds. */
  function Constructed(swingHeight: real, stepLength: real): (c: Cache)
    ensures c.heightRatio == HeightRatio(swingHeight) && c.lengthRatio == LengthRatio(stepLength)
    ensures Consistent(c)
  {
    InitialConsistent();
    ApplyHeightConsistent(Initial, swingHeight);
    ApplyLengthConsistent(ApplyHeight(Initial, swingHeight), stepLength);
    ApplyLength(ApplyHeight(Initial, swingHeight), stepLength)
  }

  /** The cache invariant: each working set is either still the untouched
      reference set (possible only while its ratio is 0) or the rescale for
      the cached ratio. In every consistent state the swing curve starts and
      ends at the same height and its x ends are symmetric about 0. */
  ghost predicate Consistent(c: Cache)
    ensures Consistent(c) ==> |c.ys| == ControlPointCount && c.ys[0] == c.ys[ControlPointCount - 1]
    ensures Consistent(c) ==> |c.xs| == ControlPointCount && c.xs[0] == -c.xs[ControlPointCount - 1]
  {
    |c.xs| == ControlPointCount && |c.ys| == ControlPointCount &&
    (c.ys == ScaledY(c.heightRatio) || (c.heightRatio == 0.0 && c.ys == RefY)) &&
    (c.xs == AnchoredX(CalibrationLength * c.lengthRatio) || (c.lengthRatio == 0.0 && c.xs == RefX))
  }

  // ----- Height update -----

  /** A changed height ratio rewrites every y point by the affine rescale and
      caches the ratio; the x points and the length ratio are untouched. */
  lemma ApplyHeightRescales(c: Cache, swingHeight: real)
    requires HeightRatio(swingHeight) != c.heightRatio
    ensures var r, d := HeightRatio(swingHeight), ApplyHeight(c, swingHeight);
      |d.ys| == ControlPointCount &&
      (forall i :: 0 <= i < ControlPointCount ==> d.ys[i] == RefY[i] * r - 0.5 * r) &&
      d.heightRatio == r && d.xs == c.xs && d.lengthRatio == c.lengthRatio
  {
  }

  /** An unchanged height ratio leaves the whole state alone. */
  lemma ApplyHeightCached(c: Cache, swingHeight: real)
    requires HeightRatio(swingHeight) == c.heightRatio
    ensures ApplyHeight(c, swingHeight) == c
  {
  }

  /** A second height update with the same argument does nothing. */
  lemma ApplyHeightIdempotent(c: Cache, swingHeight: real)
    ensures ApplyHeight(ApplyHeight(c, swingHeight), swingHeight) == ApplyHeight(c, swingHeight)
  {
  }

  /** Because the reference curve starts and ends at y = 0.5, every applied
      height rescale puts both ends of the swing curve on the baseline. */
  lemma ScaledYEndsOnBaseline(r: real)
    ensures ScaledY(r)[0] == 0.0 && ScaledY(r)[ControlPointCount - 1] == 0.0
  {
  }

  lemma ApplyHeightEndsOnBaseline(c: Cache, swingHeight: real)
    requires HeightRatio(swingHeight) != c.heightRatio
    ensures ApplyHeight(c, swingHeight).ys[0] == 0.0
    ensures ApplyHeight(c, swingHeight).ys[ControlPointCount - 1] == 0.0
  {
    ScaledYEndsOnBaseline(HeightRatio(swingHeight));
  }

  /** The rescaled y points are linear in the swing height: the rescale for
      h1 + h2 is the sum of the rescales for h1 and h2. */
  lemma ScaledYLinear(h1: real, h2: real, i: nat)
    requires i < ControlPointCount
    ensures ScaledY(HeightRatio(h1 + h2))[i] == ScaledY(HeightRatio(h1))[i] + ScaledY(HeightRatio(h2))[i]
  {
  }

  // ----- Length update -----

  /** A changed length ratio anchors the ends at -L/2 and +L/2, scales each
      interior x point by the ratio and caches it; the y points and the
      height ratio are untouched. */
  lemma ApplyLengthAnchors(c: Cache, stepLength: real)
    requires LengthRatio(stepLength) != c.lengthRatio
    ensures var r, d := LengthRatio(stepLength), ApplyLength(c, stepLength);
      |d.xs| == ControlPointCount &&
      d.xs[0] == -stepLength / 2.0 && d.xs[ControlPointCount - 1] == stepLength / 2.0 &&
      (forall i :: 1 <= i < ControlPointCount - 1 ==> d.xs[i] == RefX[i] * r) &&
      d.lengthRatio == r && d.ys == c.ys && d.heightRatio == c.heightRatio
  {
  }

  lemma ApplyLengthCached(c: Cache, stepLength: real)
    requires LengthRatio(stepLength) == c.lengthRatio
    ensures ApplyLength(c, stepLength) == c
  {
  }

  lemma ApplyLengthIdempotent(c: Cache, stepLength: real)
    ensures ApplyLength(ApplyLength(c, stepLength), stepLength) == ApplyLength(c, stepLength)
  {
  }

  /** Every anchored x point, the two ends included, is linear in the step
      length. */
  lemma AnchoredXLinear(l1: real, l2: real, i: nat)
    requires i < ControlPointCount
    ensures AnchoredX(l1 + l2)[i] == AnchoredX(l1)[i] + AnchoredX(l2)[i]
  {
    if 0 < i < ControlPointCount - 1 {
      assert LengthRatio(l1 + l2) == LengthRatio(l1) + LengthRatio(l2);
      Distributes(RefX[i], LengthRatio(l1), LengthRatio(l2));
    }
  }

  lemma Distributes(a: real, b: real, c: real)
    ensures a * (b + c) == a * b + a * c
  {
  }

  // ----- The two updates together -----

  /** The updates touch disjoint parts of the state, so their order does
      not matter. */
  lemma UpdatesCommute(c: Cache, swingHeight: real, stepLength: real)
    ensures ApplyLength(ApplyHeight(c, swingHeight), stepLength)
         == ApplyHeight(ApplyLength(c, stepLength), swingHeight)
  {
  }

  lemma InitialConsistent()
    ensures Consistent(Initial)
  {
  }

  lemma ApplyHeightConsistent(c: Cache, swingHeight: real)
    requires Consistent(c)
    ensures Consistent(ApplyHeight(c, swingHeight))
  {
  }

  lemma ApplyLengthConsistent(c: Cache, stepLength: real)
    requires Consistent(c)
    ensures Consistent(ApplyLength(c, stepLength))
  {
    var r := LengthRatio(stepLength);
    assert CalibrationLength * r == stepLength;
  }

  /** What the constructor leaves: a zero swing height (ratio 0, equal to the
      initial cached ratio) keeps the reference y points, any other height
      gives the rescale; likewise a zero step length keeps the reference x
      points. */
  lemma ConstructedPoints(swingHeight: real, stepLength: real)
    ensures var c := Constructed(swingHeight, stepLength);
      c.ys == (if swingHeight == 0.0 then RefY else ScaledY(HeightRatio(swingHeight))) &&
      c.xs == (if stepLength == 0.0 then RefX else AnchoredX(stepLength)) &&
      c.heightRatio == HeightRatio(swingHeight) && c.lengthRatio == LengthRatio(stepLength)
  {
  }

  /** The working points depend on history, not only on the current
      parameters: a zero height reached through a later update flattens the
      curve, although a zero height at construction keeps the reference
      curve. */
  lemma ZeroHeightDependsOnHistory(swingHeight: real, stepLength: real)
    requires swingHeight != 0.0
    ensures ApplyHeight(Constructed(swingHeight, stepLength), 0.0).ys == seq(ControlPointCount, _ => 0.0)
    ensures Constructed(0.0, stepLength).ys == RefY
    ensures RefY != seq(ControlPointCount, _ => 0.0)
  {
    assert RefY[0] != 0.0;
  }

  /** At the calibration values the ratios are 1, yet the working points are
      not the reference points: the y points are shifted down by 0.5 and the
      x ends are anchored at +-0.2 where the reference has +-0.15. */
  lemma CalibrationScenario()
    ensures var c := Constructed(CalibrationHeight, CalibrationLength);
      c.heightRatio == 1.0 && c.lengthRatio == 1.0 &&
      (forall i :: 0 <= i < ControlPointCount ==> c.ys[i] == RefY[i] - 0.5) &&
      (forall i :: 1 <= i < ControlPointCount - 1 ==> c.xs[i] == RefX[i]) &&
      c.xs[0] == -0.2 && c.xs[ControlPointCount - 1] == 0.2 &&
      RefX[0] == -0.15 && RefX[ControlPointCount - 1] == 0.15
  {
  }
}
