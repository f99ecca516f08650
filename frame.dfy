/** Foot poses and the ground-plane rotation that turns the planner's planar
    (x, y) output into a 3D foot position. */
module Frame {

  /** The positional part of a foot pose in the leg's local frame. The C++
      planner's transformation type also carries an orientation: the idle
      branch copies it from the reference pose, while the two active
      branches overwrite only the position and so keep the orientation the
      foot pose had before. The orientation is not represented here. */
  datatype Pose = Pose(x: real, y: real, z: real)

  const Origin: Pose := Pose(0.0, 0.0, 0.0)

  /** The collaborators whose code is not part of this model.
      `heading` stands for the direction-of-travel derivation: the leg's
      nominal stance is translated by (vx, vy), rotated by wz, and the
      heading is atan2 of the displacement. `cos` and `sin` are the
      trigonometric functions; they are left uninterpreted. */
  datatype Trig = Trig(heading: (real, real, real) -> real, cos: real -> real, sin: real -> real)

  /** Maps a planar curve point (curveX, curveY) into the foot pose around
      `ref`: curve y drives X directly, curve x is rotated by `rotation`
      into Y and Z. Both active branches of the planner use this mapping.
      The forward offset is the curve's y whatever the heading, and a curve
      point with x = 0 keeps the reference Y and Z. */
  function PlaceInFrame(ref: Pose, curveX: real, curveY: real, rotation: real, trig: Trig): (p: Pose)
    ensures p.x - ref.x == curveY
    ensures curveX == 0.0 ==> p.y == ref.y && p.z == ref.z
  {
    Pose(ref.x + curveY, ref.y - curveX * trig.cos(rotation), ref.z + curveX * trig.sin(rotation))
  }
}
