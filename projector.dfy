/**
 * The perspective projector every scene carries a copy of: yaw about the y axis,
 * then pitch about the x axis, an optional gravitational-lens warp, and a divide
 * by the depth. Most copies floor the divisor at 1; three copies do not.
 */
module Projector {
  import opened Numeric
  import opened Wrappers

  /** The camera angles: `rotation.x` (pitch) and `rotation.y` (yaw). */
  datatype Rotation = Rotation(pitch: real, yaw: real)

  /** A projected point: screen position, perspective scale, view depth and the raw input. */
  datatype Projected = Projected(x: real, y: real, scale: real, z: real, xRaw: real, yRaw: real, zRaw: real)

  /** The rotated point (x1, y1, z2): yaw first, then pitch. */
  function Rotate(m: MathLib, p: Vec3, rot: Rotation): (v: Vec3)
    ensures ZeroAngle(m) && rot == Rotation(0.0, 0.0) ==> v == p
  {
    var tx := p.x * m.cos(rot.yaw) - p.z * m.sin(rot.yaw);
    var tz := p.z * m.cos(rot.yaw) + p.x * m.sin(rot.yaw);
    var ty := p.y * m.cos(rot.pitch) - tz * m.sin(rot.pitch);
    var z2 := tz * m.cos(rot.pitch) + p.y * m.sin(rot.pitch);
    Vec3(tx, ty, z2)
  }

  /**
   * The lens warp on the rotated point: in front of the plane z2 = −50 it pushes
   * y1 away from the axis and stretches x1, both by `mag = exp(−(x1²+y1²)/15000)`.
   */
  function Lens(m: MathLib, v: Vec3): (w: Vec3)
    ensures w.z == v.z
    ensures v.z <= -50.0 ==> w == v
  {
    if v.z > -50.0 then
      var distSq := v.x * v.x + v.y * v.y;
      var mag := m.exp(-distSq / 15000.0);
      var warpStrength := 140.0 * (v.z / 400.0 + 0.5);
      Vec3(v.x * (1.0 + 0.35 * mag), v.y + (if v.y > 0.0 then 1.0 else -1.0) * warpStrength * mag, v.z)
    else
      v
  }

  /** The perspective factor with the divisor floored at 1. */
  function Scale(fov: real, z2: real): (s: real)
    ensures fov > 0.0 ==> 0.0 < s <= fov
    ensures fov + z2 >= 1.0 ==> s == fov / (fov + z2)
    ensures fov + z2 < 1.0 ==> s == fov
  {
    var d := Max(1.0, fov + z2);
    assert fov > 0.0 ==> fov / d <= fov by {
      if fov > 0.0 {
        assert fov / d * d == fov;
        MulMonotone(1.0, d, fov / d);
      }
    }
    fov / d
  }

  /** `project3D(x, y, z, rotation, width, height, fov, lensEffect)` of the shared helper. */
  function Project(m: MathLib, p: Vec3, rot: Rotation, width: real, height: real, fov: real, lensEffect: bool): (r: Projected)
    ensures r.xRaw == p.x && r.yRaw == p.y && r.zRaw == p.z
    ensures r.z == Rotate(m, p, rot).z
    ensures fov > 0.0 ==> 0.0 < r.scale <= fov
  {
    var v := Rotate(m, p, rot);
    Placed(if lensEffect then Lens(m, v) else v, p, width, height, fov)
  }

  /** The screen position of the (warped) view point w about the canvas centre, for the raw point p. */
  function Placed(w: Vec3, p: Vec3, width: real, height: real, fov: real): (r: Projected)
    ensures r.scale == Scale(fov, w.z) && r.z == w.z
    ensures r.xRaw == p.x && r.yRaw == p.y && r.zRaw == p.z
  {
    var scale := Scale(fov, w.z);
    Projected(width / 2.0 + w.x * scale, height / 2.0 + w.y * scale, scale, w.z, p.x, p.y, p.z)
  }

  /** Without rotation or lens the point is only scaled about the canvas centre, and its depth is kept. */
  lemma ProjectUnrotated(m: MathLib, p: Vec3, width: real, height: real, fov: real)
    requires ZeroAngle(m)
    ensures var r := Project(m, p, Rotation(0.0, 0.0), width, height, fov, false);
      r.z == p.z && r.scale == Scale(fov, p.z) &&
      r.x == width / 2.0 + p.x * r.scale && r.y == height / 2.0 + p.y * r.scale
  {
    var v := Rotate(m, p, Rotation(0.0, 0.0));
    assert v == p;
    var r := Project(m, p, Rotation(0.0, 0.0), width, height, fov, false);
    assert r.scale == Scale(fov, v.z);
    assert r.z == p.z;
    assert r.x == width / 2.0 + p.x * r.scale;
    assert r.y == height / 2.0 + p.y * r.scale;
  }

  /** The lens changes where a point lands but never its scale or depth, and does nothing behind z2 = −50. */
  lemma LensKeepsScaleAndDepth(m: MathLib, p: Vec3, rot: Rotation, width: real, height: real, fov: real)
    ensures var a, b := Project(m, p, rot, width, height, fov, true), Project(m, p, rot, width, height, fov, false);
      a.scale == b.scale && a.z == b.z && (Rotate(m, p, rot).z <= -50.0 ==> a == b)
  {
    var v := Rotate(m, p, rot);
    assert Project(m, p, rot, width, height, fov, true) == Placed(Lens(m, v), p, width, height, fov);
    assert Project(m, p, rot, width, height, fov, false) == Placed(v, p, width, height, fov);
  }

  /**
   * The copy without the floor (`fov / (fov + z2)`): a point at the eye plane
   * divides by zero (JavaScript yields ±Infinity or NaN), so it has no projection here.
   */
  function ProjectUnfloored(m: MathLib, p: Vec3, rot: Rotation, width: real, height: real, fov: real): (r: Option<Projected>)
    ensures r.None? <==> fov + Rotate(m, p, rot).z == 0.0
    ensures r.Some? ==> r.value.z == Rotate(m, p, rot).z && r.value.scale == fov / (fov + r.value.z)
  {
    var v := Rotate(m, p, rot);
    if fov + v.z == 0.0 then None
    else
      var scale := fov / (fov + v.z);
      Some(Projected(width / 2.0 + v.x * scale, height / 2.0 + v.y * scale, scale, v.z, p.x, p.y, p.z))
  }

  /** Without the floor a point behind the eye gets a negative scale: those copies promise no positive scale. */
  lemma UnflooredScaleCanBeNegative(m: MathLib)
    requires ZeroAngle(m)
    ensures var r := ProjectUnfloored(m, Vec3(0.0, 0.0, -900.0), Rotation(0.0, 0.0), 800.0, 600.0, 600.0);
      r.Some? && r.value.scale < 0.0
  {
    assert Rotate(m, Vec3(0.0, 0.0, -900.0), Rotation(0.0, 0.0)) == Vec3(0.0, 0.0, -900.0);
  }
}
