/** Vectors and the 4x4 view matrix, with `real` in place of 32-bit floats. */
module VectorMath {

  datatype Vec2 = Vec2(x: real, y: real)
  datatype Vec3 = Vec3(x: real, y: real, z: real)
  datatype Vec4 = Vec4(x: real, y: real, z: real, w: real)

  const Zero2 := Vec2(0.0, 0.0)
  const Zero3 := Vec3(0.0, 0.0, 0.0)
  const Zero4 := Vec4(0.0, 0.0, 0.0, 0.0)

  function Add(a: Vec3, b: Vec3): Vec3 {
    Vec3(a.x + b.x, a.y + b.y, a.z + b.z)
  }

  function Sub(a: Vec3, b: Vec3): Vec3 {
    Vec3(a.x - b.x, a.y - b.y, a.z - b.z)
  }

  function Scale(a: Vec3, s: real): Vec3 {
    Vec3(a.x * s, a.y * s, a.z * s)
  }

  /** Squared length over x, y, z only (XMVector3LengthSq ignores w). */
  function LengthSq(a: Vec3): real {
    a.x * a.x + a.y * a.y + a.z * a.z
  }

  /** A world-space point as stored in the neighbour buffer: (x, y, z, 1). */
  function Point(p: Vec3): Vec4 {
    Vec4(p.x, p.y, p.z, 1.0)
  }

  function XYZ(v: Vec4): Vec3 {
    Vec3(v.x, v.y, v.z)
  }

  /** A row-major 4x4 matrix; r0..r3 are its rows. */
  datatype Mat4 = Mat4(r0: Vec4, r1: Vec4, r2: Vec4, r3: Vec4)

  /** Row vector times matrix, as XMVector4Transform computes it. */
  function Transform(v: Vec4, m: Mat4): Vec4 {
    Vec4(v.x * m.r0.x + v.y * m.r1.x + v.z * m.r2.x + v.w * m.r3.x,
         v.x * m.r0.y + v.y * m.r1.y + v.z * m.r2.y + v.w * m.r3.y,
         v.x * m.r0.z + v.y * m.r1.z + v.z * m.r2.z + v.w * m.r3.z,
         v.x * m.r0.w + v.y * m.r1.w + v.z * m.r2.w + v.w * m.r3.w)
  }

  /** Every slot of a buffer passed through the same matrix. */
  function TransformAll(slots: seq<Vec4>, m: Mat4): (r: seq<Vec4>)
    ensures |r| == |slots|
    ensures forall k :: 0 <= k < |slots| ==> r[k] == Transform(slots[k], m)
  {
    seq(|slots|, k requires 0 <= k < |slots| => Transform(slots[k], m))
  }

  /** A linear transform maps the all-zero vector to itself. */
  lemma TransformZero(m: Mat4)
    ensures Transform(Zero4, m) == Zero4
  {
  }
}
