/** Value types shared by the tessellator: vectors over the reals, vertices and
    colours, and the explicit rounding and casting rules of the source. The
    source computes in `f32`; the model computes in `real`. */
module Geometry {

  datatype Vec2 = Vec2(x: real, y: real)

  datatype Vec4 = Vec4(x: real, y: real, z: real, w: real)

  /** RGBA colour. */
  type Color = Vec4

  /** A vertex: `pos` is (x, y, z, w), where x, y is the point and z, w are the
      per-primitive tags; `col` is the colour. */
  datatype Vert = Vert(pos: Vec4, col: Color)

  const Zero2 := Vec2(0.0, 0.0)

  function Add(a: Vec2, b: Vec2): Vec2 { Vec2(a.x + b.x, a.y + b.y) }

  function Sub(a: Vec2, b: Vec2): Vec2 { Vec2(a.x - b.x, a.y - b.y) }

  function Scale(a: Vec2, k: real): Vec2 { Vec2(a.x * k, a.y * k) }

  /** nalgebra's `perp`: the 2D cross product. */
  function Perp(a: Vec2, b: Vec2): real { a.x * b.y - a.y * b.x }

  /** The vertex at point `p` with tags `z`, `w` and colour `col`. */
  function At(p: Vec2, z: real, w: real, col: Color): Vert {
    Vert(Vec4(p.x, p.y, z, w), col)
  }

  /** The projection onto the point of a vertex position (`pos.xy()`). */
  function XY(v: Vec4): Vec2 { Vec2(v.x, v.y) }

  /** The floating-point library functions the source calls. They are taken
      as arbitrary total functions: no property of their values is used. */
  datatype Math = Math(sqrt: real -> real, cos: real -> real, sin: real -> real)

  /** `std::f32::consts::PI`, as a decimal. */
  const PI: real := 3.14159265358979323846

  /** (cos rad, sin rad). */
  function Unit(m: Math, rad: real): Vec2 { Vec2(m.cos(rad), m.sin(rad)) }

  /** nalgebra's `try_normalize_mut(0.)`: divides by the norm, unless the
      norm is at most 0, in which case the vector is left as it is. */
  function TryNormalize(m: Math, v: Vec2): (r: Vec2)
    ensures v == Zero2 ==> r == Zero2
    ensures m.sqrt(v.x * v.x + v.y * v.y) <= 0.0 ==> r == v
  {
    var n := m.sqrt(v.x * v.x + v.y * v.y);
    if n <= 0.0 then v else Vec2(v.x / n, v.y / n)
  }

  /** `f32::ceil`: the least integer not below `x`. */
  function Ceil(x: real): (r: int)
    ensures (r as real) - 1.0 < x <= r as real
  {
    -((-x).Floor)
  }

  /** The largest `usize` of the wasm32 target the crate is built for. */
  const UsizeMax: nat := 0xFFFF_FFFF

  function Dist(a: int, b: int): nat { if a < b then b - a else a - b }

  /** Rust's saturating `as usize` applied to an integral float: the
      representable value nearest to `x`. */
  function SaturatingToUsize(x: int): (r: nat)
    ensures r <= UsizeMax
    ensures forall n: int :: 0 <= n <= UsizeMax ==> Dist(r, x) <= Dist(n, x)
  {
    if x < 0 then 0 else if x > UsizeMax then UsizeMax else x
  }
}
