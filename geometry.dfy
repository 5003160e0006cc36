/** World-space vectors and axis-aligned boxes, over exact reals.
    Square roots (vector length, distance, normalisation) are not computed here:
    comparisons against a radius use squared distances, and where the program
    really needs a length it receives the square-root function as a parameter. */
module Geometry {

  datatype Vec3 = Vec3(x: real, y: real, z: real)

  const Zero: Vec3 := Vec3(0.0, 0.0, 0.0)

  function Add(a: Vec3, b: Vec3): Vec3 { Vec3(a.x + b.x, a.y + b.y, a.z + b.z) }

  function Sub(a: Vec3, b: Vec3): Vec3 { Vec3(a.x - b.x, a.y - b.y, a.z - b.z) }

  function Scale(a: Vec3, k: real): Vec3 { Vec3(a.x * k, a.y * k, a.z * k) }

  function Dot(a: Vec3, b: Vec3): real { a.x * b.x + a.y * b.y + a.z * b.z }

  /** Squared Euclidean distance; `distanceTo(b) < r` with r > 0 is `DistSq(a, b) < r * r`. */
  function DistSq(a: Vec3, b: Vec3): (d: real)
    ensures d >= 0.0
  {
    var v := Sub(a, b);
    SquareNonNegative(v.x); SquareNonNegative(v.y); SquareNonNegative(v.z);
    Dot(v, v)
  }

  /** Squared horizontal (x/z) distance, the server's spawn and obstacle spacing measure. */
  function FlatDistSq(ax: real, az: real, bx: real, bz: real): (d: real)
    ensures d >= 0.0
  {
    SquareNonNegative(ax - bx); SquareNonNegative(az - bz);
    (ax - bx) * (ax - bx) + (az - bz) * (az - bz)
  }

  lemma SquareNonNegative(r: real)
    ensures r * r >= 0.0
  {
    if r < 0.0 { assert r * r > 0.0; }
  }

  lemma PositiveSquare(a: real)
    requires a > 0.0
    ensures a * a > 0.0
  {
    assert a * a > 0.0 * a;
  }

  /** three.js `lerp`: moves `a` the fraction `t` of the way to `b`. */
  function LerpReal(a: real, b: real, t: real): real { a + (b - a) * t }

  function Lerp(a: Vec3, b: Vec3, t: real): Vec3
  {
    Vec3(LerpReal(a.x, b.x, t), LerpReal(a.y, b.y, t), LerpReal(a.z, b.z, t))
  }

  lemma LerpEndpoints(a: Vec3, b: Vec3)
    ensures Lerp(a, b, 0.0) == a && Lerp(a, b, 1.0) == b
  {
  }

  /** A coordinate of Lerp(a, b, t) for t in [0, 1] lies between the coordinates of a and b. */
  lemma {:induction false} LerpRealBetween(a: real, b: real, t: real)
    requires 0.0 <= t <= 1.0
    ensures a <= b ==> a <= LerpReal(a, b, t) <= b
    ensures b <= a ==> b <= LerpReal(a, b, t) <= a
  {
    if a <= b {
      LerpRealUp(a, b, t);
    }
    if b <= a {
      LerpRealDown(a, b, t);
    }
  }

  lemma LerpRealUp(a: real, b: real, t: real)
    requires 0.0 <= t <= 1.0 && a <= b
    ensures a <= LerpReal(a, b, t) <= b
  {
    var d := b - a;
    MulBounds(d, t);
    var p := d * t;
    assert LerpReal(a, b, t) == a + p;
  }

  lemma LerpRealDown(a: real, b: real, t: real)
    requires 0.0 <= t <= 1.0 && b <= a
    ensures b <= LerpReal(a, b, t) <= a
  {
    var d := a - b;
    MulBounds(d, t);
    var p := d * t;
    assert (b - a) * t == -p;
    assert LerpReal(a, b, t) == a - p;
  }

  lemma MulBounds(d: real, t: real)
    requires d >= 0.0 && 0.0 <= t <= 1.0
    ensures 0.0 <= d * t <= d
  {
    assert d - d * t == d * (1.0 - t);
    assert d * (1.0 - t) >= 0.0 * (1.0 - t);
    assert d * t >= 0.0 * t;
  }

  /** `Math.max(lo, Math.min(hi, v))`, the clamp three.js and the controls use. */
  function Clamp(v: real, lo: real, hi: real): (r: real)
    ensures lo <= hi ==> lo <= r <= hi
    ensures lo <= v <= hi ==> r == v
    ensures v < lo ==> r == lo
    ensures lo <= hi && v > hi ==> r == hi
  {
    var m := if hi < v then hi else v;
    if lo > m then lo else m
  }

  /** A box from `Box3.setFromObject`, given by its corners; ground boxes are never collided with. */
  datatype Box = Box(min: Vec3, max: Vec3, isGround: bool)

  predicate WellFormed(b: Box)
  {
    b.min.x <= b.max.x && b.min.y <= b.max.y && b.min.z <= b.max.z
  }

  predicate Inside(b: Box, p: Vec3)
  {
    b.min.x <= p.x <= b.max.x && b.min.y <= p.y <= b.max.y && b.min.z <= p.z <= b.max.z
  }

  /** three.js `Box3.clampPoint`: the point of the box closest to `p`. */
  function ClampPoint(b: Box, p: Vec3): (q: Vec3)
    ensures WellFormed(b) ==> Inside(b, q)
    ensures Inside(b, p) ==> q == p
  {
    Vec3(Clamp(p.x, b.min.x, b.max.x), Clamp(p.y, b.min.y, b.max.y), Clamp(p.z, b.min.z, b.max.z))
  }

  /** The sphere of the given radius around `center` reaches into the box. */
  predicate Touches(b: Box, center: Vec3, radius: real)
  {
    DistSq(center, ClampPoint(b, center)) < radius * radius
  }

  /** three.js `normalize`: divides by the length, or by 1 when the length is 0. */
  function Normalize(v: Vec3, sqrt: real -> real): Vec3
  {
    var len := sqrt(Dot(v, v));
    if len == 0.0 then v else Scale(v, 1.0 / len)
  }

  /** With a true square root, a non-zero vector normalises to unit length. */
  lemma NormalizeIsUnit(v: Vec3, sqrt: real -> real)
    requires sqrt(Dot(v, v)) > 0.0 && sqrt(Dot(v, v)) * sqrt(Dot(v, v)) == Dot(v, v)
    ensures Dot(Normalize(v, sqrt), Normalize(v, sqrt)) == 1.0
  {
    var len := sqrt(Dot(v, v));
    var k := 1.0 / len;
    var n := Scale(v, k);
    assert Dot(n, n) == k * k * Dot(v, v);
    assert k * k * (len * len) == (k * len) * (k * len);
    assert k * len == 1.0;
  }
}
