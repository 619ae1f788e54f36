/** Unity's small vector toolkit over real numbers: the parts of Vector2,
    Vector3 and Mathf that the table-football core uses. Square roots are
    not available over `real`, so wherever Unity takes a magnitude the
    model receives it as an input together with the fact that squaring it
    gives the squared magnitude. */
module Geometry {

  datatype Vec2 = Vec2(x: real, y: real)
  datatype Vec3 = Vec3(x: real, y: real, z: real)

  const Zero3: Vec3 := Vec3(0.0, 0.0, 0.0)

  /** A rotation, kept opaque: the core only stores and restores rotations. */
  datatype Quaternion = Quaternion(x: real, y: real, z: real, w: real)

  const Identity: Quaternion := Quaternion(0.0, 0.0, 0.0, 1.0)

  /** Unity's Vector3.Normalize returns the zero vector below this magnitude. */
  const NormalizeEpsilon: real := 0.00001

  function Abs(x: real): real { if x < 0.0 then -x else x }

  function Max(a: real, b: real): real { if a < b then b else a }

  /** Mathf.Sign: 1 for zero and positive values, -1 for negative ones. */
  function Sign(x: real): (r: real)
    ensures r == 1.0 || r == -1.0
    ensures r * Abs(x) == x
    ensures (r == 1.0) <==> (x >= 0.0)
  {
    if x >= 0.0 then 1.0 else -1.0
  }

  function Add(a: Vec3, b: Vec3): Vec3 { Vec3(a.x + b.x, a.y + b.y, a.z + b.z) }
  function Sub(a: Vec3, b: Vec3): Vec3 { Vec3(a.x - b.x, a.y - b.y, a.z - b.z) }
  function Neg(a: Vec3): Vec3 { Vec3(-a.x, -a.y, -a.z) }
  function Scale(k: real, a: Vec3): Vec3 { Vec3(k * a.x, k * a.y, k * a.z) }
  function Dot(a: Vec3, b: Vec3): real { a.x * b.x + a.y * b.y + a.z * b.z }
  function SqMagnitude(a: Vec3): real { Dot(a, a) }

  function Scale2(k: real, a: Vec2): Vec2 { Vec2(k * a.x, k * a.y) }
  function SqMagnitude2(a: Vec2): real { a.x * a.x + a.y * a.y }

  /** The implicit conversion Vector2 -> Vector3 (z becomes 0). */
  function To3(v: Vec2): Vec3 { Vec3(v.x, v.y, 0.0) }

  /** The implicit conversion Vector3 -> Vector2 (z is dropped). */
  function To2(v: Vec3): Vec2 { Vec2(v.x, v.y) }

  lemma SqMagnitudeNonNegative(a: Vec3)
    ensures SqMagnitude(a) >= 0.0
  {
    assert a.x * a.x >= 0.0 && a.y * a.y >= 0.0 && a.z * a.z >= 0.0;
  }

  lemma SqMagnitudeScale(k: real, a: Vec3)
    ensures SqMagnitude(Scale(k, a)) == k * k * SqMagnitude(a)
  {
    calc {
      SqMagnitude(Scale(k, a));
      (k * a.x) * (k * a.x) + (k * a.y) * (k * a.y) + (k * a.z) * (k * a.z);
      k * k * (a.x * a.x + a.y * a.y + a.z * a.z);
    }
  }

  lemma SqMagnitudeNeg(a: Vec3)
    ensures SqMagnitude(Neg(a)) == SqMagnitude(a)
  {
  }

  /** Cauchy-Schwarz, by Lagrange's identity. */
  lemma DotSquaredBound(a: Vec3, b: Vec3)
    ensures Dot(a, b) * Dot(a, b) <= SqMagnitude(a) * SqMagnitude(b)
  {
    var p, q, r := a.x * b.y - a.y * b.x, a.x * b.z - a.z * b.x, a.y * b.z - a.z * b.y;
    assert SqMagnitude(a) * SqMagnitude(b) - Dot(a, b) * Dot(a, b) == p * p + q * q + r * r;
    assert p * p >= 0.0 && q * q >= 0.0 && r * r >= 0.0;
  }

  /** Vector3.normalized, given the vector's magnitude `m`. */
  function Normalized(v: Vec3, m: real): (r: Vec3)
    requires m >= 0.0 && m * m == SqMagnitude(v)
    ensures m > NormalizeEpsilon ==> SqMagnitude(r) == 1.0 && r == Scale(1.0 / m, v)
    ensures m <= NormalizeEpsilon ==> r == Zero3
  {
    if m > NormalizeEpsilon then
      var r := Scale(1.0 / m, v);
      SqMagnitudeScale(1.0 / m, v);
      assert (1.0 / m) * (1.0 / m) * (m * m) == 1.0;
      r
    else Zero3
  }

  /** Vector3.Reflect: mirrors `inDir` about the plane whose normal is `n`. */
  function Reflect(inDir: Vec3, n: Vec3): Vec3
  {
    Add(Scale(-2.0 * Dot(n, inDir), n), inDir)
  }

  lemma DotScaleLeft(k: real, a: Vec3, b: Vec3)
    ensures Dot(Scale(k, a), b) == k * Dot(a, b)
  {
  }

  /** Reflection about a unit normal flips the normal component of the
      vector, keeps its tangential component and so keeps its length. */
  lemma {:induction false} ReflectLaw(v: Vec3, n: Vec3)
    requires SqMagnitude(n) == 1.0
    ensures Dot(Reflect(v, n), n) == -Dot(v, n)
    ensures Sub(Reflect(v, n), Scale(Dot(Reflect(v, n), n), n)) == Sub(v, Scale(Dot(v, n), n))
    ensures SqMagnitude(Reflect(v, n)) == SqMagnitude(v)
  {
    var d := Dot(n, v);
    var r := Reflect(v, n);
    assert r == Add(Scale(-2.0 * d, n), v);
    calc {
      Dot(r, n);
      -2.0 * d * SqMagnitude(n) + Dot(v, n);
      -d;
    }
    calc {
      SqMagnitude(r);
      (-2.0 * d) * (-2.0 * d) * SqMagnitude(n) + 2.0 * (-2.0 * d) * Dot(n, v) + SqMagnitude(v);
      4.0 * d * d - 4.0 * d * d + SqMagnitude(v);
    }
  }
}
