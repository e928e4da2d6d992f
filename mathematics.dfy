/**
 * The slice of Unity.Mathematics the renderer uses: `float3`/`float4` as
 * triples and quadruples of reals, their component-wise arithmetic, and the
 * library's transcendental functions.
 *
 * Floats are modelled as mathematical reals (no rounding, no NaN, no
 * infinities).  `sqrt` and `tan` are left uninterpreted: they are constants of
 * function type whose value is unknown, so a proof about them can use only
 * what their types say (a square root is never negative) or a hypothesis
 * stated explicitly (`SqrtExact`).
 */
module Mathematics {

  type NonNegReal = r: real | r >= 0.0

  /** `float3`: a point, a direction or a linear RGB colour. */
  datatype Float3 = Float3(x: real, y: real, z: real)

  /** `float4`: an RGBA pixel of a float texture. */
  datatype Float4 = Float4(x: real, y: real, z: real, w: real)

  const Zero := Float3(0.0, 0.0, 0.0)
  const Zero4 := Float4(0.0, 0.0, 0.0, 0.0)

  function Add(a: Float3, b: Float3): Float3 { Float3(a.x + b.x, a.y + b.y, a.z + b.z) }
  function Sub(a: Float3, b: Float3): Float3 { Float3(a.x - b.x, a.y - b.y, a.z - b.z) }
  function Neg(a: Float3): Float3 { Float3(-a.x, -a.y, -a.z) }
  function Scale(s: real, a: Float3): Float3 { Float3(s * a.x, s * a.y, s * a.z) }
  /** Component-wise product (`float3 * float3`). */
  function Mul(a: Float3, b: Float3): Float3 { Float3(a.x * b.x, a.y * b.y, a.z * b.z) }
  function Dot(a: Float3, b: Float3): real { a.x * b.x + a.y * b.y + a.z * b.z }
  function Cross(a: Float3, b: Float3): Float3 {
    Float3(a.y * b.z - a.z * b.y, a.z * b.x - a.x * b.z, a.x * b.y - a.y * b.x)
  }

  function Add4(a: Float4, b: Float4): Float4 { Float4(a.x + b.x, a.y + b.y, a.z + b.z, a.w + b.w) }
  function Scale4(s: real, a: Float4): Float4 { Float4(s * a.x, s * a.y, s * a.z, s * a.w) }
  function Rgb(a: Float4): Float3 { Float3(a.x, a.y, a.z) }

  /**
   * Float division.  IEEE division by zero yields an infinity or NaN, which
   * the model does not have; there the model yields 0.
   */
  function Quot(a: real, b: real): real { if b == 0.0 then 0.0 else a / b }

  /** `math.sqrt` on a float: uninterpreted, known only to be non-negative. */
  const SqrtFn: real -> NonNegReal

  function Sqrt(x: real): NonNegReal { SqrtFn(x) }

  /** Hypothesis for the few proofs that need `sqrt` to be the exact square root. */
  ghost predicate SqrtExact() {
    forall x: real {:trigger Sqrt(x)} :: x >= 0.0 ==> Sqrt(x) * Sqrt(x) == x
  }

  /** `math.sqrt` on a float3 (component-wise), the gamma step of the sample jobs. */
  function Sqrt3(a: Float3): Float3 { Float3(Sqrt(a.x), Sqrt(a.y), Sqrt(a.z)) }

  /** `math.length`. */
  function Length(a: Float3): NonNegReal { Sqrt(Dot(a, a)) }

  /**
   * `math.normalize`: the vector divided by its length.  For a zero-length
   * vector Unity yields NaN components; the model yields the zero vector.
   */
  function Normalize(a: Float3): Float3 {
    var len := Length(a);
    if len == 0.0 then Zero else Scale(1.0 / len, a)
  }

  /** `math.tan`: uninterpreted. */
  const TanFn: real -> real

  function Tan(x: real): real { TanFn(x) }

  /** `math.PI`. */
  const PI: real := 3.14159265358979323846

  /** `math.pow(b, e)`: for a natural-number exponent this is repeated multiplication. */
  function Pow(b: real, e: nat): real {
    if e == 0 then 1.0 else b * Pow(b, e - 1)
  }

  /** One more factor: `b^(e+1) = b * b^e`. */
  lemma PowStep(b: real, e: nat)
    ensures Pow(b, e + 1) == b * Pow(b, e)
  {
  }

  /** Scaling twice is scaling by the product. */
  lemma ScaleTwice(a: real, b: real, v: Float3)
    ensures Scale(a, Scale(b, v)) == Scale(a * b, v)
  {
    assert a * (b * v.x) == (a * b) * v.x;
    assert a * (b * v.y) == (a * b) * v.y;
    assert a * (b * v.z) == (a * b) * v.z;
  }

  lemma {:induction false} PowOfZeroAndOne(e: nat)
    ensures Pow(1.0, e) == 1.0
    ensures e > 0 ==> Pow(0.0, e) == 0.0
  {
    if e > 0 {
      PowOfZeroAndOne(e - 1);
    }
  }

  /** Squaring is strictly increasing on the non-negative reals. */
  lemma SquareMonotone(a: real, b: real)
    requires 0.0 <= a < b
    ensures a * a < b * b
  {
    assert a * (b - a) >= 0.0;
    assert b * (b - a) > 0.0;
    calc {
      a * a;
    <=
      a * b;
    <
      b * b;
    }
  }

  /** A real whose square is zero is zero. */
  lemma SquareZero(x: real)
    ensures x * x >= 0.0
    ensures x * x == 0.0 ==> x == 0.0
  {
    if x > 0.0 {
      SquareMonotone(0.0, x);
    } else if x < 0.0 {
      SquareMonotone(0.0, -x);
      assert (-x) * (-x) == x * x;
    }
  }

  /** A zero dot product with itself means a zero vector. */
  lemma DotSelfZero(a: Float3)
    ensures Dot(a, a) >= 0.0
    ensures Dot(a, a) == 0.0 ==> a == Zero
  {
    SquareZero(a.x);
    SquareZero(a.y);
    SquareZero(a.z);
  }

  /** Cauchy-Schwarz: `dot(a, b)^2 <= dot(a, a) * dot(b, b)` (Lagrange's identity). */
  lemma CauchySchwarz(a: Float3, b: Float3)
    ensures Dot(a, b) * Dot(a, b) <= Dot(a, a) * Dot(b, b)
  {
    var c := Cross(a, b);
    assert Dot(a, a) * Dot(b, b) - Dot(a, b) * Dot(a, b) == Dot(c, c);
    DotSelfZero(c);
  }

  /** Two non-negative reals with equal squares are equal. */
  lemma SquareRootUnique(u: real, s: real)
    requires u >= 0.0 && s >= 0.0 && u * u == s * s
    ensures u == s
  {
    if u < s {
      SquareMonotone(u, s);
    } else if s < u {
      SquareMonotone(s, u);
    }
  }

  /** `y * y <= len * len` bounds `y` by `len` on both sides. */
  lemma AbsBound(y: real, len: real)
    requires len >= 0.0 && y * y <= len * len
    ensures -len <= y <= len
  {
    if y > len {
      SquareMonotone(len, y);
    } else if y < -len {
      SquareMonotone(len, -y);
    }
  }

  /** With an exact `sqrt`, the y component of a normalized vector lies in [-1, 1]. */
  lemma NormalizeBounds(a: Float3)
    requires SqrtExact()
    ensures -1.0 <= Normalize(a).y <= 1.0
  {
    var len := Length(a);
    assert len * len == Dot(a, a);
    if len != 0.0 {
      SquareZero(a.x);
      SquareZero(a.z);
      AbsBound(a.y, len);
      QuotientBound(a.y, len);
    }
  }

  lemma QuotientBound(y: real, len: real)
    requires len > 0.0 && -len <= y <= len
    ensures -1.0 <= (1.0 / len) * y <= 1.0
  {
    assert (1.0 / len) * y == y / len;
  }

  /** With an exact `sqrt`, a vector along +y normalizes to (0, 1, 0), and along -y to (0, -1, 0). */
  lemma NormalizeVertical(s: real)
    requires SqrtExact() && s != 0.0
    ensures Normalize(Float3(0.0, s, 0.0)) == Float3(0.0, if s > 0.0 then 1.0 else -1.0, 0.0)
  {
    var v := Float3(0.0, s, 0.0);
    var len := Length(v);
    assert Dot(v, v) == s * s;
    assert len * len == s * s;
    var m := if s > 0.0 then s else -s;
    assert m * m == s * s;
    SquareRootUnique(len, m);
  }

  /** With an exact `sqrt`, a non-zero vector normalizes to unit length. */
  lemma NormalizeUnit(a: Float3)
    requires SqrtExact() && a != Zero
    ensures Dot(Normalize(a), Normalize(a)) == 1.0
  {
    DotSelfZero(a);
    var len := Length(a);
    assert len * len == Dot(a, a);
    var k := 1.0 / len;
    assert Dot(Scale(k, a), Scale(k, a)) == k * k * Dot(a, a);
    assert k * len == 1.0;
    assert k * k * (len * len) == (k * len) * (k * len);
  }

  /** A power of a number in [0, 1] stays in [0, 1]. */
  lemma {:induction false} PowUnitInterval(b: real, e: nat)
    requires 0.0 <= b <= 1.0
    ensures 0.0 <= Pow(b, e) <= 1.0
  {
    if e > 0 {
      PowUnitInterval(b, e - 1);
      assert b * Pow(b, e - 1) <= 1.0 * Pow(b, e - 1);
    }
  }
}
