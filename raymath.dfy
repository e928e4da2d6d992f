/** `RayMath`: mirror reflection, Schlick's reflectance and Snell refraction. */
module RayMath {
  import opened Mathematics

  /** `Reflect(v, n) = v - 2 dot(v, n) n`. */
  function Reflect(v: Float3, n: Float3): Float3 {
    Sub(v, Scale(2.0 * Dot(v, n), n))
  }

  /** For a unit normal, reflection negates the normal component of `v`. */
  lemma ReflectNegatesNormalComponent(v: Float3, n: Float3)
    requires Dot(n, n) == 1.0
    ensures Dot(Reflect(v, n), n) == -Dot(v, n)
  {
    assert Dot(Reflect(v, n), n) == Dot(v, n) - 2.0 * Dot(v, n) * Dot(n, n);
  }

  /** For a unit normal, reflecting twice gives back `v`. */
  lemma ReflectInvolution(v: Float3, n: Float3)
    requires Dot(n, n) == 1.0
    ensures Reflect(Reflect(v, n), n) == v
  {
    ReflectNegatesNormalComponent(v, n);
  }

  /** For a unit normal, reflection keeps the squared length. */
  lemma ReflectKeepsLength(v: Float3, n: Float3)
    requires Dot(n, n) == 1.0
    ensures Dot(Reflect(v, n), Reflect(v, n)) == Dot(v, v)
  {
    var k := 2.0 * Dot(v, n);
    assert Dot(Sub(v, Scale(k, n)), Sub(v, Scale(k, n))) == Dot(v, v) - 2.0 * k * Dot(v, n) + k * k * Dot(n, n);
  }

  /** The reflectance at normal incidence, `((1 - ri) / (1 + ri))^2`. */
  function NormalReflectance(refractionIndex: real): real {
    var r0 := Quot(1.0 - refractionIndex, 1.0 + refractionIndex);
    r0 * r0
  }

  /** `Schlick(cosine, ri) = r0 + (1 - r0) (1 - cosine)^5`. */
  function Schlick(cosine: real, refractionIndex: real): real {
    var r0 := NormalReflectance(refractionIndex);
    r0 + (1.0 - r0) * Pow(1.0 - cosine, 5)
  }

  /** Schlick's curve starts at 1 for grazing incidence and ends at `r0` head-on. */
  lemma SchlickEndpoints(refractionIndex: real)
    ensures Schlick(0.0, refractionIndex) == 1.0
    ensures Schlick(1.0, refractionIndex) == NormalReflectance(refractionIndex)
  {
    PowOfZeroAndOne(5);
  }

  /** For `cosine` in [0, 1] and a non-negative index, the reflect probability lies in [r0, 1]. */
  lemma SchlickIsProbability(cosine: real, refractionIndex: real)
    requires 0.0 <= cosine <= 1.0 && refractionIndex >= 0.0
    ensures 0.0 <= NormalReflectance(refractionIndex) <= Schlick(cosine, refractionIndex) <= 1.0
  {
    PowUnitInterval(1.0 - cosine, 5);
    var q := Quot(1.0 - refractionIndex, 1.0 + refractionIndex);
    RatioBounds(1.0 - refractionIndex, 1.0 + refractionIndex);
    UnitSquare(q);
    var r0 := NormalReflectance(refractionIndex);
    var p := Pow(1.0 - cosine, 5);
    assert (1.0 - r0) * (1.0 - p) >= 0.0 && (1.0 - r0) * p >= 0.0 by {
      ProductNonNegative(1.0 - r0, 1.0 - p);
      ProductNonNegative(1.0 - r0, p);
    }
  }

  lemma ProductNonNegative(x: real, y: real)
    requires x >= 0.0 && y >= 0.0
    ensures x * y >= 0.0
  {
  }

  /** A number in [-1, 1] has its square in [0, 1]. */
  lemma UnitSquare(q: real)
    requires -1.0 <= q <= 1.0
    ensures 0.0 <= q * q <= 1.0
  {
    var a := if q >= 0.0 then q else -q;
    assert a * a == q * q;
    if a < 1.0 {
      SquareMonotone(a, 1.0);
    }
    SquareZero(q);
  }

  /** `|num / den| <= 1` when `|num| <= den`. */
  lemma RatioBounds(num: real, den: real)
    requires den > 0.0 && -den <= num <= den
    ensures -1.0 <= Quot(num, den) <= 1.0
  {
    QuotientBound(num, den);
    assert Quot(num, den) == (1.0 / den) * num;
  }

  /** The discriminant of Snell's law for a unit incident direction. */
  function RefractDiscriminant(uv: Float3, n: Float3, niOverNt: real): real {
    var dt := Dot(uv, n);
    1.0 - niOverNt * niOverNt * (1.0 - dt * dt)
  }

  /**
   * `Refract(v, n, niOverNt, out refracted)`: on success the refracted
   * direction; on total internal reflection false and `default`.
   */
  function Refract(v: Float3, n: Float3, niOverNt: real): (res: (bool, Float3))
    ensures res.0 <==> RefractDiscriminant(Normalize(v), n, niOverNt) > 0.0
    ensures !res.0 ==> res.1 == Zero
  {
    var uv := Normalize(v);
    var dt := Dot(uv, n);
    var discriminant := RefractDiscriminant(uv, n, niOverNt);
    if discriminant > 0.0 then
      (true, Sub(Scale(niOverNt, Sub(uv, Scale(dt, n))), Scale(Sqrt(discriminant), n)))
    else
      (false, Zero)
  }

  lemma DotOfDifference(a: real, u: Float3, b: real, w: Float3)
    ensures Dot(Sub(Scale(a, u), Scale(b, w)), Sub(Scale(a, u), Scale(b, w)))
            == a * a * Dot(u, u) - 2.0 * a * b * Dot(u, w) + b * b * Dot(w, w)
  {
  }

  lemma DotLinear(a: real, u: Float3, b: real, w: Float3, z: Float3)
    ensures Dot(Sub(Scale(a, u), Scale(b, w)), z) == a * Dot(u, z) - b * Dot(w, z)
  {
  }

  /**
   * Snell's law with an exact `sqrt`, a unit normal and a non-zero incident
   * direction: the refracted direction has unit length and its component along
   * the normal is `-sqrt(discriminant)`, so it leaves through the far side.
   */
  lemma RefractUnit(v: Float3, n: Float3, niOverNt: real)
    requires SqrtExact() && Dot(n, n) == 1.0 && v != Zero
    requires Refract(v, n, niOverNt).0
    ensures var d := Refract(v, n, niOverNt).1;
      Dot(d, d) == 1.0 && Dot(d, n) + Sqrt(RefractDiscriminant(Normalize(v), n, niOverNt)) == 0.0
  {
    var uv := Normalize(v);
    NormalizeUnit(v);
    var dt := Dot(uv, n);
    var t := Sub(uv, Scale(dt, n));
    var q := Sqrt(RefractDiscriminant(uv, n, niOverNt));
    assert q * q == 1.0 - niOverNt * niOverNt * (1.0 - dt * dt);
    DotOfDifference(1.0, uv, dt, n);
    assert Scale(1.0, uv) == uv;
    assert Dot(t, t) == 1.0 - dt * dt;
    DotLinear(1.0, uv, dt, n, n);
    assert Dot(t, n) == 0.0;
    DotOfDifference(niOverNt, t, q, n);
    DotLinear(niOverNt, t, q, n, n);
  }
}
