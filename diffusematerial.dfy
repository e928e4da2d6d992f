/**
 * `DiffuseMaterial` and `MetalMaterial`: the per-material scatter helpers used
 * by the chapter tracers.  They take the generator by value and return the
 * flag with the new `attenuation` and `scattered`.
 */
module Materials {
  import opened Mathematics
  import opened Randomness
  import opened Structs
  import opened Utils
  import RayMath

  /** A scatter outcome without generator state. */
  datatype Bounce = Bounce(scatters: bool, attenuation: Float3, scattered: Ray)

  /**
   * `DiffuseMaterial.Scatter(rand, albedo, r, rec, ...)`: always scatters, with
   * the `albedo` argument as attenuation (the record's material is not read).
   */
  function DiffuseScatter(rand: Rng, albedo: Float3, r: Ray, rec: HitRecord): (res: Bounce)
    ensures res.scatters && res.attenuation == albedo && res.scattered.origin == rec.p
    ensures res.scattered.direction == Add(rec.normal, UnitSphereSample(rand))
  {
    var target := Add(Add(rec.p, rec.normal), UnitSphereSample(rand));
    assert Sub(target, rec.p) == Add(rec.normal, UnitSphereSample(rand));
    Bounce(true, albedo, Ray(rec.p, Sub(target, rec.p)))
  }

  /** The instance `MetalMaterial.Scatter`: the exact mirror direction, scattering when it leaves above the surface. */
  function MetalScatter(albedo: Float3, r: Ray, rec: HitRecord): (res: Bounce)
    ensures res.attenuation == albedo && res.scattered.origin == rec.p
    ensures res.scatters <==> Dot(res.scattered.direction, rec.normal) > 0.0
  {
    var reflected := Reflect(Normalize(r.direction), rec.normal);
    var out := Ray(rec.p, reflected);
    Bounce(Dot(out.direction, rec.normal) > 0.0, albedo, out)
  }

  /** The static `MetalMaterial.Scatter(r, rec, rand, ...)`: the record's material, fuzzed mirror direction. */
  function FuzzyMetalScatter(r: Ray, rec: HitRecord, rand: Rng): (res: Bounce)
    ensures res.attenuation == rec.material.albedo && res.scattered.origin == rec.p
    ensures res.scatters <==> Dot(res.scattered.direction, rec.normal) > 0.0
  {
    var m := rec.material;
    var reflected := Reflect(Normalize(r.direction), rec.normal);
    var out := Ray(rec.p, Add(reflected, Scale(m.fuzziness, UnitSphereSample(rand))));
    Bounce(Dot(out.direction, rec.normal) > 0.0, m.albedo, out)
  }

  /** With fuzziness 0 and albedo taken from the record, the two metal overloads agree. */
  lemma MetalOverloadsAgree(r: Ray, rec: HitRecord, rand: Rng)
    requires rec.material.fuzziness == 0.0
    ensures FuzzyMetalScatter(r, rec, rand) == MetalScatter(rec.material.albedo, r, rec)
  {
    var reflected := Reflect(Normalize(r.direction), rec.normal);
    assert Add(reflected, Scale(0.0, UnitSphereSample(rand))) == reflected;
  }

  /** `MetalMaterial.Reflect`. */
  function Reflect(v: Float3, n: Float3): Float3 {
    Sub(v, Scale(2.0 * Dot(v, n), n))
  }

  /** `MetalMaterial.Refract`. */
  function Refract(v: Float3, n: Float3, niOverNt: real): (res: (bool, Float3))
    ensures !res.0 ==> res.1 == Zero
  {
    var uv := Normalize(v);
    var dt := Dot(uv, n);
    var discriminant := 1.0 - niOverNt * niOverNt * (1.0 - dt * dt);
    if discriminant > 0.0 then
      (true, Sub(Scale(niOverNt, Sub(uv, Scale(dt, n))), Scale(Sqrt(discriminant), n)))
    else
      (false, Zero)
  }

  /** `MetalMaterial.Reflect` and `Refract` compute exactly what `RayMath`'s do. */
  lemma SameAsRayMath(v: Float3, n: Float3, niOverNt: real)
    ensures Reflect(v, n) == RayMath.Reflect(v, n)
    ensures Refract(v, n, niOverNt) == RayMath.Refract(v, n, niOverNt)
  {
  }
}
