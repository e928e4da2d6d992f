/**
 * `Scatter`: how a ray leaves a surface of each material.  The C# methods
 * return a flag and write `ref attenuation`, `ref scattered` and (for the
 * glass paths) `ref rng`; here they return all four together.
 */
module Scatter {
  import opened Mathematics
  import opened Randomness
  import opened Structs
  import opened Utils
  import RayMath

  /** The outcome of a scatter: the flag and the new values of the `ref` parameters. */
  datatype Scattered = Scattered(scatters: bool, attenuation: Float3, scattered: Ray, rng: Rng)

  /**
   * `Diffuse`: towards `p + normal + a point in the unit ball`.  The sample
   * is drawn from a copy of the generator, so `rng` is unchanged.
   */
  function Diffuse(r: Ray, rec: HitRecord, attenuation: Float3, scattered: Ray, rand: Rng): (res: Scattered)
    ensures res.scatters && res.attenuation == rec.material.albedo && res.rng == rand
    ensures res.scattered.origin == rec.p
    ensures res.scattered.direction == Add(rec.normal, UnitSphereSample(rand))
  {
    var target := Add(Add(rec.p, rec.normal), UnitSphereSample(rand));
    var res := Scattered(true, rec.material.albedo, Ray(rec.p, Sub(target, rec.p)), rand);
    assert Sub(target, rec.p) == Add(rec.normal, UnitSphereSample(rand));
    res
  }

  /** A diffuse bounce leaves within distance 1 of the normal's tip. */
  lemma DiffuseNearNormal(r: Ray, rec: HitRecord, attenuation: Float3, scattered: Ray, rand: Rng)
    ensures var d := Diffuse(r, rec, attenuation, scattered, rand).scattered.direction;
      Dot(Sub(d, rec.normal), Sub(d, rec.normal)) < 1.0
  {
    var q := UnitSphereSample(rand);
    assert Sub(Add(rec.normal, q), rec.normal) == q;
  }

  /**
   * `Metal`: the mirror direction of the normalized ray, perturbed by
   * `fuzziness` times a unit-ball sample; it scatters only if it leaves on the
   * normal's side.  `rng` is unchanged.
   */
  function Metal(r: Ray, rec: HitRecord, attenuation: Float3, scattered: Ray, random: Rng): (res: Scattered)
    ensures res.attenuation == rec.material.albedo && res.rng == random && res.scattered.origin == rec.p
    ensures res.scatters <==> Dot(res.scattered.direction, rec.normal) > 0.0
  {
    var m := rec.material;
    var reflected := RayMath.Reflect(Normalize(r.direction), rec.normal);
    var out := Ray(rec.p, Add(reflected, Scale(m.fuzziness, UnitSphereSample(random))));
    Scattered(Dot(out.direction, rec.normal) > 0.0, m.albedo, out, random)
  }

  /** A polished metal (fuzziness 0) scatters along the exact mirror direction. */
  lemma MetalWithoutFuzzIsMirror(r: Ray, rec: HitRecord, attenuation: Float3, scattered: Ray, random: Rng)
    requires rec.material.fuzziness == 0.0
    ensures Metal(r, rec, attenuation, scattered, random).scattered.direction
            == RayMath.Reflect(Normalize(r.direction), rec.normal)
  {
  }

  /** Which side of the glass the ray is on: the normal it refracts against, `ni / nt`, and the cosine. */
  datatype Interface = Interface(outwardNormal: Float3, niOverNt: real, cosine: real)

  function DielectricInterface(r: Ray, rec: HitRecord): (f: Interface)
    ensures Dot(r.direction, rec.normal) > 0.0 ==>
              f.outwardNormal == Neg(rec.normal) && f.niOverNt == rec.material.refractionIndex
    ensures Dot(r.direction, rec.normal) <= 0.0 ==>
              f.outwardNormal == rec.normal && f.niOverNt == Quot(1.0, rec.material.refractionIndex)
  {
    var refractionIndex := rec.material.refractionIndex;
    if Dot(r.direction, rec.normal) > 0.0 then
      Interface(Neg(rec.normal), refractionIndex,
                Quot(refractionIndex * Dot(r.direction, rec.normal), Length(r.direction)))
    else
      Interface(rec.normal, Quot(1.0, refractionIndex),
                Quot(-Dot(r.direction, rec.normal), Length(r.direction)))
  }

  /** The probability of reflecting: Schlick's value, or 1 when refraction is impossible. */
  function ReflectProbability(r: Ray, rec: HitRecord): real {
    var f := DielectricInterface(r, rec);
    if RayMath.Refract(r.direction, f.outwardNormal, f.niOverNt).0
    then RayMath.Schlick(f.cosine, rec.material.refractionIndex)
    else 1.0
  }

  /**
   * `Dielectric`: glass.  It always scatters, with white attenuation, and
   * draws once to choose between the mirror and the refracted direction.
   */
  function Dielectric(r: Ray, rec: HitRecord, attenuation: Float3, scattered: Ray, rand: Rng): (res: Scattered)
    ensures res.scatters && res.attenuation == One && res.scattered.origin == rec.p
    ensures res.rng == NextFloat(rand).1
    ensures var f := DielectricInterface(r, rec);
            var (refracts, refracted) := RayMath.Refract(r.direction, f.outwardNormal, f.niOverNt);
            res.scattered.direction == (if NextFloat(rand).0 < ReflectProbability(r, rec)
                                        then RayMath.Reflect(r.direction, rec.normal) else refracted)
  {
    var f := DielectricInterface(r, rec);
    var reflected := RayMath.Reflect(r.direction, rec.normal);
    var (_, refracted) := RayMath.Refract(r.direction, f.outwardNormal, f.niOverNt);
    var reflectProbability := ReflectProbability(r, rec);
    var (draw, next) := NextFloat(rand);
    var out := if draw < reflectProbability then Ray(rec.p, reflected) else Ray(rec.p, refracted);
    Scattered(true, One, out, next)
  }

  /** When refraction is impossible (total internal reflection) the glass always mirrors. */
  lemma DielectricReflectsWhenRefractionFails(r: Ray, rec: HitRecord, attenuation: Float3, scattered: Ray, rand: Rng)
    requires var f := DielectricInterface(r, rec);
             !RayMath.Refract(r.direction, f.outwardNormal, f.niOverNt).0
    ensures Dielectric(r, rec, attenuation, scattered, rand).scattered.direction == RayMath.Reflect(r.direction, rec.normal)
  {
  }

  /**
   * `Generic`: dispatch on the material type.  Before the glass path it
   * discards one draw, so a glass scatter advances the generator twice; an
   * unrecognised type does not scatter and leaves every `ref` as it was.
   */
  function Generic(r: Ray, rec: HitRecord, attenuation: Float3, scattered: Ray, rng: Rng): (res: Scattered)
    ensures rec.material.materialType.Lambertian? ==> res == Diffuse(r, rec, attenuation, scattered, rng)
    ensures rec.material.materialType.Metal? ==> res == Metal(r, rec, attenuation, scattered, rng)
    ensures rec.material.materialType.Dielectric? ==> res == Dielectric(r, rec, attenuation, scattered, NextFloat(rng).1)
    ensures rec.material.materialType.Unrecognised? ==> res == Scattered(false, attenuation, scattered, rng)
  {
    match rec.material.materialType
    case Lambertian => Diffuse(r, rec, attenuation, scattered, rng)
    case Metal => Metal(r, rec, attenuation, scattered, rng)
    case Dielectric =>
      var (_, afterDiscard) := NextFloat(rng);
      Dielectric(r, rec, attenuation, scattered, afterDiscard)
    case Unrecognised(_) => Scattered(false, attenuation, scattered, rng)
  }

  /** How far `Generic` advances the generator: twice for glass, not at all otherwise. */
  lemma GenericDraws(r: Ray, rec: HitRecord, attenuation: Float3, scattered: Ray, rng: Rng)
    ensures rec.material.materialType.Dielectric? ==>
              Generic(r, rec, attenuation, scattered, rng).rng == NextFloat(NextFloat(rng).1).1
    ensures !rec.material.materialType.Dielectric? ==> Generic(r, rec, attenuation, scattered, rng).rng == rng
  {
  }

  /**
   * Attenuation stays in the unit cube when the material's albedo does: the
   * glass path is white and the others use the albedo.
   */
  lemma GenericAttenuationBounded(r: Ray, rec: HitRecord, attenuation: Float3, scattered: Ray, rng: Rng)
    requires InUnitCube(rec.material.albedo)
    requires Generic(r, rec, attenuation, scattered, rng).scatters
    ensures InUnitCube(Generic(r, rec, attenuation, scattered, rng).attenuation)
  {
  }

  predicate InUnitCube(c: Float3) {
    0.0 <= c.x <= 1.0 && 0.0 <= c.y <= 1.0 && 0.0 <= c.z <= 1.0
  }
}
