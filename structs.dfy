/**
 * The renderer's plain value types: rays, materials, hit records, 24-bit
 * colours and the shared constants.
 */
module Structs {
  import opened Mathematics

  /** The outcome of an operation that can fail: the value, or nothing when the source throws. */
  datatype Option<T> = None | Some(value: T)

  /** A ray: `origin + t * direction`. */
  datatype Ray = Ray(origin: Float3, direction: Float3)

  const DefaultRay := Ray(Zero, Zero)

  /** `Ray.PointAtParameter`. */
  function PointAtParameter(r: Ray, t: real): (p: Float3)
    ensures Sub(p, r.origin) == Scale(t, r.direction)
  {
    Add(r.origin, Scale(t, r.direction))
  }

  /**
   * `MaterialType`.  The enum's declaration is not part of this model; the
   * scatter dispatch names Lambertian, Metal and Dielectric, and any other
   * value of the enum falls through to "no scatter".
   */
  datatype MaterialType = Lambertian | Metal | Dielectric | Unrecognised(value: int)

  datatype Material = Material(fuzziness: real, refractionIndex: real, materialType: MaterialType, albedo: Float3)

  /** The `Material(type, albedo, fuzziness = 0, refractionIndex = 1)` constructor with its defaults. */
  function NewMaterial(materialType: MaterialType, albedo: Float3, fuzziness: real := 0.0, refractionIndex: real := 1.0): (m: Material)
    ensures m.materialType == materialType && m.albedo == albedo
    ensures m.fuzziness == fuzziness && m.refractionIndex == refractionIndex
  {
    Material(fuzziness, refractionIndex, materialType, albedo)
  }

  /** `default(Material)`: all fields zero, the enum at its first member. */
  const DefaultMaterial := Material(0.0, 0.0, Lambertian, Zero)

  /** `HitRecord`, with the `material` field the scatter code reads. */
  datatype HitRecord = HitRecord(t: real, p: Float3, normal: Float3, material: Material)

  /** `new HitRecord()`. */
  const DefaultHitRecord := HitRecord(0.0, Zero, Zero, DefaultMaterial)

  /** A byte of a `Color24`. */
  type Byte = b: int | 0 <= b < 256

  /** `Color24`: a packed 8-bit-per-channel RGB pixel. */
  datatype Color24 = Color24(r: Byte, g: Byte, b: Byte)

  /** `Constants.one`. */
  const One := Float3(1.0, 1.0, 1.0)
  /** `Constants.blueGradient`, the sky colour at the zenith. */
  const BlueGradient := Float3(0.5, 0.7, 1.0)
  /** `Constants.rgbMultiplier`. */
  const RgbMultiplier: real := 255.999
  /** `Constants.DefaultImageSize`. */
  const DefaultImageWidth: nat := 200
  const DefaultImageHeight: nat := 100
  /** `float.MaxValue`, the far end of every primary hit test. */
  const FloatMaxValue: real := 340282346638528859811704183484516925440.0
}
