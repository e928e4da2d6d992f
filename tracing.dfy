/**
 * `RayMath.Color`: the recursive path tracer shared by the batched tracer.
 * A ray that misses the scene takes the sky colour; a ray that hits scatters
 * off the material it hit and carries that material's attenuation, until the
 * fiftieth bounce, which is black.
 */
module Tracing {
  import opened Mathematics
  import opened Randomness
  import opened Structs
  import opened Utils
  import opened Hittables
  import Scatter

  /** Bounces after which a ray that still hits something is black. */
  const MaxDepth: int := 50
  /** The near end of every hit test, which keeps a scattered ray off its own surface. */
  const TMin: real := 0.001

  /** The termination measure of the recursion on `depth`. */
  function BouncesLeft(depth: int): nat {
    if depth < MaxDepth then MaxDepth - depth else 0
  }

  /**
   * `Color(r, world, depth, ref rng)`: the colour seen along `r` and the
   * generator afterwards.  The scatter step stands for the `Ray.Scatter`
   * extension the source calls, which is not part of this model; it is taken
   * to be `Scatter.Generic`.
   */
  function Color(r: Ray, world: HitableArray, depth: int, rng: Rng): (Float3, Rng)
    decreases BouncesLeft(depth)
  {
    var (hit, rec) := HitResult(world, r, TMin, FloatMaxValue, DefaultHitRecord);
    if !hit then (BackgroundColor(r), rng)
    else if depth >= MaxDepth then (Zero, rng)
    else
      var s := Scatter.Generic(r, rec, Zero, DefaultRay, rng);
      if s.scatters then
        var (c, next) := Color(s.scattered, world, depth + 1, s.rng);
        (Mul(s.attenuation, c), next)
      else (BackgroundColor(r), s.rng)
  }

  /** Every sphere's albedo lies in the unit cube. */
  predicate AlbedosBounded(world: HitableArray) {
    forall i :: 0 <= i < |world.Objects| ==> Scatter.InUnitCube(world.Objects[i].material.albedo)
  }

  /** No sphere of the scene is glass. */
  predicate NoGlass(world: HitableArray) {
    forall i :: 0 <= i < |world.Objects| ==> !world.Objects[i].material.materialType.Dielectric?
  }

  lemma MulBounded(a: Float3, b: Float3)
    requires Scatter.InUnitCube(a) && Scatter.InUnitCube(b)
    ensures Scatter.InUnitCube(Mul(a, b))
  {
    UnitProduct(a.x, b.x);
    UnitProduct(a.y, b.y);
    UnitProduct(a.z, b.z);
  }

  lemma UnitProduct(a: real, b: real)
    requires 0.0 <= a <= 1.0 && 0.0 <= b <= 1.0
    ensures 0.0 <= a * b <= 1.0
  {
    assert a * b <= 1.0 * b by {
      assert (1.0 - a) * b >= 0.0;
    }
  }

  /**
   * Energy is never created: with albedos in the unit cube, every colour the
   * tracer returns lies in the unit cube, whatever the depth and generator.
   */
  lemma {:induction false} ColorBounded(r: Ray, world: HitableArray, depth: int, rng: Rng)
    requires SqrtExact() && AlbedosBounded(world)
    ensures Scatter.InUnitCube(Color(r, world, depth, rng).0)
    decreases BouncesLeft(depth)
  {
    BackgroundBounds(r);
    var (hit, rec) := HitResult(world, r, TMin, FloatMaxValue, DefaultHitRecord);
    if hit && depth < MaxDepth {
      HitFromScene(world, r, TMin, FloatMaxValue, DefaultHitRecord);
      var s := Scatter.Generic(r, rec, Zero, DefaultRay, rng);
      if s.scatters {
        Scatter.GenericAttenuationBounded(r, rec, Zero, DefaultRay, rng);
        ColorBounded(s.scattered, world, depth + 1, s.rng);
        MulBounded(s.attenuation, Color(s.scattered, world, depth + 1, s.rng).0);
      }
    }
  }

  /**
   * Only glass draws from the caller's generator: in a scene without a
   * dielectric sphere, `Color` hands the generator back unchanged.
   */
  lemma {:induction false} ColorKeepsGeneratorWithoutGlass(r: Ray, world: HitableArray, depth: int, rng: Rng)
    requires NoGlass(world)
    ensures Color(r, world, depth, rng).1 == rng
    decreases BouncesLeft(depth)
  {
    var (hit, rec) := HitResult(world, r, TMin, FloatMaxValue, DefaultHitRecord);
    if hit && depth < MaxDepth {
      HitFromScene(world, r, TMin, FloatMaxValue, DefaultHitRecord);
      Scatter.GenericDraws(r, rec, Zero, DefaultRay, rng);
      var s := Scatter.Generic(r, rec, Zero, DefaultRay, rng);
      if s.scatters {
        ColorKeepsGeneratorWithoutGlass(s.scattered, world, depth + 1, s.rng);
      }
    }
  }

  /** An empty scene shows only the sky. */
  lemma EmptySceneIsSky(r: Ray, depth: int, rng: Rng)
    ensures Color(r, HitableArray([], true), depth, rng) == (BackgroundColor(r), rng)
  {
    EmptyNeverHits(r, TMin, FloatMaxValue, DefaultHitRecord);
  }
}
