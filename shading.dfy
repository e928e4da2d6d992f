/**
 * The `Color` methods of the chapter jobs.  Every progressive and batched
 * tracer carries its own copy of the path tracer: instead of
 * `Scatter.Generic` it switches on the material type and calls the
 * per-material helpers of `DiffuseMaterial`, `MetalMaterial` and `Utils`,
 * passing the job's generator BY VALUE.  The generator therefore never
 * advances while a ray bounces, and every bounce of one ray draws from the
 * same state.  The copies differ only in their glass case, which
 * `GlassPath` names; `ChapterEight` adds a hit counter and the debug tracer
 * records every scattered ray.
 */
module Shading {
  import opened Mathematics
  import opened Randomness
  import opened Structs
  import opened Utils
  import opened Hittables
  import opened Materials
  import Scatter
  import Tracing

  /** What a job's `Color` does on a dielectric sphere. */
  datatype GlassPath =
    | NoGlassCase        // no `case Dielectric`: the switch falls through to the sky
    | GlassWithIndex     // `Utils.DielectricScatter(random, refractionIndex, r, rec, ...)`
    | GlassWithoutIndex  // `Utils.DielectricScatter(random, r, rec, ...)`

  /** `Utils.DielectricScatter(random, refractionIndex, r, rec, ...)`: not part of this model. */
  const DielectricScatterFn: (Rng, real, Ray, HitRecord) -> Bounce
  /** `Utils.DielectricScatter(random, r, rec, ...)`: not part of this model. */
  const DielectricScatterNoIndexFn: (Rng, Ray, HitRecord) -> Bounce

  /** The outcome of a `break` out of the switch: no scatter. */
  const NoBounce := Bounce(false, Zero, DefaultRay)

  /** The material switch of a job's `Color`. */
  function MaterialScatter(glass: GlassPath, random: Rng, r: Ray, rec: HitRecord): (b: Bounce)
    ensures rec.material.materialType.Lambertian? ==> b == DiffuseScatter(random, rec.material.albedo, r, rec)
    ensures rec.material.materialType.Metal? ==> b == FuzzyMetalScatter(r, rec, random)
    ensures rec.material.materialType.Unrecognised? ==> !b.scatters
    ensures rec.material.materialType.Dielectric? && glass.NoGlassCase? ==> !b.scatters
  {
    match rec.material.materialType
    case Lambertian => DiffuseScatter(random, rec.material.albedo, r, rec)
    case Metal => FuzzyMetalScatter(r, rec, random)
    case Dielectric =>
      (match glass
       case NoGlassCase => NoBounce
       case GlassWithIndex => DielectricScatterFn(random, rec.material.refractionIndex, r, rec)
       case GlassWithoutIndex => DielectricScatterNoIndexFn(random, r, rec))
    case Unrecognised(_) => NoBounce
  }

  /**
   * A job's `Color(r, world, depth)`: sky on a miss, black at the bounce
   * limit, the attenuated colour of the scattered ray on a scatter and sky
   * when the material does not scatter.
   */
  function JobColor(r: Ray, world: HitableArray, depth: int, random: Rng, glass: GlassPath): Float3
    decreases Tracing.BouncesLeft(depth)
  {
    var (hit, rec) := HitResult(world, r, Tracing.TMin, FloatMaxValue, DefaultHitRecord);
    if !hit then BackgroundColor(r)
    else if depth >= Tracing.MaxDepth then Zero
    else
      var b := MaterialScatter(glass, random, r, rec);
      if b.scatters then Mul(b.attenuation, JobColor(b.scattered, world, depth + 1, random, glass))
      else BackgroundColor(r)
  }

  /** In a scene without glass, the switch and `Scatter.Generic` make the same bounce. */
  lemma SwitchMatchesGeneric(glass: GlassPath, random: Rng, r: Ray, rec: HitRecord)
    requires !rec.material.materialType.Dielectric?
    ensures var b := MaterialScatter(glass, random, r, rec);
      var s := Scatter.Generic(r, rec, Zero, DefaultRay, random);
      b.scatters == s.scatters && (s.scatters ==> b.attenuation == s.attenuation && b.scattered == s.scattered)
  {
    if rec.material.materialType.Metal? {
      SameAsRayMath(Normalize(r.direction), rec.normal, 0.0);
    }
  }

  /**
   * In a scene without glass, every job's `Color` computes exactly the colour
   * `RayMath.Color` computes from the same generator, whichever glass case
   * the job has.
   */
  lemma {:induction false} JobColorMatchesTracer(r: Ray, world: HitableArray, depth: int, random: Rng, glass: GlassPath)
    requires Tracing.NoGlass(world)
    ensures JobColor(r, world, depth, random, glass) == Tracing.Color(r, world, depth, random).0
    decreases Tracing.BouncesLeft(depth)
  {
    var (hit, rec) := HitResult(world, r, Tracing.TMin, FloatMaxValue, DefaultHitRecord);
    if hit && depth < Tracing.MaxDepth {
      HitFromScene(world, r, Tracing.TMin, FloatMaxValue, DefaultHitRecord);
      SwitchMatchesGeneric(glass, random, r, rec);
      Scatter.GenericDraws(r, rec, Zero, DefaultRay, random);
      var b := MaterialScatter(glass, random, r, rec);
      if b.scatters {
        JobColorMatchesTracer(b.scattered, world, depth + 1, random, glass);
      }
    }
  }

  /** The glass helpers, which are not part of this model, are assumed to attenuate by at most 1. */
  ghost predicate GlassAttenuationBounded(glass: GlassPath) {
    match glass
    case NoGlassCase => true
    case GlassWithIndex =>
      forall random, ri, r, rec :: Scatter.InUnitCube(DielectricScatterFn(random, ri, r, rec).attenuation)
    case GlassWithoutIndex =>
      forall random, r, rec :: Scatter.InUnitCube(DielectricScatterNoIndexFn(random, r, rec).attenuation)
  }

  /** With albedos (and the glass attenuation) in the unit cube, a job's colour stays in the unit cube. */
  lemma {:induction false} JobColorBounded(r: Ray, world: HitableArray, depth: int, random: Rng, glass: GlassPath)
    requires SqrtExact() && Tracing.AlbedosBounded(world) && GlassAttenuationBounded(glass)
    ensures Scatter.InUnitCube(JobColor(r, world, depth, random, glass))
    decreases Tracing.BouncesLeft(depth)
  {
    BackgroundBounds(r);
    var (hit, rec) := HitResult(world, r, Tracing.TMin, FloatMaxValue, DefaultHitRecord);
    if hit && depth < Tracing.MaxDepth {
      HitFromScene(world, r, Tracing.TMin, FloatMaxValue, DefaultHitRecord);
      var b := MaterialScatter(glass, random, r, rec);
      if b.scatters {
        JobColorBounded(b.scattered, world, depth + 1, random, glass);
        Tracing.MulBounded(b.attenuation, JobColor(b.scattered, world, depth + 1, random, glass));
      }
    }
  }

  /**
   * `ChapterEight.Job.Color`: before the hit test it checks
   * `recursionCounter < maxHits`, and it counts every hit.  The result is the
   * colour and the counter afterwards.
   */
  function CountedColor(r: Ray, world: HitableArray, depth: int, counter: int, maxHits: int, random: Rng): (Float3, int)
    decreases Tracing.BouncesLeft(depth)
  {
    if counter >= maxHits then (BackgroundColor(r), counter)
    else
      var (hit, rec) := HitResult(world, r, Tracing.TMin, FloatMaxValue, DefaultHitRecord);
      if !hit then (BackgroundColor(r), counter)
      else if depth >= Tracing.MaxDepth then (Zero, counter + 1)
      else
        var b := MaterialScatter(NoGlassCase, random, r, rec);
        if b.scatters then
          var (c, k) := CountedColor(b.scattered, world, depth + 1, counter + 1, maxHits, random);
          (Mul(b.attenuation, c), k)
        else (BackgroundColor(r), counter + 1)
  }

  /**
   * The counter is reset to 0 for each sample and the first call has depth 0,
   * so on every call the counter equals the depth.  With `maxHits = 50` the
   * counter check therefore trips exactly where the depth check would, and
   * first: a ray reaching depth 50 gets the sky colour, and the counter
   * afterwards never exceeds `maxHits`.
   */
  lemma {:induction false} CountedColorTracksDepth(r: Ray, world: HitableArray, depth: int, random: Rng)
    requires 0 <= depth <= Tracing.MaxDepth
    ensures var (c, k) := CountedColor(r, world, depth, depth, Tracing.MaxDepth, random);
      depth <= k <= Tracing.MaxDepth
      && (depth == Tracing.MaxDepth ==> c == BackgroundColor(r))
    decreases Tracing.BouncesLeft(depth)
  {
    if depth < Tracing.MaxDepth {
      var (hit, rec) := HitResult(world, r, Tracing.TMin, FloatMaxValue, DefaultHitRecord);
      var b := MaterialScatter(NoGlassCase, random, r, rec);
      if hit && b.scatters {
        CountedColorTracksDepth(b.scattered, world, depth + 1, random);
      }
    }
  }

  /**
   * The depth limit of `ChapterEight` is dead code: a ray that still hits
   * something at depth 50 is sky there, where the ChapterEightProgressive
   * job colour (the same switch without a counter) makes it black.
   */
  lemma CountedColorAtLimit(r: Ray, world: HitableArray, random: Rng)
    requires HitResult(world, r, Tracing.TMin, FloatMaxValue, DefaultHitRecord).0
    ensures CountedColor(r, world, Tracing.MaxDepth, Tracing.MaxDepth, Tracing.MaxDepth, random).0 == BackgroundColor(r)
    ensures JobColor(r, world, Tracing.MaxDepth, random, NoGlassCase) == Zero
  {
    CountedColorTracksDepth(r, world, Tracing.MaxDepth, random);
  }

  /**
   * `DebugTracerWithoutFocus.SerialJobWithFocus.Color`: the job colour with
   * the glass case `GlassWithoutIndex`, recording every scattered ray
   * (`RecordRaySegment`) before following it.  The result is the colour and
   * the recorded segments in order.
   */
  function TracedColor(r: Ray, world: HitableArray, depth: int, random: Rng): (Float3, seq<Ray>)
    decreases Tracing.BouncesLeft(depth)
  {
    var (hit, rec) := HitResult(world, r, Tracing.TMin, FloatMaxValue, DefaultHitRecord);
    if !hit then (BackgroundColor(r), [])
    else if depth >= Tracing.MaxDepth then (Zero, [])
    else
      var b := MaterialScatter(GlassWithoutIndex, random, r, rec);
      if b.scatters then
        var (c, segments) := TracedColor(b.scattered, world, depth + 1, random);
        (Mul(b.attenuation, c), [b.scattered] + segments)
      else (BackgroundColor(r), [])
  }

  /**
   * Recording does not change the colour, and a ray starting at depth `d`
   * records at most `50 - d` segments: one per bounce.
   */
  lemma {:induction false} TracedColorIsJobColor(r: Ray, world: HitableArray, depth: int, random: Rng)
    ensures TracedColor(r, world, depth, random).0 == JobColor(r, world, depth, random, GlassWithoutIndex)
    ensures |TracedColor(r, world, depth, random).1| <= Tracing.BouncesLeft(depth)
    decreases Tracing.BouncesLeft(depth)
  {
    var (hit, rec) := HitResult(world, r, Tracing.TMin, FloatMaxValue, DefaultHitRecord);
    if hit && depth < Tracing.MaxDepth {
      var b := MaterialScatter(GlassWithoutIndex, random, r, rec);
      if b.scatters {
        TracedColorIsJobColor(b.scattered, world, depth + 1, random);
      }
    }
  }
}
