/**
 * `ChapterSeven`: diffuse spheres that absorb a fixed fraction of the light
 * at every hit.  `Color` bounces a ray off every surface it meets towards
 * `p + normal + RandomInUnitSphere(random)` and scales the result by
 * `absorbRate`; a counter field stops the recursion after `maxHits` hits,
 * and the ray that gets away (or is stopped) shows the sky.  The colour of a
 * sample is therefore `absorbRate^k` times the sky of the last ray, `k` the
 * number of hits.
 */
module ChapterSeven {
  import opened Mathematics
  import opened Randomness
  import opened Structs
  import opened Hittables
  import opened Render
  import opened Samples
  import Utils
  import Extension
  import Camera
  import Tracing
  import Scatter
  import SphereSets

  /** `maxHits` as `Schedule` sets it. */
  const MaxHits: int := 32

  /**
   * The ray `Color` follows after a hit: from the hit point towards
   * `p + normal + RandomInUnitSphere(random)`.  The generator is passed by
   * value, so every bounce of one sample draws the same point.
   */
  function BounceRay(rec: HitRecord, random: Rng): Ray {
    var target := Add(Add(rec.p, rec.normal), Utils.UnitSphereSample(random));
    Ray(rec.p, Sub(target, rec.p))
  }

  /** Hits left before the counter stops the recursion. */
  function HitsLeft(counter: int, maxHits: int): nat {
    if counter < maxHits then maxHits - counter else 0
  }

  /**
   * `Color(r, world)` with the counter at `counter`: the colour and the
   * counter afterwards.  The scene is tested only while the counter is
   * below `maxHits`.
   */
  function AbsorbColor(r: Ray, world: HitableArray, counter: int, maxHits: int, absorbRate: real, random: Rng): (Float3, int)
    decreases HitsLeft(counter, maxHits)
  {
    if counter < maxHits then
      var (hit, rec) := HitResult(world, r, Tracing.TMin, FloatMaxValue, DefaultHitRecord);
      if hit then
        var (c, k) := AbsorbColor(BounceRay(rec, random), world, counter + 1, maxHits, absorbRate, random);
        (Scale(absorbRate, c), k)
      else (Utils.BackgroundColor(r), counter)
    else (Utils.BackgroundColor(r), counter)
  }

  /**
   * The path of a ray through the scene, independently of its colour: how
   * many surfaces it meets before it escapes or the counter stops it, and
   * the ray that finally looks at the sky.
   */
  function Path(r: Ray, world: HitableArray, counter: int, maxHits: int, random: Rng): (p: (nat, Ray))
    decreases HitsLeft(counter, maxHits)
  {
    var (hit, rec) := HitResult(world, r, Tracing.TMin, FloatMaxValue, DefaultHitRecord);
    if counter < maxHits && hit then
      var (n, last) := Path(BounceRay(rec, random), world, counter + 1, maxHits, random);
      (n + 1, last)
    else (0, r)
  }

  /**
   * The colour of a ray is `absorbRate^k` times the sky of the last ray of
   * its path, `k` its number of hits; the counter ends `k` higher and never
   * passes `maxHits` unless it started past it.
   */
  lemma {:induction false} AbsorbIsPower(r: Ray, world: HitableArray, counter: int, maxHits: int, absorbRate: real, random: Rng)
    ensures var res := AbsorbColor(r, world, counter, maxHits, absorbRate, random);
      var path := Path(r, world, counter, maxHits, random);
      res.0 == Scale(Pow(absorbRate, path.0), Utils.BackgroundColor(path.1))
      && res.1 == counter + path.0
      && (counter <= maxHits ==> res.1 <= maxHits)
    decreases HitsLeft(counter, maxHits)
  {
    var (hit, rec) := HitResult(world, r, Tracing.TMin, FloatMaxValue, DefaultHitRecord);
    if counter < maxHits && hit {
      var next := BounceRay(rec, random);
      AbsorbIsPower(next, world, counter + 1, maxHits, absorbRate, random);
      var c := AbsorbColor(next, world, counter + 1, maxHits, absorbRate, random).0;
      var (n, last) := Path(next, world, counter + 1, maxHits, random);
      assert AbsorbColor(r, world, counter, maxHits, absorbRate, random).0 == Scale(absorbRate, c);
      assert Path(r, world, counter, maxHits, random) == (n + 1, last);
      AbsorbOnce(absorbRate, n, Utils.BackgroundColor(last), c);
    } else {
      assert Pow(absorbRate, 0) == 1.0;
      assert Scale(1.0, Utils.BackgroundColor(r)) == Utils.BackgroundColor(r);
    }
  }

  /** One more absorption turns `rate^n` times the sky into `rate^(n+1)` times it. */
  lemma AbsorbOnce(rate: real, n: nat, sky: Float3, c: Float3)
    requires c == Scale(Pow(rate, n), sky)
    ensures Scale(rate, c) == Scale(Pow(rate, n + 1), sky)
  {
    var q, p := Pow(rate, n), Pow(rate, n + 1);
    PowStep(rate, n);
    ScaleTwice(rate, q, sky);
    SameFactor(rate * q, p, sky);
  }

  /** Equal factors scale a vector alike. */
  lemma SameFactor(a: real, b: real, v: Float3)
    requires a == b
    ensures Scale(a, v) == Scale(b, v)
  {
  }

  /**
   * With an absorb rate in [0, 1] the colour of a sample stays in the unit
   * cube: the sky is, and every hit only darkens it.
   */
  lemma AbsorbBounded(r: Ray, world: HitableArray, counter: int, maxHits: int, absorbRate: real, random: Rng)
    requires SqrtExact() && 0.0 <= absorbRate <= 1.0
    ensures Scatter.InUnitCube(AbsorbColor(r, world, counter, maxHits, absorbRate, random).0)
  {
    AbsorbIsPower(r, world, counter, maxHits, absorbRate, random);
    var (n, last) := Path(r, world, counter, maxHits, random);
    PowUnitInterval(absorbRate, n);
    Utils.BackgroundBounds(last);
    UnitScaleBounded(Pow(absorbRate, n), Utils.BackgroundColor(last));
  }

  /** A factor in [0, 1] keeps a colour of the unit cube inside it. */
  lemma UnitScaleBounded(s: real, c: Float3)
    requires 0.0 <= s <= 1.0 && Scatter.InUnitCube(c)
    ensures Scatter.InUnitCube(Scale(s, c))
  {
    Tracing.UnitProduct(s, c.x);
    Tracing.UnitProduct(s, c.y);
    Tracing.UnitProduct(s, c.z);
  }

  /**
   * One sample of pixel `(i, j)`: two jittering draws on the job's
   * generator, the camera's ray through the jittered point and its colour
   * with the counter reset to 0.
   */
  function AbsorbSample(camera: Camera.CameraFrame, world: HitableArray, width: nat, height: nat, maxHits: int,
                        absorbRate: real): (nat, nat, Rng) -> (Float3, Rng)
  {
    (i: nat, j: nat, r: Rng) =>
      var s := Jitter(i, j, width, height, r);
      (AbsorbColor(Camera.GetRay(camera, s.u, s.v), world, 0, maxHits, absorbRate, s.rng).0, s.rng)
  }

  /** The pixel shader of `Job.Execute`: the mean of `n` samples, as a 24-bit colour. */
  function AbsorbShade(camera: Camera.CameraFrame, world: HitableArray, width: nat, height: nat, maxHits: int,
                       absorbRate: real, n: nat): (nat, nat, Rng) -> (Color24, Rng)
  {
    SampledShade(AbsorbSample(camera, world, width, height, maxHits, absorbRate), n, Extension.ToRgb24)
  }

  /** `ChapterSeven.Job`. */
  class Job {
    const absorbRate: real
    const maxHits: int
    /** `size`. */
    const width: nat
    const height: nat
    const numberOfSamples: nat
    const camera: Camera.CameraFrame
    /** `World`. */
    const world: HitableArray
    /** `Pixels`: written, never read. */
    const pixels: array<Color24>
    /** `random`: the `NextFloat` calls of `Execute` advance it. */
    var random: Rng
    /** `recursionCounter`. */
    var recursionCounter: int

    constructor (absorbRate: real, maxHits: int, width: nat, height: nat, numberOfSamples: nat, random: Rng,
                 camera: Camera.CameraFrame, world: HitableArray, pixels: array<Color24>)
      ensures this.absorbRate == absorbRate && this.maxHits == maxHits && this.width == width && this.height == height
      ensures this.numberOfSamples == numberOfSamples && this.random == random
      ensures this.camera == camera && this.world == world && this.pixels == pixels
      ensures recursionCounter == 0
    {
      this.absorbRate, this.maxHits, this.width, this.height := absorbRate, maxHits, width, height;
      this.numberOfSamples, this.random, this.camera, this.world, this.pixels := numberOfSamples, random, camera, world, pixels;
      recursionCounter := 0;
    }

    /** The job's sample, on its own settings. */
    ghost function Sample(): (nat, nat, Rng) -> (Float3, Rng) {
      AbsorbSample(camera, world, width, height, maxHits, absorbRate)
    }

    /** The job's pixel shader, on its own settings. */
    ghost function Shade(): (nat, nat, Rng) -> (Color24, Rng) {
      AbsorbShade(camera, world, width, height, maxHits, absorbRate, numberOfSamples)
    }

    /**
     * `Color(r, world)`: the absorbed colour, with the counter advanced by
     * the hits.  `Utils.RandomInUnitSphere` gets the generator by value.
     */
    method Color(r: Ray) returns (c: Float3)
      modifies this`recursionCounter
      ensures (c, recursionCounter) == AbsorbColor(r, world, old(recursionCounter), maxHits, absorbRate, random)
      decreases HitsLeft(recursionCounter, maxHits)
    {
      var hit, rec := false, DefaultHitRecord;
      if recursionCounter < maxHits {
        hit, rec := Hit(world, r, Tracing.TMin, FloatMaxValue, DefaultHitRecord);
      }
      if hit {
        recursionCounter := recursionCounter + 1;
        var p := Utils.RandomInUnitSphere(random);
        var target := Add(Add(rec.p, rec.normal), p);
        c := Color(Ray(rec.p, Sub(target, rec.p)));
        c := Scale(absorbRate, c);
        return;
      }
      c := Utils.BackgroundColor(r);
    }

    /** One pass of the sample loop: jitter, ray, counter reset, colour. */
    method TakeSample(i: nat, j: nat) returns (c: Float3)
      modifies this
      ensures (c, random) == Sample()(i, j, old(random))
      ensures 0 <= recursionCounter <= (if maxHits < 0 then 0 else maxHits)
    {
      var (du, r1) := NextFloat(random);
      random := r1;
      var u := Quot(i as real + du, width as real);
      var (dv, r2) := NextFloat(random);
      random := r2;
      var v := Quot(j as real + dv, height as real);
      var ray := Camera.GetRay(camera, u, v);
      recursionCounter := 0;
      c := Color(ray);
      AbsorbIsPower(ray, world, 0, maxHits, absorbRate, random);
    }

    /** The sample loop of pixel `(i, j)` and the conversion of the mean. */
    method PixelAt(i: nat, j: nat) returns (pixel: Color24)
      modifies this
      ensures (pixel, random) == Shade()(i, j, old(random))
    {
      ghost var r0 := random;
      ghost var kernel := SampleKernel(Sample(), i, j);
      var col := Zero;
      var s := 0;
      while s < numberOfSamples
        invariant 0 <= s <= numberOfSamples
        invariant col == SumOf(Run(kernel, s, r0).0) && random == Run(kernel, s, r0).1
      {
        ghost var earlier := Run(kernel, s, r0).0;
        var c := TakeSample(i, j);
        assert Run(kernel, s + 1, r0).0 == earlier + [c];
        assert (earlier + [c])[..s] == earlier;
        col := Add(col, c);
        s := s + 1;
      }
      SampledShadeAt(Sample(), numberOfSamples, Extension.ToRgb24, i, j, r0);
      pixel := Extension.ToRgb24(Average(col, numberOfSamples));
    }

    /**
     * `Execute()`: rows bottom to top, columns left to right, each pixel
     * written at `rowIndex + i` with `rowIndex = j * nx`.
     */
    method Execute()
      requires width * height <= pixels.Length
      modifies this, pixels
      ensures pixels[..width * height] == Run(RowMajorKernel(Shade(), width), width * height, old(random)).0
      ensures random == Run(RowMajorKernel(Shade(), width), width * height, old(random)).1
      ensures pixels[width * height..] == old(pixels[width * height..])
    {
      ghost var rng := random;
      ghost var total := width * height;
      var start := 0;
      var j := 0;
      while j < height
        invariant 0 <= j <= height && start == RowStart(width, j)
        invariant Rendered(pixels, RowMajorKernel(Shade(), width), start, rng, random)
        invariant forall k :: total <= k < pixels.Length ==> pixels[k] == old(pixels[k])
      {
        RowStartFits(width, height, j);
        RowStartIsProduct(width, j);
        ExecuteRow(j, start, rng);
        start, j := start + width, j + 1;
      }
      RowStartFits(width, height, j);
    }

    /** The inner loop of `Execute`: row `j`, after the rows below it. */
    method ExecuteRow(j: nat, rowIndex: nat, ghost rng: Rng)
      requires rowIndex == j * width && rowIndex + width <= pixels.Length
      requires Rendered(pixels, RowMajorKernel(Shade(), width), rowIndex, rng, random)
      modifies this, pixels
      ensures Rendered(pixels, RowMajorKernel(Shade(), width), rowIndex + width, rng, random)
      ensures forall k :: rowIndex + width <= k < pixels.Length ==> pixels[k] == old(pixels[k])
    {
      var i := 0;
      while i < width
        invariant 0 <= i <= width
        invariant Rendered(pixels, RowMajorKernel(Shade(), width), rowIndex + i, rng, random)
        invariant forall k :: rowIndex + width <= k < pixels.Length ==> pixels[k] == old(pixels[k])
      {
        WriteNext(i, j, rowIndex + i, rng);
        i := i + 1;
      }
    }

    /** One pass of the inner loop: pixel `(i, j)` written at `index`, after the pixels before it. */
    method WriteNext(i: nat, j: nat, index: nat, ghost rng: Rng)
      requires index == j * width + i && i < width && index < pixels.Length
      requires Rendered(pixels, RowMajorKernel(Shade(), width), index, rng, random)
      modifies this, pixels
      ensures Rendered(pixels, RowMajorKernel(Shade(), width), index + 1, rng, random)
      ensures forall k :: index + 1 <= k < pixels.Length ==> pixels[k] == old(pixels[k])
    {
      RowMajorStep(Shade(), width, i, j, rng);
      ghost var before := pixels[..index];
      var c := PixelAt(i, j);
      pixels[index] := c;
      assert pixels[..index + 1] == before + [c];
    }
  }

  /** `ChapterSeven`, the chapter object. */
  class ChapterSeven {
    var numberOfSamples: nat
    var absorbRate: real
    /** `m_Spheres`: `FourVaryingSize`, built with the chapter. */
    var spheres: HitableArray

    constructor (numberOfSamples: nat, absorbRate: real)
      ensures this.numberOfSamples == numberOfSamples && this.absorbRate == absorbRate
      ensures spheres == SphereSets.FourVaryingSize()
    {
      this.numberOfSamples, this.absorbRate := numberOfSamples, absorbRate;
      spheres := SphereSets.FourVaryingSize();
    }

    /**
     * `Schedule()`, completed: a job with `maxHits = 32` on the default
     * camera and the chapter's spheres, a generator from `InitState()`'s
     * default seed, the texture's size and the chapter's pixel buffer.
     */
    method Schedule(width: nat, height: nat, pixelBuffer: array<Color24>)
      requires width * height == pixelBuffer.Length
      modifies pixelBuffer
      ensures pixelBuffer[..] == Run(RowMajorKernel(AbsorbShade(Camera.Default, spheres, width, height, MaxHits, absorbRate,
                                                                numberOfSamples), width),
                                     width * height, InitState(DefaultSeed)).0
    {
      var job := new Job(absorbRate, MaxHits, width, height, numberOfSamples, InitState(DefaultSeed), Camera.Default,
                         spheres, pixelBuffer);
      job.Execute();
      assert pixelBuffer[..] == pixelBuffer[..width * height];
    }

    /** `Dispose()`: the base class releases nothing; the spheres are released. */
    method Dispose()
      modifies this`spheres
      ensures spheres == Hittables.Dispose(old(spheres))
    {
      spheres := Hittables.Dispose(spheres);
    }
  }
}
