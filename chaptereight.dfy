/**
 * `ChapterEight`: the serial tracer of the materials chapter.  Its job keeps
 * a `recursionCounter` field that `Color` increments on every hit and that
 * the sample loop resets before each sample; `Color` gives up (sky) once the
 * counter reaches `maxHits`.  Each pixel is the mean of `numberOfSamples`
 * jittered samples, converted with `ToRgb24`.
 */
module ChapterEight {
  import opened Mathematics
  import opened Randomness
  import opened Structs
  import opened Hittables
  import opened Indexing
  import opened Render
  import opened Samples
  import opened Shading
  import Utils
  import Extension
  import Camera
  import Tracing
  import SphereSets

  /** `maxHits` as `DrawToTexture` sets it. */
  const MaxHits: int := 50

  /**
   * One sample of pixel `(i, j)`: two jittering draws on the job's generator,
   * the camera's ray through the jittered point, and the counted colour with
   * the counter reset to 0.  `Color` passes the generator on by value, so
   * the sample leaves it where the two draws left it.
   */
  function EightSample(camera: Camera.CameraFrame, world: HitableArray, width: nat, height: nat, maxHits: int)
    : (nat, nat, Rng) -> (Float3, Rng)
  {
    (i: nat, j: nat, r: Rng) =>
      var s := Jitter(i, j, width, height, r);
      (CountedColor(Camera.GetRay(camera, s.u, s.v), world, 0, 0, maxHits, s.rng).0, s.rng)
  }

  /** The pixel shader of `Job.Execute`: the mean of `n` samples, as a 24-bit colour. */
  function EightShade(camera: Camera.CameraFrame, world: HitableArray, width: nat, height: nat, maxHits: int, n: nat)
    : (nat, nat, Rng) -> (Color24, Rng)
  {
    SampledShade(EightSample(camera, world, width, height, maxHits), n, Extension.ToRgb24)
  }

  /**
   * A pixel of the image is `ToRgb24` of the mean of its `n` samples, drawn
   * one after the other from the generator the earlier pixels left.
   */
  lemma PixelIsMean(camera: Camera.CameraFrame, world: HitableArray, width: nat, height: nat, maxHits: int, n: nat,
                    i: nat, j: nat, rng: Rng)
    requires i < width && j < height
    ensures RowMajor(width, i, j) < width * height
    ensures var kernel := RowMajorKernel(EightShade(camera, world, width, height, maxHits, n), width);
      var before := Run(kernel, RowMajor(width, i, j), rng).1;
      var run := Run(SampleKernel(EightSample(camera, world, width, height, maxHits), i, j), n, before).0;
      |run| == n && Run(kernel, width * height, rng).0[RowMajor(width, i, j)] == Extension.ToRgb24(Mean(run))
  {
    var shade := EightShade(camera, world, width, height, maxHits, n);
    RenderedPixel(shade, width, height, i, j, rng);
    var before := Run(RowMajorKernel(shade, width), RowMajor(width, i, j), rng).1;
    SampledShadeAt(EightSample(camera, world, width, height, maxHits), n, Extension.ToRgb24, i, j, before);
  }

  /**
   * A dielectric sphere has no case in the switch: a ray that hits one while
   * bounces remain is sky, exactly as if it had missed, and the hit still
   * counts.
   */
  lemma GlassShowsSky(r: Ray, world: HitableArray, depth: int, counter: int, maxHits: int, random: Rng)
    requires counter < maxHits && depth < Tracing.MaxDepth
    requires var (hit, rec) := HitResult(world, r, Tracing.TMin, FloatMaxValue, DefaultHitRecord);
      hit && rec.material.materialType.Dielectric?
    ensures CountedColor(r, world, depth, counter, maxHits, random) == (Utils.BackgroundColor(r), counter + 1)
  {
  }

  /**
   * Once the counter has reached `maxHits`, `Color` returns the sky without
   * testing the scene: the result does not depend on the world.
   */
  lemma ExhaustedIgnoresWorld(r: Ray, world1: HitableArray, world2: HitableArray, depth: int, counter: int, maxHits: int,
                              random: Rng)
    requires counter >= maxHits
    ensures CountedColor(r, world1, depth, counter, maxHits, random) == CountedColor(r, world2, depth, counter, maxHits, random)
    ensures CountedColor(r, world1, depth, counter, maxHits, random).0 == Utils.BackgroundColor(r)
  {
  }

  /** The counter never passes `maxHits` once it starts at or below it. */
  lemma {:induction false} CounterBounded(r: Ray, world: HitableArray, depth: int, counter: int, maxHits: int, random: Rng)
    requires counter <= (if maxHits < 0 then 0 else maxHits)
    ensures counter <= CountedColor(r, world, depth, counter, maxHits, random).1 <= (if maxHits < 0 then 0 else maxHits)
    decreases Tracing.BouncesLeft(depth)
  {
    if counter < maxHits {
      var (hit, rec) := HitResult(world, r, Tracing.TMin, FloatMaxValue, DefaultHitRecord);
      var b := MaterialScatter(NoGlassCase, random, r, rec);
      if hit && depth < Tracing.MaxDepth && b.scatters {
        CounterBounded(b.scattered, world, depth + 1, counter + 1, maxHits, random);
      }
    }
  }

  /** `ChapterEight.Job`. */
  class Job {
    const maxHits: int
    /** `size`. */
    const width: nat
    const height: nat
    const numberOfSamples: nat
    const camera: Camera.CameraFrame
    /** `World`. */
    const world: HitableArray
    /** `Pixels`: written, never read. */
    const pixels: array<Color24>
    /** `random`: the `NextFloat` calls of `Execute` advance it. */
    var random: Rng
    /** `recursionCounter`. */
    var recursionCounter: int

    constructor (maxHits: int, width: nat, height: nat, numberOfSamples: nat, random: Rng,
                 camera: Camera.CameraFrame, world: HitableArray, pixels: array<Color24>)
      ensures this.maxHits == maxHits && this.width == width && this.height == height
      ensures this.numberOfSamples == numberOfSamples && this.random == random
      ensures this.camera == camera && this.world == world && this.pixels == pixels
      ensures recursionCounter == 0
    {
      this.maxHits, this.width, this.height, this.numberOfSamples := maxHits, width, height, numberOfSamples;
      this.random, this.camera, this.world, this.pixels := random, camera, world, pixels;
      recursionCounter := 0;
    }

    /** The job's sample, on its own settings. */
    ghost function Sample(): (nat, nat, Rng) -> (Float3, Rng) {
      EightSample(camera, world, width, height, maxHits)
    }

    /** The job's pixel shader, on its own settings. */
    ghost function Shade(): (nat, nat, Rng) -> (Color24, Rng) {
      EightShade(camera, world, width, height, maxHits, numberOfSamples)
    }

    /**
     * `Color(r, world, depth)`: the counted colour, with the counter advanced
     * by the hits it takes.  The generator is only read.
     */
    method Color(r: Ray, depth: int) returns (c: Float3)
      modifies this`recursionCounter
      ensures (c, recursionCounter) == CountedColor(r, world, depth, old(recursionCounter), maxHits, random)
      decreases Tracing.BouncesLeft(depth)
    {
      var hit, rec := false, DefaultHitRecord;
      if recursionCounter < maxHits {
        hit, rec := Hit(world, r, Tracing.TMin, FloatMaxValue, DefaultHitRecord);
      }
      if hit {
        recursionCounter := recursionCounter + 1;
        if depth < 50 {
          var b := MaterialScatter(NoGlassCase, random, r, rec);
          if b.scatters {
            c := Color(b.scattered, depth + 1);
            c := Mul(b.attenuation, c);
            return;
          }
        } else {
          return Zero;
        }
      }
      c := Utils.BackgroundColor(r);
    }

    /** One pass of the sample loop: jitter, ray, counter reset, colour. */
    method TakeSample(i: nat, j: nat) returns (c: Float3)
      modifies this
      ensures (c, random) == Sample()(i, j, old(random))
      ensures recursionCounter <= (if maxHits < 0 then 0 else maxHits)
    {
      var (du, r1) := NextFloat(random);
      random := r1;
      var u := Quot(i as real + du, width as real);
      var (dv, r2) := NextFloat(random);
      random := r2;
      var v := Quot(j as real + dv, height as real);
      var ray := Camera.GetRay(camera, u, v);
      recursionCounter := 0;
      c := Color(ray, 0);
      CounterBounded(ray, world, 0, 0, maxHits, random);
    }

    /** The sample loop of pixel `(i, j)` and the conversion of the mean. */
    method PixelAt(i: nat, j: nat) returns (pixel: Color24)
      modifies this
      ensures (pixel, random) == Shade()(i, j, old(random))
    {
      ghost var r0 := random;
      ghost var kernel := SampleKernel(Sample(), i, j);
      var col := Zero;
      var s := 0;
      while s < numberOfSamples
        invariant 0 <= s <= numberOfSamples
        invariant col == SumOf(Run(kernel, s, r0).0) && random == Run(kernel, s, r0).1
      {
        ghost var earlier := Run(kernel, s, r0).0;
        var c := TakeSample(i, j);
        assert Run(kernel, s + 1, r0).0 == earlier + [c];
        assert (earlier + [c])[..s] == earlier;
        col := Add(col, c);
        s := s + 1;
      }
      SampledShadeAt(Sample(), numberOfSamples, Extension.ToRgb24, i, j, r0);
      pixel := Extension.ToRgb24(Average(col, numberOfSamples));
    }

    /**
     * `Execute()`: rows bottom to top, columns left to right, each pixel
     * written at `j * nx + i`.  The image is the shader's row-major image and
     * the generator ends where the last sample left it.
     */
    method Execute()
      requires width * height <= pixels.Length
      modifies this, pixels
      ensures pixels[..width * height] == Run(RowMajorKernel(Shade(), width), width * height, old(random)).0
      ensures random == Run(RowMajorKernel(Shade(), width), width * height, old(random)).1
      ensures pixels[width * height..] == old(pixels[width * height..])
    {
      ghost var rng := random;
      ghost var total := width * height;
      var start := 0;
      var j := 0;
      while j < height
        invariant 0 <= j <= height && start == RowStart(width, j)
        invariant Rendered(pixels, RowMajorKernel(Shade(), width), start, rng, random)
        invariant forall k :: total <= k < pixels.Length ==> pixels[k] == old(pixels[k])
      {
        RowStartFits(width, height, j);
        RowStartIsProduct(width, j);
        ExecuteRow(j, start, rng);
        start, j := start + width, j + 1;
      }
      RowStartFits(width, height, j);
    }

    /** The inner loop of `Execute`: row `j`, after the rows below it. */
    method ExecuteRow(j: nat, start: nat, ghost rng: Rng)
      requires start == j * width && start + width <= pixels.Length
      requires Rendered(pixels, RowMajorKernel(Shade(), width), start, rng, random)
      modifies this, pixels
      ensures Rendered(pixels, RowMajorKernel(Shade(), width), start + width, rng, random)
      ensures forall k :: start + width <= k < pixels.Length ==> pixels[k] == old(pixels[k])
    {
      var index := start;
      var i := 0;
      while i < width
        invariant 0 <= i <= width
        invariant index == start + i
        invariant Rendered(pixels, RowMajorKernel(Shade(), width), index, rng, random)
        invariant forall k :: start + width <= k < pixels.Length ==> pixels[k] == old(pixels[k])
      {
        WriteNext(i, j, index, rng);
        index := index + 1;
        i := i + 1;
      }
    }

    /** One pass of the inner loop: pixel `(i, j)` written at `index`, after the pixels before it. */
    method WriteNext(i: nat, j: nat, index: nat, ghost rng: Rng)
      requires index == j * width + i && i < width && index < pixels.Length
      requires Rendered(pixels, RowMajorKernel(Shade(), width), index, rng, random)
      modifies this, pixels
      ensures Rendered(pixels, RowMajorKernel(Shade(), width), index + 1, rng, random)
      ensures forall k :: index + 1 <= k < pixels.Length ==> pixels[k] == old(pixels[k])
    {
      RowMajorStep(Shade(), width, i, j, rng);
      ghost var before := pixels[..index];
      var c := PixelAt(i, j);
      pixels[index] := c;
      assert pixels[..index + 1] == before + [c];
    }
  }

  /** `ChapterEight`, the chapter object. */
  class ChapterEight {
    var numberOfSamples: nat
    /** `canvasScale { get; set; }`: the texture is `ImageSize * canvasScale`. */
    var canvasScale: nat

    constructor (numberOfSamples: nat, canvasScale: nat)
      ensures this.numberOfSamples == numberOfSamples && this.canvasScale == canvasScale
    {
      this.numberOfSamples, this.canvasScale := numberOfSamples, canvasScale;
    }

    /**
     * `DrawToTexture()`: a job with `maxHits = 50` on the default camera and
     * `FourVaryingSize`, a generator from `InitState()`'s default seed and a
     * buffer for the scaled image, run to completion.  The result is the
     * buffer the texture is loaded from.
     */
    method DrawToTexture(imageWidth: nat, imageHeight: nat) returns (pixels: array<Color24>)
      ensures var width, height := imageWidth * canvasScale, imageHeight * canvasScale;
        pixels.Length == width * height
        && pixels[..] == Run(RowMajorKernel(EightShade(Camera.Default, SphereSets.FourVaryingSize(), width, height,
                                                       MaxHits, numberOfSamples), width),
                             width * height, InitState(DefaultSeed)).0
    {
      var width, height := imageWidth * canvasScale, imageHeight * canvasScale;
      pixels := new Color24[width * height](_ => Color24(0, 0, 0));
      var job := new Job(MaxHits, width, height, numberOfSamples, InitState(DefaultSeed), Camera.Default,
                         SphereSets.FourVaryingSize(), pixels);
      job.Execute();
      assert pixels[..] == pixels[..width * height];
    }
  }
}
