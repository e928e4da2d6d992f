/**
 * `ChapterSevenAlternate`: chapter seven's absorbing diffuse spheres as a
 * parallel-for over pixel indices.  `Execute(index)` recovers column and
 * row from the index (the row in float), averages `numberOfSamples`
 * samples and stores them with alpha 1 in a float texture.  Its own
 * `RandomInUnitSphere` draws on a copy of the job's generator, so, as in
 * `ChapterSeven`, every bounce of one sample draws the same point, and its
 * inline sky is `Utils.BackgroundColor`.
 */
module SevenAlternate {
  import opened Mathematics
  import opened Randomness
  import opened Structs
  import opened Hittables
  import opened Indexing
  import opened Render
  import opened Samples
  import Utils
  import Camera
  import Tracing
  import SphereSets
  import ChapterSeven
  import EightProgressive

  /** `maxHits` as `DrawToTexture` sets it. */
  const MaxHits: int := 32

  /** The scale the `canvasScale` getter stores and returns, whatever was set. */
  const GetterScale: nat := 8

  /** The scale the chapter starts with. */
  const InitialScale: int := 4

  /** The pixel shader of `AllSamplesJob.Execute(index)`: the mean of `n` samples, opaque. */
  function AlternateShade(camera: Camera.CameraFrame, world: HitableArray, width: nat, height: nat, maxHits: int,
                          absorbRate: real, n: nat): (nat, Rng) -> (Float4, Rng)
  {
    IndexShade(ChapterSeven.AbsorbSample(camera, world, width, height, maxHits, absorbRate), n,
               EightProgressive.Opaque, false, width)
  }

  /**
   * Every pixel the job writes is opaque, and its colour is the mean of the
   * samples drawn for its column and row, in index order.
   */
  lemma PixelIsOpaqueMean(camera: Camera.CameraFrame, world: HitableArray, width: nat, height: nat, maxHits: int,
                          absorbRate: real, n: nat, count: nat, index: nat, rng: Rng)
    requires width > 0 && index < count
    ensures var pixels := Run(AlternateShade(camera, world, width, height, maxHits, absorbRate, n), count, rng).0;
      var start := Run(AlternateShade(camera, world, width, height, maxHits, absorbRate, n), index, rng).1;
      var run := Run(SampleKernel(ChapterSeven.AbsorbSample(camera, world, width, height, maxHits, absorbRate),
                                  index % width, index / width), n, start).0;
      |run| == n && pixels[index].w == 1.0
      && pixels[index] == EightProgressive.Opaque(Average(SumOf(run), n))
  {
    var shade := AlternateShade(camera, world, width, height, maxHits, absorbRate, n);
    RunAt(shade, index, count, rng);
    AlternateShadeAt(camera, world, width, height, maxHits, absorbRate, n, index, Run(shade, index, rng).1);
  }

  /** What the shader makes of `index`: the opaque mean of the samples of its column and row. */
  lemma AlternateShadeAt(camera: Camera.CameraFrame, world: HitableArray, width: nat, height: nat, maxHits: int,
                         absorbRate: real, n: nat, index: nat, start: Rng)
    requires width > 0
    ensures var run := Run(SampleKernel(ChapterSeven.AbsorbSample(camera, world, width, height, maxHits, absorbRate),
                                        index % width, index / width), n, start);
      AlternateShade(camera, world, width, height, maxHits, absorbRate, n)(index, start)
        == (EightProgressive.Opaque(Average(SumOf(run.0), n)), run.1)
  {
    var sample := ChapterSeven.AbsorbSample(camera, world, width, height, maxHits, absorbRate);
    IndexShadeAt(sample, n, EightProgressive.Opaque, false, width, index, start);
    SampledShadeAt(sample, n, EightProgressive.Opaque, index % width, index / width, start);
  }

  /** `ChapterSevenAlternate.AllSamplesJob`. */
  class AllSamplesJob {
    const absorbRate: real
    const maxHits: int
    /** `size`. */
    const width: nat
    const height: nat
    const numberOfSamples: nat
    const camera: Camera.CameraFrame
    /** `World`. */
    const world: HitableArray
    /** `Pixels`: written, never read. */
    const pixels: array<Float4>
    /** `random`: the `NextFloat` calls of `Execute` advance it. */
    var random: Rng
    /** `recursionCounter`. */
    var recursionCounter: int

    constructor (absorbRate: real, maxHits: int, width: nat, height: nat, numberOfSamples: nat, random: Rng,
                 camera: Camera.CameraFrame, world: HitableArray, pixels: array<Float4>)
      ensures this.absorbRate == absorbRate && this.maxHits == maxHits && this.width == width && this.height == height
      ensures this.numberOfSamples == numberOfSamples && this.random == random
      ensures this.camera == camera && this.world == world && this.pixels == pixels
      ensures recursionCounter == 0
    {
      this.absorbRate, this.maxHits, this.width, this.height := absorbRate, maxHits, width, height;
      this.numberOfSamples, this.random, this.camera, this.world, this.pixels := numberOfSamples, random, camera, world, pixels;
      recursionCounter := 0;
    }

    /** The job's sample, on its own settings. */
    ghost function Sample(): (nat, nat, Rng) -> (Float3, Rng) {
      ChapterSeven.AbsorbSample(camera, world, width, height, maxHits, absorbRate)
    }

    /** The job's pixel shader, on its own settings. */
    ghost function Shade(): (nat, Rng) -> (Float4, Rng) {
      AlternateShade(camera, world, width, height, maxHits, absorbRate, numberOfSamples)
    }

    /**
     * `RandomInUnitSphere()`: the rejection loop on a copy of the job's
     * generator, which therefore does not advance.
     */
    method RandomInUnitSphere() returns (p: Float3)
      ensures p == Utils.UnitSphereSample(random)
      ensures Dot(p, p) < 1.0
    {
      p := Utils.RandomInUnitSphere(random);
    }

    /** `Color(r, world)`: the absorbed colour, with the counter advanced by the hits. */
    method Color(r: Ray) returns (c: Float3)
      modifies this`recursionCounter
      ensures (c, recursionCounter) == ChapterSeven.AbsorbColor(r, world, old(recursionCounter), maxHits, absorbRate, random)
      decreases ChapterSeven.HitsLeft(recursionCounter, maxHits)
    {
      var hit, rec := false, DefaultHitRecord;
      if recursionCounter < maxHits {
        hit, rec := Hit(world, r, Tracing.TMin, FloatMaxValue, DefaultHitRecord);
      }
      if hit {
        recursionCounter := recursionCounter + 1;
        var p := RandomInUnitSphere();
        var target := Add(Add(rec.p, rec.normal), p);
        c := Color(Ray(rec.p, Sub(target, rec.p)));
        c := Scale(absorbRate, c);
        return;
      }
      c := Utils.BackgroundColor(r);
    }

    /** One pass of the sample loop, with the row `j` in float: jitter, ray, counter reset, colour. */
    method TakeSample(i: nat, j: real, ghost row: nat) returns (c: Float3)
      requires j == row as real
      modifies this
      ensures (c, random) == Sample()(i, row, old(random))
      ensures 0 <= recursionCounter <= (if maxHits < 0 then 0 else maxHits)
    {
      var (du, r1) := NextFloat(random);
      random := r1;
      var u := Quot(i as real + du, width as real);
      var (dv, r2) := NextFloat(random);
      random := r2;
      var v := Quot(j + dv, height as real);
      var ray := Camera.GetRay(camera, u, v);
      recursionCounter := 0;
      c := Color(ray);
      ChapterSeven.AbsorbIsPower(ray, world, 0, maxHits, absorbRate, random);
    }

    /** The sample loop of pixel `(i, j)`, the row in float, and the mean with alpha 1. */
    method PixelAt(i: nat, j: real, ghost row: nat) returns (pixel: Float4)
      requires j == row as real
      modifies this
      ensures (pixel, random) == SampledShade(Sample(), numberOfSamples, EightProgressive.Opaque)(i, row, old(random))
    {
      ghost var r0 := random;
      ghost var kernel := SampleKernel(Sample(), i, row);
      var sum := Zero;
      var s := 0;
      while s < numberOfSamples
        invariant 0 <= s <= numberOfSamples
        invariant sum == SumOf(Run(kernel, s, r0).0) && random == Run(kernel, s, r0).1
      {
        ghost var earlier := Run(kernel, s, r0).0;
        var c := TakeSample(i, j, row);
        assert Run(kernel, s + 1, r0).0 == earlier + [c];
        assert (earlier + [c])[..s] == earlier;
        sum := Add(sum, c);
        s := s + 1;
      }
      SampledShadeAt(Sample(), numberOfSamples, EightProgressive.Opaque, i, row, r0);
      var av := Average(sum, numberOfSamples);
      pixel := Float4(av.x, av.y, av.z, 1.0);
    }

    /**
     * `Execute(index)`: column `index % nx`, row `(index - i) / nx` in
     * float, and the pixel stored at `index`; no other pixel changes.
     */
    method Execute(index: nat)
      requires width > 0 && index < pixels.Length
      modifies this, pixels
      ensures (pixels[index], random) == Shade()(index, old(random))
      ensures forall k :: 0 <= k < pixels.Length && k != index ==> pixels[k] == old(pixels[k])
    {
      var nx := width as real;
      var i := index % width;
      var j := Quot((index - i) as real, nx);
      ColumnRowOfIndex(index, width);
      IndexShadeAt(Sample(), numberOfSamples, EightProgressive.Opaque, false, width, index, random);
      var pixel := PixelAt(i, j, index / width);
      pixels[index] := pixel;
    }

    /** The parallel-for, one index after the other on the shared generator. */
    method ExecuteAll()
      requires width > 0 || pixels.Length == 0
      modifies this, pixels
      ensures pixels[..] == Run(Shade(), pixels.Length, old(random)).0
      ensures random == Run(Shade(), pixels.Length, old(random)).1
    {
      ghost var rng := random;
      var index := 0;
      while index < pixels.Length
        invariant 0 <= index <= pixels.Length
        invariant pixels[..index] == Run(Shade(), index, rng).0 && random == Run(Shade(), index, rng).1
      {
        ghost var before := pixels[..index];
        Execute(index);
        assert pixels[..index + 1] == before + [pixels[index]];
        index := index + 1;
      }
      assert pixels[..] == pixels[..index];
    }
  }

  /** `ChapterSevenAlternate`, the chapter object. */
  class ChapterSevenAlternate {
    var numberOfSamples: nat
    var absorbRate: real
    /** `m_CanvasScale`. */
    var canvasScale: int

    constructor (numberOfSamples: nat, absorbRate: real)
      ensures this.numberOfSamples == numberOfSamples && this.absorbRate == absorbRate
      ensures canvasScale == InitialScale
    {
      this.numberOfSamples, this.absorbRate := numberOfSamples, absorbRate;
      canvasScale := InitialScale;
    }

    /** The `canvasScale` getter: it stores 8 and returns it, whatever was set before. */
    method GetCanvasScale() returns (scale: nat)
      modifies this`canvasScale
      ensures scale == GetterScale && canvasScale == GetterScale
    {
      canvasScale := GetterScale;
      scale := canvasScale;
    }

    /** The `canvasScale` setter. */
    method SetCanvasScale(value: int)
      modifies this`canvasScale
      ensures canvasScale == value
    {
      canvasScale := value;
    }

    /**
     * `DrawToTexture()`: every read of `canvasScale` goes through the
     * getter, so the texture is always `ImageSize * 8`; a job with
     * `maxHits = 32` on the default camera and `FourVaryingSize`, a
     * generator from `InitState()`'s default seed, run over every index.
     */
    method DrawToTexture(imageWidth: nat, imageHeight: nat) returns (pixels: array<Float4>)
      modifies this`canvasScale
      ensures canvasScale == GetterScale
      ensures var width, height := imageWidth * GetterScale, imageHeight * GetterScale;
        pixels.Length == width * height
        && pixels[..] == Run(AlternateShade(Camera.Default, SphereSets.FourVaryingSize(), width, height, MaxHits,
                                            absorbRate, numberOfSamples), width * height, InitState(DefaultSeed)).0
    {
      var scale := GetCanvasScale();
      var width, height := imageWidth * scale, imageHeight * scale;
      pixels := new Float4[width * height](_ => Float4(0.0, 0.0, 0.0, 0.0));
      var job := new AllSamplesJob(absorbRate, MaxHits, width, height, numberOfSamples, InitState(DefaultSeed),
                                   Camera.Default, SphereSets.FourVaryingSize(), pixels);
      job.ExecuteAll();
    }
  }
}
