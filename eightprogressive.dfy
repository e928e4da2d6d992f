/**
 * `ChapterEightProgressive`: the progressive tracer whose sample buffers are
 * `float4`.  Every draw runs 8 serial sample jobs, each reseeding its
 * generator, tracing one sample per pixel through the default camera and
 * writing the colour with alpha 1 into its own buffer; the `float4`
 * `CombineJobEight` then folds the 8 buffers into the texture buffer.
 * Because every sample carries alpha 1, the alpha channel stays at 1 and the
 * colour is the running mean of all samples.
 *
 * The chapter also has a parallel sampling job, `Job`, which averages
 * `numberOfSamples` samples per pixel, and a weighted two-buffer
 * `CombineJob`; neither is used by `DrawToTexture`.
 */
module EightProgressive {
  import opened Mathematics
  import opened Randomness
  import opened Structs
  import opened Native
  import opened Render
  import opened Samples
  import opened Combine
  import opened Batches
  import opened Hittables
  import opened Shading
  import Camera

  /** `m_JobCount`: sample jobs per draw. */
  const JobCount: nat := 8
  /** `BatchSampleCount`: declared, never read. */
  const BatchSampleCount: int := 16

  /** `new float4(col.x, col.y, col.z, 1f)`. */
  function Opaque(c: Float3): (p: Float4)
    ensures Rgb(p) == c && p.w == 1.0
  {
    Float4(c.x, c.y, c.z, 1.0)
  }

  /** Every colour of a list made opaque. */
  function Opaques(s: seq<Float3>): (r: seq<Float4>)
    ensures |r| == |s|
    ensures forall k :: 0 <= k < |s| ==> r[k] == Opaque(s[k])
  {
    seq(|s|, k requires 0 <= k < |s| => Opaque(s[k]))
  }

  /**
   * One sample of pixel `(i, j)` as both jobs take it: two jittering draws,
   * the camera's ray, and the job's `Color` at depth 0.  `Color` has no
   * dielectric case, so glass shows the sky.
   */
  function PixelSample(camera: Camera.CameraFrame, world: HitableArray, width: nat, height: nat): (nat, nat, Rng) -> (Float3, Rng) {
    (i: nat, j: nat, r: Rng) =>
      var s := Jitter(i, j, width, height, r);
      (JobColor(Camera.GetRay(camera, s.u, s.v), world, 0, s.rng, NoGlassCase), s.rng)
  }

  /** `SerialJob.Execute`'s pixel: the sample, with alpha 1. */
  function SerialShade(camera: Camera.CameraFrame, world: HitableArray, width: nat, height: nat): (nat, nat, Rng) -> (Float4, Rng) {
    (i: nat, j: nat, r: Rng) =>
      var (c, next) := PixelSample(camera, world, width, height)(i, j, r);
      (Opaque(c), next)
  }

  /**
   * A slot's generator.  `DrawToTexture` calls `rand.InitState()` and then
   * `rand.InitState(seed)`, so only the seed counts; the job then starts with
   * `random.InitState(random.NextUInt())`.
   */
  function Reseeded(seed: UInt): Rng {
    InitState(NextUInt(InitState(seed)).0)
  }

  /**
   * A serial job's image is the image of its colour samples, each made
   * opaque, and leaves the generator where the colour samples leave it.
   */
  lemma {:induction false} SerialRun(camera: Camera.CameraFrame, world: HitableArray, width: nat, height: nat, k: nat, rng: Rng)
    ensures Run(RowMajorKernel(SerialShade(camera, world, width, height), width), k, rng).0
         == Opaques(Run(RowMajorKernel(PixelSample(camera, world, width, height), width), k, rng).0)
    ensures Run(RowMajorKernel(SerialShade(camera, world, width, height), width), k, rng).1
         == Run(RowMajorKernel(PixelSample(camera, world, width, height), width), k, rng).1
  {
    if k > 0 {
      SerialRun(camera, world, width, height, k - 1, rng);
      var colours := Run(RowMajorKernel(PixelSample(camera, world, width, height), width), k, rng).0;
      assert colours[..k - 1] == Run(RowMajorKernel(PixelSample(camera, world, width, height), width), k - 1, rng).0;
    }
  }

  /** What a batch of serial jobs gives pixel `p`: the colour samples of the batch, opaque. */
  lemma OpaqueBatchSamples(camera: Camera.CameraFrame, world: HitableArray, width: nat, height: nat,
                           count: int, jobs: nat, p: nat)
    requires p < width * height
    ensures BatchSamples(SerialShade(camera, world, width, height), Reseeded, width, height, count, jobs, p)
         == Opaques(BatchSamples(PixelSample(camera, world, width, height), Reseeded, width, height, count, jobs, p))
  {
    forall b | 0 <= b < jobs
      ensures BatchImage(SerialShade(camera, world, width, height), width, height, Reseeded(SlotSeed(b, count)))[p]
           == Opaque(BatchImage(PixelSample(camera, world, width, height), width, height, Reseeded(SlotSeed(b, count)))[p])
    {
      SerialRun(camera, world, width, height, width * height, Reseeded(SlotSeed(b, count)));
    }
  }

  /** `s1 + s2 + ... `: the `float4` inputs added left to right. */
  function SumOf4(s: seq<Float4>): Float4 {
    if |s| == 0 then Zero4 else Add4(SumOf4(s[..|s| - 1]), s[|s| - 1])
  }

  /** The sum of opaque colours: the colours' sum, with alpha the number of them. */
  lemma {:induction false} SumOfOpaques(s: seq<Float3>)
    ensures SumOf4(Opaques(s)) == Float4(SumOf(s).x, SumOf(s).y, SumOf(s).z, |s| as real)
  {
    if |s| > 0 {
      assert Opaques(s)[..|s| - 1] == Opaques(s[..|s| - 1]);
      SumOfOpaques(s[..|s| - 1]);
    }
  }

  /**
   * `Execute(i)` of the `float4` `CombineJobEight`:
   * `(s1 + ... + s8 + a * n) / (8 + n)` on the 8 inputs at `i`, the
   * accumulated pixel `a` and the completed sample count `n`.
   */
  function CombineEight4(inputs: seq<Float4>, a: Float4, n: int): Float4 {
    Div4(Add4(SumOf4(inputs), Scale4(n as real, a)), (8 + n) as real)
  }

  /** On 8 opaque inputs the `float4` kernel is the mean-keeping kernel: alpha counts the samples. */
  lemma CombineEight4IsMeanPixel(inputs: seq<Float3>, a: Float4, n: int)
    requires |inputs| == 8
    ensures CombineEight4(Opaques(inputs), a, n) == MeanPixel(inputs, a, n)
  {
    SumOfOpaques(inputs);
  }

  /**
   * The accumulated image against the samples folded into it: every pixel
   * has received `count` samples and, once there are any, its colour is
   * their mean and its alpha is 1.
   */
  ghost predicate OpaqueAccumulates(image: seq<Float4>, samples: seq<seq<Float3>>, count: int) {
    && count >= 0
    && |samples| == |image|
    && forall p :: 0 <= p < |image| ==>
         |samples[p]| == count && (count > 0 ==> Rgb(image[p]) == Mean(samples[p]) && image[p].w == 1.0)
  }

  /**
   * One `float4` combine of 8 opaque samples per pixel keeps the invariant:
   * the image accumulates every pixel's samples followed by its batch, with
   * alpha exactly 1.
   */
  lemma OpaqueCombineStep(before: seq<Float4>, after: seq<Float4>, samples: seq<seq<Float3>>, batch: seq<seq<Float3>>, count: int)
    requires OpaqueAccumulates(before, samples, count)
    requires |after| == |before| == |batch|
    requires forall p :: 0 <= p < |batch| ==> |batch[p]| == 8 && after[p] == CombineEight4(Opaques(batch[p]), before[p], count)
    ensures OpaqueAccumulates(after, seq(|before|, p requires 0 <= p < |before| => samples[p] + batch[p]), count + 8)
  {
    var next := seq(|before|, p requires 0 <= p < |before| => samples[p] + batch[p]);
    forall p | 0 <= p < |after|
      ensures |next[p]| == count + 8
      ensures Rgb(after[p]) == Mean(next[p]) && after[p].w == 1.0
    {
      CombineEight4IsMeanPixel(batch[p], before[p], count);
      MeanPixelRunningMean(samples[p], batch[p], before[p]);
    }
  }

  /** `Execute(i)` of the `float4` `CombineJobEight`: overwrites `Accumulated[i]` and nothing else. */
  method CombineEightAt(sources: seq<NativeArray<Float4>>, count: int, output: NativeArray<Float4>, i: nat)
    requires Readable(sources, i + 1) && output.Buffer !in Buffers(sources)
    requires output.IsCreated() && i < output.Length()
    modifies output.Buffer
    ensures output.Buffer[i] == CombineEight4(InputsAt(sources, i), old(output.Buffer[i]), count)
    ensures forall k :: 0 <= k < output.Length() && k != i ==> output.Buffer[k] == old(output.Buffer[k])
  {
    var acc := output.Buffer;
    var a := acc[i];
    acc[i] := CombineEight4(InputsAt(sources, i), a, count);
  }

  /**
   * The `float4` `CombineJobEight` scheduled over `length` pixels and
   * completed.  The job reads its inputs and writes `Accumulated`, so the
   * two may not share a buffer.
   */
  method CombineEightOpaque(sources: seq<NativeArray<Float4>>, count: int, output: NativeArray<Float4>, length: nat)
    requires Readable(sources, length) && output.Buffer !in Buffers(sources)
    requires output.IsCreated() && length <= output.Length()
    modifies output.Buffer
    ensures forall p :: 0 <= p < length ==>
      output.Buffer[p] == CombineEight4(InputsAt(sources, p), old(output.Buffer[p]), count)
  {
    var acc := output.Buffer;
    ghost var before := acc[..];
    var i := 0;
    while i < length
      invariant 0 <= i <= length
      invariant OpaqueCombinedUpTo(sources, count, output, before, i)
      invariant forall p :: i <= p < acc.Length ==> acc[p] == before[p]
    {
      CombineEightAt(sources, count, output, i);
      i := i + 1;
    }
  }

  /** The first `i` pixels of the output are `before` combined with the inputs, which are readable there. */
  ghost predicate OpaqueCombinedUpTo(sources: seq<NativeArray<Float4>>, count: int, output: NativeArray<Float4>, before: seq<Float4>, i: nat)
    reads output.Buffer, Buffers(sources)
  {
    && output.IsCreated() && Readable(sources, i) && output.Buffer !in Buffers(sources)
    && i <= output.Length() == |before|
    && forall p :: 0 <= p < i ==> output.Buffer[p] == CombineEight4(InputsAt(sources, p), before[p], count)
  }

  /**
   * A draw's jobs: the 8 reseeding serial jobs, then the `float4` combine.
   * Every pixel receives the 8 colour samples of its batch and stays the
   * mean of all its samples, with alpha 1.
   */
  method DrawOpaqueEight(world: HitableArray, width: nat, height: nat, count: int,
                         buffers: seq<NativeArray<Float4>>, texture: NativeArray<Float4>, ghost samples: seq<seq<Float3>>)
    returns (ghost samplesOut: seq<seq<Float3>>)
    requires |buffers| == JobCount && BatchBuffers(buffers, width * height)
    requires texture.IsCreated() && texture.Length() == width * height && texture.Buffer !in Buffers(buffers)
    requires OpaqueAccumulates(texture.Buffer[..], samples, count)
    modifies Buffers(buffers), texture.Buffer
    ensures forall b :: 0 <= b < JobCount ==>
      buffers[b].Buffer[..] == BatchImage(SerialShade(Camera.Default, world, width, height), width, height, Reseeded(SlotSeed(b, count)))
    ensures forall p :: 0 <= p < width * height ==>
      texture.Buffer[p] == CombineEight4(BatchSamples(SerialShade(Camera.Default, world, width, height), Reseeded, width, height, count, JobCount, p),
                                         old(texture.Buffer[p]), count)
    ensures samplesOut == WithBatch(samples, PixelSample(Camera.Default, world, width, height), Reseeded, width, height, count, JobCount)
    ensures OpaqueAccumulates(texture.Buffer[..], samplesOut, count + 8)
  {
    var shade := SerialShade(Camera.Default, world, width, height);
    ghost var colour := PixelSample(Camera.Default, world, width, height);
    var acc := texture.Buffer;
    ghost var before := acc[..];
    RenderBatch(shade, Reseeded, width, height, count, buffers);
    assert acc[..] == before;
    CombineEightOpaque(buffers, count, texture, width * height);
    BatchInputs(shade, Reseeded, width, height, count, buffers);
    ghost var batch := seq(width * height, p requires 0 <= p < width * height => BatchSamples(colour, Reseeded, width, height, count, JobCount, p));
    forall p | 0 <= p < width * height
      ensures acc[p] == CombineEight4(Opaques(batch[p]), before[p], count)
    {
      OpaqueBatchSamples(Camera.Default, world, width, height, count, JobCount, p);
    }
    OpaqueCombineStep(before, acc[..], samples, batch, count);
    samplesOut := seq(width * height, p requires 0 <= p < width * height => samples[p] + batch[p]);
    assert samplesOut == WithBatch(samples, colour, Reseeded, width, height, count, JobCount);
  }

  /**
   * `Job.Execute(index)` for every index: each pixel reseeds the job's
   * generator, recovers its column and row from the index, and writes the
   * mean of `numberOfSamples` samples with alpha 1.
   */
  method ExecuteJob(camera: Camera.CameraFrame, world: HitableArray, numberOfSamples: nat, width: nat, height: nat,
                    rng: Rng, pixels: array<Float4>)
    requires width > 0
    modifies pixels
    ensures pixels[..] == Run(IndexShade(PixelSample(camera, world, width, height), numberOfSamples, Opaque, true, width), pixels.Length, rng).0
  {
    ExecuteAllSampled(PixelSample(camera, world, width, height), numberOfSamples, Opaque, true, width, rng, pixels);
  }

  /**
   * The pixel `Job.Execute(index)` writes: with `x = index % w` and
   * `y = index / w`, the mean of the `numberOfSamples` samples of `(x, y)`
   * drawn from the reseeded generator, with alpha 1.
   */
  lemma JobPixelIsMean(camera: Camera.CameraFrame, world: HitableArray, numberOfSamples: nat, width: nat, height: nat,
                       index: nat, r: Rng)
    requires width > 0
    ensures var run := Run(SampleKernel(PixelSample(camera, world, width, height), index % width, index / width),
                           numberOfSamples, InitState(NextUInt(r).0)).0;
      var pixel := IndexShade(PixelSample(camera, world, width, height), numberOfSamples, Opaque, true, width)(index, r).0;
      |run| == numberOfSamples && Rgb(pixel) == Mean(run) && pixel.w == 1.0
  {
    var sample := PixelSample(camera, world, width, height);
    var start := InitState(NextUInt(r).0);
    IndexShadeAt(sample, numberOfSamples, Opaque, true, width, index, r);
    SampledShadeAt(sample, numberOfSamples, Opaque, index % width, index / width, start);
  }

  /**
   * `CombineJob.Execute(i)` as written: the current pixel `c` weighted by the
   * batch sample count `b`, the accumulated pixel `a` by `n / 2` in float,
   * and the sum divided by `b + n / 2` in INTEGER division.
   */
  function WeightedPixel(c: Float4, a: Float4, b: int, n: int): Float4 {
    Div4(Add4(Scale4(b as real, c), Div4(Scale4(n as real, a), 2.0)), (b + TruncDiv(n, 2)) as real)
  }

  /**
   * The weighted kernel evidently intended: the same weights `b` and `n / 2`
   * in the numerator and the denominator, so the result is a weighted mean
   * of `c` and `a`.
   */
  function HalfWeightedPixel(c: Float4, a: Float4, b: int, n: int): Float4 {
    var wb, h := b as real, n as real / 2.0;
    Float4(WeightedMean(c.x, a.x, wb, h), WeightedMean(c.y, a.y, wb, h), WeightedMean(c.z, a.z, wb, h), WeightedMean(c.w, a.w, wb, h))
  }

  /** `(wc * c + wa * a) / (wc + wa)` (0 when the weights sum to 0). */
  function WeightedMean(c: real, a: real, wc: real, wa: real): real {
    Quot(wc * c + wa * a, wc + wa)
  }

  /** `x` lies between `lo` and `hi`, whichever way round they are. */
  predicate Between(x: real, lo: real, hi: real) {
    (lo <= x <= hi) || (hi <= x <= lo)
  }

  /** A weighted mean of two numbers with non-negative weights lies between them. */
  lemma WeightedMeanBetween(c: real, a: real, wc: real, wa: real)
    requires wc >= 0.0 && wa >= 0.0 && wc + wa > 0.0
    ensures Between(WeightedMean(c, a, wc, wa), c, a)
  {
    var d := wc + wa;
    var m := (wc * c + wa * a) / d;
    assert d * m == wc * c + wa * a;
    assert d * (m - c) == wa * (a - c);
    assert d * (a - m) == wc * (a - c);
    if c <= a {
      NonNegativeProduct(wa, a - c);
      NonNegativeProduct(wc, a - c);
      NonNegativeFactor(d, m - c);
      NonNegativeFactor(d, a - m);
    } else {
      NonNegativeProduct(wa, c - a);
      NonNegativeProduct(wc, c - a);
      NonNegativeFactor(d, c - m);
      NonNegativeFactor(d, m - a);
    }
  }

  lemma NonNegativeProduct(x: real, y: real)
    requires x >= 0.0 && y >= 0.0
    ensures x * y >= 0.0
  {
  }

  lemma NonNegativeFactor(d: real, x: real)
    requires d > 0.0 && d * x >= 0.0
    ensures x >= 0.0
  {
  }

  /**
   * The corrected kernel is a weighted mean: every channel lies between the
   * current and the accumulated value, so equal inputs come out unchanged.
   */
  lemma HalfWeightedIsMean(c: Float4, a: Float4, b: int, n: int)
    requires b >= 0 && n >= 0 && b + n > 0
    ensures var r := HalfWeightedPixel(c, a, b, n);
      Between(r.x, c.x, a.x) && Between(r.y, c.y, a.y) && Between(r.z, c.z, a.z) && Between(r.w, c.w, a.w)
    ensures c == a ==> HalfWeightedPixel(c, a, b, n) == c
  {
    var wb, h := b as real, n as real / 2.0;
    WeightedMeanBetween(c.x, a.x, wb, h);
    WeightedMeanBetween(c.y, a.y, wb, h);
    WeightedMeanBetween(c.z, a.z, wb, h);
    WeightedMeanBetween(c.w, a.w, wb, h);
  }

  /** For an even count the kernel as written and the corrected one agree. */
  lemma EvenCountAgrees(c: Float4, a: Float4, b: int, n: int)
    requires n >= 0 && n % 2 == 0
    ensures WeightedPixel(c, a, b, n) == HalfWeightedPixel(c, a, b, n)
  {
    EvenChannelAgrees(c.x, a.x, b, n);
    EvenChannelAgrees(c.y, a.y, b, n);
    EvenChannelAgrees(c.z, a.z, b, n);
    EvenChannelAgrees(c.w, a.w, b, n);
  }

  /** One channel of `EvenCountAgrees`: halving an even count loses nothing. */
  lemma EvenChannelAgrees(x: real, y: real, b: int, n: int)
    requires n >= 0 && n % 2 == 0
    ensures Quot(b as real * x + Quot(n as real * y, 2.0), (b + TruncDiv(n, 2)) as real)
      == WeightedMean(x, y, b as real, n as real / 2.0)
  {
    var h := n as real / 2.0;
    assert n == 2 * (n / 2);
    assert (n / 2) as real == h;
    assert TruncDiv(n, 2) == n / 2;
    assert Quot(n as real * y, 2.0) == h * y;
  }

  /**
   * For an odd count the kernel as written overshoots: one sample per batch
   * and one completed sample, both white, make a pixel of 1.5 in every
   * channel, brighter than either input.
   */
  lemma OddCountOverweighs()
    ensures var white := Float4(1.0, 1.0, 1.0, 1.0);
      WeightedPixel(white, white, 1, 1) == Float4(1.5, 1.5, 1.5, 1.5)
      && HalfWeightedPixel(white, white, 1, 1) == white
  {
    assert TruncDiv(1, 2) == 0;
  }

  /**
   * `CombineJob` scheduled over the accumulated buffer and completed: every
   * pixel becomes the weighted kernel of the current and the accumulated
   * pixel.  `Current` is read-only and `Accumulated` written, so the two may
   * not share a buffer.
   */
  method CombineWeighted(current: NativeArray<Float4>, accumulated: NativeArray<Float4>, batchSampleCount: int, completedSampleCount: int)
    requires current.IsCreated() && accumulated.IsCreated() && current.Buffer != accumulated.Buffer
    requires accumulated.Length() <= current.Length()
    modifies accumulated.Buffer
    ensures forall i :: 0 <= i < accumulated.Length() ==>
      accumulated.Buffer[i] == WeightedPixel(current.Buffer[i], old(accumulated.Buffer[i]), batchSampleCount, completedSampleCount)
  {
    var acc, cur := accumulated.Buffer, current.Buffer;
    var i := 0;
    while i < acc.Length
      invariant 0 <= i <= acc.Length
      invariant forall k :: 0 <= k < i ==> acc[k] == WeightedPixel(cur[k], old(acc[k]), batchSampleCount, completedSampleCount)
      invariant forall k :: i <= k < acc.Length ==> acc[k] == old(acc[k])
    {
      acc[i] := WeightedPixel(cur[i], acc[i], batchSampleCount, completedSampleCount);
      i := i + 1;
    }
  }

  /**
   * The allocations of `Setup`: 8 job handles, a zeroed texture buffer,
   * which accumulates no samples yet, and 8 zeroed batch buffers, none of
   * them sharing memory.
   */
  method AllocateOpaqueEight(length: nat, ghost freed: set<object>)
    returns (handles: NativeArray<JobHandle>, texture: NativeArray<Float4>, buffers: seq<NativeArray<Float4>>)
    ensures handles.IsCreated() && handles.Length() == JobCount
    ensures texture.IsCreated() && texture.Length() == length && texture.Buffer[..] == seq(length, _ => Zero4)
    ensures OpaqueAccumulates(texture.Buffer[..], seq(length, _ => []), 0)
    ensures |buffers| == JobCount && BatchBuffers(buffers, length) && texture.Buffer !in Buffers(buffers)
    ensures forall b :: 0 <= b < JobCount ==> fresh(buffers[b].Buffer) && buffers[b].Buffer[..] == seq(length, _ => Zero4)
    ensures Buffers(buffers) !! freed
  {
    handles := Allocate(JobCount, JobHandle);
    texture := Allocate(length, Zero4);
    buffers := AllocateBuffers(JobCount, length, Zero4);
  }

  class ChapterEightProgressive {
    /** `canvasScale`: the texture is `ImageSize * canvasScale`. */
    var canvasScale: nat
    var width: nat
    var height: nat
    /** `m_TextureBuffer`: the accumulated image. */
    var textureBuffer: NativeArray<Float4>
    /** `m_BatchBuffers`: a C# array of 8 handles, elements reassigned in place. */
    var batchBuffers: seq<NativeArray<Float4>>
    var batchHandles: NativeArray<JobHandle>
    var completedSampleCount: int
    /** Every colour sample each pixel has received, in order. */
    ghost var samples: seq<seq<Float3>>
    /** Draws since the last `Setup`. */
    ghost var draws: nat
    /** Memory freed through a copy of a handle, which the handle itself still points at. */
    ghost var released: set<object>

    /**
     * Buffers allocated for the texture, 8 samples per draw, and the texture
     * the running mean of the samples with alpha 1.
     */
    ghost predicate Valid()
      reads this, textureBuffer.Buffer, Buffers(batchBuffers)
    {
      && |batchBuffers| == JobCount && BatchBuffers(batchBuffers, width * height)
      && textureBuffer.IsCreated() && textureBuffer.Length() == width * height
      && textureBuffer.Buffer !in Buffers(batchBuffers)
      && batchHandles.IsCreated() && batchHandles.Length() == JobCount
      && completedSampleCount == JobCount * draws
      && Buffers(batchBuffers) !! released
      && OpaqueAccumulates(textureBuffer.Buffer[..], samples, completedSampleCount)
    }

    /** `new ChapterEightProgressive()`: 8 empty buffer slots, a canvas scale of 0, then `Setup()`. */
    constructor (imageWidth: nat, imageHeight: nat)
      ensures Valid() && canvasScale == 12 && completedSampleCount == 0
      ensures width == imageWidth * 12 && height == imageHeight * 12
    {
      canvasScale := 0;
      batchBuffers := seq(JobCount, _ => Native.Default());
      textureBuffer := Native.Default();
      batchHandles := Native.Default();
      released := {};
      new;
      Setup(imageWidth, imageHeight);
    }

    /**
     * `Setup()`: default the canvas scale to 12, allocate 8 handles, a zeroed
     * texture buffer and 8 zeroed batch buffers for the scaled texture, and
     * reset the count.  Nothing is disposed first.
     */
    method Setup(imageWidth: nat, imageHeight: nat)
      modifies this
      ensures Valid()
      ensures canvasScale == (if old(canvasScale) == 0 then 12 else old(canvasScale))
      ensures width == imageWidth * canvasScale && height == imageHeight * canvasScale
      ensures completedSampleCount == 0 && draws == 0
      ensures textureBuffer.Buffer[..] == seq(width * height, _ => Zero4)
      ensures released == old(released)
    {
      var scale := if canvasScale == 0 then 12 else canvasScale;
      var w, h := imageWidth * scale, imageHeight * scale;
      var handles, texture, buffers := AllocateOpaqueEight(w * h, released);
      canvasScale, width, height, batchHandles, textureBuffer, batchBuffers := scale, w, h, handles, texture, buffers;
      completedSampleCount, samples, draws := 0, seq(w * h, _ => []), 0;
    }

    /**
     * `DrawToTexture()` on the scene `world`: slot `b` renders from seed
     * `b + CompletedSampleCount + 100`, the `float4` combine folds the 8
     * images into the texture buffer, and the count grows by 8.  Every pixel
     * receives the 8 colour samples of its batch.
     */
    method DrawToTexture(world: HitableArray)
      requires Valid()
      modifies this`completedSampleCount, this`samples, this`draws, Buffers(batchBuffers), textureBuffer.Buffer
      ensures Valid()
      ensures completedSampleCount == old(completedSampleCount) + JobCount && draws == old(draws) + 1
      ensures forall b :: 0 <= b < JobCount ==>
        batchBuffers[b].Buffer[..] == BatchImage(SerialShade(Camera.Default, world, width, height), width, height,
                                                 Reseeded(SlotSeed(b, old(completedSampleCount))))
      ensures samples == WithBatch(old(samples), PixelSample(Camera.Default, world, width, height), Reseeded,
                                   width, height, old(completedSampleCount), JobCount)
    {
      samples := DrawOpaqueEight(world, width, height, completedSampleCount, batchBuffers, textureBuffer, samples);
      completedSampleCount := completedSampleCount + JobCount;
      draws := draws + 1;
    }

    /**
     * `Dispose(disposing)`: the loop disposes COPIES of the created batch
     * buffers (a `foreach` variable), so their memory is freed while the
     * array's handles still report `IsCreated`; with `disposing` the texture
     * buffer and then the handle array are disposed without a check, and
     * disposing one that is not created throws.  `ok` is false exactly when
     * it throws.
     */
    method Dispose(disposing: bool) returns (ok: bool)
      modifies this`textureBuffer, this`batchHandles, this`released
      ensures released == old(released) + Memory(batchBuffers)
      ensures forall b :: 0 <= b < |batchBuffers| && batchBuffers[b].IsCreated() ==> batchBuffers[b].Buffer in released
      ensures ok <==> !disposing || (old(textureBuffer).IsCreated() && old(batchHandles).IsCreated())
      ensures !disposing ==> textureBuffer == old(textureBuffer) && batchHandles == old(batchHandles)
      ensures disposing ==> !textureBuffer.IsCreated()
      ensures disposing && old(textureBuffer).IsCreated() ==> !batchHandles.IsCreated()
      ensures disposing && !old(textureBuffer).IsCreated() ==> batchHandles == old(batchHandles)
    {
      released := released + Memory(batchBuffers);
      ok := true;
      if disposing {
        var (texture, disposed) := Native.Dispose(textureBuffer);
        textureBuffer := texture;
        if !disposed {
          return false;
        }
        var (handles, released) := Native.Dispose(batchHandles);
        batchHandles := handles;
        ok := released;
      }
    }
  }
}
