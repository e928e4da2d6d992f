/**
 * `BatchedTracer`: the configurable progressive tracer.  A batch is
 * `JobsPerBatch` sample jobs, each tracing one gamma-corrected sample per
 * pixel into its own `float3` buffer from the seed
 * `slot + CompletedSampleCount + 100`; the combine job for that many
 * buffers then folds them into the texture's pixel buffer, and the count
 * grows by `JobsPerBatch`.  With `ClearOnDraw` the pixel buffer and the
 * count are reset before every batch.
 *
 * The class keeps, as ghost state, every sample each pixel has received,
 * and whether the pixel buffer is still their running mean: it is exactly
 * while every batch since the last reset had 8 jobs.
 */
module BatchedTracing {
  import opened Mathematics
  import opened Randomness
  import opened Structs
  import opened Native
  import opened Render
  import opened Samples
  import opened Combine
  import opened Batches
  import opened Hittables
  import Camera
  import Tracing
  import ClearJob

  /** `k_MaxJobsPerBatch`. */
  const MaxJobsPerBatch: int := 10
  const MaxJobsMessage: string := "A max of 10 jobs per batch is supported by the batched tracer"
  /** `k_JobsPerBatchOptions`. */
  const JobsPerBatchOptions: seq<int> := [1, 2, 4, 6, 8, 10]
  const AvailableOptionsMessage: string := "job count per batch must be one of: 1, 2, 4, 6, 8, 10"

  /** `uint.MaxValue / 10`: what the focus job adds to its seeded state before re-seeding. */
  const ReseedOffset: int := (UIntLimit - 1) / 10

  /** What the `JobsPerBatch` setter does with a value. */
  datatype SetterOutcome = Ignored | TooMany | NotAnOption | Stored

  /**
   * The setter's branches: a value equal to the current one or odd is
   * ignored; an even value above 10 and an even value outside the options
   * are logged; the rest are stored.
   */
  function Setter(current: int, value: int): SetterOutcome {
    if value == current || value % 2 != 0 then Ignored
    else if value > MaxJobsPerBatch then TooMany
    else if value !in JobsPerBatchOptions then NotAnOption
    else Stored
  }

  /**
   * The setter stores exactly the even options 2, 4, 6, 8 and 10 that
   * differ from the current value: 1 is an option but odd, and 0 and the
   * negative even numbers are logged.
   */
  lemma SetterStoresEvenOptions(current: int, value: int)
    ensures Setter(current, value) == Stored <==> value != current && value in {2, 4, 6, 8, 10}
    ensures Setter(current, value) == TooMany <==> value != current && value % 2 == 0 && value > 10
  {
    if value != current && value % 2 == 0 && value <= MaxJobsPerBatch {
      assert value in JobsPerBatchOptions <==> value in {2, 4, 6, 8, 10} by {
        if value in {2, 4, 6, 8, 10} {
          assert value == JobsPerBatchOptions[(value / 2) as nat];
        }
      }
    }
  }

  /**
   * A sample job's pixel: two jittering draws, the camera's ray (through
   * the lens for the focus job, which passes a copy of its generator), the
   * shared recursive `Color` at depth 0, and `math.sqrt` of the linear
   * colour, so gamma is applied before accumulation.
   */
  function SampleShade(camera: Camera.CameraFrame, world: HitableArray, width: nat, height: nat, focus: bool)
    : (nat, nat, Rng) -> (Float3, Rng)
  {
    (i: nat, j: nat, r: Rng) =>
      var s := Jitter(i, j, width, height, r);
      var ray := if focus then Camera.GetRayWithLens(camera, s.u, s.v, s.rng) else Camera.GetRay(camera, s.u, s.v);
      var c := Tracing.Color(ray, world, 0, s.rng);
      (Sqrt3(c.0), c.1)
  }

  /**
   * A slot's generator: `InitState(seed)`; the focus job then re-seeds with
   * its state plus `uint.MaxValue / 10`, wrapping at 2^32.
   */
  function SampleStart(focus: bool): UInt -> Rng {
    (seed: UInt) =>
      var r := InitState(seed);
      if focus then InitState(ToUInt(r.state + ReseedOffset)) else r
  }

  /** The pixel buffer a batch combines into: all zero after a clear, else as it was. */
  function BeforeCombine(image: seq<Float4>, clear: bool): (before: seq<Float4>)
    ensures |before| == |image|
    ensures clear ==> before == seq(|image|, _ => Zero4)
    ensures !clear ==> before == image
  {
    if clear then seq(|image|, _ => Zero4) else image
  }

  class BatchedTracer {
    /** `m_JobsPerBatch`. */
    var jobsPerBatch: int
    /** The texture's size and its raw `float4` data. */
    var width: nat
    var height: nat
    var texture: NativeArray<Float4>
    var camera: Camera.CameraFrame
    var completedSampleCount: int
    var batchBuffers: seq<NativeArray<Float3>>
    var batchHandles: NativeArray<JobHandle>
    var spheres: HitableArray
    /** `PixelBuffer`: the texture's raw data once `Setup` has run. */
    var pixelBuffer: NativeArray<Float4>
    var clearOnDraw: bool
    /** The messages `Debug.Log` received. */
    var log: seq<string>
    /** Every sample each pixel has received since the last reset, in order. */
    ghost var samples: seq<seq<Float3>>
    /** Whether the pixel buffer is the running mean of `samples`. */
    ghost var averaging: bool
    /** The batch-buffer memory freed so far; a handle in `batchBuffers` may still point at it. */
    ghost var released: set<object>

    /** The buffers are allocated for the current batch size and texture. */
    ghost predicate Allocated()
      reads this
    {
      && jobsPerBatch > 0
      && |batchBuffers| == jobsPerBatch && BatchBuffers(batchBuffers, width * height)
      && Buffers(batchBuffers) !! released
      && batchHandles.IsCreated() && batchHandles.Length() == jobsPerBatch
      && pixelBuffer.IsCreated() && pixelBuffer.Length() == width * height
    }

    /** Allocated, the count never negative, and the pixel buffer the mean of the samples while `averaging`. */
    ghost predicate Valid()
      reads this, pixelBuffer.Buffer
    {
      && Allocated()
      && completedSampleCount >= 0
      && |samples| == width * height
      && (averaging ==> Accumulates(pixelBuffer.Buffer[..], samples, completedSampleCount))
    }

    /**
     * `new BatchedTracer(spheres, camera, width, height)`: `jobCount` is the
     * initial `m_JobsPerBatch` (`Utils.GetJobCount()`), `textureData` the
     * texture's raw data; then `Setup()`.
     */
    constructor (spheres: HitableArray, camera: Camera.CameraFrame, width: nat, height: nat,
                 jobCount: int, textureData: NativeArray<Float4>)
      requires jobCount > 0
      requires textureData.IsCreated() && textureData.Length() == width * height
      ensures Valid() && averaging
      ensures this.spheres == spheres && this.camera == camera && this.width == width && this.height == height
      ensures jobsPerBatch == jobCount && completedSampleCount == 0 && pixelBuffer == textureData
      ensures !clearOnDraw && log == []
    {
      this.spheres, this.camera, this.width, this.height := spheres, camera, width, height;
      jobsPerBatch := jobCount;
      texture := textureData;
      batchBuffers := [];
      batchHandles := Native.Default();
      pixelBuffer := Native.Default();
      clearOnDraw := false;
      log := [];
      released := {};
      new;
      Setup();
    }

    /**
     * `AllocateSampleJobBuffers(pixelCount)`: the old handle array and the
     * old sample buffers are disposed when created, then come a fresh handle
     * array and `m_JobsPerBatch` fresh sample buffers of `pixelCount` pixels each.
     */
    method AllocateSampleJobBuffers(pixelCount: nat)
      requires jobsPerBatch > 0
      modifies this`batchHandles, this`batchBuffers, this`released
      ensures |batchBuffers| == jobsPerBatch && BatchBuffers(batchBuffers, pixelCount)
      ensures batchHandles.IsCreated() && batchHandles.Length() == jobsPerBatch && fresh(batchHandles.Buffer)
      ensures forall b :: 0 <= b < jobsPerBatch ==> fresh(batchBuffers[b].Buffer)
      ensures released == old(released) + Memory(old(batchBuffers))
    {
      batchHandles := DisposeIfCreated(batchHandles);
      batchHandles := Allocate(jobsPerBatch as nat, JobHandle);
      released := released + Memory(batchBuffers);
      batchBuffers := AllocateBuffers(jobsPerBatch as nat, pixelCount, Zero);
    }

    /**
     * `Setup()`: the pixel buffer becomes the texture's raw data, the sample
     * buffers are allocated for the whole texture, and the count is reset.
     * Whatever the texture holds, the first combine (count 0) ignores it.
     */
    method Setup()
      requires jobsPerBatch > 0
      requires texture.IsCreated() && texture.Length() == width * height
      modifies this
      ensures Valid() && averaging
      ensures completedSampleCount == 0 && pixelBuffer == texture
      ensures jobsPerBatch == old(jobsPerBatch) && width == old(width) && height == old(height)
      ensures spheres == old(spheres) && camera == old(camera) && texture == old(texture)
      ensures clearOnDraw == old(clearOnDraw) && log == old(log)
      ensures released == old(released) + Memory(old(batchBuffers))
    {
      pixelBuffer := texture;
      AllocateSampleJobBuffers(width * height);
      completedSampleCount := 0;
      samples := seq(width * height, _ => []);
      averaging := true;
    }

    /**
     * The `JobsPerBatch` setter.  An ignored value changes nothing; a
     * rejected one only logs its message; a stored one reallocates the
     * sample buffers for the texture and keeps the count and the pixels.
     */
    method SetJobsPerBatch(value: int)
      requires Valid()
      modifies this
      ensures Valid()
      ensures var o := Setter(old(jobsPerBatch), value);
        && jobsPerBatch == (if o == Stored then value else old(jobsPerBatch))
        && log == old(log) + (if o == TooMany then [MaxJobsMessage] else if o == NotAnOption then [AvailableOptionsMessage] else [])
        && (o != Stored ==> batchBuffers == old(batchBuffers) && batchHandles == old(batchHandles))
        && (o == Stored ==> fresh(batchHandles.Buffer) && forall b :: 0 <= b < value ==> fresh(batchBuffers[b].Buffer))
        && released == old(released) + (if o == Stored then Memory(old(batchBuffers)) else {})
      ensures completedSampleCount == old(completedSampleCount) && pixelBuffer == old(pixelBuffer)
      ensures samples == old(samples) && averaging == old(averaging)
      ensures width == old(width) && height == old(height) && spheres == old(spheres) && camera == old(camera)
      ensures texture == old(texture) && clearOnDraw == old(clearOnDraw)
    {
      if value == jobsPerBatch || value % 2 != 0 {
        return;
      }
      if value > MaxJobsPerBatch {
        log := log + [MaxJobsMessage];
      } else if value !in JobsPerBatchOptions {
        log := log + [AvailableOptionsMessage];
      } else {
        jobsPerBatch := value;
        AllocateSampleJobBuffers(width * height);
      }
    }

    /**
     * `ScheduleBatch(scheduleSingle)` run to completion: with `ClearOnDraw`
     * the pixel buffer is zeroed and the count reset; slot `b` renders its
     * image from seed `b + CompletedSampleCount + 100`; then the combine
     * job for `JobsPerBatch` buffers folds them into the pixel buffer, which
     * only 2, 4 and 8 buffers have.
     */
    method ScheduleBatch(focus: bool) returns (combined: bool)
      requires Allocated()
      modifies this`completedSampleCount, Buffers(batchBuffers), pixelBuffer.Buffer
      ensures completedSampleCount == (if clearOnDraw then 0 else old(completedSampleCount))
      ensures forall b :: 0 <= b < jobsPerBatch ==>
        batchBuffers[b].Buffer[..] == BatchImage(SampleShade(camera, spheres, width, height, focus), width, height,
                                                 SampleStart(focus)(SlotSeed(b, completedSampleCount)))
      ensures combined <==> jobsPerBatch in {2, 4, 8}
      ensures var before := BeforeCombine(old(pixelBuffer.Buffer[..]), clearOnDraw);
        forall p :: 0 <= p < width * height ==>
          pixelBuffer.Buffer[p] ==
            if combined then
              CombinePixel(BatchSamples(SampleShade(camera, spheres, width, height, focus), SampleStart(focus), width, height,
                                        completedSampleCount, jobsPerBatch as nat, p), before[p], completedSampleCount)
            else before[p]
    {
      var pixels := pixelBuffer.Buffer;
      if clearOnDraw {
        ClearJob.ClearAll(pixels, Zero4);
        completedSampleCount := 0;
      }
      assert pixels[..] == BeforeCombine(old(pixels[..]), clearOnDraw);
      combined := RenderAndCombine(SampleShade(camera, spheres, width, height, focus), SampleStart(focus), width, height,
                                   completedSampleCount, batchBuffers, pixelBuffer);
    }

    /** `CompleteAndDraw()`: the batch is complete and the count grows by `JobsPerBatch`. */
    method CompleteAndDraw()
      modifies this`completedSampleCount
      ensures completedSampleCount == old(completedSampleCount) + jobsPerBatch
    {
      completedSampleCount := completedSampleCount + jobsPerBatch;
    }

    /**
     * `DrawToTexture()` (focus) and `DrawToTextureWithoutFocus()`: one
     * batch, then `CompleteAndDraw`.  Every pixel receives the batch's
     * samples; after a batch of 8 that followed a reset or an averaging
     * state, the pixel buffer is again the mean of all samples received.
     */
    method Draw(focus: bool)
      requires Valid()
      modifies this, Buffers(batchBuffers), pixelBuffer.Buffer
      ensures Valid()
      ensures jobsPerBatch == old(jobsPerBatch) && batchBuffers == old(batchBuffers) && batchHandles == old(batchHandles)
      ensures pixelBuffer == old(pixelBuffer) && width == old(width) && height == old(height)
      ensures spheres == old(spheres) && camera == old(camera) && texture == old(texture)
      ensures clearOnDraw == old(clearOnDraw) && log == old(log)
      ensures var start := if clearOnDraw then 0 else old(completedSampleCount);
        && completedSampleCount == start + jobsPerBatch
        && samples == WithBatch(if clearOnDraw then seq(width * height, _ => []) else old(samples),
                                SampleShade(camera, spheres, width, height, focus), SampleStart(focus),
                                width, height, start, jobsPerBatch as nat)
      ensures averaging == ((old(averaging) || clearOnDraw) && jobsPerBatch == 8)
    {
      ghost var before := BeforeCombine(pixelBuffer.Buffer[..], clearOnDraw);
      ghost var earlier := if clearOnDraw then seq(width * height, _ => []) else samples;
      ghost var keeps := averaging || clearOnDraw;
      if clearOnDraw {
        FreshImageAccumulates(width * height);
      }
      var combined := ScheduleBatch(focus);
      RecordBatch(focus, combined, before, earlier, keeps);
      CompleteAndDraw();
    }

    /**
     * The ghost bookkeeping of a draw: every pixel's samples gain its batch,
     * and a batch of 8 combined into a pixel buffer that was the mean of the
     * earlier samples leaves it the mean of all of them.
     */
    ghost method RecordBatch(focus: bool, combined: bool, before: seq<Float4>, earlier: seq<seq<Float3>>, keeps: bool)
      requires Allocated() && completedSampleCount >= 0
      requires |before| == |earlier| == width * height
      requires keeps ==> Accumulates(before, earlier, completedSampleCount)
      requires combined <==> jobsPerBatch in {2, 4, 8}
      requires forall p :: 0 <= p < width * height ==>
        pixelBuffer.Buffer[p] ==
          if combined then
            CombinePixel(BatchSamples(SampleShade(camera, spheres, width, height, focus), SampleStart(focus), width, height,
                                      completedSampleCount, jobsPerBatch as nat, p), before[p], completedSampleCount)
          else before[p]
      modifies this`samples, this`averaging
      ensures samples == WithBatch(earlier, SampleShade(camera, spheres, width, height, focus), SampleStart(focus),
                                   width, height, completedSampleCount, jobsPerBatch as nat)
      ensures averaging == (keeps && jobsPerBatch == 8)
      ensures averaging ==> Accumulates(pixelBuffer.Buffer[..], samples, completedSampleCount + jobsPerBatch)
    {
      var shade := SampleShade(camera, spheres, width, height, focus);
      samples := WithBatch(earlier, shade, SampleStart(focus), width, height, completedSampleCount, jobsPerBatch as nat);
      averaging := keeps && jobsPerBatch == 8;
      if averaging {
        EightBatchAccumulates(before, pixelBuffer.Buffer[..], earlier, shade, SampleStart(focus), width, height, completedSampleCount);
      }
    }

    /** `DrawToTexture()`: a batch of focus jobs. */
    method DrawToTexture()
      requires Valid()
      modifies this, Buffers(batchBuffers), pixelBuffer.Buffer
      ensures Valid()
      ensures jobsPerBatch == old(jobsPerBatch) && batchBuffers == old(batchBuffers) && pixelBuffer == old(pixelBuffer)
      ensures completedSampleCount == (if clearOnDraw then 0 else old(completedSampleCount)) + jobsPerBatch
      ensures averaging == ((old(averaging) || clearOnDraw) && jobsPerBatch == 8)
    {
      Draw(true);
    }

    /** `DrawToTextureWithoutFocus()`: a batch of jobs without defocus blur. */
    method DrawToTextureWithoutFocus()
      requires Valid()
      modifies this, Buffers(batchBuffers), pixelBuffer.Buffer
      ensures Valid()
      ensures jobsPerBatch == old(jobsPerBatch) && batchBuffers == old(batchBuffers) && pixelBuffer == old(pixelBuffer)
      ensures completedSampleCount == (if clearOnDraw then 0 else old(completedSampleCount)) + jobsPerBatch
      ensures averaging == ((old(averaging) || clearOnDraw) && jobsPerBatch == 8)
    {
      Draw(false);
    }

    /**
     * `BatchCoroutine(count, draw, ...)` without its frame throttle: `count /
     * JobsPerBatch` draws (none for a negative count).  Without clearing,
     * the count grows by one batch per draw.
     */
    method BatchCoroutine(count: int, focus: bool)
      requires Valid()
      modifies this, Buffers(batchBuffers), pixelBuffer.Buffer
      ensures Valid()
      ensures jobsPerBatch == old(jobsPerBatch) && batchBuffers == old(batchBuffers) && pixelBuffer == old(pixelBuffer)
      ensures var n := DrawCount(count, jobsPerBatch);
        completedSampleCount ==
          if clearOnDraw && n > 0 then jobsPerBatch else old(completedSampleCount) + n * jobsPerBatch
    {
      var i := 0;
      var n := TruncDiv(count, jobsPerBatch);
      while i < n
        invariant Valid()
        invariant jobsPerBatch == old(jobsPerBatch) && batchBuffers == old(batchBuffers) && pixelBuffer == old(pixelBuffer)
        invariant clearOnDraw == old(clearOnDraw)
        invariant 0 <= i <= DrawCount(count, jobsPerBatch)
        invariant completedSampleCount == if clearOnDraw && i > 0 then jobsPerBatch else old(completedSampleCount) + i * jobsPerBatch
      {
        CountedDraw(focus);
        assert (i + 1) * jobsPerBatch == i * jobsPerBatch + jobsPerBatch;
        i := i + 1;
      }
    }

    /** `Draw`, seen only through the sample count it leaves. */
    method CountedDraw(focus: bool)
      requires Valid()
      modifies this, Buffers(batchBuffers), pixelBuffer.Buffer
      ensures Valid()
      ensures jobsPerBatch == old(jobsPerBatch) && batchBuffers == old(batchBuffers) && pixelBuffer == old(pixelBuffer)
      ensures clearOnDraw == old(clearOnDraw)
      ensures completedSampleCount == (if clearOnDraw then 0 else old(completedSampleCount)) + jobsPerBatch
    {
      Draw(focus);
    }

    /**
     * `Dispose()`: the scene is disposed; the loop disposes COPIES of the
     * created sample buffers (a `foreach` variable), so their memory is freed
     * while the array's handles still report `IsCreated`; the handle array
     * is disposed when created.
     */
    method Dispose()
      modifies this
      ensures !spheres.IsCreated && !batchHandles.IsCreated()
      ensures old(spheres.IsCreated) ==> spheres.Length() == 0
      ensures released == old(released) + Memory(old(batchBuffers))
      ensures batchBuffers == old(batchBuffers) && pixelBuffer == old(pixelBuffer)
      ensures forall b :: 0 <= b < |batchBuffers| && batchBuffers[b].IsCreated() ==> batchBuffers[b].Buffer in released
      ensures completedSampleCount == old(completedSampleCount) && jobsPerBatch == old(jobsPerBatch)
    {
      spheres := Hittables.Dispose(spheres);
      released := released + Memory(batchBuffers);
      batchHandles := DisposeIfCreated(batchHandles);
    }
  }

  /**
   * A batch size no combine job exists for: with `k` jobs per batch (`k`
   * not 2, 4 or 8), there is no combine job, and a pixel whose `k` samples
   * are all white stays black while the count says it holds `k` samples, so
   * the pixel buffer is no longer the mean of its samples.
   */
  lemma UncombinedBatchLeavesThePixel(k: nat)
    requires k >= 1 && k != 2 && k != 4 && k != 8
    ensures GetCombineJob(seq(k, _ => Native.Default()), 0, Native.Default()).None?
    ensures !Accumulates([Zero4], [seq(k, _ => One)], k)
  {
    var white := seq(k, _ => One);
    SumOfConstant(One, k);
    assert Mean(white) == One;
    assert Rgb([Zero4][0]) != Mean([white][0]);
  }

  /** 6 is such a size, and the setter stores it. */
  lemma SixJobBatchesLeaveThePixel()
    ensures Setter(8, 6) == Stored
    ensures GetCombineJob(seq(6, _ => Native.Default()), 0, Native.Default()).None?
    ensures !Accumulates([Zero4], [seq(6, _ => One)], 6)
  {
    SetterStoresEvenOptions(8, 6);
    UncombinedBatchLeavesThePixel(6);
  }
}
