/**
 * `ChapterNineProgressive`: the first progressive tracer.  Every draw runs 8
 * serial sample jobs, each tracing one sample per pixel of the scene through
 * the default camera into its own `float3` buffer, and folds the 8 buffers
 * into the accumulated `float4` texture buffer with `CombineJobEight`.
 *
 * The class keeps, as ghost state, every sample each pixel has received.
 * `Valid` says the texture is their running mean (alpha at 1/8), and every
 * draw adds exactly 8 samples per pixel.
 */
module NineProgressive {
  import opened Mathematics
  import opened Randomness
  import opened Structs
  import opened Native
  import opened Render
  import opened Samples
  import opened Combine
  import opened Batches
  import opened Camera
  import opened Hittables
  import opened Shading

  /** `m_JobCount`: sample jobs per draw. */
  const JobCount: nat := 8

  /**
   * `SerialJob.Execute`'s pixel: two jittering draws, `CameraFrame.Default`'s
   * ray, and the job's `Color` at depth 0, whose glass case calls the helper
   * that takes the refraction index.
   */
  function Shade(world: HitableArray, width: nat, height: nat): (nat, nat, Rng) -> (Float3, Rng) {
    (i: nat, j: nat, r: Rng) =>
      var s := Jitter(i, j, width, height, r);
      (JobColor(GetRay(Camera.Default, s.u, s.v), world, 0, s.rng, GlassWithIndex), s.rng)
  }

  /** A slot's generator: `rand.InitState(seed)`. */
  function Seeded(seed: UInt): Rng { InitState(seed) }

  class ChapterNineProgressive {
    /** `canvasScale`: the image is `ImageSize * canvasScale`. */
    var canvasScale: nat
    /** The texture size after `ScaleTexture`. */
    var width: nat
    var height: nat
    var textureBuffer: NativeArray<Float4>
    /** `m_BatchBuffers`: the C# array of 8 handles, elements reassigned in place. */
    var batchBuffers: seq<NativeArray<Float3>>
    var batchHandles: NativeArray<JobHandle>
    var completedSampleCount: int
    /** Every sample each pixel has received, in order. */
    ghost var samples: seq<seq<Float3>>
    /** Draws since the last `Setup`. */
    ghost var draws: nat
    /** Memory freed through a copy of a handle, which the handle itself still points at. */
    ghost var released: set<object>

    /**
     * Buffers allocated for the current texture size, the count at 8 per draw,
     * and the texture the running mean of each pixel's samples.
     */
    ghost predicate Valid()
      reads this, textureBuffer.Buffer, Buffers(batchBuffers)
    {
      && |batchBuffers| == JobCount && BatchBuffers(batchBuffers, width * height)
      && textureBuffer.IsCreated() && textureBuffer.Length() == width * height
      && batchHandles.IsCreated() && batchHandles.Length() == JobCount
      && completedSampleCount == JobCount * draws
      && Buffers(batchBuffers) !! released
      && Accumulates(textureBuffer.Buffer[..], samples, completedSampleCount)
    }

    /** `new ChapterNineProgressive()`: 8 empty handle slots, then `Setup()`. */
    constructor (imageWidth: nat, imageHeight: nat)
      ensures Valid() && canvasScale == 8 && completedSampleCount == 0
      ensures width == imageWidth * 8 && height == imageHeight * 8
    {
      canvasScale := 0;
      batchBuffers := seq(JobCount, _ => Native.Default());
      textureBuffer := Native.Default();
      batchHandles := Native.Default();
      released := {};
      new;
      Setup(imageWidth, imageHeight);
    }

    /**
     * `Setup()`: dispose, default the canvas scale to 8, allocate the handle
     * array, the texture buffer and the 8 batch buffers for the scaled
     * image, and reset the sample count.  The texture starts all zero, and
     * the memory of the earlier batch buffers is freed.
     */
    method Setup(imageWidth: nat, imageHeight: nat)
      requires |batchBuffers| == JobCount
      modifies this
      ensures Valid()
      ensures canvasScale == (if old(canvasScale) == 0 then 8 else old(canvasScale))
      ensures width == imageWidth * canvasScale && height == imageHeight * canvasScale
      ensures completedSampleCount == 0 && draws == 0
      ensures textureBuffer.Buffer[..] == seq(width * height, _ => Zero4)
      ensures released == old(released) + Memory(old(batchBuffers))
    {
      Dispose();
      Allocate(imageWidth, imageHeight);
    }

    /** The allocations of `Setup` after its `Dispose()`. */
    method Allocate(imageWidth: nat, imageHeight: nat)
      modifies this
      ensures Valid()
      ensures canvasScale == (if old(canvasScale) == 0 then 8 else old(canvasScale))
      ensures width == imageWidth * canvasScale && height == imageHeight * canvasScale
      ensures completedSampleCount == 0 && draws == 0
      ensures textureBuffer.Buffer[..] == seq(width * height, _ => Zero4)
      ensures released == old(released)
    {
      var scale := if canvasScale == 0 then 8 else canvasScale;
      var w, h := imageWidth * scale, imageHeight * scale;
      var handles, texture, buffers := AllocateEight(w * h, released);
      canvasScale, width, height, batchHandles, textureBuffer, batchBuffers := scale, w, h, handles, texture, buffers;
      completedSampleCount, samples, draws := 0, seq(w * h, _ => []), 0;
    }

    /**
     * `DrawToTexture()` on the scene `world`: slot `b` renders with seed
     * `b + CompletedSampleCount + 100`, the combine folds the 8 images into
     * the texture, and the count grows by 8.  Every pixel receives the 8
     * samples of its batch and stays their running mean.
     */
    method DrawToTexture(world: HitableArray)
      requires Valid()
      modifies this, Buffers(batchBuffers), textureBuffer.Buffer
      ensures Valid()
      ensures completedSampleCount == old(completedSampleCount) + JobCount && draws == old(draws) + 1
      ensures canvasScale == old(canvasScale) && width == old(width) && height == old(height)
      ensures batchBuffers == old(batchBuffers) && textureBuffer == old(textureBuffer) && batchHandles == old(batchHandles)
      ensures forall b :: 0 <= b < JobCount ==>
        batchBuffers[b].Buffer[..] == BatchImage(Shade(world, width, height), width, height, Seeded(SlotSeed(b, old(completedSampleCount))))
      ensures samples == WithBatch(old(samples), Shade(world, width, height), Seeded, width, height, old(completedSampleCount), JobCount)
    {
      samples := DrawEight(Shade(world, width, height), Seeded, width, height, completedSampleCount, batchBuffers, textureBuffer, samples);
      completedSampleCount := completedSampleCount + JobCount;
      draws := draws + 1;
    }

    /**
     * `Dispose()`: the loop disposes COPIES of the created batch buffers (a
     * `foreach` variable), so their memory is freed while the array's
     * handles still report `IsCreated`; the texture buffer and the handle
     * array are disposed when created.
     */
    method Dispose()
      modifies this`textureBuffer, this`batchHandles, this`released
      ensures !textureBuffer.IsCreated() && !batchHandles.IsCreated()
      ensures released == old(released) + Memory(batchBuffers)
      ensures forall b :: 0 <= b < |batchBuffers| && batchBuffers[b].IsCreated() ==> batchBuffers[b].Buffer in released
    {
      released := released + Memory(batchBuffers);
      textureBuffer := DisposeIfCreated(textureBuffer);
      batchHandles := DisposeIfCreated(batchHandles);
    }
  }

  /**
   * Seeds never repeat: over draws `k` (count `8k`) and slots `b < 8`, the
   * seed `8k + b + 100` identifies the draw and the slot, as long as it does
   * not wrap around 2^32.
   */
  lemma SeedsDistinct(k1: nat, b1: nat, k2: nat, b2: nat)
    requires b1 < JobCount && b2 < JobCount && (k1, b1) != (k2, b2)
    requires JobCount * k1 + b1 + 100 < UIntLimit && JobCount * k2 + b2 + 100 < UIntLimit
    ensures SlotSeed(b1, JobCount * k1) != SlotSeed(b2, JobCount * k2)
  {
    SlotSeedNoWrap(b1, JobCount * k1);
    SlotSeedNoWrap(b2, JobCount * k2);
    if k1 < k2 {
      assert JobCount * k1 + JobCount <= JobCount * k2;
    } else if k2 < k1 {
      assert JobCount * k2 + JobCount <= JobCount * k1;
    }
  }
}
