/**
 * `Chapters/BatchedTracer`: the fixed-8 progressive tracer of the later
 * chapters.  Every draw runs 8 serial sample jobs, each tracing one sample
 * per pixel through the chapter's camera (with or without defocus blur)
 * into its own `float3` buffer, and folds the 8 buffers into the `float4`
 * texture buffer with `CombineJobEight`.
 *
 * As in `ChapterNineProgressive`, the class keeps every sample each pixel
 * has received as ghost state, and `Valid` says the texture buffer is their
 * running mean.
 */
module ChapterBatched {
  import opened Mathematics
  import opened Randomness
  import opened Structs
  import opened Native
  import opened Render
  import opened Samples
  import opened Combine
  import opened Batches
  import opened Hittables
  import opened Shading
  import Camera

  /** `m_JobCount`: sample jobs per draw. */
  const JobCount: nat := 8

  /**
   * `SerialJobWithFocus.Execute`'s pixel (`focus`) and `SerialJob.Execute`'s:
   * two jittering draws, the camera's ray (through the lens with a copy of
   * the job's generator for `focus`), and the job's `Color` at depth 0,
   * whose glass case calls the helper that takes the refraction index.
   * No gamma is applied.
   */
  function Shade(camera: Camera.CameraFrame, world: HitableArray, width: nat, height: nat, focus: bool)
    : (nat, nat, Rng) -> (Float3, Rng)
  {
    (i: nat, j: nat, r: Rng) =>
      var s := Jitter(i, j, width, height, r);
      var ray := if focus then Camera.GetRayWithLens(camera, s.u, s.v, s.rng) else Camera.GetRay(camera, s.u, s.v);
      (JobColor(ray, world, 0, s.rng, GlassWithIndex), s.rng)
  }

  /** A slot's generator: `rand.InitState(seed)`. */
  function Seeded(seed: UInt): Rng { InitState(seed) }

  /** Where the chapter 10 camera stands and what it looks at. */
  const TenLookFrom := Float3(-2.0, 2.0, 1.0)
  const TenLookAt := Float3(0.0, 0.0, -1.0)

  /**
   * `GetChapterTenCamera()`: a look-at camera from (-2, 2, 1) towards
   * (0, 0, -1) with y up, a 90 degree field of view and the texture's aspect
   * ratio.  Its centre ray looks straight at `lookAt`.
   */
  function ChapterTenCamera(width: nat, height: nat): (c: Camera.CameraFrame)
    ensures c.origin == TenLookFrom
    ensures Camera.GetRay(c, 0.5, 0.5).direction == Neg(Camera.ViewAxis(TenLookFrom, TenLookAt))
  {
    var aspect := Quot(width as real, height as real);
    Camera.LookAtCentre(TenLookFrom, TenLookAt, Float3(0.0, 1.0, 0.0), 90.0, aspect);
    Camera.LookAtFrame(TenLookFrom, TenLookAt, Float3(0.0, 1.0, 0.0), 90.0, aspect)
  }

  class BatchedTracer {
    /** `canvasScale`: the texture is `ImageSize * canvasScale`. */
    var canvasScale: nat
    var width: nat
    var height: nat
    var camera: Camera.CameraFrame
    /** `m_Spheres`. */
    var spheres: HitableArray
    /** `m_TextureBuffer`: the accumulated image. */
    var textureBuffer: NativeArray<Float4>
    /** `m_BatchBuffers`: a C# array of 8 handles, elements reassigned in place. */
    var batchBuffers: seq<NativeArray<Float3>>
    var batchHandles: NativeArray<JobHandle>
    var completedSampleCount: int
    /** Every sample each pixel has received, in order. */
    ghost var samples: seq<seq<Float3>>
    /** Draws since the last `Setup`. */
    ghost var draws: nat
    /** Memory freed through a copy of a handle, which the handle itself still points at. */
    ghost var released: set<object>

    /** Buffers allocated for the texture, 8 samples per draw, and the texture the mean of the samples. */
    ghost predicate Valid()
      reads this, textureBuffer.Buffer, Buffers(batchBuffers)
    {
      && |batchBuffers| == JobCount && BatchBuffers(batchBuffers, width * height)
      && textureBuffer.IsCreated() && textureBuffer.Length() == width * height
      && batchHandles.IsCreated() && batchHandles.Length() == JobCount
      && completedSampleCount == JobCount * draws
      && Buffers(batchBuffers) !! released
      && Accumulates(textureBuffer.Buffer[..], samples, completedSampleCount)
    }

    /** `new BatchedTracer(spheres, camera, canvasScale)`: 8 empty buffer slots, then `Setup()`. */
    constructor (spheres: HitableArray, camera: Camera.CameraFrame, imageWidth: nat, imageHeight: nat, canvasScale: nat := 4)
      ensures Valid() && completedSampleCount == 0
      ensures this.spheres == spheres && this.camera == camera && this.canvasScale == canvasScale
      ensures width == imageWidth * canvasScale && height == imageHeight * canvasScale
    {
      this.canvasScale, this.camera, this.spheres := canvasScale, camera, spheres;
      batchBuffers := seq(JobCount, _ => Native.Default());
      textureBuffer := Native.Default();
      batchHandles := Native.Default();
      released := {};
      new;
      Setup(imageWidth, imageHeight);
    }

    /**
     * `Setup()`: scale the texture, allocate 8 handles, a zeroed texture
     * buffer and the 8 batch buffers, and reset the count.  Nothing is
     * disposed first, so the buffers of an earlier `Setup` are dropped.
     */
    method Setup(imageWidth: nat, imageHeight: nat)
      requires |batchBuffers| == JobCount
      modifies this
      ensures Valid()
      ensures width == imageWidth * canvasScale && height == imageHeight * canvasScale
      ensures completedSampleCount == 0 && draws == 0
      ensures textureBuffer.Buffer[..] == seq(width * height, _ => Zero4)
      ensures fresh(textureBuffer.Buffer) && fresh(batchHandles.Buffer)
      ensures forall b :: 0 <= b < JobCount ==> fresh(batchBuffers[b].Buffer)
      ensures canvasScale == old(canvasScale) && camera == old(camera) && spheres == old(spheres)
      ensures released == old(released)
    {
      var w, h := imageWidth * canvasScale, imageHeight * canvasScale;
      var handles, texture, buffers := AllocateEight(w * h, released);
      Install(w, h, handles, texture, buffers);
    }

    /** The second half of `Setup`: the new size and buffers, and no samples. */
    method Install(w: nat, h: nat, handles: NativeArray<JobHandle>, texture: NativeArray<Float4>, buffers: seq<NativeArray<Float3>>)
      requires handles.IsCreated() && handles.Length() == JobCount
      requires texture.IsCreated() && texture.Length() == w * h
      requires Accumulates(texture.Buffer[..], seq(w * h, _ => []), 0)
      requires |buffers| == JobCount && BatchBuffers(buffers, w * h) && Buffers(buffers) !! released
      modifies this
      ensures Valid() && completedSampleCount == 0 && draws == 0
      ensures width == w && height == h && batchHandles == handles && textureBuffer == texture && batchBuffers == buffers
      ensures canvasScale == old(canvasScale) && camera == old(camera) && spheres == old(spheres)
      ensures released == old(released)
    {
      width, height, batchHandles, textureBuffer, batchBuffers := w, h, handles, texture, buffers;
      completedSampleCount, samples, draws := 0, seq(w * h, _ => []), 0;
    }

    /**
     * One draw: slot `b` renders with seed `b + CompletedSampleCount + 100`,
     * `CombineJobEight` folds the 8 images into the texture buffer, and the
     * count grows by 8.  Every pixel receives the 8 samples of its batch.
     */
    method Draw(focus: bool)
      requires Valid()
      modifies this, Buffers(batchBuffers), textureBuffer.Buffer
      ensures Valid()
      ensures completedSampleCount == old(completedSampleCount) + JobCount && draws == old(draws) + 1
      ensures width == old(width) && height == old(height) && canvasScale == old(canvasScale)
      ensures camera == old(camera) && spheres == old(spheres)
      ensures batchBuffers == old(batchBuffers) && textureBuffer == old(textureBuffer) && batchHandles == old(batchHandles)
      ensures forall b :: 0 <= b < JobCount ==>
        batchBuffers[b].Buffer[..] == BatchImage(Shade(camera, spheres, width, height, focus), width, height,
                                                 Seeded(SlotSeed(b, old(completedSampleCount))))
      ensures samples == WithBatch(old(samples), Shade(camera, spheres, width, height, focus), Seeded,
                                   width, height, old(completedSampleCount), JobCount)
    {
      samples := DrawEight(Shade(camera, spheres, width, height, focus), Seeded, width, height, completedSampleCount,
                           batchBuffers, textureBuffer, samples);
      completedSampleCount := completedSampleCount + JobCount;
      draws := draws + 1;
    }

    /** `DrawToTexture()`: a draw of `SerialJobWithFocus` jobs. */
    method DrawToTexture()
      requires Valid()
      modifies this, Buffers(batchBuffers), textureBuffer.Buffer
      ensures Valid()
      ensures completedSampleCount == old(completedSampleCount) + JobCount
      ensures batchBuffers == old(batchBuffers) && textureBuffer == old(textureBuffer)
      ensures samples == WithBatch(old(samples), Shade(camera, spheres, width, height, true), Seeded,
                                   width, height, old(completedSampleCount), JobCount)
    {
      Draw(true);
    }

    /** `DrawToTextureWithoutFocus()`: a draw of `SerialJob` jobs. */
    method DrawToTextureWithoutFocus()
      requires Valid()
      modifies this, Buffers(batchBuffers), textureBuffer.Buffer
      ensures Valid()
      ensures completedSampleCount == old(completedSampleCount) + JobCount
      ensures batchBuffers == old(batchBuffers) && textureBuffer == old(textureBuffer)
      ensures samples == WithBatch(old(samples), Shade(camera, spheres, width, height, false), Seeded,
                                   width, height, old(completedSampleCount), JobCount)
    {
      Draw(false);
    }

    /**
     * `BatchCoroutine(count, ...)` (`focus`) and `BatchCoroutineNoFocus`
     * without their frame throttle: `count / 8` draws, so the count grows
     * by the largest multiple of 8 not above `count`.
     */
    method BatchCoroutine(count: int, focus: bool)
      requires Valid()
      modifies this, Buffers(batchBuffers), textureBuffer.Buffer
      ensures Valid()
      ensures batchBuffers == old(batchBuffers) && textureBuffer == old(textureBuffer)
      ensures draws == old(draws) + DrawCount(count, JobCount)
      ensures completedSampleCount == old(completedSampleCount) + JobCount * DrawCount(count, JobCount)
    {
      var i := 0;
      while i < TruncDiv(count, 8)
        invariant Valid()
        invariant batchBuffers == old(batchBuffers) && textureBuffer == old(textureBuffer)
        invariant 0 <= i <= DrawCount(count, JobCount)
        invariant draws == old(draws) + i && completedSampleCount == old(completedSampleCount) + JobCount * i
      {
        Draw(focus);
        i := i + 1;
      }
    }

    /**
     * `Dispose()`: the scene is disposed; the loop disposes COPIES of the
     * created batch buffers (a `foreach` variable), so their memory is freed
     * while the array's handles still report `IsCreated`; the texture buffer
     * and the handle array are disposed when created.
     */
    method Dispose()
      modifies this
      ensures !spheres.IsCreated && !textureBuffer.IsCreated() && !batchHandles.IsCreated()
      ensures released == old(released) + Memory(old(batchBuffers))
      ensures batchBuffers == old(batchBuffers)
      ensures forall b :: 0 <= b < |batchBuffers| && batchBuffers[b].IsCreated() ==> batchBuffers[b].Buffer in released
      ensures completedSampleCount == old(completedSampleCount) && width == old(width) && height == old(height)
    {
      spheres := Hittables.Dispose(spheres);
      released := released + Memory(batchBuffers);
      textureBuffer := DisposeIfCreated(textureBuffer);
      batchHandles := DisposeIfCreated(batchHandles);
    }
  }
}
