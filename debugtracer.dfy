/**
 * `DebugTracerWithoutFocus`: a one-sample tracer that also records every ray
 * it follows.  Its serial job traces one sample per pixel through the lens
 * camera and writes the colour to a `float3` buffer; for each pixel it
 * records the camera ray and every scattered ray, one after the other, in a
 * shared segment buffer, and stores how many it recorded.  A conversion job
 * then copies the colours into the `float4` texture buffer with alpha 1.
 *
 * What a job records is given by `DebugTrace`, a function on values; the
 * job class is proved to write exactly that.  The segment buffer holds 50
 * segments per pixel while a pixel can record 51, so a draw requires that
 * its rays fit.
 */
module DebugTracer {
  import opened Mathematics
  import opened Randomness
  import opened Structs
  import opened Native
  import opened Render
  import opened Indexing
  import opened Batches
  import opened Hittables
  import opened Utils
  import opened Shading
  import Tracing
  import Camera

  /** `m_JobCount`: the count a draw adds, although a draw renders one sample. */
  const JobCount: nat := 10
  /** Segments the buffer holds per pixel (`length * 50`). */
  const SegmentsPerPixel: nat := 50

  /** What the job records for one pixel: its colour and its rays in order, the camera ray first. */
  datatype PixelTrace = PixelTrace(colour: Float3, segments: seq<Ray>)

  /**
   * `SerialJobWithFocus`'s pixel `(i, j)`: two jittering draws, the lens
   * camera's ray (with a copy of the generator), then `Color` at depth 0 from
   * the same generator, recording each scattered ray.
   */
  function TraceAt(camera: Camera.CameraFrame, world: HitableArray, width: nat, height: nat, i: nat, j: nat, r: Rng): (PixelTrace, Rng) {
    var s := Jitter(i, j, width, height, r);
    var ray := Camera.GetRayWithLens(camera, s.u, s.v, s.rng);
    var (c, segments) := TracedColor(ray, world, 0, s.rng);
    (PixelTrace(c, [ray] + segments), s.rng)
  }

  /** `TraceAt` as the job's pixel shader. */
  function DebugTrace(camera: Camera.CameraFrame, world: HitableArray, width: nat, height: nat): (nat, nat, Rng) -> (PixelTrace, Rng) {
    (i: nat, j: nat, r: Rng) => TraceAt(camera, world, width, height, i, j, r)
  }

  /** What a job makes of the whole image, starting from generator `rng`: one trace per pixel. */
  function DebugImage(camera: Camera.CameraFrame, world: HitableArray, width: nat, height: nat, rng: Rng): (trace: seq<PixelTrace>)
    ensures |trace| == width * height
  {
    RowsRunLength(DebugTrace(camera, world, width, height), width, height, rng);
    RowStartFits(width, height, height);
    RowsRun(DebugTrace(camera, world, width, height), width, height, rng).0
  }

  /** The whole image is the row-major run of `TraceAt` over `width * height` indices. */
  lemma DebugImageIsRowMajor(camera: Camera.CameraFrame, world: HitableArray, width: nat, height: nat, rng: Rng)
    ensures DebugImage(camera, world, width, height, rng)
         == Run(RowMajorKernel(DebugTrace(camera, world, width, height), width), width * height, rng).0
  {
    RowsRunIsRowMajor(DebugTrace(camera, world, width, height), width, height, rng);
    RowStartFits(width, height, height);
  }

  /** The colours of a trace. */
  function Colours(trace: seq<PixelTrace>): (s: seq<Float3>)
    ensures |s| == |trace|
  {
    if |trace| == 0 then [] else Colours(trace[..|trace| - 1]) + [trace[|trace| - 1].colour]
  }

  /** The per-pixel segment counts of a trace. */
  function Counts(trace: seq<PixelTrace>): (s: seq<int>)
    ensures |s| == |trace|
  {
    if |trace| == 0 then [] else Counts(trace[..|trace| - 1]) + [|trace[|trace| - 1].segments|]
  }

  /** Pixel `p`'s colour and count are the `p`-th of the colours and the counts. */
  lemma {:induction false} ColoursAt(trace: seq<PixelTrace>, p: nat)
    requires p < |trace|
    ensures Colours(trace)[p] == trace[p].colour && Counts(trace)[p] == |trace[p].segments|
    decreases |trace|
  {
    if p < |trace| - 1 {
      ColoursAt(trace[..|trace| - 1], p);
    }
  }

  /** Every segment of a trace, pixel after pixel: what the segment buffer holds. */
  function Segments(trace: seq<PixelTrace>): seq<Ray> {
    if |trace| == 0 then [] else Segments(trace[..|trace| - 1]) + trace[|trace| - 1].segments
  }

  /** `a + b + ...` of a list of counts. */
  function Total(counts: seq<int>): int {
    if |counts| == 0 then 0 else Total(counts[..|counts| - 1]) + counts[|counts| - 1]
  }

  /** The segment index after a trace is the sum of the per-pixel counts. */
  lemma {:induction false} SegmentIndexIsTotal(trace: seq<PixelTrace>)
    ensures |Segments(trace)| == Total(Counts(trace))
  {
    if |trace| > 0 {
      assert Counts(trace)[..|trace| - 1] == Counts(trace[..|trace| - 1]);
      SegmentIndexIsTotal(trace[..|trace| - 1]);
    }
  }

  /** A longer trace never records fewer segments. */
  lemma {:induction false} SegmentsOfPrefix(trace: seq<PixelTrace>, k: nat)
    requires k <= |trace|
    ensures |Segments(trace[..k])| <= |Segments(trace)|
    decreases |trace|
  {
    if k < |trace| {
      assert trace[..|trace| - 1][..k] == trace[..k];
      SegmentsOfPrefix(trace[..|trace| - 1], k);
    } else {
      assert trace[..k] == trace;
    }
  }

  /** The segments of two traces one after the other are the first's, then the second's. */
  lemma {:induction false} SegmentsAppend(a: seq<PixelTrace>, b: seq<PixelTrace>)
    ensures Segments(a + b) == Segments(a) + Segments(b)
    decreases |b|
  {
    if |b| == 0 {
      assert a + b == a;
    } else {
      var front := b[..|b| - 1];
      assert (a + b)[..|a + b| - 1] == a + front;
      SegmentsAppend(a, front);
      AppendAssociates(Segments(a), Segments(front), b[|b| - 1].segments);
    }
  }

  /** One more pixel of a row records its own segments after the row's. */
  lemma RowStep(shade: (nat, nat, Rng) -> (PixelTrace, Rng), j: nat, i: nat, rng: Rng)
    ensures var before := RowRun(shade, j, i, rng);
      |Segments(RowRun(shade, j, i + 1, rng).0)| == |Segments(before.0)| + |shade(i, j, before.1).0.segments|
  {
    var before := RowRun(shade, j, i, rng);
    TraceStep(before.0, shade(i, j, before.1).0);
  }

  /** One more row records its segments after the rows above. */
  lemma RowsStep(shade: (nat, nat, Rng) -> (PixelTrace, Rng), width: nat, j: nat, rng: Rng)
    ensures var before := RowsRun(shade, width, j, rng);
      |Segments(RowsRun(shade, width, j + 1, rng).0)| == |Segments(before.0)| + |Segments(RowRun(shade, j, width, before.1).0)|
  {
    var before := RowsRun(shade, width, j, rng);
    SegmentsAppend(before.0, RowRun(shade, j, width, before.1).0);
  }

  /** More pixels of a row never record fewer segments, whatever the shader. */
  lemma {:induction false} RowGrows(shade: (nat, nat, Rng) -> (PixelTrace, Rng), j: nat, i: nat, m: nat, rng: Rng)
    requires i <= m
    ensures |Segments(RowRun(shade, j, i, rng).0)| <= |Segments(RowRun(shade, j, m, rng).0)|
  {
    if i < m {
      RowGrows(shade, j, i, m - 1, rng);
      RowStep(shade, j, m - 1, rng);
      assert |Segments(RowRun(shade, j, i, rng).0)| <= |Segments(RowRun(shade, j, m, rng).0)|;
    }
  }

  /** More rows never record fewer segments. */
  lemma {:induction false} RowsGrow(shade: (nat, nat, Rng) -> (PixelTrace, Rng), width: nat, j: nat, m: nat, rng: Rng)
    requires j <= m
    ensures |Segments(RowsRun(shade, width, j, rng).0)| <= |Segments(RowsRun(shade, width, m, rng).0)|
  {
    if j < m {
      RowsGrow(shade, width, j, m - 1, rng);
      RowsStep(shade, width, m - 1, rng);
      assert |Segments(RowsRun(shade, width, j, rng).0)| <= |Segments(RowsRun(shade, width, m, rng).0)|;
    }
  }

  /**
   * Row `j` after the rows above records no more than the whole image: what
   * the job needs of the buffer before it starts the row.
   */
  lemma RowBudget(shade: (nat, nat, Rng) -> (PixelTrace, Rng), width: nat, height: nat, j: nat, rng: Rng)
    requires j < height
    ensures var before := RowsRun(shade, width, j, rng);
      |Segments(before.0)| + |Segments(RowRun(shade, j, width, before.1).0)| <= |Segments(RowsRun(shade, width, height, rng).0)|
  {
    RowsStep(shade, width, j, rng);
    RowsGrow(shade, width, j + 1, height, rng);
  }

  /**
   * Pixel `i` of row `j` fits where the whole row fits: what the rows above
   * and the first `i` pixels recorded, plus the pixel's own segments, is at
   * most the rows above plus the whole row.
   */
  lemma PixelFits(shade: (nat, nat, Rng) -> (PixelTrace, Rng), width: nat,
                  j: nat, i: nat, r0: Rng, rows: seq<PixelTrace>, row: seq<PixelTrace>, r: Rng)
    requires i < width && RowRun(shade, j, i, r0) == (row, r)
    ensures |Segments(rows + row)| + |shade(i, j, r).0.segments| <= |Segments(rows)| + |Segments(RowRun(shade, j, width, r0).0)|
  {
    SegmentsAppend(rows, row);
    RowStep(shade, j, i, r0);
    RowGrows(shade, j, i + 1, width, r0);
  }

  /** One more pixel appends its colour, its count and its segments. */
  lemma TraceStep(trace: seq<PixelTrace>, t: PixelTrace)
    ensures Segments(trace + [t]) == Segments(trace) + t.segments
    ensures Colours(trace + [t]) == Colours(trace) + [t.colour]
    ensures Counts(trace + [t]) == Counts(trace) + [|t.segments|]
  {
    assert (trace + [t])[..|trace|] == trace;
  }

  /** If no pixel records more than `m` segments, the trace records at most `m` per pixel. */
  lemma {:induction false} SegmentsFit(trace: seq<PixelTrace>, m: nat)
    requires forall k :: 0 <= k < |trace| ==> |trace[k].segments| <= m
    ensures |Segments(trace)| <= m * |trace|
  {
    if |trace| > 0 {
      SegmentsFit(trace[..|trace| - 1], m);
    }
  }

  /**
   * Every pixel records its camera ray and one segment per bounce: between 1
   * and 51 segments.  Its colour is the job colour of the camera ray, with the
   * glass case that takes no refraction index.
   */
  lemma DebugPixel(camera: Camera.CameraFrame, world: HitableArray, width: nat, height: nat, i: nat, j: nat, r: Rng)
    ensures var s := Jitter(i, j, width, height, r);
      var ray := Camera.GetRayWithLens(camera, s.u, s.v, s.rng);
      var (t, next) := TraceAt(camera, world, width, height, i, j, r);
      && 1 <= |t.segments| <= Tracing.MaxDepth + 1 && t.segments[0] == ray
      && t.colour == JobColor(ray, world, 0, s.rng, GlassWithoutIndex)
      && next == s.rng
  {
    var s := Jitter(i, j, width, height, r);
    TracedColorIsJobColor(Camera.GetRayWithLens(camera, s.u, s.v, s.rng), world, 0, s.rng);
  }

  /** The row-major kernel's pixel `p` records between 1 and 51 segments. */
  lemma KernelCounts(camera: Camera.CameraFrame, world: HitableArray, width: nat, height: nat, p: nat, r: Rng)
    ensures var t := RowMajorKernel(DebugTrace(camera, world, width, height), width)(p, r).0;
      1 <= |t.segments| <= Tracing.MaxDepth + 1
  {
    if width == 0 {
      DebugPixel(camera, world, width, height, p, 0, r);
    } else {
      DebugPixel(camera, world, width, height, p % width, p / width, r);
    }
  }

  /** Over a whole image: every pixel records between 1 and 51 segments, so at most 51 per pixel in all. */
  lemma DebugImageCounts(camera: Camera.CameraFrame, world: HitableArray, width: nat, height: nat, rng: Rng)
    ensures var trace := DebugImage(camera, world, width, height, rng);
      (forall p :: 0 <= p < |trace| ==> 1 <= Counts(trace)[p] <= Tracing.MaxDepth + 1)
      && |Segments(trace)| <= (Tracing.MaxDepth + 1) * (width * height)
  {
    var kernel := RowMajorKernel(DebugTrace(camera, world, width, height), width);
    var trace := DebugImage(camera, world, width, height, rng);
    DebugImageIsRowMajor(camera, world, width, height, rng);
    forall p | 0 <= p < |trace|
      ensures 1 <= |trace[p].segments| <= Tracing.MaxDepth + 1 && Counts(trace)[p] == |trace[p].segments|
    {
      ColoursAt(trace, p);
      RunAt(kernel, p, width * height, rng);
      KernelCounts(camera, world, width, height, p, Run(kernel, p, rng).1);
    }
    SegmentsFit(trace, Tracing.MaxDepth + 1);
  }

  /** A draw from `sampleCount` fits the segment buffer: its rays number at most 50 per pixel. */
  ghost predicate DrawFits(camera: Camera.CameraFrame, world: HitableArray, width: nat, height: nat, sampleCount: int) {
    |Segments(DebugImage(camera, world, width, height, InitState(SlotSeed(0, sampleCount))))| <= SegmentsPerPixel * (width * height)
  }

  /** The count before draw `n` of a coroutine that starts at `sampleCount`. */
  function DrawSeed(sampleCount: int, n: nat): (c: int)
    ensures c - sampleCount == JobCount * n
  {
    sampleCount + JobCount * n
  }

  /** Each of `draws` draws from `sampleCount` on, 10 apart, fits the segment buffer. */
  ghost predicate DrawsFit(camera: Camera.CameraFrame, world: HitableArray, width: nat, height: nat, sampleCount: int, draws: nat) {
    forall n: nat {:trigger DrawSeed(sampleCount, n)} :: n < draws ==> DrawFits(camera, world, width, height, DrawSeed(sampleCount, n))
  }

  /** `Float3ToFloat4Job.Execute(index)`'s pixel: the colour with alpha `aValue`. */
  function WithAlpha(c: Float3, aValue: real): (p: Float4)
    ensures Rgb(p) == c && p.w == aValue
  {
    Float4(c.x, c.y, c.z, aValue)
  }

  /** `Float3ToFloat4Job` scheduled over `In.Length` indices and completed. */
  method ConvertToFloat4(input: NativeArray<Float3>, output: NativeArray<Float4>, aValue: real)
    requires input.IsCreated() && output.IsCreated() && input.Length() <= output.Length()
    modifies output.Buffer
    ensures forall k :: 0 <= k < input.Length() ==> output.Buffer[k] == WithAlpha(input.Buffer[k], aValue)
    ensures forall k :: input.Length() <= k < output.Length() ==> output.Buffer[k] == old(output.Buffer[k])
  {
    var source, target := input.Buffer, output.Buffer;
    var index := 0;
    while index < source.Length
      invariant 0 <= index <= source.Length
      invariant forall k :: 0 <= k < index ==> target[k] == WithAlpha(source[k], aValue)
      invariant forall k :: index <= k < target.Length ==> target[k] == old(target[k])
    {
      target[index] := WithAlpha(source[index], aValue);
      index := index + 1;
    }
  }

  /**
   * `SerialJobWithFocus`: the job struct.  Its buffers are the tracer's; its
   * generator and its two segment counters change while it runs.
   */
  class SerialJobWithFocus {
    const width: nat
    const height: nat
    const camera: Camera.CameraFrame
    const world: HitableArray
    /** `Pixels`, `PixelRaySegmentCount` and `RaySegments`. */
    const pixels: array<Float3>
    const pixelRaySegmentCount: array<int>
    const raySegments: array<Ray>
    var random: Rng
    /** `m_PixelRaySegmentCounter`: segments recorded for the current pixel. */
    var pixelRaySegmentCounter: int
    /** `m_RaySegmentIndex`: the next free slot of the segment buffer. */
    var raySegmentIndex: int
    /** What the job makes of one pixel: `TraceAt` for this job's camera, scene and size. */
    ghost const shade: (nat, nat, Rng) -> (PixelTrace, Rng)

    constructor (camera: Camera.CameraFrame, random: Rng, width: nat, height: nat, world: HitableArray,
                 pixels: array<Float3>, pixelRaySegmentCount: array<int>, raySegments: array<Ray>)
      ensures this.camera == camera && this.random == random && this.width == width && this.height == height
      ensures this.world == world && this.pixels == pixels
      ensures this.pixelRaySegmentCount == pixelRaySegmentCount && this.raySegments == raySegments
      ensures pixelRaySegmentCounter == 0 && raySegmentIndex == 0
      ensures shade == DebugTrace(camera, world, width, height) && ShadesPixels()
    {
      this.camera, this.random, this.width, this.height, this.world := camera, random, width, height, world;
      this.pixels, this.pixelRaySegmentCount, this.raySegments := pixels, pixelRaySegmentCount, raySegments;
      pixelRaySegmentCounter, raySegmentIndex := 0, 0;
      shade := DebugTrace(camera, world, width, height);
    }

    /**
     * `shade` is `TraceAt` on every pixel.  The fact is used only where a
     * `TraceAt` term is at hand, so the loops reason about `shade` alone.
     */
    ghost predicate ShadesPixels() {
      forall i: nat, j: nat, r: Rng {:trigger TraceAt(camera, world, width, height, i, j, r)}
        :: shade(i, j, r) == TraceAt(camera, world, width, height, i, j, r)
    }

    /**
     * `RecordRaySegment(segment)`: the segment goes to the next free slot, and
     * both counters grow by one.
     */
    method RecordRaySegment(segment: Ray)
      requires 0 <= raySegmentIndex < raySegments.Length
      modifies this`raySegmentIndex, this`pixelRaySegmentCounter, raySegments
      ensures raySegmentIndex == old(raySegmentIndex) + 1
      ensures raySegments[..raySegmentIndex] == old(raySegments[..raySegmentIndex]) + [segment]
      ensures pixelRaySegmentCounter == old(pixelRaySegmentCounter) + 1
    {
      raySegments[raySegmentIndex] := segment;
      raySegmentIndex := raySegmentIndex + 1;
      pixelRaySegmentCounter := pixelRaySegmentCounter + 1;
    }

    /**
     * `Color(r, world, depth)`: the colour `TracedColor` gives, recording each
     * scattered ray after the segments already recorded.  The rays must fit
     * the buffer.
     */
    method Color(r: Ray, depth: int) returns (c: Float3)
      requires 0 <= raySegmentIndex && raySegmentIndex + |TracedColor(r, world, depth, random).1| <= raySegments.Length
      modifies this`raySegmentIndex, this`pixelRaySegmentCounter, raySegments
      ensures var (colour, segments) := TracedColor(r, world, depth, random);
        && c == colour
        && raySegmentIndex == old(raySegmentIndex) + |segments|
        && pixelRaySegmentCounter == old(pixelRaySegmentCounter) + |segments|
        && raySegments[..raySegmentIndex] == old(raySegments[..raySegmentIndex]) + segments
      decreases Tracing.BouncesLeft(depth)
    {
      var (hit, rec) := HitResult(world, r, Tracing.TMin, FloatMaxValue, DefaultHitRecord);
      if hit {
        if depth < Tracing.MaxDepth {
          var b := MaterialScatter(GlassWithoutIndex, random, r, rec);
          if b.scatters {
            RecordRaySegment(b.scattered);
            var next := Color(b.scattered, depth + 1);
            return Mul(b.attenuation, next);
          }
        } else {
          return Zero;
        }
      }
      assert raySegments[..raySegmentIndex] == old(raySegments[..raySegmentIndex]) + [];
      return BackgroundColor(r);
    }

    /**
     * The first `k` pixels are done and `trace` is what they recorded: their
     * colours and counts are written and their segments fill the buffer up to
     * `raySegmentIndex`.
     */
    ghost predicate Traced(k: nat, trace: seq<PixelTrace>)
      reads this, pixels, pixelRaySegmentCount, raySegments
    {
      && |trace| == k <= pixels.Length && k <= pixelRaySegmentCount.Length
      && raySegmentIndex == |Segments(trace)| <= raySegments.Length
      && pixels[..k] == Colours(trace)
      && pixelRaySegmentCount[..k] == Counts(trace)
      && raySegments[..raySegmentIndex] == Segments(trace)
    }

    /**
     * One pixel of `Execute`: jitter, the lens ray, the counter reset, the
     * camera ray recorded, `Color`, then the count and the colour written at
     * `j * nx + i`.  The pixel's trace is appended to what was recorded.
     */
    method TracePixel(i: nat, j: nat) returns (ghost t: PixelTrace)
      requires ShadesPixels()
      requires i < width && RowMajor(width, i, j) < pixels.Length && RowMajor(width, i, j) < pixelRaySegmentCount.Length
      requires 0 <= raySegmentIndex
      requires raySegmentIndex + |shade(i, j, random).0.segments| <= raySegments.Length
      modifies this`random, this`raySegmentIndex, this`pixelRaySegmentCounter, pixels, pixelRaySegmentCount, raySegments
      ensures (t, random) == shade(i, j, old(random))
      ensures var index := RowMajor(width, i, j);
        && pixels[..index + 1] == old(pixels[..index]) + [t.colour]
        && pixelRaySegmentCount[..index + 1] == old(pixelRaySegmentCount[..index]) + [|t.segments|]
        && raySegmentIndex == old(raySegmentIndex) + |t.segments|
        && raySegments[..raySegmentIndex] == old(raySegments[..raySegmentIndex]) + t.segments
    {
      assert shade(i, j, random) == TraceAt(camera, world, width, height, i, j, random);
      var index := RowMajor(width, i, j);
      var s := Jitter(i, j, width, height, random);
      random := s.rng;
      var r := Camera.GetRayWithLens(camera, s.u, s.v, random);
      var colour := TraceRay(r);
      t := PixelTrace(colour, [r] + TracedColor(r, world, 0, random).1);
      WritePixel(index, colour);
    }

    /**
     * The middle of a pixel: the counter reset, the camera ray recorded, then
     * `Color` at depth 0.  The ray and its bounces are appended and counted.
     */
    method TraceRay(r: Ray) returns (colour: Float3)
      requires 0 <= raySegmentIndex && raySegmentIndex + 1 + |TracedColor(r, world, 0, random).1| <= raySegments.Length
      modifies this`raySegmentIndex, this`pixelRaySegmentCounter, raySegments
      ensures var (c, segments) := TracedColor(r, world, 0, random);
        && colour == c
        && pixelRaySegmentCounter == 1 + |segments|
        && raySegmentIndex == old(raySegmentIndex) + 1 + |segments|
        && raySegments[..raySegmentIndex] == old(raySegments[..raySegmentIndex]) + ([r] + segments)
    {
      pixelRaySegmentCounter := 0;
      RecordRaySegment(r);
      colour := Color(r, 0);
      AppendAssociates(old(raySegments[..raySegmentIndex]), [r], TracedColor(r, world, 0, random).1);
    }

    /** The end of a pixel: its segment count, then its colour, written at `index`. */
    method WritePixel(index: nat, colour: Float3)
      requires index < pixels.Length && index < pixelRaySegmentCount.Length
      modifies pixels, pixelRaySegmentCount
      ensures pixels[..index + 1] == old(pixels[..index]) + [colour]
      ensures pixelRaySegmentCount[..index + 1] == old(pixelRaySegmentCount[..index]) + [pixelRaySegmentCounter]
    {
      pixelRaySegmentCount[index] := pixelRaySegmentCounter;
      pixels[index] := colour;
      assert pixels[..index + 1] == old(pixels[..index]) + [colour];
    }

    /**
     * The inner loop of `Execute`: row `j`, whose pixels are `start ..
     * start + width - 1`.  `rows` is what the rows above recorded; the row's
     * trace is appended to it.
     */
    method TraceRow(j: nat, ghost start: nat, ghost rows: seq<PixelTrace>)
      requires ShadesPixels()
      requires start == RowStart(width, j)
      requires start + width <= pixels.Length && start + width <= pixelRaySegmentCount.Length
      requires Traced(start, rows)
      requires |Segments(rows)| + |Segments(RowRun(shade, j, width, random).0)| <= raySegments.Length
      modifies this`random, this`raySegmentIndex, this`pixelRaySegmentCounter, pixels, pixelRaySegmentCount, raySegments
      ensures Traced(start + width, rows + RowRun(shade, j, width, old(random)).0)
      ensures random == RowRun(shade, j, width, old(random)).1
    {
      ghost var r0 := random;
      ghost var row: seq<PixelTrace> := [];
      ghost var k := start;
      assert rows + row == rows;
      var i := 0;
      while i < width
        invariant 0 <= i <= width && k == start + i
        invariant Traced(k, rows + row) && RowRun(shade, j, i, r0) == (row, random)
      {
        row := TraceNext(i, j, k, r0, rows, row);
        i, k := i + 1, k + 1;
      }
    }

    /** The body of the inner loop: pixel `(i, j)`, index `k`, extends the row by its trace. */
    method TraceNext(i: nat, j: nat, ghost k: nat, ghost r0: Rng, ghost rows: seq<PixelTrace>, ghost row: seq<PixelTrace>)
      returns (ghost rowOut: seq<PixelTrace>)
      requires ShadesPixels()
      requires i < width && k == RowStart(width, j) + i && k < pixels.Length && k < pixelRaySegmentCount.Length
      requires Traced(k, rows + row) && RowRun(shade, j, i, r0) == (row, random)
      requires |Segments(rows)| + |Segments(RowRun(shade, j, width, r0).0)| <= raySegments.Length
      modifies this`random, this`raySegmentIndex, this`pixelRaySegmentCounter, pixels, pixelRaySegmentCount, raySegments
      ensures Traced(k + 1, rows + rowOut) && RowRun(shade, j, i + 1, r0) == (rowOut, random)
    {
      RowStartIsProduct(width, j);
      PixelFits(shade, width, j, i, r0, rows, row, random);
      ghost var before := rows + row;
      assert k == RowMajor(width, i, j);
      var t := TracePixel(i, j);
      TraceStep(before, t);
      assert pixels[..k + 1] == Colours(before + [t]);
      assert pixelRaySegmentCount[..k + 1] == Counts(before + [t]);
      assert raySegments[..raySegmentIndex] == Segments(before + [t]);
      AppendAssociates(rows, row, [t]);
      rowOut := row + [t];
    }

    /** The body of the outer loop: row `j` extends the rows above by its trace. */
    method TraceNextRow(j: nat, ghost start: nat, ghost rng: Rng, ghost rows: seq<PixelTrace>)
      returns (ghost rowsOut: seq<PixelTrace>)
      requires ShadesPixels()
      requires j < height && start == RowStart(width, j)
      requires width * height <= pixels.Length && width * height <= pixelRaySegmentCount.Length
      requires |Segments(RowsRun(shade, width, height, rng).0)| <= raySegments.Length
      requires Traced(start, rows) && RowsRun(shade, width, j, rng) == (rows, random)
      modifies this`random, this`raySegmentIndex, this`pixelRaySegmentCounter, pixels, pixelRaySegmentCount, raySegments
      ensures Traced(start + width, rowsOut) && RowsRun(shade, width, j + 1, rng) == (rowsOut, random)
    {
      RowStartFits(width, height, j);
      RowBudget(shade, width, height, j, rng);
      rowsOut := rows + RowRun(shade, j, width, random).0;
      TraceRow(j, start, rows);
    }

    /**
     * `Execute()`: the segment index starts at 0 and the pixels are traced row
     * by row.  The colours, the counts and the segments are the job's trace,
     * and the segment index is the total recorded.
     */
    method Execute()
      requires ShadesPixels()
      requires width * height <= pixels.Length && width * height <= pixelRaySegmentCount.Length
      requires |Segments(RowsRun(shade, width, height, random).0)| <= raySegments.Length
      modifies this`random, this`raySegmentIndex, this`pixelRaySegmentCounter, pixels, pixelRaySegmentCount, raySegments
      ensures var trace := RowsRun(shade, width, height, old(random)).0;
        && pixels[..width * height] == Colours(trace)
        && pixelRaySegmentCount[..width * height] == Counts(trace)
        && raySegmentIndex == |Segments(trace)|
        && raySegments[..raySegmentIndex] == Segments(trace)
    {
      ghost var rng := random;
      ghost var rows: seq<PixelTrace> := [];
      ghost var start := 0;
      raySegmentIndex := 0;
      var j := 0;
      while j < height
        invariant 0 <= j <= height && start == RowStart(width, j)
        invariant Traced(start, rows) && RowsRun(shade, width, j, rng) == (rows, random)
      {
        rows := TraceNextRow(j, start, rng, rows);
        j, start := j + 1, start + width;
      }
      RowStartFits(width, height, j);
    }
  }

  class DebugTracerWithoutFocus {
    var canvasScale: nat
    var camera: Camera.CameraFrame
    /** `Spheres`. */
    var spheres: HitableArray
    var width: nat
    var height: nat
    /** `m_TextureBuffer`, `m_TracerBuffer`, `m_PerPixelRaySegmentCount` and `m_RaySegments`. */
    var textureBuffer: NativeArray<Float4>
    var tracerBuffer: NativeArray<Float3>
    var perPixelRaySegmentCount: NativeArray<int>
    var raySegments: NativeArray<Ray>
    var completedSampleCount: int

    /** Every buffer allocated for the texture size; 50 segment slots per pixel. */
    ghost predicate Valid()
      reads this
    {
      && tracerBuffer.IsCreated() && tracerBuffer.Length() == width * height
      && textureBuffer.IsCreated() && textureBuffer.Length() == width * height
      && perPixelRaySegmentCount.IsCreated() && perPixelRaySegmentCount.Length() == width * height
      && raySegments.IsCreated() && raySegments.Length() == SegmentsPerPixel * (width * height)
    }

    /** `new DebugTracerWithoutFocus(spheres, camera, canvasScale)`: the fields, then `Setup()`. */
    constructor (spheres: HitableArray, camera: Camera.CameraFrame, imageWidth: nat, imageHeight: nat, canvasScale: nat := 4)
      ensures Valid() && completedSampleCount == 0
      ensures this.spheres == spheres && this.camera == camera && this.canvasScale == canvasScale
      ensures width == imageWidth * canvasScale && height == imageHeight * canvasScale
    {
      this.canvasScale, this.camera, this.spheres := canvasScale, camera, spheres;
      new;
      Setup(imageWidth, imageHeight);
    }

    /**
     * `Setup()`: scale the texture and allocate the four buffers, the segment
     * buffer with 50 slots per pixel, and reset the count.  Nothing is
     * disposed first.
     */
    method Setup(imageWidth: nat, imageHeight: nat)
      modifies this
      ensures Valid() && completedSampleCount == 0
      ensures width == imageWidth * canvasScale && height == imageHeight * canvasScale
      ensures canvasScale == old(canvasScale) && camera == old(camera) && spheres == old(spheres)
    {
      var w, h := imageWidth * canvasScale, imageHeight * canvasScale;
      var length := w * h;
      var tracer := Allocate(length, Zero);
      var texture := Allocate(length, Zero4);
      var counts := Allocate(length, 0);
      var segments := Allocate(length * SegmentsPerPixel, DefaultRay);
      width, height, tracerBuffer, textureBuffer := w, h, tracer, texture;
      perPixelRaySegmentCount, raySegments, completedSampleCount := counts, segments, 0;
    }

    /**
     * `DrawToTexture()`: one job seeded with `CompletedSampleCount + 100`
     * traces ONE sample per pixel, the conversion copies its colours into the
     * texture buffer with alpha 1, replacing what was there, and the count
     * grows by 10.  The draw's rays must fit the segment buffer.
     */
    method DrawToTexture()
      requires Valid() && DrawFits(camera, spheres, width, height, completedSampleCount)
      modifies this`completedSampleCount, tracerBuffer.Buffer, textureBuffer.Buffer, perPixelRaySegmentCount.Buffer, raySegments.Buffer
      ensures Valid()
      ensures completedSampleCount == old(completedSampleCount) + JobCount
      ensures var trace := DebugImage(camera, spheres, width, height, InitState(SlotSeed(0, old(completedSampleCount))));
        && tracerBuffer.Buffer[..] == Colours(trace)
        && (forall p :: 0 <= p < width * height ==> textureBuffer.Buffer[p] == WithAlpha(trace[p].colour, 1.0))
        && perPixelRaySegmentCount.Buffer[..] == Counts(trace)
        && raySegments.Buffer[..|Segments(trace)|] == Segments(trace)
    {
      var job := new SerialJobWithFocus(camera, InitState(SlotSeed(0, completedSampleCount)), width, height, spheres,
                                        tracerBuffer.Buffer, perPixelRaySegmentCount.Buffer, raySegments.Buffer);
      job.Execute();
      assert tracerBuffer.Buffer[..] == tracerBuffer.Buffer[..width * height];
      assert perPixelRaySegmentCount.Buffer[..] == perPixelRaySegmentCount.Buffer[..width * height];
      ConvertToFloat4(tracerBuffer, textureBuffer, 1.0);
      ghost var trace := DebugImage(camera, spheres, width, height, InitState(SlotSeed(0, completedSampleCount)));
      forall p | 0 <= p < width * height
        ensures textureBuffer.Buffer[p] == WithAlpha(trace[p].colour, 1.0)
      {
        ColoursAt(trace, p);
      }
      completedSampleCount := completedSampleCount + JobCount;
    }

    /**
     * `BatchCoroutine(count, ...)` and `BatchCoroutineNoFocus`, which are the
     * same, without their frame throttle: `count / 10` draws, each of whose
     * rays fit the segment buffer.
     */
    method BatchCoroutine(count: int)
      requires Valid() && DrawsFit(camera, spheres, width, height, completedSampleCount, DrawCount(count, JobCount))
      modifies this`completedSampleCount, tracerBuffer.Buffer, textureBuffer.Buffer, perPixelRaySegmentCount.Buffer, raySegments.Buffer
      ensures Valid()
      ensures completedSampleCount == old(completedSampleCount) + JobCount * DrawCount(count, JobCount)
    {
      ghost var first := completedSampleCount;
      var i := 0;
      while i < TruncDiv(count, 10)
        invariant 0 <= i <= DrawCount(count, JobCount)
        invariant Valid()
        invariant completedSampleCount == DrawSeed(first, i)
      {
        DrawNext(first, i, DrawCount(count, JobCount));
        i := i + 1;
      }
    }

    /** Draw `n` of a coroutine whose `draws` draws from `first` on fit the segment buffer. */
    method DrawNext(ghost first: int, ghost n: nat, ghost draws: nat)
      requires Valid() && n < draws && DrawsFit(camera, spheres, width, height, first, draws)
      requires completedSampleCount == DrawSeed(first, n)
      modifies this`completedSampleCount, tracerBuffer.Buffer, textureBuffer.Buffer, perPixelRaySegmentCount.Buffer, raySegments.Buffer
      ensures Valid() && completedSampleCount == DrawSeed(first, n + 1)
    {
      DrawToTexture();
    }

    /**
     * `Dispose()` as written: the scene is disposed; then, guarded by
     * `m_TracerBuffer.IsCreated`, the TEXTURE buffer is disposed (throwing if
     * it is not created), and again guarded by its own `IsCreated`.  The
     * tracer buffer is never disposed, nor are the two segment buffers.
     */
    method Dispose() returns (ok: bool)
      modifies this`spheres, this`textureBuffer
      ensures !spheres.IsCreated && !textureBuffer.IsCreated()
      ensures ok <==> !old(tracerBuffer).IsCreated() || old(textureBuffer).IsCreated()
      ensures tracerBuffer == old(tracerBuffer) && tracerBuffer.IsCreated() == old(tracerBuffer).IsCreated()
    {
      spheres := Hittables.Dispose(spheres);
      ok := true;
      if tracerBuffer.IsCreated() {
        var (texture, disposed) := Native.Dispose(textureBuffer);
        textureBuffer := texture;
        if !disposed {
          return false;
        }
      }
      if textureBuffer.IsCreated() {
        textureBuffer := Native.Dispose(textureBuffer).0;
      }
    }

    /**
     * `Dispose()` as evidently intended: each buffer disposed under its own
     * guard, so both are released and nothing throws.
     */
    method DisposeAsIntended()
      modifies this`spheres, this`tracerBuffer, this`textureBuffer
      ensures !spheres.IsCreated && !tracerBuffer.IsCreated() && !textureBuffer.IsCreated()
    {
      spheres := Hittables.Dispose(spheres);
      tracerBuffer := DisposeIfCreated(tracerBuffer);
      textureBuffer := DisposeIfCreated(textureBuffer);
    }
  }
}
