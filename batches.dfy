/**
 * What the progressive tracers share.  A batch is one sample job per slot,
 * each rendering one sample per pixel into its own buffer from the seed
 * `slot + CompletedSampleCount + 100`; a combine job then folds the batch
 * into the accumulated image.  The model keeps, per pixel, the ghost list
 * of every sample folded in so far, and proves that the accumulated colour
 * is their mean.
 */
module Batches {
  import opened Mathematics
  import opened Randomness
  import opened Native
  import opened Render
  import opened Samples
  import opened Combine

  /** The pixels one sample job writes when it starts from generator `rng`. */
  function BatchImage<T>(shade: (nat, nat, Rng) -> (T, Rng), width: nat, height: nat, rng: Rng): (image: seq<T>)
    ensures |image| == width * height
  {
    Run(RowMajorKernel(shade, width), width * height, rng).0
  }

  /** Batch buffers: every one created with `length` elements, no two sharing memory. */
  predicate BatchBuffers<T>(buffers: seq<NativeArray<T>>, length: nat) {
    && (forall k :: 0 <= k < |buffers| ==> buffers[k].IsCreated() && buffers[k].Length() == length)
    && (forall k, l :: 0 <= k < l < |buffers| ==> buffers[k].Buffer != buffers[l].Buffer)
  }

  /**
   * `for (j = 0; j < buffers.Length; j++) buffers[j] = new NativeArray<T>(length, ...)`:
   * `count` fresh, zero-filled buffers of `length` elements each.
   */
  method AllocateBuffers<T>(count: nat, length: nat, zero: T) returns (buffers: seq<NativeArray<T>>)
    ensures |buffers| == count && BatchBuffers(buffers, length)
    ensures forall b :: 0 <= b < count ==> fresh(buffers[b].Buffer) && buffers[b].Buffer[..] == seq(length, _ => zero)
  {
    buffers := [];
    while |buffers| < count
      invariant |buffers| <= count && BatchBuffers(buffers, length)
      invariant forall b :: 0 <= b < |buffers| ==> fresh(buffers[b].Buffer) && buffers[b].Buffer[..] == seq(length, _ => zero)
    {
      var buffer := Allocate(length, zero);
      buffers := buffers + [buffer];
    }
  }

  /**
   * The allocations of a fixed-8 tracer's `Setup`: 8 job handles, a zeroed
   * accumulation buffer, which accumulates no samples yet, and 8 sample
   * buffers, all fresh, so none of them is memory in `freed`.
   */
  method AllocateEight(length: nat, ghost freed: set<object>)
    returns (handles: NativeArray<JobHandle>, texture: NativeArray<Float4>, buffers: seq<NativeArray<Float3>>)
    ensures handles.IsCreated() && handles.Length() == 8 && fresh(handles.Buffer)
    ensures texture.IsCreated() && texture.Length() == length && fresh(texture.Buffer)
    ensures texture.Buffer[..] == seq(length, _ => Zero4) && Accumulates(texture.Buffer[..], seq(length, _ => []), 0)
    ensures |buffers| == 8 && BatchBuffers(buffers, length)
    ensures forall b :: 0 <= b < 8 ==> fresh(buffers[b].Buffer)
    ensures Buffers(buffers) !! freed
  {
    handles := Allocate(8, JobHandle);
    texture := Allocate(length, Zero4);
    buffers := AllocateBuffers(8, length, Zero);
    FreshImageAccumulates(length);
  }

  /**
   * The sample jobs of one batch, run to completion: slot `b` renders into
   * `buffers[b]` from the generator `start` makes of its seed.
   */
  method RenderBatch<T>(shade: (nat, nat, Rng) -> (T, Rng), start: UInt -> Rng, width: nat, height: nat,
                        completedSampleCount: int, buffers: seq<NativeArray<T>>)
    requires BatchBuffers(buffers, width * height)
    modifies Buffers(buffers)
    ensures forall b :: 0 <= b < |buffers| ==>
      buffers[b].Buffer[..] == BatchImage(shade, width, height, start(SlotSeed(b, completedSampleCount)))
  {
    var b := 0;
    while b < |buffers|
      invariant 0 <= b <= |buffers|
      invariant forall k :: 0 <= k < b ==>
        buffers[k].Buffer[..] == BatchImage(shade, width, height, start(SlotSeed(k, completedSampleCount)))
    {
      var pixels := buffers[b].Buffer;
      assert pixels in Buffers(buffers);
      RenderRows(shade, width, height, start(SlotSeed(b, completedSampleCount)), pixels);
      assert pixels[..] == pixels[..width * height];
      b := b + 1;
    }
  }

  /** The samples pixel `p` receives from a batch of `jobs` slots: slot `b`'s image at `p`, in slot order. */
  function BatchSamples<T>(shade: (nat, nat, Rng) -> (T, Rng), start: UInt -> Rng, width: nat, height: nat,
                           completedSampleCount: int, jobs: nat, p: nat): (s: seq<T>)
    requires p < width * height
    ensures |s| == jobs
  {
    seq(jobs, b => BatchImage(shade, width, height, start(SlotSeed(b, completedSampleCount)))[p])
  }

  /** Every pixel's samples followed by the samples its batch of `jobs` slots gives it. */
  function WithBatch<T>(samples: seq<seq<T>>, shade: (nat, nat, Rng) -> (T, Rng), start: UInt -> Rng,
                        width: nat, height: nat, completedSampleCount: int, jobs: nat): (s: seq<seq<T>>)
    requires |samples| == width * height
    ensures |s| == width * height
    ensures forall p :: 0 <= p < width * height ==>
      s[p] == samples[p] + BatchSamples(shade, start, width, height, completedSampleCount, jobs, p)
  {
    seq(width * height, p requires 0 <= p < width * height =>
      samples[p] + BatchSamples(shade, start, width, height, completedSampleCount, jobs, p))
  }

  /**
   * The accumulated image against the samples folded into it: every pixel
   * has received `count` samples and, once there are any, its colour is
   * their mean and its alpha is 1/8.
   */
  ghost predicate Accumulates(image: seq<Float4>, samples: seq<seq<Float3>>, count: int) {
    && count >= 0
    && |samples| == |image|
    && forall p :: 0 <= p < |image| ==>
         |samples[p]| == count && (count > 0 ==> Rgb(image[p]) == Mean(samples[p]) && image[p].w == 0.125)
  }

  /** A fresh (all-zero) image with no samples yet satisfies the accumulation invariant. */
  lemma FreshImageAccumulates(length: nat)
    ensures Accumulates(seq(length, _ => Zero4), seq(length, _ => []), 0)
  {
  }

  /**
   * One combine of a batch of 8: if the image accumulates `samples`, the
   * combined image accumulates every pixel's samples followed by its batch.
   */
  lemma CombineStep(before: seq<Float4>, after: seq<Float4>, samples: seq<seq<Float3>>, batch: seq<seq<Float3>>, count: int)
    requires Accumulates(before, samples, count)
    requires |after| == |before| == |batch|
    requires forall p :: 0 <= p < |batch| ==> |batch[p]| == 8 && after[p] == CombinePixel(batch[p], before[p], count)
    ensures Accumulates(after, seq(|before|, p requires 0 <= p < |before| => samples[p] + batch[p]), count + 8)
  {
    var next := seq(|before|, p requires 0 <= p < |before| => samples[p] + batch[p]);
    forall p | 0 <= p < |after|
      ensures |next[p]| == count + 8
      ensures Rgb(after[p]) == Mean(next[p]) && after[p].w == 0.125
    {
      CombineEightRunningMean(samples[p], batch[p], before[p]);
      AlphaStaysEighth(batch[p], before[p], count);
    }
  }

  /**
   * A combined batch of 8 keeps the accumulation invariant: the image
   * accumulates every pixel's samples followed by its batch.
   */
  lemma EightBatchAccumulates(before: seq<Float4>, after: seq<Float4>, samples: seq<seq<Float3>>,
                              shade: (nat, nat, Rng) -> (Float3, Rng), start: UInt -> Rng, width: nat, height: nat, count: int)
    requires Accumulates(before, samples, count) && |before| == |after| == width * height
    requires forall p :: 0 <= p < width * height ==>
      after[p] == CombinePixel(BatchSamples(shade, start, width, height, count, 8, p), before[p], count)
    ensures Accumulates(after, WithBatch(samples, shade, start, width, height, count, 8), count + 8)
  {
    var batch := seq(width * height, p requires 0 <= p < width * height => BatchSamples(shade, start, width, height, count, 8, p));
    CombineStep(before, after, samples, batch, count);
    assert WithBatch(samples, shade, start, width, height, count, 8) == seq(|before|, p requires 0 <= p < |before| => samples[p] + batch[p]);
  }

  /** After a batch, the inputs a combine reads at pixel `p` are the batch's samples of `p`. */
  lemma BatchInputs<T>(shade: (nat, nat, Rng) -> (T, Rng), start: UInt -> Rng, width: nat, height: nat,
                       count: int, buffers: seq<NativeArray<T>>)
    requires BatchBuffers(buffers, width * height)
    requires forall b :: 0 <= b < |buffers| ==> buffers[b].Buffer[..] == BatchImage(shade, width, height, start(SlotSeed(b, count)))
    ensures forall p :: 0 <= p < width * height ==>
      InputsAt(buffers, p) == BatchSamples(shade, start, width, height, count, |buffers|, p)
  {
    forall p | 0 <= p < width * height
      ensures InputsAt(buffers, p) == BatchSamples(shade, start, width, height, count, |buffers|, p)
    {
      forall b | 0 <= b < |buffers|
        ensures InputsAt(buffers, p)[b] == BatchSamples(shade, start, width, height, count, |buffers|, p)[b]
      {
        assert buffers[b].Buffer[p] == buffers[b].Buffer[..][p];
      }
    }
  }

  /**
   * A draw of the fixed-8 progressive tracers: the 8 sample jobs, then the
   * float3-to-float4 `CombineJobEight` over the whole image.  Every pixel
   * receives the 8 samples of its batch and stays the mean of all its
   * samples.
   */
  method DrawEight(shade: (nat, nat, Rng) -> (Float3, Rng), start: UInt -> Rng, width: nat, height: nat,
                   count: int, buffers: seq<NativeArray<Float3>>, texture: NativeArray<Float4>, ghost samples: seq<seq<Float3>>)
    returns (ghost samplesOut: seq<seq<Float3>>)
    requires |buffers| == 8 && BatchBuffers(buffers, width * height)
    requires texture.IsCreated() && texture.Length() == width * height
    requires Accumulates(texture.Buffer[..], samples, count)
    modifies Buffers(buffers), texture.Buffer
    ensures forall b :: 0 <= b < 8 ==> buffers[b].Buffer[..] == BatchImage(shade, width, height, start(SlotSeed(b, count)))
    ensures forall p :: 0 <= p < width * height ==>
      texture.Buffer[p] == CombinePixel(BatchSamples(shade, start, width, height, count, 8, p), old(texture.Buffer[p]), count)
    ensures samplesOut == WithBatch(samples, shade, start, width, height, count, 8)
    ensures Accumulates(texture.Buffer[..], samplesOut, count + 8)
  {
    var acc := texture.Buffer;
    ghost var before := acc[..];
    RenderBatch(shade, start, width, height, count, buffers);
    assert acc[..] == before;
    Complete(CombineJob(count, buffers, texture), width * height);
    ghost var batch := seq(width * height, p requires 0 <= p < width * height => BatchSamples(shade, start, width, height, count, 8, p));
    BatchInputs(shade, start, width, height, count, buffers);
    CombineStep(before, acc[..], samples, batch, count);
    samplesOut := seq(width * height, p requires 0 <= p < width * height => samples[p] + batch[p]);
    assert samplesOut == WithBatch(samples, shade, start, width, height, count, 8);
  }

  /**
   * A batch of any size run to completion: the sample jobs render into
   * their buffers, then the combine job for that many buffers, if there is
   * one, folds them into `output`.
   */
  method RenderAndCombine(shade: (nat, nat, Rng) -> (Float3, Rng), start: UInt -> Rng, width: nat, height: nat,
                          count: int, buffers: seq<NativeArray<Float3>>, output: NativeArray<Float4>)
    returns (combined: bool)
    requires |buffers| > 0 && BatchBuffers(buffers, width * height)
    requires output.IsCreated() && output.Length() == width * height
    modifies Buffers(buffers), output.Buffer
    ensures forall b :: 0 <= b < |buffers| ==> buffers[b].Buffer[..] == BatchImage(shade, width, height, start(SlotSeed(b, count)))
    ensures combined <==> |buffers| == 2 || |buffers| == 4 || |buffers| == 8
    ensures forall p :: 0 <= p < width * height ==>
      output.Buffer[p] ==
        if combined then CombinePixel(BatchSamples(shade, start, width, height, count, |buffers|, p), old(output.Buffer[p]), count)
        else old(output.Buffer[p])
  {
    var acc := output.Buffer;
    ghost var before := acc[..];
    RenderBatch(shade, start, width, height, count, buffers);
    assert acc[..] == before;
    combined := CombineSources(buffers, count, output);
    BatchInputs(shade, start, width, height, count, buffers);
  }

  /** C#'s `/` on `int`: the quotient truncated toward zero (Dafny's `/` is Euclidean). */
  function TruncDiv(a: int, b: int): int
    requires b > 0
  {
    if a >= 0 then a / b else -((-a) / b)
  }

  /** Truncation leaves a remainder smaller than the divisor with the sign of the dividend. */
  lemma TruncDivRemainder(a: int, b: int)
    requires b > 0
    ensures var q := TruncDiv(a, b); var r := a - q * b;
      -b < r < b && (a >= 0 ==> r >= 0) && (a <= 0 ==> r <= 0)
  {
    var q := TruncDiv(a, b);
    if a < 0 {
      var m := -a;
      assert m == (m / b) * b + m % b;
      assert a - q * b == -(m % b);
    }
  }

  /** `for (i = 0; i < count / jobs; i++)`: the number of draws a coroutine runs. */
  function DrawCount(count: int, jobs: nat): (n: nat)
    requires jobs > 0
    ensures count >= 0 ==> n * jobs <= count < (n + 1) * jobs
    ensures count < jobs ==> n == 0
  {
    TruncDivRemainder(count, jobs);
    if TruncDiv(count, jobs) <= 0 then 0 else TruncDiv(count, jobs)
  }
}
