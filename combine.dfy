/**
 * The combine jobs of the progressive tracers.  A batch of sample jobs each
 * renders one sample per pixel into its own `float3` buffer; a combine job
 * then folds the batch into the accumulated `float4` image in place,
 * `Accumulated[i] = (sumPixel + Accumulated[i] * n) / (8 + n)`, where `n` is
 * the number of samples already accumulated and `sumPixel` is the sum of the
 * batch with alpha 1.
 *
 * Over the reals this is an exact running mean when the batch has 8
 * buffers.  With 2 or 4 buffers the divisor `8 + n` is too large, and the
 * alpha channel settles at 1/8 rather than 1: `MeanPixel` is the kernel
 * those jobs evidently meant.
 */
module Combine {
  import opened Mathematics
  import opened Native
  import opened Samples
  import opened Structs

  /** Every component divided by `d` (0 when `d` is 0). */
  function Div4(a: Float4, d: real): Float4 {
    Float4(Quot(a.x, d), Quot(a.y, d), Quot(a.z, d), Quot(a.w, d))
  }

  /** `new float4(sum.x, sum.y, sum.z, 1f)` for the sum of the batch. */
  function SumPixel(inputs: seq<Float3>): Float4 {
    var sum := SumOf(inputs);
    Float4(sum.x, sum.y, sum.z, 1.0)
  }

  /**
   * `Execute(i)` of `CombineJobTwo`, `CombineJobFour` and `CombineJobEight`
   * as written: the batch values at `i`, the accumulated pixel `a` and the
   * completed sample count `n`.
   */
  function CombinePixel(inputs: seq<Float3>, a: Float4, n: int): Float4 {
    Div4(Add4(SumPixel(inputs), Scale4(n as real, a)), (8 + n) as real)
  }

  /**
   * The kernel the jobs evidently intend for a batch of any size: weigh the
   * batch by its own size, so alpha (one per sample) and colour both stay
   * means.
   */
  function MeanPixel(inputs: seq<Float3>, a: Float4, n: int): Float4 {
    var sum := SumOf(inputs);
    Div4(Add4(Float4(sum.x, sum.y, sum.z, |inputs| as real), Scale4(n as real, a)), (|inputs| + n) as real)
  }

  /** `Quot(d * c, d) == c` for a non-zero divisor. */
  lemma QuotOfMultiple(d: real, c: real)
    requires d != 0.0
    ensures Quot(d * c, d) == c
  {
  }

  /** Dividing by `d` is scaling by `1 / d` (both 0 when `d` is 0). */
  lemma QuotIsScale(x: real, d: real)
    ensures Quot(x, d) == Quot(1.0, d) * x
  {
  }

  /**
   * A running mean on colours: the new samples' sum `t` plus the earlier
   * samples' sum `s`, divided channel by channel by the new count `d`, is the
   * mean `(s + t) / d` of all samples.
   */
  lemma VectorRunningMean(t: Float3, s: Float3, d: real)
    ensures Float3(Quot(t.x + s.x, d), Quot(t.y + s.y, d), Quot(t.z + s.z, d)) == Scale(Quot(1.0, d), Add(s, t))
  {
    QuotIsScale(t.x + s.x, d);
    QuotIsScale(t.y + s.y, d);
    QuotIsScale(t.z + s.z, d);
  }

  /** The mean of a concatenation, through the sums of its parts. */
  lemma MeanOfAppend(earlier: seq<Float3>, inputs: seq<Float3>)
    ensures Mean(earlier + inputs) == Scale(Quot(1.0, (|inputs| + |earlier|) as real), Add(SumOf(earlier), SumOf(inputs)))
  {
    SumOfAppend(earlier, inputs);
  }

  /** The colour of `CombinePixel`: the batch sum plus the weighted accumulated colour, divided by `8 + n`. */
  lemma CombinePixelRgb(inputs: seq<Float3>, a: Float4, n: nat)
    ensures var t := SumOf(inputs); var w := Scale4(n as real, a); var d := (8 + n) as real;
      Rgb(CombinePixel(inputs, a, n)) == Float3(Quot(t.x + w.x, d), Quot(t.y + w.y, d), Quot(t.z + w.z, d))
  {
  }

  /** The colour of `MeanPixel`: the batch sum plus the weighted accumulated colour, divided by `|inputs| + n`. */
  lemma MeanPixelRgb(inputs: seq<Float3>, a: Float4, n: nat)
    ensures var t := SumOf(inputs); var w := Scale4(n as real, a); var d := (|inputs| + n) as real;
      Rgb(MeanPixel(inputs, a, n)) == Float3(Quot(t.x + w.x, d), Quot(t.y + w.y, d), Quot(t.z + w.z, d))
  {
  }

  /** The earlier samples' sum is their count times the accumulated colour (trivially so for none). */
  lemma AccumulatedSum(earlier: seq<Float3>, a: Float4)
    requires |earlier| > 0 ==> Rgb(a) == Mean(earlier)
    ensures Rgb(Scale4(|earlier| as real, a)) == SumOf(earlier)
  {
    assert Rgb(Scale4(|earlier| as real, a)) == Scale(|earlier| as real, Rgb(a));
  }

  /**
   * The running mean of `CombineJobEight`: if the accumulated colour is the
   * mean of the `n` earlier samples (or nothing was accumulated yet), the new
   * colour is the mean of those samples followed by the 8 new ones.
   */
  lemma CombineEightRunningMean(earlier: seq<Float3>, inputs: seq<Float3>, a: Float4)
    requires |inputs| == 8
    requires |earlier| > 0 ==> Rgb(a) == Mean(earlier)
    ensures Rgb(CombinePixel(inputs, a, |earlier|)) == Mean(earlier + inputs)
  {
    AccumulatedSum(earlier, a);
    MeanOfAppend(earlier, inputs);
    CombinePixelRgb(inputs, a, |earlier|);
    VectorRunningMean(SumOf(inputs), SumOf(earlier), (8 + |earlier|) as real);
  }

  /**
   * `MeanPixel` is a running mean for a batch of any size, and keeps alpha
   * at 1 once it is 1.
   */
  lemma MeanPixelRunningMean(earlier: seq<Float3>, inputs: seq<Float3>, a: Float4)
    requires |inputs| > 0
    requires |earlier| > 0 ==> Rgb(a) == Mean(earlier) && a.w == 1.0
    ensures Rgb(MeanPixel(inputs, a, |earlier|)) == Mean(earlier + inputs)
    ensures MeanPixel(inputs, a, |earlier|).w == 1.0
  {
    AccumulatedSum(earlier, a);
    MeanOfAppend(earlier, inputs);
    MeanPixelRgb(inputs, a, |earlier|);
    VectorRunningMean(SumOf(inputs), SumOf(earlier), (|inputs| + |earlier|) as real);
    MeanPixelAlpha(inputs, a, |earlier|);
  }

  /** Alpha of `MeanPixel`: one per new sample plus the old alpha weighted by `n`, so 1 stays 1. */
  lemma MeanPixelAlpha(inputs: seq<Float3>, a: Float4, n: nat)
    requires |inputs| > 0
    requires n > 0 ==> a.w == 1.0
    ensures MeanPixel(inputs, a, n).w == 1.0
  {
    var d := (|inputs| + n) as real;
    var w := Scale4(n as real, a).w;
    assert w == n as real;
    assert |inputs| as real + w == d * 1.0;
    QuotOfMultiple(d, 1.0);
  }

  /** On a batch of 8 the written kernel and the intended one agree on colour. */
  lemma CombineEightIsMeanPixel(inputs: seq<Float3>, a: Float4, n: int)
    requires |inputs| == 8
    ensures Rgb(CombinePixel(inputs, a, n)) == Rgb(MeanPixel(inputs, a, n))
  {
  }

  /**
   * A batch smaller than 8 comes out darker: on a fresh image (`n = 0`) the
   * colour is the batch mean scaled by `|inputs| / 8`.
   */
  lemma ShortBatchIsScaledMean(inputs: seq<Float3>, a: Float4)
    requires |inputs| > 0
    ensures Rgb(CombinePixel(inputs, a, 0)) == Scale(|inputs| as real / 8.0, Mean(inputs))
  {
    var k := |inputs| as real;
    var t := SumOf(inputs);
    var m := Mean(inputs);
    assert Scale(k, m) == t;
    ScaledChannel(t.x, m.x, k);
    ScaledChannel(t.y, m.y, k);
    ScaledChannel(t.z, m.z, k);
  }

  /** `t / 8 == (k / 8) * m` when `t == k * m`. */
  lemma ScaledChannel(t: real, m: real, k: real)
    requires t == k * m
    ensures Quot(t + 0.0 * m, 8.0) == (k / 8.0) * m
  {
  }

  /**
   * `CombineJobTwo` on two white samples of a fresh image: the mean is white,
   * the pixel written is a quarter of it.
   */
  lemma TwoWhiteSamplesMakeQuarterGrey()
    ensures Mean([One, One]) == One
    ensures Rgb(CombinePixel([One, One], Zero4, 0)) == Float3(0.25, 0.25, 0.25)
  {
    assert [One, One][..1] == [One];
    assert [One][..0] == [];
    assert SumOf([One]) == One;
    assert SumOf([One, One]) == Float3(2.0, 2.0, 2.0);
  }

  /**
   * The alpha channel: each batch contributes alpha 1 (not one per sample)
   * and is divided by `8 + n`, so from a fresh image (`n = 0`) alpha becomes
   * 1/8 and then stays 1/8 whatever the count.
   */
  lemma AlphaStaysEighth(inputs: seq<Float3>, a: Float4, n: int)
    requires n >= 0
    requires n > 0 ==> a.w == 0.125
    ensures CombinePixel(inputs, a, n).w == 0.125
  {
    var d := (8 + n) as real;
    var w := Scale4(n as real, a).w;
    assert w == n as real * 0.125;
    assert 1.0 + w == d * 0.125;
    QuotOfMultiple(d, 0.125);
  }

  /** With nothing accumulated (`n = 0`) the old pixel does not matter. */
  lemma FreshStartIgnoresAccumulated(inputs: seq<Float3>, a: Float4, b: Float4)
    ensures CombinePixel(inputs, a, 0) == CombinePixel(inputs, b, 0)
    ensures MeanPixel(inputs, a, 0) == MeanPixel(inputs, b, 0)
  {
  }

  /**
   * A pixel combined batch after batch from a fresh image: `Progress(batches)`
   * is the accumulated pixel after one combine per batch, the count growing
   * by 8 each time.
   */
  function Progress(batches: seq<seq<Float3>>, start: Float4): Float4 {
    if |batches| == 0 then start
    else
      var earlier := batches[..|batches| - 1];
      CombinePixel(batches[|batches| - 1], Progress(earlier, start), 8 * |earlier|)
  }

  /** All the samples of a list of batches, in order. */
  function Flatten(batches: seq<seq<Float3>>): (all: seq<Float3>)
    ensures (forall k :: 0 <= k < |batches| ==> |batches[k]| == 8) ==> |all| == 8 * |batches|
  {
    if |batches| == 0 then [] else Flatten(batches[..|batches| - 1]) + batches[|batches| - 1]
  }

  /**
   * After `k > 0` batches of 8, whatever the starting pixel, the colour is the
   * mean of all `8k` samples and alpha is exactly 1/8.
   */
  lemma {:induction false} ProgressIsMean(batches: seq<seq<Float3>>, start: Float4)
    requires |batches| > 0
    requires forall k :: 0 <= k < |batches| ==> |batches[k]| == 8
    ensures Rgb(Progress(batches, start)) == Mean(Flatten(batches))
    ensures Progress(batches, start).w == 0.125
    decreases |batches|
  {
    var earlier := batches[..|batches| - 1];
    var last := batches[|batches| - 1];
    if |earlier| > 0 {
      ProgressIsMean(earlier, start);
    }
    CombineEightRunningMean(Flatten(earlier), last, Progress(earlier, start));
    AlphaStaysEighth(last, Progress(earlier, start), 8 * |earlier|);
  }

  /** A job's input buffers, as the set of arrays it reads. */
  function Buffers<T>(inputs: seq<NativeArray<T>>): set<object?> {
    set k | 0 <= k < |inputs| :: inputs[k].Buffer
  }

  /** Every input buffer is created and has at least `length` elements. */
  predicate Readable<T>(inputs: seq<NativeArray<T>>, length: nat) {
    forall k :: 0 <= k < |inputs| ==> inputs[k].IsCreated() && length <= inputs[k].Length()
  }

  /** `In1[i], In2[i], ...`: the values of the input buffers at index `i`. */
  function InputsAt<T>(inputs: seq<NativeArray<T>>, i: nat): (s: seq<T>)
    requires Readable(inputs, i + 1)
    reads Buffers(inputs)
    ensures |s| == |inputs|
    ensures forall k :: 0 <= k < |inputs| ==> s[k] == inputs[k].Buffer[i]
  {
    if |inputs| == 0 then []
    else
      assert Readable(inputs[..|inputs| - 1], i + 1);
      InputsAt(inputs[..|inputs| - 1], i) + [inputs[|inputs| - 1].Buffer[i]]
  }

  /** A combine job: its completed sample count, its input buffers and the accumulated image. */
  datatype CombineJob = CombineJob(completedSampleCount: int, inputs: seq<NativeArray<Float3>>, accumulated: NativeArray<Float4>)

  /**
   * `Combine.GetCombineJob`: a job over `sources[0].Length` pixels for 2, 4
   * or 8 sources; for any other count nothing is scheduled and the incoming
   * dependency is handed back.
   */
  function GetCombineJob(sources: seq<NativeArray<Float3>>, completedSampleCount: int, output: NativeArray<Float4>): (job: Option<(CombineJob, nat)>)
    ensures job.Some? <==> |sources| == 2 || |sources| == 4 || |sources| == 8
    ensures job.Some? ==>
      && job.value.0.inputs == sources && job.value.0.accumulated == output
      && job.value.0.completedSampleCount == completedSampleCount
      && job.value.1 == sources[0].Length()
  {
    if |sources| == 2 || |sources| == 4 || |sources| == 8 then
      Some((CombineJob(completedSampleCount, sources, output), sources[0].Length()))
    else None
  }

  /** `Execute(i)`: reads the inputs at `i` and overwrites `Accumulated[i]`, and nothing else. */
  method Execute(job: CombineJob, i: nat)
    requires Readable(job.inputs, i + 1)
    requires job.accumulated.IsCreated() && i < job.accumulated.Length()
    modifies job.accumulated.Buffer
    ensures job.accumulated.Buffer[i] == CombinePixel(InputsAt(job.inputs, i), old(job.accumulated.Buffer[i]), job.completedSampleCount)
    ensures forall k :: 0 <= k < job.accumulated.Length() && k != i ==> job.accumulated.Buffer[k] == old(job.accumulated.Buffer[k])
  {
    var acc := job.accumulated.Buffer;
    assert acc !in Buffers(job.inputs);
    var a := acc[i];
    acc[i] := CombinePixel(InputsAt(job.inputs, i), a, job.completedSampleCount);
  }

  /** The parallel-for `Schedule(length, ...)` of a combine job, run to completion in index order. */
  method Complete(job: CombineJob, length: nat)
    requires Readable(job.inputs, length)
    requires job.accumulated.IsCreated() && length <= job.accumulated.Length()
    modifies job.accumulated.Buffer
    ensures forall k :: 0 <= k < length ==>
      job.accumulated.Buffer[k] == CombinePixel(InputsAt(job.inputs, k), old(job.accumulated.Buffer[k]), job.completedSampleCount)
    ensures forall k :: length <= k < job.accumulated.Length() ==> job.accumulated.Buffer[k] == old(job.accumulated.Buffer[k])
  {
    var acc := job.accumulated.Buffer;
    assert acc !in Buffers(job.inputs);
    ghost var before := acc[..];
    var i := 0;
    while i < length
      invariant 0 <= i <= length
      invariant CombinedUpTo(job, before, i)
      invariant forall k :: i <= k < acc.Length ==> acc[k] == before[k]
    {
      Execute(job, i);
      i := i + 1;
    }
  }

  /** The first `i` pixels of the accumulated image are `before` combined with the inputs; the inputs are readable there. */
  ghost predicate CombinedUpTo(job: CombineJob, before: seq<Float4>, i: nat)
    reads job.accumulated.Buffer, Buffers(job.inputs)
  {
    && job.accumulated.IsCreated() && Readable(job.inputs, i)
    && i <= job.accumulated.Length() == |before|
    && forall k :: 0 <= k < i ==>
         job.accumulated.Buffer[k] == CombinePixel(InputsAt(job.inputs, k), before[k], job.completedSampleCount)
  }

  /**
   * `GetCombineJob(...)` followed by `Complete()`: with 2, 4 or 8 sources
   * every pixel of the first source's length is combined; with any other
   * count the output is untouched.
   */
  method CombineSources(sources: seq<NativeArray<Float3>>, completedSampleCount: int, output: NativeArray<Float4>)
    returns (scheduled: bool)
    requires output.IsCreated()
    requires |sources| > 0 ==> Readable(sources, sources[0].Length()) && sources[0].Length() <= output.Length()
    modifies output.Buffer
    ensures scheduled <==> |sources| == 2 || |sources| == 4 || |sources| == 8
    ensures !scheduled ==> output.Buffer[..] == old(output.Buffer[..])
    ensures scheduled ==> forall k :: 0 <= k < sources[0].Length() ==>
      output.Buffer[k] == CombinePixel(InputsAt(sources, k), old(output.Buffer[k]), completedSampleCount)
    ensures scheduled ==> forall k :: sources[0].Length() <= k < output.Length() ==> output.Buffer[k] == old(output.Buffer[k])
  {
    var job := GetCombineJob(sources, completedSampleCount, output);
    match job {
      case None =>
        scheduled := false;
      case Some((j, length)) =>
        Complete(j, length);
        scheduled := true;
    }
  }
}
