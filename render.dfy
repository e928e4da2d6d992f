/**
 * The pixel loops of the jobs.  A job walks the image row by row and column
 * by column, writes pixel `(i, j)` at `j * width + i`, and threads its
 * generator through the pixels in that order.  A parallel job runs
 * `Execute(index)` for every index; the model runs those in index order.
 *
 * What a job computes is given by a function on values, `Run`: the pixels a
 * kernel produces for the indices `0 .. k - 1` and the generator afterwards.
 * Each loop method is proved to write exactly `Run`'s pixels.
 */
module Render {
  import opened Mathematics
  import opened Randomness
  import opened Indexing
  import opened Samples

  /** The values a kernel produces for indices `0 .. k - 1`, threading the generator, and the generator afterwards. */
  function Run<T>(kernel: (nat, Rng) -> (T, Rng), k: nat, rng: Rng): (res: (seq<T>, Rng))
    ensures |res.0| == k
  {
    if k == 0 then ([], rng)
    else
      var (earlier, r) := Run(kernel, k - 1, rng);
      var (v, next) := kernel(k - 1, r);
      (earlier + [v], next)
  }

  /**
   * Running further only appends: the value at index `k` is what the kernel
   * makes of `k` and the generator left by the first `k` indices.
   */
  lemma {:induction false} RunAt<T>(kernel: (nat, Rng) -> (T, Rng), k: nat, m: nat, rng: Rng)
    requires k < m
    ensures Run(kernel, m, rng).0[k] == kernel(k, Run(kernel, k, rng).1).0
    ensures Run(kernel, m, rng).0[..k] == Run(kernel, k, rng).0
    decreases m
  {
    if k < m - 1 {
      RunAt(kernel, k, m - 1, rng);
    }
  }

  /** A pixel shader on column, row and generator, seen as a kernel on row-major indices. */
  function RowMajorKernel<T>(shade: (nat, nat, Rng) -> (T, Rng), width: nat): (nat, Rng) -> (T, Rng) {
    (index: nat, r: Rng) => if width == 0 then shade(index, 0, r) else shade(index % width, index / width, r)
  }

  /**
   * The pixel of column `i`, row `j` of a rendered image is the shader's value
   * at `(i, j)` under the generator left by all pixels before it in row-major
   * order.
   */
  lemma RenderedPixel<T>(shade: (nat, nat, Rng) -> (T, Rng), width: nat, height: nat, i: nat, j: nat, rng: Rng)
    requires i < width && j < height
    ensures RowMajor(width, i, j) < width * height
    ensures Run(RowMajorKernel(shade, width), width * height, rng).0[RowMajor(width, i, j)]
         == shade(i, j, Run(RowMajorKernel(shade, width), RowMajor(width, i, j), rng).1).0
  {
    RowMajorInImage(width, height, i, j);
    RowMajorInverse(width, i, j);
    RunAt(RowMajorKernel(shade, width), RowMajor(width, i, j), width * height, rng);
  }

  /**
   * `for (j = 0; j < size.y; j++) for (i = 0; i < size.x; i++) Pixels[j * nx + i] = ...`:
   * the nested loops of the serial jobs.  The first `width * height` pixels
   * become the shader's pixels in row-major order; the rest of the buffer is
   * not touched.
   */
  method RenderRows<T>(shade: (nat, nat, Rng) -> (T, Rng), width: nat, height: nat, rng: Rng, pixels: array<T>)
    requires width * height <= pixels.Length
    modifies pixels
    ensures pixels[..width * height] == Run(RowMajorKernel(shade, width), width * height, rng).0
    ensures pixels[width * height..] == old(pixels[width * height..])
  {
    ghost var kernel := RowMajorKernel(shade, width);
    var total := width * height;
    var random := rng;
    var start := 0;
    var j := 0;
    while j < height
      invariant 0 <= j <= height
      invariant start == j * width && start <= total
      invariant Rendered(pixels, kernel, start, rng, random)
      invariant forall k :: total <= k < pixels.Length ==> pixels[k] == old(pixels[k])
    {
      RowFits(width, height, j, start);
      random := RenderRow(shade, width, j, start, random, rng, pixels);
      start, j := start + width, j + 1;
    }
    assert start == total;
  }

  /** The inner loop of `RenderRows`: row `j`, appended after the rows before it. */
  method RenderRow<T>(shade: (nat, nat, Rng) -> (T, Rng), width: nat, j: nat, start: nat, random: Rng, ghost rng: Rng, pixels: array<T>)
    returns (rngOut: Rng)
    requires start == j * width && start + width <= pixels.Length
    requires Rendered(pixels, RowMajorKernel(shade, width), start, rng, random)
    modifies pixels
    ensures Rendered(pixels, RowMajorKernel(shade, width), start + width, rng, rngOut)
    ensures forall k :: start + width <= k < pixels.Length ==> pixels[k] == old(pixels[k])
  {
    ghost var kernel := RowMajorKernel(shade, width);
    rngOut := random;
    var index := start;
    var i := 0;
    while i < width
      invariant 0 <= i <= width
      invariant index == start + i
      invariant Rendered(pixels, kernel, index, rng, rngOut)
      invariant forall k :: start + width <= k < pixels.Length ==> pixels[k] == old(pixels[k])
    {
      RowMajorStep(shade, width, i, j, rng);
      ghost var before := pixels[..index];
      var (c, next) := shade(i, j, rngOut);
      pixels[index] := c;
      assert pixels[..index + 1] == before + [c];
      rngOut := next;
      index := index + 1;
      i := i + 1;
    }
  }

  /** The first `k` slots of `pixels` hold what the kernel makes of indices `0 .. k - 1`, and `random` is the generator after them. */
  ghost predicate Rendered<T>(pixels: array<T>, kernel: (nat, Rng) -> (T, Rng), k: nat, rng: Rng, random: Rng)
    reads pixels
  {
    k <= pixels.Length && pixels[..k] == Run(kernel, k, rng).0 && random == Run(kernel, k, rng).1
  }

  /** Row `j` of the image, starting at `j * width`, ends inside it; the next row starts where it ends. */
  lemma RowFits(width: nat, height: nat, j: nat, start: nat)
    requires j < height && start == j * width
    ensures start + width == (j + 1) * width <= width * height
  {
    assert (j + 1) * width <= height * width;
  }

  /** Running the row-major kernel one index further appends the shader's pixel at `(i, j)`. */
  lemma RowMajorStep<T>(shade: (nat, nat, Rng) -> (T, Rng), width: nat, i: nat, j: nat, rng: Rng)
    requires i < width
    ensures var k := j * width + i;
      var before := Run(RowMajorKernel(shade, width), k, rng);
      var step := shade(i, j, before.1);
      Run(RowMajorKernel(shade, width), k + 1, rng) == (before.0 + [step.0], step.1)
  {
    RowMajorInverse(width, i, j);
  }

  /** `j * width` by repeated addition: where row `j` starts. */
  function RowStart(width: nat, j: nat): nat {
    if j == 0 then 0 else RowStart(width, j - 1) + width
  }

  /** Row `j` starts at `j * width`. */
  lemma {:induction false} RowStartIsProduct(width: nat, j: nat)
    ensures RowStart(width, j) == j * width
  {
    if j > 0 {
      RowStartIsProduct(width, j - 1);
    }
  }

  /** Row `j` of the image ends inside it; past the last row is the end of the image. */
  lemma RowStartFits(width: nat, height: nat, j: nat)
    requires j <= height
    ensures j < height ==> RowStart(width, j) + width <= width * height
    ensures j == height ==> RowStart(width, j) == width * height
  {
    RowStartIsProduct(width, j);
    if j < height {
      RowFits(width, height, j, j * width);
    } else {
      MulCommutes(j, width);
    }
  }

  /** Concatenation is associative (a step Dafny does not always take by itself). */
  lemma AppendAssociates<T>(a: seq<T>, b: seq<T>, c: seq<T>)
    ensures a + b + c == a + (b + c)
  {
  }

  /** Multiplication commutes (a step Dafny does not always take by itself). */
  lemma MulCommutes(a: nat, b: nat)
    ensures a * b == b * a
  {
  }

  /**
   * The inner loop of a job: pixels `0 .. i - 1` of row `j`, left to right,
   * from generator `rng`, and the generator after them.
   */
  function RowRun<T>(shade: (nat, nat, Rng) -> (T, Rng), j: nat, i: nat, rng: Rng): (res: (seq<T>, Rng))
  {
    if i == 0 then ([], rng)
    else
      var (row, r) := RowRun(shade, j, i - 1, rng);
      var (v, next) := shade(i - 1, j, r);
      (row + [v], next)
  }

  /** The outer loop of a job: rows `0 .. j - 1` of `width` pixels, top to bottom, each from where the last left the generator. */
  function RowsRun<T>(shade: (nat, nat, Rng) -> (T, Rng), width: nat, j: nat, rng: Rng): (res: (seq<T>, Rng))
  {
    if j == 0 then ([], rng)
    else
      var (rows, r) := RowsRun(shade, width, j - 1, rng);
      var (row, next) := RowRun(shade, j - 1, width, r);
      (rows + row, next)
  }

  /** The first `i` pixels of a row are `i` pixels. */
  lemma {:induction false} RowRunLength<T>(shade: (nat, nat, Rng) -> (T, Rng), j: nat, i: nat, rng: Rng)
    ensures |RowRun(shade, j, i, rng).0| == i
  {
    if i > 0 {
      RowRunLength(shade, j, i - 1, rng);
    }
  }

  /** The first `j` rows hold `j * width` pixels. */
  lemma {:induction false} RowsRunLength<T>(shade: (nat, nat, Rng) -> (T, Rng), width: nat, j: nat, rng: Rng)
    ensures |RowsRun(shade, width, j, rng).0| == RowStart(width, j)
  {
    if j > 0 {
      RowsRunLength(shade, width, j - 1, rng);
      RowRunLength(shade, j - 1, width, RowsRun(shade, width, j - 1, rng).1);
    }
  }

  /**
   * The nested loops visit the pixels in row-major order: after `i` pixels of
   * row `j` they have produced the row-major run over the first `j * width + i`
   * indices.
   */
  lemma {:induction false} RowRunIsRowMajor<T>(shade: (nat, nat, Rng) -> (T, Rng), width: nat, j: nat, i: nat, rng: Rng)
    requires i <= width
    ensures var before := Run(RowMajorKernel(shade, width), RowStart(width, j), rng);
      var row := RowRun(shade, j, i, before.1);
      Run(RowMajorKernel(shade, width), RowStart(width, j) + i, rng) == (before.0 + row.0, row.1)
  {
    var before := Run(RowMajorKernel(shade, width), RowStart(width, j), rng);
    if i == 0 {
      assert before.0 + [] == before.0;
    } else {
      RowRunIsRowMajor(shade, width, j, i - 1, rng);
      var row := RowRun(shade, j, i - 1, before.1);
      RowStartIsProduct(width, j);
      RowMajorStep(shade, width, i - 1, j, rng);
      AppendAssociates(before.0, row.0, [shade(i - 1, j, row.1).0]);
    }
  }

  /** The first `j` rows are the row-major run over the first `j * width` indices. */
  lemma {:induction false} RowsRunIsRowMajor<T>(shade: (nat, nat, Rng) -> (T, Rng), width: nat, j: nat, rng: Rng)
    ensures RowsRun(shade, width, j, rng) == Run(RowMajorKernel(shade, width), RowStart(width, j), rng)
  {
    if j > 0 {
      RowsRunIsRowMajor(shade, width, j - 1, rng);
      RowRunIsRowMajor(shade, width, j - 1, width, rng);
      assert RowStart(width, j) == RowStart(width, j - 1) + width;
    }
  }

  /** A job's two draws per sample: `u = (i + NextFloat()) / nx`, then `v = (j + NextFloat()) / ny`. */
  datatype Jittered = Jittered(u: real, v: real, rng: Rng)

  function Jitter(i: nat, j: nat, width: nat, height: nat, rng: Rng): Jittered {
    var (du, r1) := NextFloat(rng);
    var (dv, r2) := NextFloat(r1);
    Jittered(Quot(i as real + du, width as real), Quot(j as real + dv, height as real), r2)
  }

  /** The jittered point of pixel `(i, j)` lies inside that pixel, in both directions. */
  lemma JitterInPixel(i: nat, j: nat, width: nat, height: nat, rng: Rng)
    ensures var s := Jitter(i, j, width, height, rng);
      && (width > 0 ==> i as real / width as real <= s.u < (i + 1) as real / width as real)
      && (height > 0 ==> j as real / height as real <= s.v < (j + 1) as real / height as real)
  {
    var (du, r1) := NextFloat(rng);
    JitterBounds(i, du, width);
    JitterBounds(j, NextFloat(r1).0, height);
  }

  /** A jittered coordinate stays inside its pixel. */
  lemma JitterBounds(i: nat, d: real, n: nat)
    requires 0.0 <= d < 1.0
    ensures n > 0 ==> i as real / n as real <= Quot(i as real + d, n as real) < (i + 1) as real / n as real
  {
    if n > 0 {
      var w := n as real;
      assert (i as real + d) / w - i as real / w == d / w;
      assert (i + 1) as real / w - (i as real + d) / w == (1.0 - d) / w;
    }
  }

  /** The generator a `Jitter` leaves is exactly two draws on. */
  lemma JitterDrawsTwice(i: nat, j: nat, width: nat, height: nat, rng: Rng)
    ensures Jitter(i, j, width, height, rng).rng == NextFloat(NextFloat(rng).1).1
  {
  }

  /** The samples of pixel `(i, j)`: each draws from where the last left the generator. */
  function SampleKernel(sample: (nat, nat, Rng) -> (Float3, Rng), i: nat, j: nat): (nat, Rng) -> (Float3, Rng) {
    (s: nat, r: Rng) => sample(i, j, r)
  }

  /**
   * `for (s = 0; s < numberOfSamples; s++) col += ...`: the sample loop of a
   * pixel.  `col` ends as the sum of the `n` samples the kernel makes.
   */
  method SamplePixel(sample: (nat, nat, Rng) -> (Float3, Rng), i: nat, j: nat, n: nat, rng: Rng) returns (col: Float3, rngOut: Rng)
    ensures col == SumOf(Run(SampleKernel(sample, i, j), n, rng).0)
    ensures rngOut == Run(SampleKernel(sample, i, j), n, rng).1
  {
    ghost var kernel := SampleKernel(sample, i, j);
    col, rngOut := Zero, rng;
    var s := 0;
    while s < n
      invariant 0 <= s <= n
      invariant col == SumOf(Run(kernel, s, rng).0)
      invariant rngOut == Run(kernel, s, rng).1
    {
      var (c, next) := sample(i, j, rngOut);
      ghost var earlier := Run(kernel, s, rng).0;
      assert Run(kernel, s + 1, rng).0 == earlier + [c];
      assert (earlier + [c])[..s] == earlier;
      col := Add(col, c);
      rngOut := next;
      s := s + 1;
    }
  }

  /** A pixel made by averaging `n` samples and converting the mean with `finish`. */
  function SampledShade<T>(sample: (nat, nat, Rng) -> (Float3, Rng), n: nat, finish: Float3 -> T): (nat, nat, Rng) -> (T, Rng) {
    (i: nat, j: nat, r: Rng) =>
      var run := Run(SampleKernel(sample, i, j), n, r);
      (finish(Average(SumOf(run.0), n)), run.1)
  }

  /** What the sampled shader makes of pixel `(i, j)`. */
  lemma SampledShadeAt<T>(sample: (nat, nat, Rng) -> (Float3, Rng), n: nat, finish: Float3 -> T, i: nat, j: nat, r: Rng)
    ensures var run := Run(SampleKernel(sample, i, j), n, r);
      SampledShade(sample, n, finish)(i, j, r) == (finish(Average(SumOf(run.0), n)), run.1)
  {
  }

  /** One pixel of a sampling job: the sample loop, then `finish` of the mean. */
  method SampledPixel<T>(sample: (nat, nat, Rng) -> (Float3, Rng), n: nat, finish: Float3 -> T, i: nat, j: nat, rng: Rng)
    returns (pixel: T, rngOut: Rng)
    ensures (pixel, rngOut) == SampledShade(sample, n, finish)(i, j, rng)
  {
    var col;
    col, rngOut := SamplePixel(sample, i, j, n, rng);
    SampledShadeAt(sample, n, finish, i, j, rng);
    pixel := finish(Average(col, n));
  }

  /**
   * The nested pixel loops with a sample loop inside: every pixel is
   * `finish` of the mean of its `n` samples.
   */
  method RenderRowsSampled<T>(sample: (nat, nat, Rng) -> (Float3, Rng), n: nat, finish: Float3 -> T,
                              width: nat, height: nat, rng: Rng, pixels: array<T>)
    requires width * height <= pixels.Length
    modifies pixels
    ensures pixels[..width * height] == Run(RowMajorKernel(SampledShade(sample, n, finish), width), width * height, rng).0
    ensures pixels[width * height..] == old(pixels[width * height..])
  {
    ghost var shade := SampledShade(sample, n, finish);
    ghost var kernel := RowMajorKernel(shade, width);
    var total := width * height;
    var random := rng;
    var start := 0;
    var j := 0;
    while j < height
      invariant 0 <= j <= height
      invariant start == j * width && start <= total
      invariant Rendered(pixels, kernel, start, rng, random)
      invariant forall k :: total <= k < pixels.Length ==> pixels[k] == old(pixels[k])
    {
      RowFits(width, height, j, start);
      random := RenderRowSampled(sample, n, finish, width, j, start, random, rng, pixels);
      start, j := start + width, j + 1;
    }
    assert start == total;
  }

  /** The inner loop of `RenderRowsSampled`: row `j`, each pixel with its sample loop. */
  method RenderRowSampled<T>(sample: (nat, nat, Rng) -> (Float3, Rng), n: nat, finish: Float3 -> T,
                             width: nat, j: nat, start: nat, random: Rng, ghost rng: Rng, pixels: array<T>)
    returns (rngOut: Rng)
    requires start == j * width && start + width <= pixels.Length
    requires Rendered(pixels, RowMajorKernel(SampledShade(sample, n, finish), width), start, rng, random)
    modifies pixels
    ensures Rendered(pixels, RowMajorKernel(SampledShade(sample, n, finish), width), start + width, rng, rngOut)
    ensures forall k :: start + width <= k < pixels.Length ==> pixels[k] == old(pixels[k])
  {
    ghost var shade := SampledShade(sample, n, finish);
    ghost var kernel := RowMajorKernel(shade, width);
    rngOut := random;
    var index := start;
    var i := 0;
    while i < width
      invariant 0 <= i <= width
      invariant index == start + i
      invariant Rendered(pixels, kernel, index, rng, rngOut)
      invariant forall k :: start + width <= k < pixels.Length ==> pixels[k] == old(pixels[k])
    {
      RowMajorStep(shade, width, i, j, rng);
      ghost var before := pixels[..index];
      var c, next := SampledPixel(sample, n, finish, i, j, rngOut);
      pixels[index] := c;
      assert pixels[..index + 1] == before + [c];
      rngOut := next;
      index := index + 1;
      i := i + 1;
    }
  }

  /**
   * `Execute(index)` of the parallel sampling jobs: the column and row come
   * from the index (`x = index % w`, `y = (index - x) / w`), then the sample
   * loop runs on the job's generator.  With `reseed`, the job first calls
   * `random.InitState(random.NextUInt())`.
   */
  function IndexShade<T>(sample: (nat, nat, Rng) -> (Float3, Rng), n: nat, finish: Float3 -> T, reseed: bool, width: nat): (nat, Rng) -> (T, Rng) {
    (index: nat, r: Rng) =>
      var start := if reseed then InitState(NextUInt(r).0) else r;
      if width == 0 then SampledShade(sample, n, finish)(index, 0, start)
      else SampledShade(sample, n, finish)(index % width, index / width, start)
  }

  /** What the index shader makes of `index`: the sampled pixel at its column and row, from the (reseeded) generator. */
  lemma IndexShadeAt<T>(sample: (nat, nat, Rng) -> (Float3, Rng), n: nat, finish: Float3 -> T, reseed: bool, width: nat, index: nat, r: Rng)
    requires width > 0
    ensures var start := if reseed then InitState(NextUInt(r).0) else r;
      IndexShade(sample, n, finish, reseed, width)(index, r) == SampledShade(sample, n, finish)(index % width, index / width, start)
  {
  }

  /** One `Execute(index)`: writes `Pixels[index]` and nothing else. */
  method ExecuteSampled<T>(sample: (nat, nat, Rng) -> (Float3, Rng), n: nat, finish: Float3 -> T, reseed: bool,
                           width: nat, index: nat, rng: Rng, pixels: array<T>) returns (rngOut: Rng)
    requires width > 0 && index < pixels.Length
    modifies pixels
    ensures (pixels[index], rngOut) == IndexShade(sample, n, finish, reseed, width)(index, rng)
    ensures forall k :: 0 <= k < pixels.Length && k != index ==> pixels[k] == old(pixels[k])
  {
    var random := rng;
    if reseed {
      var (seed, _) := NextUInt(random);
      random := InitState(seed);
    }
    var x := index % width;
    ColumnRowOfIndex(index, width);
    var y := index / width;
    var pixel;
    pixel, rngOut := SampledPixel(sample, n, finish, x, y, random);
    IndexShadeAt(sample, n, finish, reseed, width, index, rng);
    pixels[index] := pixel;
  }

  /** The parallel-for over every index of the buffer, in index order. */
  method ExecuteAllSampled<T>(sample: (nat, nat, Rng) -> (Float3, Rng), n: nat, finish: Float3 -> T, reseed: bool,
                              width: nat, rng: Rng, pixels: array<T>)
    requires width > 0
    modifies pixels
    ensures pixels[..] == Run(IndexShade(sample, n, finish, reseed, width), pixels.Length, rng).0
  {
    ghost var kernel := IndexShade(sample, n, finish, reseed, width);
    var random := rng;
    var index := 0;
    while index < pixels.Length
      invariant 0 <= index <= pixels.Length
      invariant pixels[..index] == Run(kernel, index, rng).0
      invariant random == Run(kernel, index, rng).1
    {
      ghost var before := pixels[..index];
      random := ExecuteSampled(sample, n, finish, reseed, width, index, random, pixels);
      assert pixels[..index + 1] == before + [pixels[index]];
      index := index + 1;
    }
  }
}
