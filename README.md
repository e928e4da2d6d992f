# weekend-tracer in Dafny

A model of the core of weekend-tracer, a Unity C# port of Peter Shirley's
"Ray Tracing in One Weekend". The renderer traces rays from a pinhole camera
into a scene of spheres. A ray that hits a sphere scatters off its material:
Lambertian, metal or dielectric glass. A ray that misses takes the colour of
the sky gradient. The book's chapters are separate tracer classes. The early
ones (four, five, seven, eight) render a whole image in one Unity job. The
later ones render progressively: each draw runs a batch of sample jobs, each
writing one sample per pixel into its own buffer. A combine job then folds the
batch into an accumulated `float4` image, which should hold the running mean
of every sample taken so far.

The model follows the source file by file:

- Value types and pure code become datatypes and functions: vectors, rays,
  materials, hit records, spheres, the scene, scattering, the recursive
  colour functions, the camera and the example scenes.
- The job structs and chapter classes become Dafny classes. Their buffers
  are `array`s behind a `NativeArray` handle. Their loops become `while`
  loops with invariants, each proved to write exactly what a function on
  values says.
- The properties proved include the following:
  - the closest-hit scan of the scene;
  - the geometry of a sphere hit;
  - that colours stay in the unit cube;
  - the row-major order of every pixel loop;
  - that the progressive tracers keep a running mean;
  - the places where the combine code does not keep one (see Findings).

Modelling choices:

- `float` is a mathematical real: there is no rounding, no NaN and no
  infinity. Float division by zero yields 0 (`Mathematics.Quot`), and
  normalizing the zero vector yields the zero vector.
- `math.sqrt` and `math.tan` are uninterpreted functions. The proofs that
  need an exact square root carry the hypothesis `SqrtExact()`.
- `Unity.Mathematics.Random` keeps an unknown 32-bit state transition. A
  generator is a value. Each draw returns a value taken from the state
  before the step, together with the advanced generator. `NextUInt` is
  that state minus 1, modulo 2^32, and `NextFloat` lies in [0, 1).
- A `NativeArray<T>` is a value handle around a possibly-null array. Copying
  it aliases the buffer. Where a `foreach` loop disposes copies, the freed
  memory goes into the tracer's ghost set `released`, and the array's own
  handles still report `IsCreated` while pointing at that memory.
- Every scheduled job runs to completion when it is scheduled. A
  parallel-for runs its indices in increasing order.
- `HitRecord.cs` and `Sphere.cs` carry no material, yet the scatter code and
  the chapters read `rec.material`, and the scenes build spheres with
  materials. The model follows the callers: a sphere has a material, and a
  hit copies it into the record.

## Model

| member | source | states |
|---|---|---|
| Combine.GetCombineJob | Assets/Scripts/Chapters/CombineJobs.cs:12-56 | a job is scheduled exactly when there are 2, 4 or 8 sources; its count, inputs and output are the arguments and its length is the first source's length; any other count (6 and 10 included) schedules nothing |
| Combine.Execute | Assets/Scripts/Chapters/CombineJobs.cs:70-79 | `Execute(i)` writes `(sum of In_k[i] with alpha 1 + Accumulated[i] * n) / (8 + n)` at `i` and changes no other pixel (the same kernel at lines 94-103 and 122-131) |
| Combine.Complete | Assets/Scripts/Chapters/CombineJobs.cs:26 | the parallel-for over `length` pixels combines every pixel below `length` from its old value and leaves the rest of the image unchanged |
| Combine.CombineSources | Assets/Scripts/Chapters/CombineJobs.cs:12-56 | dispatch then completion: with 2, 4 or 8 sources every pixel of the first source's length is combined; with any other count the output buffer is unchanged |
| Combine.InputsAt | Assets/Scripts/Chapters/CombineJobs.cs:124 | the k-th value read at `i` is `In(k+1)[i]`, one per input buffer |
| Combine.CombineEightRunningMean | Assets/Scripts/Chapters/CombineJobs.cs:122-131 | if the accumulated colour is the mean of the `n` earlier samples, the colour `CombineJobEight` writes is the mean of those samples followed by its 8 inputs |
| Combine.ProgressIsMean | Assets/Scripts/Chapters/CombineJobs.cs:122-131 | after `k > 0` combines of 8 with the count growing by 8, from any starting pixel, the colour is the mean of all `8k` samples and alpha is exactly 1/8 |
| Combine.AlphaStaysEighth | Assets/Scripts/Chapters/CombineJobs.cs:125-130 | the alpha written is 1/8 when the count is 0, and stays 1/8 when it was 1/8, whatever the count |
| Combine.FreshStartIgnoresAccumulated | Assets/Scripts/Chapters/CombineJobs.cs:76-77 | with a count of 0 the result does not depend on the old pixel, for the written and for the intended kernel |
| Combine.ShortBatchIsScaledMean | Assets/Scripts/Chapters/CombineJobs.cs:72-77 | on a fresh image a batch of `m` samples is written as its mean scaled by `m / 8`, so 2 or 4 samples come out at a quarter or half brightness |
| Combine.TwoWhiteSamplesMakeQuarterGrey | Assets/Scripts/Chapters/CombineJobs.cs:72-77 | `CombineJobTwo` on two white samples of a fresh image: their mean is white but the pixel written is (0.25, 0.25, 0.25) |
| Combine.CombineEightIsMeanPixel | Assets/Scripts/Chapters/CombineJobs.cs:124-129 | on 8 inputs the written kernel and the corrected one give the same colour |
| Combine.MeanPixelRunningMean | Assets/Scripts/Chapters/CombineJobs.cs:70-79 | the corrected kernel (divide by batch size plus count) keeps a running mean for a batch of any size and keeps alpha 1 |
| Combine.MeanPixelAlpha | Assets/Scripts/Chapters/CombineJobs.cs:73-77 | the corrected kernel writes alpha 1 once alpha is 1 (or nothing was accumulated) |
| Combine.CombinePixelRgb | Assets/Scripts/Chapters/CombineJobs.cs:72-77 | the colour written is the batch sum plus the count-weighted old colour, each channel divided by `8 + n` |
| Combine.MeanPixelRgb | Assets/Scripts/Chapters/CombineJobs.cs:72-77 | the corrected colour is the same sum divided by `batch size + n` |
| Combine.AccumulatedSum | Assets/Scripts/Chapters/CombineJobs.cs:76 | `a * n` restores the sum of the `n` earlier samples when `a` is their mean |
| Combine.VectorRunningMean | Assets/Scripts/Chapters/CombineJobs.cs:77 | dividing the new sum plus the old sum channel by channel is scaling their total by `1 / d` |
| Combine.MeanOfAppend | Assets/Scripts/Chapters/CombineJobs.cs:77 | the mean of earlier samples followed by new ones is their summed sums divided by the total count |
| Combine.Flatten | Assets/Scripts/Chapters/CombineJobs.cs:124 | `k` batches of 8 samples hold `8k` samples |
| Batches.BatchImage | Assets/Scripts/BatchedTracer.cs:147-164 | a sample job writes exactly one value per pixel of the `width * height` image, row by row from one generator |
| Batches.AllocateBuffers | Assets/Scripts/BatchedTracer.cs:85-87 | `count` fresh, zero-filled, pairwise distinct buffers of `length` pixels each |
| Batches.AllocateEight | Assets/Scripts/Chapters/BatchedTracer.cs:52-59 | 8 fresh job handles, a zeroed accumulation buffer that holds no samples yet, and 8 fresh sample buffers of the image's length |
| Batches.RenderBatch | Assets/Scripts/BatchedTracer.cs:223-227 | after the batch, buffer `b` holds the image its slot renders from seed `b + CompletedSampleCount + 100`, for every slot |
| Batches.BatchSamples | Assets/Scripts/Chapters/CombineJobs.cs:124 | a pixel receives one sample per slot of the batch, in slot order |
| Batches.WithBatch | Assets/Scripts/BatchedTracer.cs:223-230 | every pixel keeps the samples it had and gains its batch's samples after them, and the image keeps its size |
| Batches.FreshImageAccumulates | Assets/Scripts/Chapters/BatchedTracer.cs:54-61 | a zeroed image with a count of 0 satisfies the accumulation invariant |
| Batches.CombineStep | Assets/Scripts/Chapters/CombineJobs.cs:122-131 | if the image is the running mean of its samples, combining 8 new samples per pixel leaves it the running mean of all of them, with the count 8 higher |
| Batches.EightBatchAccumulates | Assets/Scripts/Chapters/BatchedTracer.cs:237-264 | a rendered batch of 8 folded in by `CombineJobEight` keeps the accumulation invariant with the count grown by 8 |
| Batches.BatchInputs | Assets/Scripts/Chapters/BatchedTracer.cs:255 | after rendering, the values the combine job reads at a pixel are that pixel's batch samples |
| Batches.DrawEight | Assets/Scripts/Chapters/BatchedTracer.cs:237-264 | the 8 sample jobs then `CombineJobEight` over the whole image: every buffer holds its slot's image, every pixel is combined from its old value, and the image stays the mean of all samples received |
| Batches.RenderAndCombine | Assets/Scripts/BatchedTracer.cs:223-230 | a batch of any size renders every slot; the image is combined exactly when the batch has 2, 4 or 8 slots, and is otherwise unchanged |
| Batches.TruncDivRemainder | Assets/Scripts/BatchedTracer.cs:263 | C#'s integer division truncates toward zero: the remainder is smaller than the divisor and has the dividend's sign |
| Batches.DrawCount | Assets/Scripts/BatchedTracer.cs:263 | `count / jobs` draws: the largest number of whole batches that fit in a non-negative count, and none when the count is below one batch |
| BatchedTracing.SetterStoresEvenOptions | Assets/Scripts/BatchedTracer.cs:28-41 | the `JobsPerBatch` setter stores exactly 2, 4, 6, 8 and 10 when they differ from the current value, and logs the too-many message exactly for a new even value above 10 |
| BatchedTracing.BeforeCombine | Assets/Scripts/BatchedTracer.cs:216-221 | with `ClearOnDraw` the combine starts from an all-zero pixel buffer, otherwise from the buffer as it was |
| BatchedTracing.BatchedTracer.constructor | Assets/Scripts/BatchedTracer.cs:61-67 | stores the scene and camera, runs `Setup`: count 0, pixel buffer the texture's data, the tracer valid and averaging |
| BatchedTracing.BatchedTracer.AllocateSampleJobBuffers | Assets/Scripts/BatchedTracer.cs:74-88 | the memory of the old sample buffers is released; then come a fresh handle array and `m_JobsPerBatch` fresh sample buffers of `pixelCount` pixels |
| BatchedTracing.BatchedTracer.Setup | Assets/Scripts/BatchedTracer.cs:90-101 | the pixel buffer becomes the texture's raw data, the buffers are allocated for the whole texture and the count is 0; the old sample buffers' memory is released; nothing else changes |
| BatchedTracing.BatchedTracer.SetJobsPerBatch | Assets/Scripts/BatchedTracer.cs:25-42 | an ignored value changes nothing, a rejected one appends its message to the log, a stored one releases the old sample buffers' memory and reallocates the buffers; the count and the pixels are kept in every case |
| BatchedTracing.BatchedTracer.ScheduleBatch | Assets/Scripts/BatchedTracer.cs:214-231 | with `ClearOnDraw` the buffer is zeroed and the count reset; every slot renders its seeded image; the pixel buffer is combined exactly when there are 2, 4 or 8 jobs per batch |
| BatchedTracing.BatchedTracer.CompleteAndDraw | Assets/Scripts/BatchedTracer.cs:239-244 | the count grows by `JobsPerBatch` |
| BatchedTracing.BatchedTracer.Draw | Assets/Scripts/BatchedTracer.cs:167-171 | a batch then `CompleteAndDraw`: every pixel gains its batch's samples, the count grows by one batch, and the pixel buffer is the mean of all samples whenever every batch since the last reset had 8 jobs |
| BatchedTracing.BatchedTracer.RecordBatch | Assets/Scripts/BatchedTracer.cs:229-230 | a batch of 8 combined into a buffer that was the mean of the earlier samples leaves it the mean of all of them |
| BatchedTracing.BatchedTracer.DrawToTexture | Assets/Scripts/BatchedTracer.cs:167-171 | one batch of focus jobs: the count grows by `JobsPerBatch` (from 0 with `ClearOnDraw`) and averaging survives only batches of 8 |
| BatchedTracing.BatchedTracer.DrawToTextureWithoutFocus | Assets/Scripts/BatchedTracer.cs:233-237 | the same for a batch of jobs without defocus blur |
| BatchedTracing.BatchedTracer.BatchCoroutine | Assets/Scripts/BatchedTracer.cs:257-273 | `count / JobsPerBatch` draws, none for a count below one batch; without clearing the count grows by one batch per draw, with clearing it ends at one batch |
| BatchedTracing.BatchedTracer.CountedDraw | Assets/Scripts/BatchedTracer.cs:265 | one draw seen through the count it leaves |
| BatchedTracing.BatchedTracer.Dispose | Assets/Scripts/BatchedTracer.cs:275-282 | the scene and the handle array are disposed; the memory of every created sample buffer, and no other, joins `released`, while the array keeps its handles, which still report `IsCreated`, because the loop disposes copies |
| BatchedTracing.UncombinedBatchLeavesThePixel | Assets/Scripts/Chapters/CombineJobs.cs:12-56 | for every batch size `k` other than 2, 4 and 8 no combine job exists, so a black pixel given `k` white samples stays black and is no longer their mean |
| BatchedTracing.SixJobBatchesLeaveThePixel | Assets/Scripts/BatchedTracer.cs:20-39 | 6 is stored by the setter but no combine job exists for 6 sources, so a pixel with 6 white samples stays black and is no longer their mean |
| ChapterBatched.BatchedTracer.constructor | Assets/Scripts/Chapters/BatchedTracer.cs:35-41 | stores the scene, camera and scale, then `Setup`: the texture is the image size times the scale, the count is 0 and the tracer is valid |
| ChapterBatched.BatchedTracer.Setup | Assets/Scripts/Chapters/BatchedTracer.cs:48-62 | 8 fresh handles, a fresh zeroed texture buffer and 8 fresh batch buffers for the scaled texture, the count 0; nothing is disposed first |
| ChapterBatched.BatchedTracer.Draw | Assets/Scripts/Chapters/BatchedTracer.cs:237-264 | slot `b` renders from seed `b + CompletedSampleCount + 100`, every pixel gains its 8 samples, the texture buffer stays their running mean and the count grows by 8 |
| ChapterBatched.BatchedTracer.DrawToTexture | Assets/Scripts/Chapters/BatchedTracer.cs:237-264 | one draw of `SerialJobWithFocus` jobs, keeping the running-mean invariant |
| ChapterBatched.BatchedTracer.DrawToTextureWithoutFocus | Assets/Scripts/Chapters/BatchedTracer.cs:266-293 | one draw of `SerialJob` jobs, keeping the running-mean invariant |
| ChapterBatched.BatchedTracer.BatchCoroutine | Assets/Scripts/Chapters/BatchedTracer.cs:299-333 | `count / 8` draws: the count grows by the largest multiple of 8 not above `count`, none for a negative count |
| ChapterBatched.BatchedTracer.Dispose | Assets/Scripts/Chapters/BatchedTracer.cs:335-347 | the scene, the texture buffer and the handle array are disposed; the memory of every created batch buffer, and no other, joins `released`, while the array keeps its handles, which still report `IsCreated`, because the loop disposes copies |
| ChapterBatched.ChapterTenCamera | Assets/Scripts/Chapters/BatchedTracer.cs:212-221 | the chapter 10 camera stands at (-2, 2, 1) and its centre ray points from there towards (0, 0, -1), whatever the aspect ratio |
| NineProgressive.ChapterNineProgressive.constructor | Assets/Scripts/Chapters/ChapterNineProgressive.cs:30-33 | `Setup` on a fresh tracer: the scale defaults to 8, the texture is the image size times 8, the count is 0 and the tracer is valid |
| NineProgressive.ChapterNineProgressive.Setup | Assets/Scripts/Chapters/ChapterNineProgressive.cs:40-56 | dispose, default a zero scale to 8, allocate a zeroed texture buffer and 8 batch buffers for the scaled image, reset the count; the texture is then the (empty) mean of no samples, and the earlier batch buffers' memory is released |
| NineProgressive.ChapterNineProgressive.Allocate | Assets/Scripts/Chapters/ChapterNineProgressive.cs:44-55 | the allocations after `Dispose`: scale, zeroed texture buffer, 8 fresh batch buffers, count 0 |
| NineProgressive.ChapterNineProgressive.DrawToTexture | Assets/Scripts/Chapters/ChapterNineProgressive.cs:160-202 | slot `b` renders the scene from seed `b + CompletedSampleCount + 100`, the job's `CombineJobEight` (lines 148-157) folds the 8 images in, every pixel gains its 8 samples and stays their running mean, and the count grows by 8 |
| NineProgressive.ChapterNineProgressive.Dispose | Assets/Scripts/Chapters/ChapterNineProgressive.cs:204-224 | the texture buffer and the handle array are disposed; the memory of every created batch buffer, and no other, joins `released`, while the array keeps its handles, which still report `IsCreated`, because the loop disposes copies |
| NineProgressive.SeedsDistinct | Assets/Scripts/Chapters/ChapterNineProgressive.cs:164-167 | below 2^32, the seed `b + 8k + 100` of slot `b` in draw `k` is different for every other draw and slot, so no two sample images share a generator |
| EightProgressive.Opaque | Assets/Scripts/Chapters/ChapterEightProgressive.cs:115-116 | the sample written keeps the colour's three channels and has alpha 1 |
| EightProgressive.Opaques | Assets/Scripts/Chapters/ChapterEightProgressive.cs:116 | every colour of a list made opaque, element by element, keeping the length |
| EightProgressive.SerialRun | Assets/Scripts/Chapters/ChapterEightProgressive.cs:102-119 | a serial job's image is its colour samples each made opaque, and the generator ends where the colour samples leave it |
| EightProgressive.OpaqueBatchSamples | Assets/Scripts/Chapters/ChapterEightProgressive.cs:258-272 | the inputs a batch gives a pixel are the batch's colour samples of that pixel, made opaque |
| EightProgressive.SumOfOpaques | Assets/Scripts/Chapters/ChapterEightProgressive.cs:210 | adding opaque samples adds their colours and makes alpha the number of samples |
| EightProgressive.CombineEight4IsMeanPixel | Assets/Scripts/Chapters/ChapterEightProgressive.cs:198-212 | on 8 opaque samples the `float4` `CombineJobEight` kernel is the mean-keeping kernel, so alpha stays 1 |
| EightProgressive.OpaqueCombineStep | Assets/Scripts/Chapters/ChapterEightProgressive.cs:198-212 | if the image is the running mean of its samples with alpha 1, combining 8 opaque samples per pixel keeps it so, the count 8 higher |
| EightProgressive.CombineEightAt | Assets/Scripts/Chapters/ChapterEightProgressive.cs:198-212 | `Execute(i)` overwrites pixel `i` with the kernel of its 8 inputs and old value, and no other pixel |
| EightProgressive.CombineEightOpaque | Assets/Scripts/Chapters/ChapterEightProgressive.cs:293-294 | the parallel-for over `length` pixels, completed: every pixel below `length` is combined from its old value |
| EightProgressive.DrawOpaqueEight | Assets/Scripts/Chapters/ChapterEightProgressive.cs:258-294 | the 8 reseeding serial jobs then the combine: every buffer holds its slot's image, every pixel gains the 8 samples of its batch and stays their running mean with alpha 1 |
| EightProgressive.ExecuteJob | Assets/Scripts/Chapters/ChapterEightProgressive.cs:32-50 | the parallel `Job` over every index writes the shading of that index from the job's generator |
| EightProgressive.JobPixelIsMean | Assets/Scripts/Chapters/ChapterEightProgressive.cs:32-50 | the pixel `Job.Execute(index)` writes is the mean of `numberOfSamples` samples of column `index % w` and row `index / w`, drawn from the reseeded generator, with alpha 1 |
| EightProgressive.WeightedMeanBetween | Assets/Scripts/Chapters/ChapterEightProgressive.cs:175-177 | a weighted mean with non-negative weights lies between its two inputs |
| EightProgressive.HalfWeightedIsMean | Assets/Scripts/Chapters/ChapterEightProgressive.cs:171-179 | the corrected weighted kernel puts every channel between the current and the accumulated value, and leaves equal inputs unchanged |
| EightProgressive.EvenCountAgrees | Assets/Scripts/Chapters/ChapterEightProgressive.cs:175-177 | for an even completed count the kernel as written equals the corrected one |
| EightProgressive.EvenChannelAgrees | Assets/Scripts/Chapters/ChapterEightProgressive.cs:176-177 | one channel of the same: halving an even count in float and in integer division agree |
| EightProgressive.OddCountOverweighs | Assets/Scripts/Chapters/ChapterEightProgressive.cs:176-177 | as written, one white batch sample and one white completed sample give 1.5 in every channel, where the corrected kernel gives white |
| EightProgressive.CombineWeighted | Assets/Scripts/Chapters/ChapterEightProgressive.cs:162-180 | `CombineJob` over the accumulated buffer: every pixel becomes the weighted kernel of its current and accumulated values |
| EightProgressive.AllocateOpaqueEight | Assets/Scripts/Chapters/ChapterEightProgressive.cs:239-245 | 8 handles, a zeroed texture buffer holding no samples yet, and 8 zeroed batch buffers, none sharing memory |
| EightProgressive.ChapterEightProgressive.constructor | Assets/Scripts/Chapters/ChapterEightProgressive.cs:223-226 | `Setup` on a fresh tracer: the scale defaults to 12, the count is 0 and the tracer is valid |
| EightProgressive.ChapterEightProgressive.Setup | Assets/Scripts/Chapters/ChapterEightProgressive.cs:233-248 | a zero scale becomes 12; a zeroed texture buffer and 8 zeroed batch buffers for the scaled texture; count 0; nothing disposed first |
| EightProgressive.ChapterEightProgressive.DrawToTexture | Assets/Scripts/Chapters/ChapterEightProgressive.cs:254-300 | slot `b` renders from seed `b + count + 100` (the parameterless `InitState` is overridden), every pixel gains its 8 samples and stays their running mean with alpha 1, the count grows by 8 |
| EightProgressive.ChapterEightProgressive.Dispose | Assets/Scripts/Chapters/ChapterEightProgressive.cs:302-320 | the memory of every created batch buffer, and no other, joins `released` while the array keeps its handles, which still report `IsCreated`; with `disposing` the texture buffer and then the handle array are disposed unchecked, and it fails exactly when one of them is not created |
| DebugTracer.DebugImage | Assets/Scripts/Chapters/DebugTracerWithoutFocus.cs:97-120 | the job traces exactly one pixel record per pixel of the image |
| DebugTracer.DebugImageIsRowMajor | Assets/Scripts/Chapters/DebugTracerWithoutFocus.cs:102-106 | the nested row/column loops visit index `j * nx + i` in increasing order, so the image is the run over `0 .. w*h - 1` |
| DebugTracer.Colours | Assets/Scripts/Chapters/DebugTracerWithoutFocus.cs:117 | one colour per traced pixel |
| DebugTracer.Counts | Assets/Scripts/Chapters/DebugTracerWithoutFocus.cs:115 | one segment count per traced pixel |
| DebugTracer.ColoursAt | Assets/Scripts/Chapters/DebugTracerWithoutFocus.cs:115-117 | pixel `p`'s colour and count are the `p`-th entries written |
| DebugTracer.SegmentIndexIsTotal | Assets/Scripts/Chapters/DebugTracerWithoutFocus.cs:101-126 | the shared segment index ends at the sum of the per-pixel counts |
| DebugTracer.SegmentsOfPrefix | Assets/Scripts/Chapters/DebugTracerWithoutFocus.cs:124-125 | the segment index never decreases as pixels are traced |
| DebugTracer.SegmentsAppend | Assets/Scripts/Chapters/DebugTracerWithoutFocus.cs:122-127 | segments of consecutive pixels are stored one after the other |
| DebugTracer.RowStep | Assets/Scripts/Chapters/DebugTracerWithoutFocus.cs:104-118 | one more pixel of a row records its segments after the row's |
| DebugTracer.RowsStep | Assets/Scripts/Chapters/DebugTracerWithoutFocus.cs:102-119 | one more row records its segments after the rows above |
| DebugTracer.RowGrows | Assets/Scripts/Chapters/DebugTracerWithoutFocus.cs:104-118 | more pixels of a row never record fewer segments |
| DebugTracer.RowsGrow | Assets/Scripts/Chapters/DebugTracerWithoutFocus.cs:102-119 | more rows never record fewer segments |
| DebugTracer.RowBudget | Assets/Scripts/Chapters/DebugTracerWithoutFocus.cs:102-119 | the rows above plus row `j` record no more than the whole image |
| DebugTracer.PixelFits | Assets/Scripts/Chapters/DebugTracerWithoutFocus.cs:104-118 | pixel `i` of a row fits the segment buffer wherever the whole row fits |
| DebugTracer.TraceStep | Assets/Scripts/Chapters/DebugTracerWithoutFocus.cs:111-117 | one more pixel appends its colour, its count and its segments |
| DebugTracer.SegmentsFit | Assets/Scripts/Chapters/DebugTracerWithoutFocus.cs:62 | if no pixel records more than `m` segments, the image records at most `m` per pixel |
| DebugTracer.DebugPixel | Assets/Scripts/Chapters/DebugTracerWithoutFocus.cs:107-117 | a pixel records the lens ray first and one segment per bounce, between 1 and 51 in all, and its colour is the job's `Color` of that ray with the glass case that takes no refraction index |
| DebugTracer.KernelCounts | Assets/Scripts/Chapters/DebugTracerWithoutFocus.cs:106-117 | the pixel at every index records between 1 and 51 segments |
| DebugTracer.DebugImageCounts | Assets/Scripts/Chapters/DebugTracerWithoutFocus.cs:62 | every pixel records between 1 and 51 segments, so a draw records at most 51 per pixel while the buffer holds 50 |
| DebugTracer.DrawSeed | Assets/Scripts/Chapters/DebugTracerWithoutFocus.cs:203 | the count before draw `n` is `n` steps of 10 after the starting count |
| DebugTracer.WithAlpha | Assets/Scripts/Chapters/DebugTracerWithoutFocus.cs:74-78 | the converted pixel keeps the colour and takes alpha `aValue` |
| DebugTracer.ConvertToFloat4 | Assets/Scripts/Chapters/DebugTracerWithoutFocus.cs:67-79 | every index below `In.Length` gets its colour with alpha `aValue`; the rest of the output is unchanged |
| DebugTracer.SerialJobWithFocus.constructor | Assets/Scripts/Chapters/DebugTracerWithoutFocus.cs:181-190 | the job holds the tracer's camera, generator, size, scene and buffers, with both counters at 0 |
| DebugTracer.SerialJobWithFocus.RecordRaySegment | Assets/Scripts/Chapters/DebugTracerWithoutFocus.cs:122-127 | the segment goes to the next free slot, earlier slots are kept, and both counters grow by one |
| DebugTracer.SerialJobWithFocus.Color | Assets/Scripts/Chapters/DebugTracerWithoutFocus.cs:129-174 | returns the traced colour and appends exactly the scattered rays of that trace to the segment buffer, counting each |
| DebugTracer.SerialJobWithFocus.TracePixel | Assets/Scripts/Chapters/DebugTracerWithoutFocus.cs:106-117 | one pixel: its trace is the job's `TraceAt`, its count and colour land at `j * nx + i`, its segments after the earlier ones |
| DebugTracer.SerialJobWithFocus.TraceRay | Assets/Scripts/Chapters/DebugTracerWithoutFocus.cs:111-114 | the counter is reset, the camera ray recorded and `Color` run at depth 0: the ray and its bounces are appended and counted |
| DebugTracer.SerialJobWithFocus.WritePixel | Assets/Scripts/Chapters/DebugTracerWithoutFocus.cs:115-117 | the pixel's segment count and colour are written at `index` after the earlier pixels |
| DebugTracer.SerialJobWithFocus.TraceRow | Assets/Scripts/Chapters/DebugTracerWithoutFocus.cs:104-118 | the inner loop over row `j` appends exactly that row's trace |
| DebugTracer.SerialJobWithFocus.TraceNext | Assets/Scripts/Chapters/DebugTracerWithoutFocus.cs:104-118 | one iteration of the inner loop extends the row by pixel `i`'s trace |
| DebugTracer.SerialJobWithFocus.TraceNextRow | Assets/Scripts/Chapters/DebugTracerWithoutFocus.cs:102-119 | one iteration of the outer loop extends the image by row `j` |
| DebugTracer.SerialJobWithFocus.Execute | Assets/Scripts/Chapters/DebugTracerWithoutFocus.cs:97-120 | the colours, the counts and the segments written are those of the job's trace, and the segment index ends at the total recorded |
| DebugTracer.DebugTracerWithoutFocus.constructor | Assets/Scripts/Chapters/DebugTracerWithoutFocus.cs:39-45 | stores the scene, camera and scale, then `Setup`: buffers for the scaled texture, count 0 |
| DebugTracer.DebugTracerWithoutFocus.Setup | Assets/Scripts/Chapters/DebugTracerWithoutFocus.cs:52-65 | the four buffers for the scaled texture, the segment buffer with 50 slots per pixel, and the count 0; nothing is disposed first |
| DebugTracer.DebugTracerWithoutFocus.DrawToTexture | Assets/Scripts/Chapters/DebugTracerWithoutFocus.cs:177-205 | one job seeded with `CompletedSampleCount + 100` traces one sample per pixel, the texture buffer gets those colours with alpha 1 (replacing what it held), the counts and segments are the trace's, and the count grows by 10 |
| DebugTracer.DebugTracerWithoutFocus.BatchCoroutine | Assets/Scripts/Chapters/DebugTracerWithoutFocus.cs:213-247 | `count / 10` draws: the count grows by 10 per draw |
| DebugTracer.DebugTracerWithoutFocus.DrawNext | Assets/Scripts/Chapters/DebugTracerWithoutFocus.cs:221 | draw `n` of the coroutine moves the count from draw `n`'s seed to draw `n + 1`'s |
| DebugTracer.DebugTracerWithoutFocus.Dispose | Assets/Scripts/Chapters/DebugTracerWithoutFocus.cs:249-256 | as written: the scene and the texture buffer are released, the tracer buffer never is, and it throws exactly when the tracer buffer is created and the texture buffer is not |
| DebugTracer.DebugTracerWithoutFocus.DisposeAsIntended | Assets/Scripts/Chapters/DebugTracerWithoutFocus.cs:249-256 | each buffer under its own guard: the scene, the tracer buffer and the texture buffer are all released |
| ChapterEight.PixelIsMean | Assets/Scripts/Chapters/ChapterEight.cs:37-54 | the pixel at `j * nx + i` is `ToRgb24` of the mean of its `numberOfSamples` samples, drawn one after the other from the generator the earlier pixels left |
| ChapterEight.GlassShowsSky | Assets/Scripts/Chapters/ChapterEight.cs:61-93 | a dielectric sphere has no case in the switch: a ray hitting one while bounces remain gets the sky colour, and the hit still counts |
| ChapterEight.ExhaustedIgnoresWorld | Assets/Scripts/Chapters/ChapterEight.cs:61 | once the counter has reached `maxHits`, `Color` is the sky whatever the scene |
| ChapterEight.CounterBounded | Assets/Scripts/Chapters/ChapterEight.cs:61-63 | the recursion counter never decreases and never passes `maxHits` (0 for a negative limit) |
| ChapterEight.Job.constructor | Assets/Scripts/Chapters/ChapterEight.cs:108-117 | the job holds the settings it is given, with the counter at 0 |
| ChapterEight.Job.Color | Assets/Scripts/Chapters/ChapterEight.cs:58-94 | returns the counted colour and advances the counter by the hits it takes; the generator is only read |
| ChapterEight.Job.TakeSample | Assets/Scripts/Chapters/ChapterEight.cs:45-49 | one sample: two jittering draws, the ray, the counter reset and the colour; the counter ends within `maxHits` |
| ChapterEight.Job.PixelAt | Assets/Scripts/Chapters/ChapterEight.cs:42-53 | the sample loop of pixel `(i, j)` and the conversion of their mean, as the shader gives it |
| ChapterEight.Job.Execute | Assets/Scripts/Chapters/ChapterEight.cs:33-56 | the first `w * h` pixels are the shader's row-major image, the rest of the buffer is unchanged, and the generator ends where the last sample left it |
| ChapterEight.Job.ExecuteRow | Assets/Scripts/Chapters/ChapterEight.cs:39-54 | the inner loop renders row `j` after the rows below and touches nothing beyond it |
| ChapterEight.Job.WriteNext | Assets/Scripts/Chapters/ChapterEight.cs:41-53 | one pass of the inner loop writes pixel `(i, j)` at `j * nx + i` after the pixels before it |
| ChapterEight.ChapterEight.constructor | Assets/Scripts/Chapters/ChapterEight.cs:13-97 | the chapter holds its sample count and canvas scale |
| ChapterEight.ChapterEight.DrawToTexture | Assets/Scripts/Chapters/ChapterEight.cs:101-122 | a job with `maxHits = 50` on the default camera and the four-sphere scene, from the default seed, fills a buffer of the scaled image's size with its row-major image |
| SevenAlternate.PixelIsOpaqueMean | Assets/Scripts/Chapters/ChapterSevenAlternate.cs:33-53 | every pixel written is opaque and its colour is the mean of the samples drawn for its column and row |
| SevenAlternate.AlternateShadeAt | Assets/Scripts/Chapters/ChapterSevenAlternate.cs:35-52 | index `k` shades column `k % w` and row `k / w` with the mean of `numberOfSamples` absorbed samples, alpha 1 |
| SevenAlternate.AllSamplesJob.constructor | Assets/Scripts/Chapters/ChapterSevenAlternate.cs:99-109 | the job holds the settings it is given, with the counter at 0 |
| SevenAlternate.AllSamplesJob.RandomInUnitSphere | Assets/Scripts/Chapters/ChapterSevenAlternate.cs:55-66 | the rejection loop on a copy of the generator returns the first point strictly inside the unit sphere and leaves the job's generator where it was |
| SevenAlternate.AllSamplesJob.Color | Assets/Scripts/Chapters/ChapterSevenAlternate.cs:68-81 | returns the absorbed colour of chapter seven and advances the counter by the hits taken |
| SevenAlternate.AllSamplesJob.TakeSample | Assets/Scripts/Chapters/ChapterSevenAlternate.cs:43-48 | one sample with the row in float: two draws, the ray, the counter reset and the colour; the counter ends within `maxHits` |
| SevenAlternate.AllSamplesJob.PixelAt | Assets/Scripts/Chapters/ChapterSevenAlternate.cs:40-52 | the sample loop of pixel `(i, j)` and their mean with alpha 1 |
| SevenAlternate.AllSamplesJob.Execute | Assets/Scripts/Chapters/ChapterSevenAlternate.cs:33-53 | `Execute(index)` writes the shader's pixel at `index` and changes no other pixel |
| SevenAlternate.AllSamplesJob.ExecuteAll | Assets/Scripts/Chapters/ChapterSevenAlternate.cs:111-112 | the parallel-for over every index gives the shader's image of the whole buffer |
| SevenAlternate.ChapterSevenAlternate.constructor | Assets/Scripts/Chapters/ChapterSevenAlternate.cs:12-16 | the chapter holds its sample count and absorb rate, with the stored scale at 4 |
| SevenAlternate.ChapterSevenAlternate.GetCanvasScale | Assets/Scripts/Chapters/ChapterSevenAlternate.cs:87 | the getter stores 8 and returns 8, whatever was set |
| SevenAlternate.ChapterSevenAlternate.SetCanvasScale | Assets/Scripts/Chapters/ChapterSevenAlternate.cs:88 | the setter stores the value |
| SevenAlternate.ChapterSevenAlternate.DrawToTexture | Assets/Scripts/Chapters/ChapterSevenAlternate.cs:91-116 | the texture is always the image size times 8; a job with `maxHits = 32` on the default camera and the four-sphere scene, from the default seed, fills it with the shader's image |
| ChapterSeven.AbsorbIsPower | Assets/Scripts/Chapters/ChapterSeven.cs:56-67 | the colour of a ray is `absorbRate^k` times the sky of the last ray of its path, `k` the hits it takes; the counter ends `k` higher and stays within `maxHits` |
| ChapterSeven.AbsorbOnce | Assets/Scripts/Chapters/ChapterSeven.cs:63 | one more absorption turns `rate^n` times the sky into `rate^(n+1)` times it |
| ChapterSeven.AbsorbBounded | Assets/Scripts/Chapters/ChapterSeven.cs:56-67 | with an absorb rate in [0, 1] every sample colour stays in the unit cube |
| ChapterSeven.UnitScaleBounded | Assets/Scripts/Chapters/ChapterSeven.cs:63 | a factor in [0, 1] keeps a colour of the unit cube inside it |
| ChapterSeven.Job.constructor | Assets/Scripts/Chapters/ChapterSeven.cs:78-88 | the job holds the settings it is given, with the counter at 0 |
| ChapterSeven.Job.Color | Assets/Scripts/Chapters/ChapterSeven.cs:56-67 | returns the absorbed colour and advances the counter by the hits taken; the generator is passed by value and not advanced |
| ChapterSeven.Job.TakeSample | Assets/Scripts/Chapters/ChapterSeven.cs:43-47 | one sample: two jittering draws, the ray, the counter reset and the colour; the counter ends within `maxHits` |
| ChapterSeven.Job.PixelAt | Assets/Scripts/Chapters/ChapterSeven.cs:40-51 | the sample loop of pixel `(i, j)` and `ToRgb24` of their mean, as the shader gives it |
| ChapterSeven.Job.Execute | Assets/Scripts/Chapters/ChapterSeven.cs:30-54 | the first `w * h` pixels are the shader's row-major image, the rest of the buffer is unchanged, and the generator ends where the last sample left it |
| ChapterSeven.Job.ExecuteRow | Assets/Scripts/Chapters/ChapterSeven.cs:36-52 | the inner loop renders row `j` at `rowIndex + i` after the rows below and touches nothing beyond it |
| ChapterSeven.Job.WriteNext | Assets/Scripts/Chapters/ChapterSeven.cs:39-51 | one pass of the inner loop writes pixel `(i, j)` after the pixels before it |
| ChapterSeven.ChapterSeven.constructor | Assets/Scripts/Chapters/ChapterSeven.cs:71 | the chapter's spheres are the four-sphere scene |
| ChapterSeven.ChapterSeven.Schedule | Assets/Scripts/Chapters/ChapterSeven.cs:73-92 | a job with `maxHits = 32` on the default camera and the chapter's spheres, from the default seed, fills the pixel buffer with its row-major image |
| ChapterSeven.ChapterSeven.Dispose | Assets/Scripts/Chapters/ChapterSeven.cs:94-98 | the spheres are released |
| ChapterFour.ViewRayIsDefaultCamera | Assets/Scripts/Chapters/ChapterFour.cs:28-38 | the job's hard-coded viewport is the default camera's: pixel `(i, j)` casts `GetRay(i / nx, j / ny)` |
| ChapterFour.ViewRayInViewport | Assets/Scripts/Chapters/ChapterFour.cs:36-38 | `u` and `v` lie in [0, 1), so every ray direction lies between the corners (-2, -1, -1) and (2, 1, -1) |
| ChapterFour.FullDiscriminantIsFourTimes | Assets/Scripts/Chapters/ChapterFour.cs:47-55 | `b^2 - 4ac` with the full `b` is four times the half-b discriminant the general sphere test uses |
| ChapterFour.GapIsQuadratic | Assets/Scripts/Chapters/ChapterFour.cs:49-52 | the squared distance to the centre minus `radius^2` at parameter `t` is `a t^2 + 2 h t + c` |
| ChapterFour.QuadraticGap | Assets/Scripts/Chapters/ChapterFour.cs:49-52 | the same expansion in terms of `oc` and the direction |
| ChapterFour.RootIsCrossing | Assets/Scripts/Chapters/ChapterFour.cs:47-55 | a root of the quadratic is a parameter on the sphere |
| ChapterFour.CompletedSquare | Assets/Scripts/Chapters/ChapterFour.cs:53 | `a` times the quadratic is `(a t + h)^2` minus the discriminant |
| ChapterFour.HitSphereIffDiscriminant | Assets/Scripts/Chapters/ChapterFour.cs:47-55 | the test holds exactly when the general sphere test's discriminant is positive |
| ChapterFour.HitSphereIffTwoCrossings | Assets/Scripts/Chapters/ChapterFour.cs:47-55 | for a ray with a direction, the test holds exactly when two different parameters, of any sign, lie on the sphere |
| ChapterFour.OnlyCrossing | Assets/Scripts/Chapters/ChapterFour.cs:53-54 | without a positive discriminant the ray's line touches the sphere at `-h / a` at most |
| ChapterFour.OnlyRoot | Assets/Scripts/Chapters/ChapterFour.cs:53-54 | with `a > 0` and a non-positive discriminant the quadratic's only possible root is `-h / a` |
| ChapterFour.SphereBehindIsHit | Assets/Scripts/Chapters/ChapterFour.cs:47-60 | the test looks at the whole line: a ray from the origin along +z is drawn red, although both its crossings of the default sphere lie behind the origin |
| ChapterFour.BehindCrossing | Assets/Scripts/Chapters/ChapterFour.cs:47-55 | every crossing of the default sphere by that ray has a negative parameter |
| ChapterFour.PositiveBeyondOrigin | Assets/Scripts/Chapters/ChapterFour.cs:47-55 | `t^2 + 2t + 3/4` vanishes only at negative `t` |
| ChapterFour.ColorAgreesWithSphereHit | Assets/Scripts/Chapters/ChapterFour.cs:57-60 | a ray the general sphere test hits in any range is drawn in `sphereColor`, and a ray whose line never enters the sphere shows the sky |
| ChapterFour.EntersSphere | Assets/Scripts/Chapters/ChapterFour.cs:47-55 | when the test holds, some point of the line lies strictly inside the sphere |
| ChapterFour.VertexBelow | Assets/Scripts/Chapters/ChapterFour.cs:53-54 | with a positive discriminant the quadratic is negative at its vertex `-h / a` |
| ChapterFour.Job.constructor | Assets/Scripts/Chapters/ChapterFour.cs:65-71 | the job holds the size, sphere position and colour and buffer it is given |
| ChapterFour.Job.Execute | Assets/Scripts/Chapters/ChapterFour.cs:23-45 | pixel `(i, j)` at `j * nx + i` is `ToRgb24` of the colour of its unjittered ray, and the rest of the buffer is unchanged |
| ChapterFour.ChapterFour.constructor | Assets/Scripts/Chapters/ChapterFour.cs:10-11 | the sphere starts at z = -1 and red |
| ChapterFour.ChapterFour.DrawToTexture | Assets/Scripts/Chapters/ChapterFour.cs:63-75 | a 200 by 100 image whose every pixel is the colour of its ray with the sphere at (0, 0, spherePositionZ) |
| ChapterFour.ChapterFour.Schedule | Assets/Scripts/Chapters/ChapterFour.cs:77-80 | always fails with not-implemented |
| ChapterFive.MissStaysOutside | Assets/Scripts/Chapters/ChapterFive.cs:51-53 | a negative discriminant returns -1, and then every point of the ray's line lies outside the sphere |
| ChapterFive.NegativeDiscriminantLead | Assets/Scripts/Chapters/ChapterFive.cs:48-52 | a negative discriminant forces `a = dot(d, d)` to be positive |
| ChapterFive.QuadraticPositive | Assets/Scripts/Chapters/ChapterFive.cs:48-52 | with `a > 0` and a negative discriminant the squared-distance gap is positive for every parameter |
| ChapterFive.HalfForm | Assets/Scripts/Chapters/ChapterFive.cs:45-56 | with an exact square root, `(-b - sqrt(b^2 - 4ac)) / 2a` is the half-b root `(-h - sqrt(h^2 - ac)) / a` of the general sphere test |
| ChapterFive.HitSphereIsNearRoot | Assets/Scripts/Chapters/ChapterFive.cs:45-56 | when the general test's discriminant is positive, `HitSphere` is that test's nearer root |
| ChapterFive.HitSphereNearest | Assets/Scripts/Chapters/ChapterFive.cs:45-56 | for a ray with a direction and a non-negative discriminant (tangent included), `HitSphere` is a parameter on the sphere and no crossing comes before it |
| ChapterFive.NearRootIsNearest | Assets/Scripts/Chapters/ChapterFive.cs:55 | `(-h - q) / a` is a crossing and every crossing is at or after it |
| ChapterFive.NearestRoot | Assets/Scripts/Chapters/ChapterFive.cs:55 | every root of the quadratic is at least `(-h - q) / a` |
| ChapterFive.MissShowsSky | Assets/Scripts/Chapters/ChapterFive.cs:58-68 | a ray whose line misses the sphere shows the sky |
| ChapterFive.ColorInUnitCube | Assets/Scripts/Chapters/ChapterFive.cs:58-68 | with an exact square root every colour lies in the unit cube, so `ToRgb24` never saturates |
| ChapterFive.NormalizedComponents | Assets/Scripts/Chapters/ChapterFive.cs:63 | every component of a normalized vector lies in [-1, 1] |
| ChapterFive.UnitComponents | Assets/Scripts/Chapters/ChapterFive.cs:63-64 | a vector of length 1 has components in [-1, 1] |
| ChapterFive.InFront | Assets/Scripts/Chapters/ChapterFive.cs:52-55 | a positive parameter needs a non-negative discriminant and a ray with a direction |
| ChapterFive.CenteredShading | Assets/Scripts/Chapters/ChapterFive.cs:58-68 | with the sphere at (0, 0, -1), where the chapter puts it, a hit in front shows `0.5 * (N + 1)` for the outward unit normal `N = (p - center) / radius` |
| ChapterFive.CenteredSteps | Assets/Scripts/Chapters/ChapterFive.cs:63-64 | the same from the root of 0.25 and the hit point on the sphere |
| ChapterFive.ShiftedSphereShading | Assets/Scripts/Chapters/ChapterFive.cs:60-64 | the normal is measured from the fixed point (0, 0, -1): the sphere at (0, 0, -2) looked at straight ahead is hit at 1.5 with outward normal (0, 0, 1), yet the pixel gets the colour (0.5, 0.5, 0) of the normal (0, 0, -1) |
| ChapterFive.ShiftedRoot | Assets/Scripts/Chapters/ChapterFive.cs:45-56 | the straight-ahead ray first meets the sphere at (0, 0, -2) at parameter 1.5 |
| ChapterFive.BackwardShading | Assets/Scripts/Chapters/ChapterFive.cs:60-64 | a hit whose shading vector is (0, 0, -0.5) is coloured (0.5, 0.5, 0), wherever the sphere is |
| ChapterFive.BackwardColor | Assets/Scripts/Chapters/ChapterFive.cs:60-64 | a hit in front whose shading normal is (0, 0, -1) is coloured (0.5, 0.5, 0) |
| ChapterFive.BackwardNormal | Assets/Scripts/Chapters/ChapterFive.cs:63 | (0, 0, -0.5) normalizes to (0, 0, -1) |
| ChapterFive.NormalizeByLength | Assets/Scripts/Chapters/ChapterFive.cs:63 | a vector of non-zero length `len` normalizes to itself divided by `len` |
| ChapterFive.ShiftedCoefficients | Assets/Scripts/Chapters/ChapterFive.cs:47-51 | for the straight-ahead ray and the sphere at (0, 0, -2): discriminant 1, `a = 1`, `b = -4` |
| ChapterFive.NearRootOf | Assets/Scripts/Chapters/ChapterFive.cs:52-55 | on a non-negative discriminant `HitSphere` is `(-b - sqrt(disc)) / 2a` |
| ChapterFive.ShadeAtParameter | Assets/Scripts/Chapters/ChapterFive.cs:60-64 | at a positive parameter the colour is `0.5 * (n + 1)` for the normalized vector from (0, 0, -1) to the hit point |
| ChapterFive.ShiftedHitPoint | Assets/Scripts/Chapters/ChapterFive.cs:63 | at parameter 1.5 the outward normal is (0, 0, 1) and the vector from (0, 0, -1) is (0, 0, -0.5) |
| ChapterFive.ShiftedNormal | Assets/Scripts/Chapters/ChapterFive.cs:63 | (0, 0, -0.5) has length 0.5 and direction (0, 0, -1) |
| ChapterFive.BackwardNormalColor | Assets/Scripts/Chapters/ChapterFive.cs:64 | the normal (0, 0, -1) is shaded (0.5, 0.5, 0) |
| ChapterFive.SqrtOfSquare | Assets/Scripts/Chapters/ChapterFive.cs:55 | with an exact square root, the root of `y * y` is `y` for `y >= 0` |
| ChapterFive.Job.constructor | Assets/Scripts/Chapters/ChapterFive.cs:73-78 | the job holds the size, sphere position and buffer it is given |
| ChapterFive.Job.Execute | Assets/Scripts/Chapters/ChapterFive.cs:22-43 | pixel `(i, j)` at `j * nx + i` is `ToRgb24` of the colour of its unjittered ray, and the rest of the buffer is unchanged |
| ChapterFive.ChapterFive.constructor | Assets/Scripts/Chapters/ChapterFive.cs:11-12 | the sphere starts at z = -1, with the unused colour red |
| ChapterFive.ChapterFive.DrawToTexture | Assets/Scripts/Chapters/ChapterFive.cs:71-82 | a 200 by 100 image whose every pixel is the colour of its ray with the sphere at (0, 0, spherePositionZ) |
| Spheres.DiscriminantPositive | Assets/Scripts/Sphere.cs:22-27 | a positive discriminant rules out a zero direction and a zero radius, so both divisions of the test are defined |
| Spheres.DirectionNonZero | Assets/Scripts/Sphere.cs:19-27 | a positive discriminant means `a = dot(d, d)` is positive |
| Spheres.LeadingCoefficientPositive | Assets/Scripts/Sphere.cs:19-22 | with `b^2 <= dot(oc, oc) * a`, a positive `b^2 - a c` forces `a > 0` |
| Spheres.RadiusNonZero | Assets/Scripts/Sphere.cs:21-24 | a positive discriminant means the radius is not zero |
| Spheres.SurfaceRecord | Assets/Scripts/Sphere.cs:30-32 | the record of a hit at `t` has that parameter, the point of the ray at `t` and the sphere's material |
| Spheres.Hit | Assets/Scripts/Sphere.cs:16-46 | a hit exactly when the discriminant is positive and one of the two roots lies strictly inside `(tMin, tMax)`; the nearer root is tried first; on a miss the record is returned untouched |
| Spheres.RootsOrdered | Assets/Scripts/Sphere.cs:27-35 | the root tried first is never past the second |
| Spheres.NoHitWithoutPositiveDiscriminant | Assets/Scripts/Sphere.cs:24 | a tangent or missing ray never hits, whatever the interval |
| Spheres.ZeroRadiusNeverHits | Assets/Scripts/Sphere.cs:19-24 | a sphere of radius zero is never hit: its discriminant is at most zero |
| Spheres.HitTakesSmallestRoot | Assets/Scripts/Sphere.cs:27-42 | the parameter accepted is a root of the quadratic and the smallest root inside the interval |
| Spheres.HitRecordIndependent | Assets/Scripts/Sphere.cs:30-41 | on a hit the record written does not depend on the record passed in |
| Spheres.HitNarrowed | Assets/Scripts/Sphere.cs:28-36 | lowering `tMax` to `c` finds the same hit with the same record when it was closer than `c`, and nothing otherwise |
| Spheres.DotExpand | Assets/Scripts/Sphere.cs:18-21 | `|oc + t d|^2 = |oc|^2 + 2 t dot(oc, d) + t^2 |d|^2` |
| Spheres.RootSolvesQuadratic | Assets/Scripts/Sphere.cs:26-35 | with an exact square root both `(-b -+ q) / a` solve `a t^2 + 2 b t + c = 0` |
| Spheres.RootOnSurface | Assets/Scripts/Sphere.cs:18-22 | a parameter solving the quadratic puts the point at distance `|radius|` from the centre |
| Spheres.NormalOfSurfacePoint | Assets/Scripts/Sphere.cs:32 | `(p - center) / radius` at a point at distance `|radius|` has unit length and `dot(normal, p - center) = radius` |
| Spheres.HitOnSurface | Assets/Scripts/Sphere.cs:16-46 | with an exact square root the recorded point lies on the sphere and the normal has unit length, pointing outward for a positive radius and inward for a negative one |
| Spheres.RootIsOnSphere | Assets/Scripts/Sphere.cs:26-35 | either root `(-b -+ q) / a` is a point on the sphere |
| Hittables.Dispose | Assets/Scripts/HittableArray.cs:51-55 | a created scene is released and left empty; an uncreated one is left as it is |
| Hittables.Hit | Assets/Scripts/HittableArray.cs:22-39 | the closest-so-far loop returns exactly the result of scanning every sphere with the running bound |
| Hittables.ScanInvariantHolds | Assets/Scripts/HittableArray.cs:27-36 | after `k` spheres the running bound is the closest hit among them and the record is that sphere's, the earliest on a tie |
| Hittables.HitIsClosest | Assets/Scripts/HittableArray.cs:22-39 | a hit is reported exactly when some sphere is hit inside the interval; the record is that of a sphere no farther than any other and strictly closer than every earlier one; on a miss `rec` comes back unchanged |
| Hittables.HitFromScene | Assets/Scripts/HittableArray.cs:22-39 | a hit lies strictly inside the interval and carries the material of a sphere of the scene |
| Hittables.EmptyNeverHits | Assets/Scripts/HittableArray.cs:27 | an empty scene is never hit |
| RayMath.ReflectNegatesNormalComponent | Assets/Scripts/RayMath.cs:11-14 | about a unit normal, the mirror direction has the opposite normal component |
| RayMath.ReflectInvolution | Assets/Scripts/RayMath.cs:11-14 | about a unit normal, reflecting twice gives back the original direction |
| RayMath.ReflectKeepsLength | Assets/Scripts/RayMath.cs:11-14 | about a unit normal, reflection keeps the length of the direction |
| RayMath.SchlickEndpoints | Assets/Scripts/RayMath.cs:17-22 | Schlick's approximation is 1 at grazing incidence (`cosine = 0`) and the normal reflectance `r0` head-on (`cosine = 1`) |
| RayMath.SchlickIsProbability | Assets/Scripts/RayMath.cs:17-22 | for a cosine in [0, 1] and a non-negative index the value lies between `r0` and 1, so it is a probability |
| RayMath.RatioBounds | Assets/Scripts/RayMath.cs:19 | the quotient `(1 - ri) / (1 + ri)` stays in [-1, 1] for a non-negative index |
| RayMath.Refract | Assets/Scripts/RayMath.cs:25-38 | refraction succeeds exactly when the discriminant `1 - n^2 (1 - dt^2)` is positive; otherwise the out value is the zero vector |
| RayMath.RefractUnit | Assets/Scripts/RayMath.cs:27-32 | with an exact square root, a unit normal and a non-zero direction, the refracted direction has unit length and its normal component is `-sqrt(discriminant)` |
| Scatter.Diffuse | Assets/Scripts/Scatter.cs:9-15 | always scatters from the hit point, towards the normal plus a unit-ball sample, with the material's albedo as attenuation; the caller's generator is not advanced |
| Scatter.DiffuseNearNormal | Assets/Scripts/Scatter.cs:11-12 | the diffuse direction lies strictly within distance 1 of the normal |
| Scatter.Metal | Assets/Scripts/Scatter.cs:18-25 | the ray leaves from the hit point with the material's albedo; it scatters exactly when the new direction is on the normal's side |
| Scatter.MetalWithoutFuzzIsMirror | Assets/Scripts/Scatter.cs:21-22 | with fuzziness 0 the direction is the exact mirror of the normalized incoming direction |
| Scatter.DielectricInterface | Assets/Scripts/Scatter.cs:39-50 | a ray leaving the glass refracts against the flipped normal with `ni/nt = ri`; one entering refracts against the normal with `1/ri` |
| Scatter.Dielectric | Assets/Scripts/Scatter.cs:27-59 | glass always scatters, with white attenuation, from the hit point; one draw decides between the mirror direction (when below the reflect probability) and the refracted one |
| Scatter.DielectricReflectsWhenRefractionFails | Assets/Scripts/Scatter.cs:52-56 | under total internal reflection the probability is 1, so the glass always mirrors |
| Scatter.Generic | Assets/Scripts/Scatter.cs:61-82 | dispatches on the material type; glass gets a generator advanced once beforehand; an unknown type does not scatter and changes nothing |
| Scatter.GenericDraws | Assets/Scripts/Scatter.cs:72-78 | a glass scatter advances the generator twice, every other material not at all |
| Scatter.GenericAttenuationBounded | Assets/Scripts/Scatter.cs:61-82 | when the albedo lies in the unit cube so does every attenuation produced |
| Materials.DiffuseScatter | Assets/Scripts/DiffuseMaterial.cs:11-17 | always scatters from the hit point towards the normal plus a unit-ball sample, with the albedo argument as attenuation |
| Materials.MetalScatter | Assets/Scripts/DiffuseMaterial.cs:24-30 | mirrors the normalized direction with the instance albedo; scatters exactly when the result is on the normal's side |
| Materials.FuzzyMetalScatter | Assets/Scripts/DiffuseMaterial.cs:33-40 | mirrors and fuzzes with the record's material; scatters exactly when the result is on the normal's side |
| Materials.MetalOverloadsAgree | Assets/Scripts/DiffuseMaterial.cs:24-40 | with fuzziness 0 and the record's albedo, the two metal overloads give the same bounce |
| Materials.Refract | Assets/Scripts/DiffuseMaterial.cs:49-62 | on failure the out value is the zero vector |
| Materials.SameAsRayMath | Assets/Scripts/DiffuseMaterial.cs:43-62 | the copies of `Reflect` and `Refract` here compute exactly what the ray-math versions compute |
| Tracing.ColorBounded | Assets/Scripts/RayMath.cs:40-61 | with an exact square root and albedos in the unit cube, every colour the recursive tracer returns lies in the unit cube, whatever the depth and generator |
| Tracing.ColorKeepsGeneratorWithoutGlass | Assets/Scripts/RayMath.cs:40-61 | in a scene without glass the tracer hands the generator back unchanged |
| Tracing.EmptySceneIsSky | Assets/Scripts/RayMath.cs:40-61 | an empty scene shows the sky colour and draws nothing |
| Shading.MaterialScatter | Assets/Scripts/Chapters/BatchedTracer.cs:101-125 | the job switch sends a diffuse sphere to `DiffuseMaterial.Scatter` with its albedo, a metal one to the fuzzy `MetalMaterial.Scatter`, and an unknown type (or glass in a job without a glass case) nowhere |
| Shading.SwitchMatchesGeneric | Assets/Scripts/Chapters/BatchedTracer.cs:101-125 | on a sphere that is not glass, the job switch and `Scatter.Generic` produce the same flag, attenuation and scattered ray |
| Shading.JobColorMatchesTracer | Assets/Scripts/Chapters/BatchedTracer.cs:91-134 | in a scene without glass a job's `Color` is exactly the colour `RayMath.Color` computes from the same generator |
| Shading.JobColorBounded | Assets/Scripts/Chapters/BatchedTracer.cs:91-134 | with albedos and glass attenuation in the unit cube, a job's colour lies in the unit cube |
| Shading.CountedColorTracksDepth | Assets/Scripts/Chapters/ChapterEight.cs:58-93 | with the hit counter reset to the depth, the counter check trips at depth 50 first, the counter never exceeds 50, and a ray at depth 50 gets the sky colour |
| Shading.CountedColorAtLimit | Assets/Scripts/Chapters/ChapterEight.cs:61-89 | at depth 50 a ray that still hits something is sky in this job but black in a job without the counter |
| Shading.TracedColorIsJobColor | Assets/Scripts/Chapters/DebugTracerWithoutFocus.cs:129-174 | recording ray segments does not change the colour, and a ray starting at depth `d` records at most `50 - d` segments |
| Camera.GetRay | Assets/Scripts/Structs/CameraFrame.cs:14-17 | the ray starts at the camera origin and passes through the image-plane point at `(s, t)` |
| Camera.GetRayLinear | Assets/Scripts/Structs/CameraFrame.cs:14-17 | the direction at `(s, t)` is the corner direction plus `s` horizontal and `t` vertical spans |
| Camera.FieldOfViewFrame | Assets/Scripts/Structs/CameraFrame.cs:19-28 | the camera sits at the origin, and its image plane at z = -1 spans twice the half height `tan(theta/2)` and twice the half width `aspect` times that |
| Camera.FieldOfViewCentre | Assets/Scripts/Structs/CameraFrame.cs:19-28 | whatever `tan` returns, the image centre looks straight down -z and the two corners are symmetric about it |
| Camera.LookAtFrame | Assets/Scripts/Structs/CameraFrame.cs:30-43 | the camera sits at `lookFrom`, and its plane is spanned by the scaled right and up axes one unit along the view axis |
| Camera.LookAtCentre | Assets/Scripts/Structs/CameraFrame.cs:30-43 | the centre ray of a look-at camera points from `lookFrom` towards `lookAt` |
| Camera.LookAtPlanePerpendicular | Assets/Scripts/Structs/CameraFrame.cs:36-42 | the image plane is perpendicular to the view axis, and its two spanning vectors are perpendicular to each other |
| Camera.DefaultCorners | Assets/Scripts/Structs/CameraFrame.cs:45-52 | the default camera spans directions from (-2, -1, -1) to (2, 1, -1) with its centre straight down -z |
| Extension.Truncate | Assets/Scripts/ExtensionMethods.cs:19-21 | for a non-negative float the conversion to an integer is the floor, so it lies within 1 below the value |
| Extension.ToByte | Assets/Scripts/ExtensionMethods.cs:19-21 | a float in [0, 256) becomes its floor as a byte |
| Extension.ChannelOnUnitInterval | Assets/Scripts/ExtensionMethods.cs:16-23 | a channel in [0, 1] becomes `floor(c * 255.999)` with no wrap-around; black is 0 and full intensity is 255 |
| Extension.ChannelMonotone | Assets/Scripts/ExtensionMethods.cs:16-23 | on [0, 1] a brighter channel never gives a smaller byte |
| Extension.ToRgb24OnUnitCube | Assets/Scripts/ExtensionMethods.cs:16-23 | a colour in the unit cube converts channel by channel, each byte the floor of the scaled channel |
| Extension.OverBrightWraps | Assets/Scripts/ExtensionMethods.cs:18-19 | the cast is not clamped: an over-bright channel of 1.5 comes out as 127, darker than a channel of 1.0 |
| Indexing.RowMajorInverse | Assets/Scripts/Chapters/ChapterSevenAlternate.cs:37-38 | remainder and quotient by the width give back the column and the row of a row-major index |
| Indexing.RowMajorInImage | Assets/Scripts/Chapters/BatchedTracer.cs:82 | every pixel of a `width` by `height` image has an index below `width * height` |
| Indexing.ColumnRowOfIndex | Assets/Scripts/Chapters/ChapterEightProgressive.cs:37-38 | the float computation `y = (index - x) / w` is exactly the row `index / w`, and `y * w + x` is the index again |
| Samples.Mean | Assets/Scripts/Chapters/ChapterEightProgressive.cs:44-48 | scaling the mean of a non-empty list of samples by the count gives back their sum |
| Samples.SumOfAppend | Assets/Scripts/Chapters/ChapterEight.cs:49 | summing two runs of samples one after the other is the sum of the two sums |
| Samples.SumOfConstant | Assets/Scripts/Chapters/ChapterEight.cs:49 | adding the same colour `n` times gives `n` times that colour |
| Render.Run | Assets/Scripts/Chapters/ChapterSeven.cs:30-54 | a job over `k` indices produces exactly `k` pixels |
| Render.RunAt | Assets/Scripts/Chapters/ChapterSeven.cs:34-52 | running further only appends: pixel `k` is what the kernel makes of `k` from the generator the first `k` pixels left |
| Render.RenderedPixel | Assets/Scripts/Chapters/ChapterSeven.cs:34-52 | pixel `(i, j)` is stored at `j * width + i` inside the image and is the shader's value at `(i, j)` under the generator left by every pixel before it in row-major order |
| Render.RenderRows | Assets/Scripts/Chapters/ChapterSeven.cs:34-53 | the nested row and column loops write the shader's pixels in row-major order to the first `width * height` slots and leave the rest of the buffer alone |
| Render.RenderRow | Assets/Scripts/Chapters/ChapterSeven.cs:37-52 | one pass of the inner loop appends row `j` after the rows before it and touches nothing past it |
| Render.RowRunIsRowMajor | Assets/Scripts/Chapters/ChapterSeven.cs:34-52 | after `i` pixels of row `j` the nested loops have produced the row-major run over the first `j * width + i` indices |
| Render.RowsRunIsRowMajor | Assets/Scripts/Chapters/ChapterSeven.cs:34-53 | the first `j` rows are the row-major run over the first `j * width` indices |
| Render.JitterInPixel | Assets/Scripts/Chapters/ChapterSeven.cs:43-44 | the jittered point `((i + r1) / nx, (j + r2) / ny)` lies inside pixel `(i, j)` in both directions |
| Render.JitterDrawsTwice | Assets/Scripts/Chapters/ChapterSeven.cs:43-44 | each sample advances the generator by exactly two draws |
| Render.SamplePixel | Assets/Scripts/Chapters/ChapterSeven.cs:41-48 | the sample loop ends with `col` the sum of the `n` samples, each drawn from where the last left the generator |
| Render.SampledPixel | Assets/Scripts/Chapters/ChapterSeven.cs:40-51 | a pixel is the converted mean of its samples, and the generator is the one the samples left |
| Render.RenderRowsSampled | Assets/Scripts/Chapters/ChapterSeven.cs:30-54 | every pixel of the image is the converted mean of its `n` samples, in row-major order; the rest of the buffer is untouched |
| Render.RenderRowSampled | Assets/Scripts/Chapters/ChapterSeven.cs:37-52 | one row of sampled pixels is appended and nothing past it changes |
| Render.ExecuteSampled | Assets/Scripts/Chapters/ChapterEightProgressive.cs:32-50 | `Execute(index)` writes the sampled pixel of column `index % w`, row `index / w` (after reseeding when the job does) to that index and to no other |
| Render.ExecuteAllSampled | Assets/Scripts/Chapters/ChapterEightProgressive.cs:32-50 | the parallel-for over every index fills the whole buffer with the index shader's pixels |
| Utils.CubeCandidate | Assets/Scripts/Utils.cs:18 | each coordinate of a candidate `2 (x, y, z) - (1, 1, 1)` lies in [-1, 1) |
| Utils.SphereSample | Assets/Scripts/Utils.cs:16-20 | the rejection loop yields a point strictly inside the unit ball |
| Utils.UnitSphereSample | Assets/Scripts/Utils.cs:11-22 | the sample for a generator state lies strictly inside the unit ball, each coordinate in [-1, 1) |
| Utils.RandomInUnitSphere | Assets/Scripts/Utils.cs:11-22 | the do-while loop on a copy of the generator returns the ball sample for the caller's state, strictly inside the unit ball |
| Utils.DiscCandidate | Assets/Scripts/Utils.cs:31 | a candidate `2 (x, y, 0) - (1, 1, 0)` lies in the plane z = 0, in [-1, 1) in x and y |
| Utils.DiscSample | Assets/Scripts/Utils.cs:29-33 | the rejection loop yields a point of the plane z = 0 strictly inside the unit disc |
| Utils.UnitDiscSample | Assets/Scripts/Utils.cs:25-35 | the disc sample for a generator state lies in z = 0 strictly inside the unit disc |
| Utils.RandomInUnitDisk | Assets/Scripts/Utils.cs:25-35 | the loop returns the disc sample for the caller's state, in z = 0 and strictly inside the unit disc |
| Utils.BackgroundEndpoints | Assets/Scripts/Utils.cs:43-48 | straight up the sky is `blueGradient`, straight down it is white |
| Utils.BackgroundBounds | Assets/Scripts/Utils.cs:43-48 | every component of the sky lies between its white and `blueGradient` endpoints |
| Utils.FlipZ | Assets/Scripts/Utils.cs:53-67 | both branches give `z' = originZ - z` and keep x and y |
| Utils.FlipZInvolution | Assets/Scripts/Utils.cs:53-67 | flipping twice about the same origin gives back the input |
| Utils.ReallocateIfNeeded | Assets/Scripts/Utils.cs:69-80 | a buffer of the requested length is kept as it is; otherwise a fresh cleared buffer of the new length replaces it |
| Native.Allocate | Assets/Scripts/Utils.cs:79 | a new buffer is created with the requested length and every element cleared |
| Native.Dispose | Assets/Scripts/HittableArray.cs:51-55 | disposing leaves the handle uncreated, and succeeds exactly when it was created |
| Native.DisposeIfCreated | Assets/Scripts/BatchedTracer.cs:76-81 | the handle ends uncreated; an uncreated handle is left as it is |
| Native.Memory | Assets/Scripts/BatchedTracer.cs:277-279 | the memory a `foreach` over a handle array frees: the buffer of every created handle, and nothing else |
| ClearJob.Execute | Assets/Scripts/Jobs/ClearBufferJob.cs:10-13 | `Execute(index)` clears that index and no other |
| ClearJob.Cleared | Assets/Scripts/Jobs/ClearBufferJob.cs:10-13 | clearing keeps the length of the buffer |
| ClearJob.ClearedPrefix | Assets/Scripts/Jobs/ClearBufferJob.cs:10-13 | after the first `n` indices ran, exactly those are cleared and the rest keep their values |
| ClearJob.ClearedAll | Assets/Scripts/Jobs/ClearBufferJob.cs:6-14 | running every index gives the all-zero buffer |
| ClearJob.ClearIdempotent | Assets/Scripts/Jobs/ClearBufferJob.cs:6-14 | clearing a cleared buffer changes nothing |
| ClearJob.ClearAll | Assets/Scripts/Jobs/ClearBufferJob.cs:6-14 | scheduling the job over the whole buffer leaves every element at its default |
| SphereSets.FourVaryingSize | Assets/Scripts/ExampleSphereSets.cs:9-22 | the scene holds five spheres, the last the radius-100 ground |
| SphereSets.ChapterSixAndSeven | Assets/Scripts/ExampleSphereSets.cs:24-34 | the scene holds two spheres |
| SphereSets.ChapterEight | Assets/Scripts/ExampleSphereSets.cs:36-52 | the scene holds four spheres, the last two metal with fuzziness 0.3 and 0.1 |
| SphereSets.FiveWithDielectric | Assets/Scripts/ExampleSphereSets.cs:55-73 | the scene holds five spheres |
| SphereSets.HollowGlassBall | Assets/Scripts/ExampleSphereSets.cs:67-70 | the two glass surfaces share centre and material (index 1.5); with an exact square root a hit on the negative-radius inner surface has a normal towards the centre, one on the outer surface a normal away from it |
| SphereSets.RandomFloat3 | Assets/Scripts/ExampleSphereSets.cs:125-130 | each component, the product of two draws, lies in [0, 1) |
| SphereSets.GridCandidate | Assets/Scripts/ExampleSphereSets.cs:91-110 | an accepted sphere has radius 0.2, sits at height 0.2 and is more than 0.9 from the compare point; a glass sphere keeps the default refraction index 1 |
| SphereSets.Grid | Assets/Scripts/ExampleSphereSets.cs:87-112 | the grid writes at most one sphere per cell |
| SphereSets.GridPrefix | Assets/Scripts/ExampleSphereSets.cs:87-112 | the spheres of fewer cells are a prefix of the spheres of more cells |
| SphereSets.GridSpheresSmall | Assets/Scripts/ExampleSphereSets.cs:91-110 | every grid sphere has radius 0.2 and keeps more than 0.9 from the compare point |
| SphereSets.RandomSceneSpheres | Assets/Scripts/ExampleSphereSets.cs:81-119 | the scene writes the ground first and the three large spheres last, between 4 and 488 spheres in all |
| SphereSets.FillCell | Assets/Scripts/ExampleSphereSets.cs:91-110 | one cell writes its accepted sphere to the next free slot and nothing else; a write past the end is reported |
| SphereSets.FillRow | Assets/Scripts/ExampleSphereSets.cs:89-111 | the inner loop over `b` writes the accepted spheres of row `a` in order, keeping slot 0 |
| SphereSets.FillGrid | Assets/Scripts/ExampleSphereSets.cs:85-112 | the nested loops write exactly the grid spheres from slot 1 on, or report that they do not fit |
| SphereSets.RandomScene | Assets/Scripts/ExampleSphereSets.cs:75-122 | the scene is built exactly when `n` slots cover every written sphere; then its first slots are the ground, the grid spheres and the three large spheres, and the remaining slots keep the default sphere; otherwise the write past the end throws |
| SphereSets.CellOfLoop | Assets/Scripts/ExampleSphereSets.cs:87-89 | the loop counters `(a, b)` visit the grid cells in order, `a` outer and `b` inner |
| Structs.PointAtParameter | Assets/Scripts/Structs/Ray.cs:18-21 | the point lies `t` directions from the origin |
| Structs.NewMaterial | Assets/Scripts/Structs/Material.cs:12-18 | the constructor stores its type and albedo, with fuzziness 0 and refraction index 1 unless given |
| Randomness.ToUInt | Assets/Scripts/Chapters/BatchedTracer.cs:242 | a value in range is unchanged by the cast to `uint` |
| Randomness.SlotSeed | Assets/Scripts/Chapters/BatchedTracer.cs:242 | the seed of slot `i` is `i + completedSampleCount + 100` when that fits in 32 bits |
| Randomness.SlotSeedNoWrap | Assets/Scripts/Chapters/BatchedTracer.cs:242 | without overflow the seed is the plain sum `slot + completedSampleCount + 100` |
| Randomness.NextUInt | Assets/Scripts/Chapters/ChapterEightProgressive.cs:34 | the value drawn is the state before the step minus 1, with a state of 0 wrapping to 2^32 - 1, and the generator advances by one step |

## Left out

- Texture handling is outside the model. This covers `Texture2D`, `LoadAndApply`, `GetAlbedo` and the texture format, because they belong to Unity's rendering, not to the tracer. The model stops at the pixel buffers.
- `Chapter.GetBuffer` and `Chapter.ScaleTexture` are not part of this model. The texture size is a pair of class fields set when a tracer is set up.
- `Constants.ImageSize` is not part of this model. The model takes the image size as a parameter (`DefaultImageSize` is kept).
- `Combine.ScheduleJob` is not part of this model. The generic batched tracer takes the combine step to be `Combine.GetCombineJob` run to completion.
- The three-argument `CombineJobEight` constructor is not part of this model. Its job is built from its fields.
- `Utils.GetJobCount` is not part of this model. The initial jobs-per-batch count is a constructor parameter.
- `Utils.DielectricScatter` (both overloads) is not part of this model. These are uninterpreted functions in `Shading`. `Shading.JobColorBounded` assumes that their attenuation lies in the unit cube.
- The thin-lens `CameraFrame.GetRay(u, v, random)` and the seven-argument look-at constructor are not part of this model. They are uninterpreted, and `GetChapterElevenCamera`, which needs that constructor, is left out.
- The six-argument `MetalMaterial.Scatter(material, r, rec, random, ...)` that three of the chapter jobs call is not part of this model. Those jobs pass `rec.material`, so the model uses the five-argument overload, which reads `rec.material` itself.
- `ExampleSphereSets.DozenVaryingSizeAndMaterial` is not part of this model. The progressive chapters that draw it take their scene as the `world` parameter of `DrawToTexture` (`NineProgressive.ChapterNineProgressive.DrawToTexture`, `EightProgressive.ChapterEightProgressive.DrawToTexture`).
- The `MaterialType` enum is not part of this model. The model has its three named members plus one case for any other value.
- `HitableArray.GetEnumerator` is not modelled: it is only the C# iteration protocol over `Objects`.
- The finalizers (`~BatchedTracer` and the others) are not modelled, because the garbage collector decides when they run. `Dispose` is modelled.
- The coroutines' time throttle (`cycleTime`, `yield return null`) is not modelled. Neither is the `onBatchComplete` callback, which is outside code. A coroutine is modelled as its sequence of draws.
- Concurrency is not modelled. Jobs run one after another, a parallel-for runs in index order, and `JobHandle` dependencies carry nothing. Several chapters share one generator state across a parallel-for; the model threads it through the indices in order.
- `Utils.SphereSample`: the rejection loop gives up after 2^32 rejected draws and yields the origin. The source loops forever there. The generator state is 32 bits wide, so this bound is never reached unless the generator cycles without ever accepting a point.
- `Utils.DiscSample`: the same bound on the disc's rejection loop.
- `DebugTracer.DebugTracerWithoutFocus.DrawToTexture` requires that the draw's ray segments fit the buffer of 50 per pixel. A pixel can record up to 51 (the primary ray and one per bounce), and the source's write past the end would throw. The model does not follow that path.
- `Tracing.Color`: the extension method `Ray.Scatter` that `RayMath.Color` calls (`Assets/Scripts/RayMath.cs:49`) is not part of this model. It is taken to be `Scatter.Generic`, the one scatter dispatch with that shape. `Tracing.ColorBounded`, `Tracing.ColorKeepsGeneratorWithoutGlass` and `Shading.JobColorMatchesTracer` rest on that.
- `Tracing.ColorBounded`, `Spheres.HitOnSurface` and the other lemmas that assume `SqrtExact()` hold only for an exact square root, not for Unity's float `sqrt`.
- 32-bit float rounding, and the wrap-around of `int` sample counters past 2^31, are not modelled. Counters are unbounded naturals, and the float loop counters of the serial jobs are naturals. The `uint` seed arithmetic does wrap (`Randomness.SlotSeed`).
- Unused fields are not modelled. These are `fieldOfView`, `fuzzinessOne` and `fuzzinessTwo` of `ChapterEight`, and `sphereColor` of `ChapterFive`, which its `Color` never reads.
- `ChapterFive`'s `Color` takes the shading normal from the fixed point (0, 0, -1), whatever `spherePosition` is. The model computes exactly that (`ChapterFive.ShiftedSphereShading`). It is not listed as a finding: for the chapter's default sphere at (0, 0, -1) the two agree, and the source gives no sign that another position was meant.

## Findings

| source | as written | input that shows it | evidently intended | confidence | as-written member | corrected member |
|---|---|---|---|---|---|---|
| Assets/Scripts/Chapters/CombineJobs.cs:70-79 | `CombineJobTwo` (and `CombineJobFour` at 94-103) divides the batch sum plus the weighted old pixel by `8 + n` | two white samples on a fresh image (`n = 0`) give (0.25, 0.25, 0.25) where their mean is white | divide by the batch size plus `n`, so the pixel is the running mean | not executed | Combine.TwoWhiteSamplesMakeQuarterGrey | Combine.MeanPixelRunningMean |
| Assets/Scripts/Chapters/CombineJobs.cs:122-131 | the batch contributes alpha 1 whatever its size, divided by `8 + n` | with 8 inputs and `n = 0` alpha is 1/8, and it stays 1/8 on every later combine | alpha 1 per sample, so an accumulated pixel is opaque | not executed | Combine.AlphaStaysEighth | Combine.MeanPixelAlpha |
| Assets/Scripts/Chapters/ChapterEightProgressive.cs:171-179 | the accumulated pixel is weighted by `n / 2` in float but the divisor uses integer `n / 2` | `batchSampleCount = 1`, `n = 1`, both pixels white: (1 + 0.5) / (1 + 0) = 1.5 per channel | the same weight in numerator and divisor, a weighted mean | not executed | EightProgressive.OddCountOverweighs | EightProgressive.HalfWeightedIsMean |
| Assets/Scripts/Chapters/DebugTracerWithoutFocus.cs:249-256 | under `m_TracerBuffer.IsCreated` the texture buffer is disposed, so the tracer buffer never is, and a created tracer buffer with an uncreated texture buffer throws | a tracer buffer that is created with a texture buffer that is not | dispose each buffer under its own guard | not executed | DebugTracer.DebugTracerWithoutFocus.Dispose | DebugTracer.DebugTracerWithoutFocus.DisposeAsIntended |
