# virtual_vs_template, modelled in Dafny

The repository is a micro-benchmark. It asks what a C++ virtual call costs
compared with a template-resolved call to the same kernel. Two programs make
up its core.

`test_LUT.cpp` (with `table_lut.cpp`) is the lookup-table benchmark:
- A kernel holds a table of `M2 * 256` floats: `M2` sub-tables of 256 entries.
- Its score of a code vector adds one entry per sub-table. The entry is chosen
  by the code byte for that position, and a cursor advances 256 entries per step.
- `TVI` fills its table from an `mt19937` seeded with 123 and is called
  through a virtual function.
- `TVt` fills its table from the entropy source. It is called through a
  template, and its score is truncated to `int`.
- Each timed loop calls the kernel `N` times on the same codes and keeps a
  running maximum starting at 0.
- The entry point runs `nrun` trials and stores trial `r` of the virtual path
  at `times[r]` and of the template path at `times[r + nrun]`.
- It then reports the mean and standard deviation of each path over trials
  `1 .. nrun-1`, so the warm-up trial is excluded, and the relative overhead in
  percent.

`test_template.cpp` is the integer variant:
- Both loops add `i ^ j` for `j < M` to an `int` accumulator, then replace the
  accumulator by the kernel's value.
- The `TVt` kernel performs `M2` steps of `a += a | i`.

Modelling choices:
- `float` and `double` are modelled as reals.
- A division is a `Ratio`: a finite value, or `NotFinite` when the divisor is
  zero.
- A C++ `int` in `test_template.cpp` is modelled by its 32-bit two's-complement
  pattern, a `Word` in `[0, 2^32)`. Every addition wraps, and `^` and `|` are
  defined bit by bit.
- The clock readings, the generator's output stream and the entropy draws are
  parameters.

Modules:
- `RealSums` (`sums.dfy`): sums, sums of squares, mean and population variance,
  and the algebra of the one-pass variance formula.
- `TableLut` (`table_lut.dfy`): the `TVI` class and the specification of a
  score (`BlockSum`, `Score`).
- `LutBench` (`test_lut.dfy`): the `TVt` class, the timed loops, `mean`,
  `stddev` and the entry point.
- `TemplateBench` (`test_template.dfy`): the integer kernels and loops.

The table entries lie in `[0, 1]`, closed at 1: `table_lut.cpp:14` divides a
generator output by the generator's largest output, so 1 is reached. The
table is sometimes described as uniform on `[0, 1)`; the model follows the
code (`TableLut.Scale`).

## Model

| member | source | states |
|---|---|---|
| TableLut.Scale | table_lut.cpp:12-14 | an entry is the generator output over the generator's maximum: it lies in [0, 1], is 1 exactly for the maximum output and 0 exactly for output 0 |
| TableLut.TVI.constructor | table_lut.cpp:9-17 | the table has M2 * 256 entries, entry i is the scaled i-th output of the seed-123 stream, and every entry is in [0, 1] |
| TableLut.TVI.F | table_lut.cpp:19-27 | the pointer walk returns Score of the table and the first M2 codes: one entry per sub-table, at offset 256 * i + codes[i]; it reads only in-bounds entries and changes nothing |
| TableLut.ReadIndexInBlock | table_lut.cpp:22-24 | every code byte selects an entry inside its own 256-entry sub-table, so a walk over M2 sub-tables stays below M2 * 256 |
| TableLut.BlockSumIsSumOfLookups | table_lut.cpp:19-27 | the accumulated score is the sum of the entries the codes select |
| TableLut.ZeroCodesReadFirstEntries | table_lut.cpp:19-27 | with all codes 0 the score is the sum of the first entry of each sub-table |
| TableLut.BlockSumInRange | table_lut.cpp:13-14 | with entries in [0, 1], a walk of k steps scores within [0, k] |
| TableLut.BlockSumReadsPrefix | table_lut.cpp:22-23 | only the first M2 codes influence a score |
| TableLut.BlockSumConstant | table_lut.cpp:19-27 | a table whose entries all equal v scores k * v after k steps |
| RealSums.ThreeTimesExample | test_LUT.cpp:83-98 | the times 1, 2, 3 have mean 2 and population variance 2/3 |
| RealSums.DeviationNonNegative | test_LUT.cpp:91-98 | a sum of squared distances is never negative |
| RealSums.DeviationExpand | test_LUT.cpp:92-96 | the squared distances from c add up to sum2 - 2 * c * sum + n * c * c, from the two sums the stddev loop keeps |
| RealSums.VarianceRadicand | test_LUT.cpp:91-98 | sum2 / n - sum * sum / (n * n), with n * n on integers, equals the population variance of a non-empty sequence and is never negative |
| LutBench.Divide | test_LUT.cpp:88 | a division is finite exactly when the divisor is non-zero, and then the quotient times the divisor gives the dividend back |
| LutBench.Subtract | test_LUT.cpp:97 | a difference is finite exactly when both operands are, and adding the subtrahend back gives the minuend |
| LutBench.TruncateToInt | test_LUT.cpp:61 | conversion to int rounds toward zero: the result is within 1 of x on the side of zero |
| LutBench.RunningMaxBounds | test_LUT.cpp:26-34 | the running maximum is >= 0, >= every value, and either 0 or one of the values |
| LutBench.RunningMaxOfRepeats | test_LUT.cpp:25-35 | when every call returns v, the running maximum is max(v, 0), or 0 after no call |
| LutBench.TVt.constructor | test_LUT.cpp:41-51 | the table has M2 * 256 entries, entry i is the i-th draw of uniform_real_distribution(0, 1), and every entry is in [0, 1) |
| LutBench.TVt.F | test_LUT.cpp:54-62 | the walk is TVI's score, truncated toward zero on return; since the entries are draws in [0, 1), that is the floor of the score, in [0, M2], so the conversion to int never leaves the int range |
| LutBench.TruncatedScoreIsFloor | test_LUT.cpp:54-62 | on a table with entries in [0, 1] the int score is the floor of the real score and lies in [0, M2] |
| LutBench.TruncationLosesFraction | test_LUT.cpp:61 | on a table of 0.25 entries the real score is 2.5 but TVt returns 2 |
| LutBench.ProcessVirtual | test_LUT.cpp:25-35 | N calls on the same, never advanced codes, each returning the score; the result is the running maximum from 0, i.e. max(score, 0) |
| LutBench.ProcessTemplate | test_LUT.cpp:68-79 | as ProcessVirtual with TVt's truncated score converted back to float |
| LutBench.Mean | test_LUT.cpp:83-89 | the sum of x[0..n) divided by n: the average for n > 0, not finite exactly when n is 0 |
| LutBench.SquareFitsInt | test_LUT.cpp:97 | for \|n\| <= 46340 the int product n * n does not overflow |
| LutBench.Stddev | test_LUT.cpp:91-98 | for any n whose int square n * n does not overflow, the radicand sum2 / n - sum * sum / (n * n) is the population variance of x[0..n), never negative, for n > 0; not finite for n = 0; 0 for n < 0 |
| LutBench.RadicandCases | test_LUT.cpp:91-98 | the three outcomes of the radicand over the sums of n values, by the sign of n |
| LutBench.PositiveRadicand | test_LUT.cpp:97 | for n > 0 both divisions of the radicand are finite and give the one-pass formula |
| LutBench.NegativeCountRadicand | test_LUT.cpp:92-97 | for n < 0 the loop adds nothing and the radicand is 0 |
| LutBench.Overhead | test_LUT.cpp:154 | the overhead is finite exactly when both means are and the virtual mean is non-zero, and then overhead * mean_virtual = (mean_template - mean_virtual) * 100 |
| LutBench.GenerateCodes | test_LUT.cpp:104-113 | the code buffer holds M2 * N bytes, byte i being the i-th draw |
| LutBench.WarmupTrialsIgnored | test_LUT.cpp:145-153 | the windows times + 1 and times + 1 + nrun that the statistics read leave out both warm-up trials: times buffers differing only at positions 0 and nrun give the same windows, sums and variances |
| LutBench.Trial | test_LUT.cpp:117-142 | a trial's virtual value is the score of the seed-123 table and its template value the floor of the score of this trial's drawn table, both in [0, M2] |
| LutBench.RunTrials | test_LUT.cpp:115-144 | after nrun trials the times buffer is virtual times then template times; every trial yields the same virtual value, and trial r's template value is the floor of its own table's score |
| LutBench.Summarize | test_LUT.cpp:145-155 | means and variances (the values under the square roots of `stddev`) are taken over times[1..nrun) and times[nrun+1..2 * nrun), and the overhead is computed from the two means |
| LutBench.RunBenchmark | test_LUT.cpp:101-157 | the statistics cover the virtual and template times of trials 1..nrun-1 only; every trial's virtual value is the same score, and each template value is the floor of its trial's score |
| TemplateBench.Wrap | test_template.cpp:30 | a 32-bit result differs from the unbounded one by a multiple of 2^32 and is unchanged when already in range |
| TemplateBench.WrapShift | test_template.cpp:30 | adding multiples of 2^32 leaves the 32-bit pattern unchanged |
| TemplateBench.WrapAdd | test_template.cpp:29-31 | wrapping after every addition gives the pattern of the unbounded sum |
| TemplateBench.Xor | test_template.cpp:30 | the exclusive or of two patterns is at most their sum |
| TemplateBench.Or | test_template.cpp:42 | the or of two patterns is at least each operand and at most their sum |
| TemplateBench.BitwiseBelowPower | test_template.cpp:30-42 | neither xor nor or sets a bit above the highest bit of its operands |
| TemplateBench.BitwiseIdentities | test_template.cpp:30-42 | x ^ 0 = x, x ^ x = 0, x \| 0 = x and x \| x = x |
| TemplateBench.ProcessSameKernel | test_template.cpp:24-65 | two kernels that agree on every argument give the same accumulator, so the two loops with identical bodies return the same value for the same kernel |
| TemplateBench.AddXorTerms | test_template.cpp:29-31 | before the i-th call the accumulator grows by the sum over j < M of i ^ j, wrapped at 32 bits |
| TemplateBench.ProcessVirtual | test_template.cpp:24-35 | the loop makes exactly N calls of f, the k-th on the accumulator after k iterations plus the xor sum of index k, and returns the last call's value |
| TemplateBench.OrOfWords | test_template.cpp:42 | the or of two 32-bit patterns is a 32-bit pattern, so `a \| i` in TVt::f is again an int |
| TemplateBench.TVtF | test_template.cpp:40-45 | TVt::f(a) is M2 steps of a := a + (a \| i) for i = 0 .. M2-1, depending on a alone |
| TemplateBench.ProcessTemplate | test_template.cpp:51-65 | the same N calls as ProcessVirtual with TVt's kernel |
| TemplateBench.Trial | test_template.cpp:69-89 | one trial yields the virtual loop's and the template loop's values |
| TemplateBench.RunBenchmark | test_template.cpp:68-92 | all five trials yield the same pair of values, and the pair is equal whenever TVI::f computes what TVt::f computes |

## Left out

- Wall-clock timing (`getmillisecs`, `gettimeofday`) and all `printf`
  reporting are not modelled. The elapsed times of the trials are parameters,
  and the per-trial lines that skip run 0 are output only.
- The `mt19937` engine and the distributions are not modelled.
  - `TVI`'s table is built from a parameter: the engine's output stream for
    seed 123. Every trial passes the same stream.
  - The `random_device` draws of `TVt` and of the code buffer are parameters
    that may differ per trial.
  - The draw of `uniform_int_distribution(0, 255)` is taken as an 8-bit value,
    and that of `uniform_real_distribution(0, 1)` as a real in `[0, 1)`
    (`LutBench.UnitDraws`).
- LutBench.TVt.constructor: the `double` draw stored into a `float` entry may
  round up to 1.0; over the reals the entries stay in `[0, 1)`.
- TableLut.Scale: float rounding is not modelled. A float quotient
  below 1 may round to 1, and `double` draws stored into `float` lose
  precision; over the reals neither happens.
- LutBench.Stddev: returns the value under the square root rather than its
  square root, because square roots are not modelled over the reals. The
  statement is about the radicand: non-negative, the population variance.
  The int product `n * n` overflows (undefined behaviour) for `|n| > 46340`;
  the model requires `n * n` to fit in an int and says nothing beyond.
- LutBench.Divide: an infinity and NaN are merged into `NotFinite`, and the
  sign of a zero is not modelled.
- LutBench.RunBenchmark: `nrun` is a parameter (6 in the source) so that the
  trial protocol is stated for every trial count from 1 to 46341. Above that
  `n * n` in `stddev` overflows an int, so those counts are not modelled.
- `LutBench.N = 10000000` and `TableLut.M2 = 10` take the values of the
  commented-out defines at `test_LUT.cpp:17-22`. `table_lut.h` defines neither.
- TemplateBench.ProcessVirtual: the compile-time iteration count `N`
  (1000000 in the source) is the parameter `n`. The same holds for
  `ProcessTemplate`, `Trial` and `RunBenchmark`.
- TemplateBench.Wrap: C++ signed overflow is undefined behaviour. The model
  gives it the two's-complement wrap-around the benchmark evidently relies on,
  and the printed checksum is the signed reading of the `Word`.
- `tv.h` is not part of this model.
  - It declares `TV`, `TVI` and the constants for `test_template.cpp`.
  - `TVI::f` there is a parameter `Word -> Word`.
  - `M = 100` and `M2 = 10` take the values of the commented-out defines.
- TemplateBench.RunBenchmark: the source constructs a new `TVI` in every trial.
  The model passes one kernel `tvi` to all five trials, so it assumes that each
  construction computes the same pure function. Its claim that all trials agree
  depends on that assumption.
- The virtual-versus-template dispatch mechanism and the performance
  comparison itself are not modelled. Semantically both paths call the same
  kernel, and nothing is stated about speed.
