# A/B test statistics: a Dafny model

This project models the statistical core of a small A/B-testing toolkit written in
Python. The core has two parts:

- **The analyzer** (`ab_testing_analyzer.py`) loads experiment groups from a decoded
  JSON document. It computes per-group statistics: ARPU with its confidence interval
  from a list of per-conversion revenues, or a binomial conversion rate. It compares
  every unordered pair of groups with a two-sided z-test at a Bonferroni-corrected
  threshold, and summarises the result (best group, number of significant comparisons,
  the set of significant winners).
- **The sample-size calculator** (`sample_size_calculator.py`) fixes its critical values
  at construction. It computes the sample size of a conversion-rate or ARPU test, the
  power of a given sample size, and a table of sample sizes over several lifts.

The model is organised by module:

| module | file | content |
|---|---|---|
| `Wrappers` | `wrappers.dfy` | `Option` and `Result` |
| `Numerics` | `numerics.dfy` | the normal CDF/quantile and square root as parameters, with the properties assumed of them (`Sound`) |
| `Sums` | `sums.dfy` | sums, squared deviations and the unbiased sample variance |
| `Json` | `json.dfy` | decoded JSON values and Python's `isinstance` checks |
| `GroupStats` | `group_stats.dfy` | `calculate_group_stats`, `calculate_conversion_rate_stats` |
| `Pairs` | `pairs.dfy` | `itertools.combinations(range(n), 2)` |
| `Comparison` | `comparison.dfy` | the pairwise comparison loop, `compare_groups_arpu`, `compare_groups_conversion_rate`, `compare_groups` |
| `Summary` | `summary.dfy` | the `summary` block of the saved results and the winner rule |
| `Loader` | `loader.dfy` | the validation in `load_data_from_json` |
| `SampleSize` | `sample_size.dfy` | `SampleSizeCalculator` |

How the model treats the source:

- **Loops stay loops.** The per-group loops, the pairwise loop, the price-count loop, the group loop of the
  loader and the lift loop of the table are `method`s with loop invariants. The per-group
  loops, the pairwise loop and the lift loop are proved to meet a predicate that fixes
  every element of their result (`IsArpuRows`, `IsRateRows`, `IsComparisonTable`, and
  `SingleLift` for each lift of the table). The price-count loop and the loader's loops
  are proved equal to the specification functions `ParseEach`/`Expand`, `ParsedGroup`
  and `Parsed`. The properties of these predicates and functions are proved as lemmas.
- **The per-user array stays an array.** `calculate_group_stats` builds a per-user
  revenue array with `np.zeros` and slice assignment. The model fills a Dafny `array`
  (`GroupStats.RevenueVariance`).
- **Raised exceptions become `Failure` values** naming the reason. The first failing
  group, entry or lift is the one reported.
- **The calculator is a datatype.** `SampleSizeCalculator` only sets its fields in
  `__init__`, so it is modelled as a value.
- **Numbers are exact.** Python floats are Dafny `real`s. `int()` on a float truncates
  toward zero (`SampleSize.Trunc`). `np.ceil` is `SampleSize.Ceil`.
- **The numeric libraries are parameters.** scipy's `norm.cdf`/`norm.ppf` and numpy's
  `sqrt` are the fields of `Numerics.Primitives`. The model only assumes their
  properties in `Numerics.Sound`:
  - the CDF lies in [0, 1], is monotone, and equals 1/2 at 0;
  - the quantile is non-negative from 1/2 upwards;
  - the square root is a non-negative root of non-negative numbers.

Some behaviours of the code differ from what a reader might expect of such a tool; the
model follows the code:

- A comparison's difference is the first group's metric minus the second's. It is not
  the second minus the first, which would read as the second group's advantage.
- The confidence interval of a difference uses the uncorrected `alpha`. Only the
  significance test uses the Bonferroni threshold; the interval is not a simultaneous
  one at the corrected level.
- With fewer than two groups there is no error. The corrected threshold falls back to
  `alpha` and the comparison table is empty.
- A missing `analysis_type` defaults to `'arpu'`. It is not inferred from the shape of
  the first group.
- Sample sizes take a relative lift and use
  `ceil((z_alpha + z_beta)^2 * p(1-p) * (1 + 1/allocation) / effect^2)`, with `p` the
  mean of the two rates. ARPU tests are reduced to conversion-rate tests through
  `arpu / price`. They do not take an absolute effect size, nor a per-group formula of
  the form `ceil(((z_alpha * pooled_se + z_beta * effect_se) / effect)^2)`, nor a
  revenue standard deviation for ARPU.
- The normal quantile and CDF are scipy's library calls, not a rational approximation
  written out in the code.

## Model

| member | source | states |
|---|---|---|
| Numerics.Critical | ab_testing_analyzer.py:141 | the two-sided critical value `ppf(1 - alpha/2)` is non-negative for every `alpha <= 1` |
| Numerics.TwoSidedP | ab_testing_analyzer.py:138 | the p-value `2(1 - cdf(abs z))` lies in [0, 1] and is exactly 1 when z is 0 |
| Sums.SampleVariance | ab_testing_analyzer.py:37 | `np.var(ddof=1)` of two or more values is never negative |
| Json.AsInt | ab_testing_analyzer.py:70 | `isinstance(v, int)` holds exactly for integers and booleans, and yields the integer's value, 1 for `True` and 0 for `False` |
| Json.AsNumber | ab_testing_analyzer.py:299 | `isinstance(v, (int, float))` holds exactly for integers, booleans and floats, agrees with `AsInt` on integers and booleans, and gives a float its own value |
| GroupStats.PaddedRevenues | ab_testing_analyzer.py:33-34 | the per-user array has one entry per user: the revenues first, then zeros |
| GroupStats.PaddingKeepsTotal | ab_testing_analyzer.py:33-37 | padding with zeros keeps the sum, so the mean of the per-user array is the ARPU |
| GroupStats.PaddedSumSqDev | ab_testing_analyzer.py:33-37 | the squared deviations of the per-user array are those of the revenues plus `mean^2` per non-converting user |
| GroupStats.TotalRevenue | ab_testing_analyzer.py:21 | the guarded total is the plain sum of the revenues, also for an empty list |
| GroupStats.RevenueVarianceOf | ab_testing_analyzer.py:30-39 | the variance is the unbiased variance of the per-user array when there are conversions, 0 otherwise, and never negative |
| GroupStats.MeanStandardError | ab_testing_analyzer.py:42 | the standard error is non-negative; its square is `variance / users` when there are users, and it is 0 otherwise |
| GroupStats.SymmetricInterval | ab_testing_analyzer.py:45-47 | the interval is symmetric about its centre with half-width `z * se`, and contains the centre whenever `alpha <= 1` |
| GroupStats.RevenueStatsOf | ab_testing_analyzer.py:10-60 | users, conversions and total are the inputs' own; ARPU and conversion rate are per user (0 without users); the average conversion value is per conversion; the variance is that of the per-user array; the standard error is non-negative with square `variance / users`; the ARPU interval is symmetric and contains the ARPU for `alpha <= 1` |
| GroupStats.CalculateGroupStats | ab_testing_analyzer.py:10-60 | the statistics computed step by step are `RevenueStatsOf` of the inputs |
| GroupStats.RevenueVariance | ab_testing_analyzer.py:31-37 | filling `np.zeros(users)` with the revenues in place and taking the unbiased variance gives the variance of `PaddedRevenues` |
| GroupStats.BinomialStandardError | ab_testing_analyzer.py:77-80 | the binomial standard error is non-negative, positive exactly when there are users and the rate is strictly between 0 and 1, and then its square is `p(1-p)/users` |
| GroupStats.ConversionRateStats | ab_testing_analyzer.py:62-98 | it fails exactly when the count is not a non-negative integer (booleans count as integers); otherwise the statistics satisfy `RateStatsFacts`: users and count copied, the rate `count / users` (0 without users), the binomial standard error of that rate, and the interval `[max(0, rate - z*se), min(1, rate + z*se)]` |
| GroupStats.RateStatsAreSound | ab_testing_analyzer.py:73-89 | the statistics have the rate `count / users` (0 without users), the binomial standard error of the rate, and the clamped interval `[max(0, rate - z*se), min(1, rate + z*se)]`; the standard error is 0 exactly when there are no users or the rate is 0 or 1 or beyond; the lower bound is at least 0 and the upper bound at most 1; for `alpha <= 1` and a count at most the users it contains the rate; with zero standard error and a rate in [0, 1] it collapses to the rate |
| GroupStats.ClampedInterval | ab_testing_analyzer.py:83-89 | the interval is `[max(0, rate - z*se), min(1, rate + z*se)]`; the lower bound is at least 0 and the upper bound at most 1; it contains a rate of [0, 1] when `alpha <= 1`, and collapses to a rate of [0, 1] when the standard error is 0 |
| Pairs.PairsFrom | ab_testing_analyzer.py:126 | the pairs from index `i` on number `(n-i)(n-i-1)/2`, and each is `i <= a < b < n` |
| Pairs.PairsFromSorted | ab_testing_analyzer.py:126 | the pairs are in strictly increasing lexicographic order (so none repeats) |
| Pairs.PairsFromComplete | ab_testing_analyzer.py:126 | every pair `i <= p < q < n` occurs |
| Pairs.Combinations2 | ab_testing_analyzer.py:121-126 | `combinations(range(n), 2)` has `n(n-1)/2` pairs, each with a first index below the second, below `n` |
| Pairs.CombinationsSorted | ab_testing_analyzer.py:126 | the pairs come in strictly increasing lexicographic order |
| Pairs.CombinationsComplete | ab_testing_analyzer.py:126 | every pair `i < j < n` is one of the combinations |
| Comparison.BonferroniAlpha | ab_testing_analyzer.py:121-124 | for two groups or more the threshold times the number of comparisons is `alpha`; otherwise it is `alpha` |
| Comparison.ComparisonCount | ab_testing_analyzer.py:120-124 | the number of pairs is `n(n-1)//2`, and it is positive exactly when there are at least two groups |
| Comparison.ComparePair | ab_testing_analyzer.py:130-160 | names and metrics are copied; the difference is first minus second; the standard error is non-negative with square `se_a^2 + se_b^2`; z is the difference over it, or 0 when it is 0; the p-value is two-sided in z; significance holds exactly when p is below the corrected threshold; the interval is symmetric with half-width `z_crit * se` and contains the difference for `alpha <= 1` |
| Comparison.PairStandardError | ab_testing_analyzer.py:134 | the standard error of a difference is non-negative and its square is the sum of the squared standard errors |
| Comparison.SeDifferenceZero | ab_testing_analyzer.py:134-137 | the difference has zero standard error exactly when both groups do |
| Comparison.ComparePairAntisymmetric | ab_testing_analyzer.py:130-146 | swapping the two groups negates the difference and z, and keeps the standard error, the p-value and the verdict |
| Comparison.EqualMetricsNotSignificant | ab_testing_analyzer.py:131-146 | two groups with equal metrics give difference 0, z 0, p-value 1, and are never significant at a threshold of at most 1 |
| Comparison.PairwiseComparisons | ab_testing_analyzer.py:118-160 | the loop produces one record per combination, in order, each tested at the Bonferroni threshold for the number of groups |
| Comparison.ComparisonTableCoversPairs | ab_testing_analyzer.py:126-160 | in a comparisons table, every pair `i < j` of groups is compared |
| Comparison.CompareGroupsArpu | ab_testing_analyzer.py:100-162 | one row per group, with its name and `RevenueStatsOf` statistics; the comparisons table over the rows' ARPU and standard error |
| Comparison.ConversionsOf | ab_testing_analyzer.py:174-175 | a conversion group yields its count; a revenue list is a JSON array, which the integer check rejects |
| Comparison.CompareGroupsConversionRate | ab_testing_analyzer.py:164-226 | it succeeds exactly when every group's count passes the check, with one row per group and the comparisons table over the rates; on failure it names the first group whose count fails |
| Comparison.CompareGroups | ab_testing_analyzer.py:228-241 | `'arpu'` gives the ARPU analysis; `'conversion_rate'` gives the rate analysis, succeeding exactly when every count passes; a failed rate analysis reports `InvalidConversions` of the first group whose count fails; any other type is rejected, and only then is the type error returned |
| Summary.FirstArgMax | ab_testing_analyzer.py:521 | `idxmax` returns a position holding the maximum, and no earlier position holds it |
| Summary.CountSignificant | ab_testing_analyzer.py:523 | the number of significant comparisons is at most the number of comparisons |
| Summary.CountSignificantIsCardinality | ab_testing_analyzer.py:523 | the count is the number of positions marked significant |
| Summary.CountSignificantZero | ab_testing_analyzer.py:670-671 | the count is zero exactly when no comparison is significant |
| Summary.Summarize | ab_testing_analyzer.py:505-523 | the summary holds the number of groups, a best group with the largest metric and no earlier group equally good, that metric, and the number of significant comparisons |
| Summary.SignificantWinners | ab_testing_analyzer.py:674-679 | the winners are exactly the groups favoured by some significant comparison |
| Summary.NoWinnerIffNoneSignificant | ab_testing_analyzer.py:670-679 | there is no winner exactly when no comparison is significant |
| Summary.WinnersHaveLargerMetric | ab_testing_analyzer.py:674-679 | in a comparisons table with threshold at most 1, a significant comparison compares different metrics, and its favoured group has the strictly larger one |
| Loader.ParseAnalysisType | ab_testing_analyzer.py:270-272 | the type is accepted exactly when it is `'arpu'` or `'conversion_rate'`, and is then the one named |
| Loader.ParseEach | ab_testing_analyzer.py:276-349 | a list parses exactly when every element does, element by element and in order; on failure the error is that of an element before which all succeeded |
| Loader.PriceCountEntry | ab_testing_analyzer.py:316-329 | an entry is accepted exactly when it is a dictionary with a non-negative number `price` and a non-negative integer `count`, and yields them; each error is that of the first failing check, in the loader's order (not a dictionary, `price` or `count` missing, bad price, bad count), and names the group and the entry |
| Loader.Expand | ab_testing_analyzer.py:331 | the expanded list has as many revenues as the counts add up to |
| Loader.ExpandNonNegative | ab_testing_analyzer.py:326-331 | non-negative prices expand to non-negative revenues |
| Loader.ExpandAppend | ab_testing_analyzer.py:331 | expanding two lists of entries one after the other is expanding their concatenation |
| Loader.ExpandSum | ab_testing_analyzer.py:331 | the expanded revenues add up to the sum of `price * count` |
| Loader.AggregatedRevenues | ab_testing_analyzer.py:304-308 | the aggregated format gives `conversion_count` equal non-negative revenues, each times the count equal to the total |
| Loader.AggregatedSum | ab_testing_analyzer.py:304-308 | the aggregated revenues add up to the total revenue when the count is positive, and to 0 otherwise |
| Loader.ParsedRevenues | ab_testing_analyzer.py:291-334 | with both aggregated keys, the group is accepted exactly when the total is a non-negative number and the count a non-negative integer, and yields `AggregatedRevenues` (a bad total is `InvalidTotalRevenue`, reported first; a good total with a bad count is `InvalidConversionCount`); otherwise, with `price_counts`, it is accepted exactly when that is a list whose every entry parses, and yields their in-order `Expand` (a non-list, or the first bad entry, is the error); with neither format it is `MissingRevenueFormat`; revenues are never negative and every error names the group |
| Loader.AggregatedTakesPriority | ab_testing_analyzer.py:295-311 | when both aggregated keys are present, `price_counts` has no effect on the group |
| Loader.BadEntryRejectsGroup | ab_testing_analyzer.py:316-331 | a price-count entry that fails rejects its group, whatever follows it |
| Loader.ParsedGroup | ab_testing_analyzer.py:276-349 | a group is accepted exactly when it is a dictionary with a positive integer `users` and, for ARPU, acceptable revenues (`ParsedRevenues`), or, for conversion rate, an integer `conversions` between 0 and the users; an accepted group has the `name` or the default label and, for ARPU, the revenues of `ParsedRevenues`; each error is the one of the first failing check, in the loader's order, and names the group |
| Loader.Parsed | ab_testing_analyzer.py:259-351 | on success the document is a dictionary with a list `groups`, the type is the one given or `'arpu'`, `alpha` is given or 0.05, and every group parsed in order; it fails exactly when the document shape, the type or some group is invalid; the error is the first failing document check, or else that of the first group that fails |
| Loader.LoadedConversionGroupsHaveStats | ab_testing_analyzer.py:339-349 | every group of a loaded conversion-rate document passes the check of `calculate_conversion_rate_stats` |
| Loader.ExpandPriceCounts | ab_testing_analyzer.py:310-331 | the price-count loop succeeds exactly when every entry is valid, yields the expansion, and otherwise reports the first invalid entry's error |
| Loader.LoadGroup | ab_testing_analyzer.py:276-349 | the body of the group loop computes `ParsedGroup` |
| Loader.LoadDataFromJson | ab_testing_analyzer.py:259-358 | the loader computes `Parsed` of the document: the groups, names, `alpha` and type, or the first error |
| SampleSize.Ceil | sample_size_calculator.py:67 | `ceil(x)` is the least integer at least `x` |
| SampleSize.Trunc | sample_size_calculator.py:70 | `int(x)` rounds toward zero, on both sides of zero |
| SampleSize.NewCalculator | sample_size_calculator.py:14-30 | `alpha` and `beta` complement the confidence level and the power; `z_alpha` is the two-sided critical value at `alpha`, the quantile at `(1 + confidence)/2`; `z_beta` is the quantile at the power; their sum is stored; `z_alpha` is non-negative for a non-negative confidence, and `z_beta` for a power of at least 1/2 |
| SampleSize.PooledVariance | sample_size_calculator.py:60-61 | the pooled variance is non-negative when the pooled rate is in [0, 1], and positive when it lies strictly inside |
| SampleSize.SizeFormulaNonNegative | sample_size_calculator.py:64-67 | the sample-size formula is never negative when the variance is not |
| SampleSize.TreatmentRate | sample_size_calculator.py:57 | the treatment rate exceeds the control rate by `control * lift`, and strictly so for a positive rate and lift |
| SampleSize.TotalSampleSize | sample_size_calculator.py:63-67 | the total is the formula rounded up, and is non-negative when the treatment rate is at most 1 |
| SampleSize.AllocationSplit | sample_size_calculator.py:70-71 | the two arms add up to the total; for a non-negative total and an allocation in (0, 1) the control arm is `total * (1 - allocation)` rounded down and the treatment arm is at least `total * allocation` |
| SampleSize.ExpectedConversions | sample_size_calculator.py:74-75 | for a non-negative size and rate the expected conversions are `size * rate` rounded down, and so not negative |
| SampleSize.Sizing | sample_size_calculator.py:56-91 | the result carries the inputs, the treatment rate, a positive minimum detectable effect equal to `control * lift`, the total size, its split, and both arms' expected conversions |
| SampleSize.SizingBounds | sample_size_calculator.py:67-71 | when the treatment rate is at most 1, the total is non-negative and is split exactly into two non-negative arms, the control arm getting at most `total * (1 - allocation)` |
| SampleSize.ConversionRateSampleSize | sample_size_calculator.py:32-91 | it succeeds exactly for a control rate in (0, 1), a positive lift and an allocation in (0, 1); the errors are checked in that order; on success it is `Sizing` |
| SampleSize.ArpuSampleSize | sample_size_calculator.py:93-142 | it succeeds exactly for a positive ARPU, lift and price, an allocation in (0, 1), and an ARPU below the price; each error case (ARPU, lift, missing price, price, allocation, then the delegate's rate check for an ARPU at or above the price) gives its error, in that order; on success it is the conversion-rate result for `arpu / price` re-labelled as ARPU, with the ARPU details |
| SampleSize.ArpuRatesAgree | sample_size_calculator.py:122-140 | the ARPU conversion rates it reports are the rates the delegate used: the treatment ARPU over the price is the treatment rate |
| SampleSize.PowerStandardError | sample_size_calculator.py:177-179 | the standard error is positive and its square is `variance * (1/n1 + 1/n2)` |
| SampleSize.Power | sample_size_calculator.py:181-185 | the power lies in [0, 1], and is at least 1/2 once `effect / se` reaches `z_alpha` |
| SampleSize.PowerMonotone | sample_size_calculator.py:181-185 | at a fixed standard error, a larger effect never has less power |
| SampleSize.RatePower | sample_size_calculator.py:165-196 | the rate branch reports the inputs, the treatment rate, an effect `control * lift`, a positive standard error over the split arms, and its power |
| SampleSize.PowerAnalysis | sample_size_calculator.py:144-221 | a conversion-rate test gives the rate branch; an ARPU test without price is an error; an ARPU test gives the rate branch at `arpu / price`, re-labelled, with the ARPU details and a power in [0, 1]; any other type returns `None` |
| SampleSize.SampleSizeTable | sample_size_calculator.py:223-265 | the table succeeds exactly when every lift can be sized; it then holds the inputs and one result per lift, in order; otherwise it reports the error of the first lift that fails |

## Left out

- File handling is not modelled: opening the file, `json.load`, the re-raised `FileNotFoundError` and the `JSONDecodeError` message. The loader starts from a decoded `Json.Value`. Every validation error is wrapped once as `LoadError`, the model of the catch-all `ValueError("Error loading JSON file: ...")`; the message text is not modelled.
- Printing, the command-line entry points, `create_json_template`, the writing of the results file, the `confidence_level` string and the `to_dict('records')` tables are presentation and are not modelled. Only the `summary` block and the winner set are.
- Floating-point rounding, NaN and infinities are not modelled: numbers are exact reals.
- scipy's `norm.cdf` and `norm.ppf` and numpy's `sqrt` are not computed. They are parameters constrained by `Numerics.Sound`.
- `Numerics.Sound` also states that the square root is positive on positive numbers and 0 at 0. Both follow from the other square-root axioms, and are stated because the solver does not derive them reliably.
- GroupStats.RevenueStatsOf: requires the revenue list to be empty, or to have at most `users` entries with at least two users. The source does not check this. With more revenues than users, numpy fails to broadcast; with one user, `ddof=1` divides by zero.
- Comparison.CompareGroupsArpu: requires every group to satisfy that condition. The loader does not guarantee it, because it accepts a `conversion_count` above `users` for ARPU groups.
- Comparison.CompareGroups: requires ARPU groups for the `'arpu'` type. The source passes whatever it is given to `calculate_group_stats`.
- The significance level the loader returns stays the raw JSON value (`Loaded.alpha`). Its conversion to the real the comparisons take is not modelled, and neither does the source check it.
- Group names are not checked to be strings by the source; a label is any JSON value (`GroupStats.Label`).
- Summary.Summarize: requires at least one group and at least one comparison. pandas fails on `idxmax` of an empty table and on the missing `Significant` column of an empty comparisons table.
- Summary.SignificantWinners: gives the empty set for an empty comparisons table (fewer than two groups), where pandas raises `KeyError` on the missing `Significant` column; the same holds for Summary.NoWinnerIffNoneSignificant.
- The printed single-winner conclusion and the per-winner details are not modelled; only the set of winners is.
- SampleSize.TotalSampleSize: non-negativity is proved only when the treatment rate is at most 1. The source does not reject a larger treatment rate, and then the pooled variance and the size can be negative.
- SampleSize.SizeFormula divides by the effect twice instead of once by its square. This is the same real number.
- SampleSize.PowerAnalysis: requires a pooled rate strictly between 0 and 1, two non-empty arms, and a non-zero price for ARPU tests. Otherwise the source takes the square root of a non-positive variance or divides by zero.
- Python's `TypeError` on comparing a missing price with 0 in `calculate_arpu_sample_size` is modelled as the error `PriceMissing`, like the explicit check in `calculate_power_analysis`.
- Summary.Summarize: `best_value` goes through `float()`, which is the identity on reals here.
