# python_core analysis engine: a verified Dafny model

This project models the core of the `python_core` data-analysis engine.
That core turns decoded CSV/JSON rows into an analysed dataset, and then offers:

- a quality profile of the dataset;
- filtered, searched and sorted views of its rows;
- four row-cleaning transforms;
- insights (strong correlations, skew, outliers, dominant categories);
- a one-feature linear regression and a feature-importance ranking;
- drift detection against a reference dataset;
- chart data, chart validation, chart recommendations and CSV export.

A row is a Python `dict`. It is modelled as `Rows.Row`: the key order plus a map from keys to cells.
A cell (`Values.Cell`) is `None`, a `str`, a number (held as an exact `real`) or a `bool`.
Python's `==` and hashing treat `True` as `1` and `False` as `0`.
`Values.Key` captures this, and every `set()`, `Counter` and duplicate test in the model compares `Key`s.

The files follow the engine's structure:

| file | module | models |
|---|---|---|
| `types.dfy` | `Types` | the records of `types.py` |
| `values.dfy`, `rows.dfy`, `strings.dfy` | `Values`, `Rows`, `Strings` | cells, `float()`/`str()`, rows, `lower`/`strip`/`re.sub(r'\s+', ' ', …)` |
| `seqs.dfy`, `counting.dfy`, `sorting.dfy`, `stats.dfy` | `Seqs`, `Counting`, `Sorting`, `Stats` | comprehensions, `set()`, `Counter.most_common`, the stable `sorted`, the `statistics` functions |
| `data_utils.dfy` | `DataUtils` | `data_utils.py` |
| `data_processing.dfy` | `DataProcessing` | `data_processing.py`; `DataProcessor` is a class whose methods update its fields |
| `analytics.dfy`, `regression.dfy`, `drift.dfy` | `Analytics`, `Regression`, `Drift` | `analytics.py`: insights; prediction model and feature importance; drift |
| `visualization.dfy` | `Visualization` | the `ChartDataGenerator` operations and `export_chart_data` |

How each kind of source code is modelled:

- The source's loops become methods with loop invariants. Each one is proved equal to a specification function, and the properties are lemmas about that function.
- Pure computations are functions.
- `DataProcessor` keeps the source's mutable state: the search term, the rule list, the sort settings and the cached result.
  - Each setter states its whole new state.
  - Every setter keeps `Valid()`: a cached result is always the query of the current settings.

Where the engine's documentation and its code differ, the model follows the code:

- **Sort direction.** A descending sort puts rows whose sort value is `None` FIRST. `reverse=True` also reverses the `+inf` key (`DataProcessing.MissingSortPosition`).
- **`unique_count`.** It counts distinct present values only. `None` and `''` are excluded.
- **Empty datasets.** Overall and per-column completeness are `0`, not `100`, when there are no cells.

In two places the code evidently does not do what its authors meant (see "## Findings").
There the methods model the code as written, and the intended behaviour is defined and proved beside it:

- **Drift.** The relative change of the mean is a `Drift.Formula`. `AsWritten` divides by the signed reference mean; `Intended` divides by its absolute value. Every drift lemma holds for both.
- **Scatter recommendations.** `RecommendedAsWritten` follows the loop as written; `Recommended` keeps the single scatter plot the comment promises.

## Model

| member | source | states |
|---|---|---|
| `DataUtils.DetectColumnType` | python_core/data_utils.py:15-81 | the loop-based classifier returns `ColumnType`: numeric above 80% numbers, else datetime above 60% date-like, else categorical below 10% and under 20 distinct, else text |
| `DataUtils.AllMissingIsText` | python_core/data_utils.py:26-29 | a column with no present value is text |
| `DataUtils.ColumnTypeIgnoresMissing` | python_core/data_utils.py:26 | `None` and `''` cells do not influence the classification |
| `DataUtils.ColumnTypePermutation` | python_core/data_utils.py:32-79 | the classification depends only on the multiset of values, not their order |
| `DataUtils.AllNumericIsNumeric` | python_core/data_utils.py:32-44 | a column whose present values all parse as finite numbers (at least one) is numeric |
| `DataUtils.NumericThreshold` | python_core/data_utils.py:41-44 | the real ratio test `k/n > 0.8` is exactly `5k > 4n` |
| `DataUtils.DateThreshold` | python_core/data_utils.py:69-72 | the real ratio test `k/n > 0.6` is exactly `5k > 3n` |
| `DataUtils.UniqueThreshold` | python_core/data_utils.py:75-79 | the real ratio test `u/n < 0.1` is exactly `10u < n` |
| `DataUtils.SafeParseNumber` | python_core/data_utils.py:226-243 | `None` and `''` give no number |
| `DataUtils.SafeParseAgrees` | python_core/data_utils.py:226-243 | `safe_parse_number` succeeds exactly on the values the classifier counts as numeric, and returns a number cell's own value |
| `DataUtils.Parsed` | python_core/analytics.py:124-125 | the parsed list has one entry per numeric value |
| `DataUtils.ColumnValues` | python_core/data_utils.py:109 | a column has one cell per row, the row's value under that name or `None` |
| `DataUtils.MissingUniqueBound` | python_core/data_utils.py:111-112 | missing count plus distinct present count never exceeds the number of rows |
| `DataUtils.BuildColumn` | python_core/data_utils.py:109-119 | one pass of the loop builds the column `AnalyzeColumn` describes: each row's value, the detected type, and the missing and distinct counts |
| `DataUtils.AnalyzeDataset` | python_core/data_utils.py:84-131 | the per-column loop computes `Analyze` |
| `DataUtils.AnalyzeShape` | python_core/data_utils.py:95-131 | empty input gives an empty dataset; otherwise one column per key of the first row, in order, each holding every row's value, with the row and column totals set |
| `DataUtils.DetectOutliersSpec` | python_core/data_utils.py:173-196 | the outliers are, in input order, exactly the values outside `[q1 - 1.5 iqr, q3 + 1.5 iqr]`; none for empty input |
| `DataUtils.ConstantHasNoOutliers` | python_core/data_utils.py:186-196 | a constant list has no outliers |
| `DataUtils.OutliersExample` | python_core/data_utils.py:186-196 | `[1, 2, 3, 4, 5]` has fences `(-1, 7)` and no outliers |
| `DataUtils.CorrelationGuards` | python_core/data_utils.py:210-223 | lengths that differ, empty input, or a constant side give correlation `0` |
| `DataUtils.CorrelationSymmetric` | python_core/data_utils.py:199-223 | `corr(x, y) == corr(y, x)` |
| `DataUtils.BasicStatsOrder` | python_core/data_utils.py:246-284 | stats exist iff the input is non-empty; `min <= mean, median <= max`; the five quartile points are ordered, start at min, centre on the median and end at max |
| `DataUtils.BasicStatsSpread` | python_core/data_utils.py:256-260 | deviation and variance are non-negative, zero for one value, and zero exactly when all values are equal |
| `DataUtils.CountOutliers` | python_core/data_utils.py:307-313 | the loop sums each numeric column's outlier count |
| `DataUtils.CountTextIssues` | python_core/data_utils.py:316-326 | the loop counts the text/categorical columns that have a string with surrounding whitespace or a whitespace run |
| `DataUtils.ColumnInfos` | python_core/data_utils.py:343-352 | one info entry per column, in order |
| `DataUtils.GenerateDataProfile` | python_core/data_utils.py:287-358 | the method computes `Profile` |
| `DataUtils.ProfileProps` | python_core/data_utils.py:298-330 | no cells give completeness `0`; no rows give column completeness `0`; text issues are bounded by the textual columns; inconsistent types are `0` |
| `DataUtils.OverviewBounds` | python_core/data_utils.py:298-300 | overall completeness is a percentage in `[0, 100]` |
| `DataUtils.ProfileOfAnalyzed` | python_core/data_utils.py:298-352 | profiling an analysed dataset gives completeness percentages in `[0, 100]`, and a duplicate count equal to rows minus distinct rows |
| `DataUtils.ColumnIconsDistinct` | python_core/data_utils.py:154-170 | each data type has its own icon, and none of them is the fallback icon |
| `Values.Key` | python_core/data_processing.py:218-219 | the hashing representative of a cell is never a bool, keeps missingness, and changes no other cell |
| `Values.ParseFloat` | python_core/data_processing.py:161-170 | `float()` of a string ignores surrounding whitespace and rejects a blank one |
| `Values.Float` | python_core/data_processing.py:194-198 | `float()` rejects `None` and `''`, maps a bool to `0`/`1` and a number to itself |
| `Rows.GetOr` | python_core/data_processing.py:152 | `row.get(k, d)` is the value under `k` when present and `d` otherwise |
| `Rows.Set` | python_core/data_processing.py:252 | `{**row, k: v}` maps `k` to `v`, keeps every other key's value, and keeps key order when `k` exists |
| `Strings.Strip` | python_core/data_processing.py:306 | the stripped text is no longer and neither starts nor ends with whitespace |
| `Strings.StripInfix` | python_core/data_processing.py:306 | the stripped text is the infix of the input that starts right after its leading whitespace |
| `Strings.StripLeading` | python_core/data_processing.py:306 | everything stripped in front of that infix is whitespace |
| `Strings.StripTrailing` | python_core/data_processing.py:306 | everything stripped after that infix is whitespace |
| `Strings.StripUnchanged` | python_core/data_processing.py:306 | a string with no whitespace at either end is its own strip |
| `Strings.CollapseWhitespace` | python_core/data_processing.py:306 | every whitespace run becomes one space and nothing else changes |
| `Strings.CollapseKeepsVisible` | python_core/data_processing.py:306 | collapsing keeps every non-whitespace character, in order |
| `Strings.CollapseUnchanged` | python_core/data_processing.py:306 | a string without whitespace other than single spaces is left as it is |
| `Strings.LowerIdempotent` | python_core/data_processing.py:45 | lowering is idempotent and keeps whitespace where it was |
| `Seqs.DistinctByProps` | python_core/data_processing.py:214-223 | first-occurrence dedup keeps an order-preserving subsequence with one element per key and every key seen |
| `Seqs.PyPrefix` | python_core/analytics.py:48 | `s[:n]` is a prefix of `min(n, len(s))` elements, counted from the end for negative `n` |
| `Counting.MostCommonOrdered` | python_core/visualization.py:117-121 | `most_common()` lists counts in non-increasing order |
| `Counting.MostCommonCovers` | python_core/visualization.py:117-121 | `most_common()` has one entry per distinct value, and every value appears |
| `Counting.MostCommonEntries` | python_core/visualization.py:117-121 | each entry is a value of the list with its true count |
| `Counting.MostCommonSum` | python_core/visualization.py:117-121 | the counts sum to the list's length |
| `Counting.ModeIsMostFrequent` | python_core/data_processing.py:283 | `most_common(1)[0]` is a value of the list whose count no other value exceeds |
| `Sorting.KeyLeTotalOrder` | python_core/data_processing.py:188-198 | the order on sort keys (numbers, then strings, then `+inf`) is a total order |
| `Sorting.SortBy` | python_core/data_processing.py:200-201 | `sorted(..., reverse=...)` returns a permutation, ordered by key, that keeps equal keys in input order |
| `Sorting.SortedStableIsSortBy` | python_core/data_processing.py:200-201 | a sorted, stable rearrangement is the one `sorted` returns |
| `Stats.SpreadZero` | python_core/data_utils.py:258-259 | the sum of squared deviations is non-negative, and zero exactly when all values are equal |
| `Stats.VarianceZero` | python_core/data_utils.py:259 | the sample variance is non-negative, and zero exactly for a constant list |
| `Stats.StdDevPositive` | python_core/analytics.py:96-98 | the sample deviation is positive exactly when the values are not all equal |
| `Stats.MeanBetween` | python_core/data_utils.py:256-262 | the mean lies between min and max |
| `Stats.FivePointsOrdered` | python_core/data_utils.py:264-269 | `min <= q1 <= median <= q3 <= max` |
| `Stats.IqrBounds` | python_core/data_utils.py:189-194 | the fences enclose `[q1, q3]` |
| `Stats.Sorted` | python_core/data_utils.py:186 | `sorted(values)` is an ordered permutation |
| `DataProcessing.SearchedSpec` | python_core/data_processing.py:106-107 | the search keeps, in order, exactly the rows with a non-`None` value whose lowered text contains the term; an empty term keeps all |
| `DataProcessing.ApplyRulesSpec` | python_core/data_processing.py:110-112 | the rules keep, in order, exactly the rows passing every active rule |
| `DataProcessing.EqualsSplitsRows` | python_core/data_processing.py:155-160 | `EQUALS` and `NOT_EQUALS` with the same value split the rows between them |
| `DataProcessing.ComparisonRules` | python_core/data_processing.py:161-170 | `GREATER` holds iff both sides parse and the cell is larger; `GREATER` and `LESS` never both hold; an unparsable cell fails both |
| `DataProcessing.SortedRowsSpec` | python_core/data_processing.py:188-201 | sorting returns a permutation, ordered by the sort key in the chosen direction, and stable |
| `DataProcessing.MissingSortPosition` | python_core/data_processing.py:189-192 | ascending puts `None` values last; descending puts them first |
| `DataProcessing.QuerySpec` | python_core/data_processing.py:101-118 | the filtered view holds exactly the dataset rows that match the search and pass the rules, with no row more often than in the dataset, in dataset order when unsorted |
| `DataProcessing.DataProcessor.constructor` | python_core/data_processing.py:12-24 | a new processor has no search, no rules, no sort column, ascending direction and no cache |
| `DataProcessing.DataProcessor.ApplyAllFilters` | python_core/data_processing.py:101-118 | the loop over the rules caches the query of the current settings |
| `DataProcessing.DataProcessor.FilteredRows` | python_core/data_processing.py:26-31 | returns the query of the current settings, using or filling the cache |
| `DataProcessing.DataProcessor.TotalFilteredRows` | python_core/data_processing.py:33-36 | returns the length of that query |
| `DataProcessing.DataProcessor.SetSearchTerm` | python_core/data_processing.py:38-46 | stores the lowered term, drops the cache, changes nothing else |
| `DataProcessing.DataProcessor.AddFilterRule` | python_core/data_processing.py:48-56 | appends the rule, drops the cache |
| `DataProcessing.DataProcessor.RemoveFilterRule` | python_core/data_processing.py:58-67 | removes the rule at a valid index and drops the cache; an invalid index changes nothing |
| `DataProcessing.DataProcessor.UpdateFilterRule` | python_core/data_processing.py:69-79 | replaces the rule at a valid index and drops the cache; an invalid index changes nothing |
| `DataProcessing.DataProcessor.SetSort` | python_core/data_processing.py:81-91 | stores column and direction, drops the cache |
| `DataProcessing.DataProcessor.ClearAllFilters` | python_core/data_processing.py:93-99 | resets every setting, after which the view is the dataset's rows unchanged |
| `DataProcessing.RemoveDuplicates` | python_core/data_processing.py:204-223 | the loop keeps the first of each group of equal rows |
| `DataProcessing.DeduplicatedSpec` | python_core/data_processing.py:214-223 | the result is an order-preserving subsequence without two equal rows, every input row has an equal one kept, and deduplicating again changes nothing |
| `DataProcessing.FillFalsy` | python_core/data_processing.py:251-254 | filling keeps the number of rows |
| `DataProcessing.FillFalsySpec` | python_core/data_processing.py:250-254 | `row.get(c) or v` keeps truthy values, replaces falsy ones (`None`, `''`, `0`, `False`) by `v`, leaves other keys alone, and is idempotent |
| `DataProcessing.CollectNumbers` | python_core/data_processing.py:258-265 | the loop collects the column's present values that `float()` accepts |
| `DataProcessing.HandleMissingValues` | python_core/data_processing.py:226-289 | the method computes `MissingHandled` for each of the four methods |
| `DataProcessing.MissingRemoveSpec` | python_core/data_processing.py:244-248 | `remove` keeps, in order, exactly the rows whose value is present |
| `DataProcessing.MissingUnchanged` | python_core/data_processing.py:250-289 | an unknown method, `fill` with `None`, `mean` without numbers and `mode` without values return the rows unchanged |
| `DataProcessing.MeanFiller` | python_core/data_processing.py:256-272 | `mean` fills falsy cells with the mean of the parsed values, which lies between their min and max |
| `DataProcessing.ModeFiller` | python_core/data_processing.py:274-287 | `mode` fills falsy cells with a present value of maximal frequency |
| `DataProcessing.StandardizeText` | python_core/data_processing.py:292-312 | one output row per input row |
| `DataProcessing.StandardForm` | python_core/data_processing.py:303-306 | standardised text is lower case, unpadded and single-spaced |
| `DataProcessing.StandardFixed` | python_core/data_processing.py:303-306 | text already in standard form is left as it is |
| `DataProcessing.StandardizeValueSpec` | python_core/data_processing.py:303-307 | only strings change, they come out in standard form, and standardising is idempotent |
| `DataProcessing.StandardizeTextSpec` | python_core/data_processing.py:309-312 | the column's strings are standardised, other keys are untouched, and the transform is idempotent |
| `DataProcessing.RemoveOutliers` | python_core/data_processing.py:315-360 | the method computes `OutliersRemoved` |
| `DataProcessing.InlierCount` | python_core/data_processing.py:349-360 | kept rows plus numeric values outside the fences add up to all rows |
| `DataProcessing.OutliersRemovedSpec` | python_core/data_processing.py:326-360 | keeps rows in order; no numbers keeps all; otherwise keeps exactly the rows whose value is missing, unparsable or within the fences; the rows dropped are exactly as many as `detect_outliers` reports |
| `Analytics.FindColumn` | python_core/analytics.py:257 | `next(...)` finds the first column with the name, or none when no column has it |
| `Analytics.FindColumnDistinct` | python_core/analytics.py:301 | with distinct names, looking a column up by its name finds it |
| `Analytics.CollectPairs` | python_core/analytics.py:58-63 | the loop builds `Pairs` |
| `Analytics.PairsFromRows` | python_core/analytics.py:58-63 | every pair comes from one row where both values parse to it |
| `Analytics.ComparePair` | python_core/analytics.py:57-81 | computes one pair's correlation insight |
| `Analytics.CompareWithLater` | python_core/analytics.py:56-81 | the inner loop over the later columns |
| `Analytics.FindCorrelations` | python_core/analytics.py:50-83 | the outer loop over the numeric columns computes `Correlations` |
| `Analytics.ScanReports` | python_core/analytics.py:53-81 | after any number of rounds of the outer loop, every insight gathered is one that the inner step reports for an earlier and a later numeric column |
| `Analytics.CorrelationInsightSpec` | python_core/analytics.py:65-81 | the test on collected pairs reports at most one insight, and one exactly when there are more than 10 pairs and `abs(r) > 0.7`; it names both columns, has confidence `abs(r) * 100` above 70 and carries `r` and the first 100 pairs |
| `Analytics.PairInsightSpec` | python_core/analytics.py:57-81 | the same for the pairs collected from the rows of two columns |
| `Analytics.CorrelationsSpec` | python_core/analytics.py:50-83 | every correlation insight is the report for two numeric columns, the first listed earlier, from their pairs: more than 10 pairs, `abs(r) > 0.7`, confidence `abs(r) * 100`, the first 100 pairs |
| `Analytics.CorrelationsComplete` | python_core/analytics.py:50-83 | conversely, every pair of numeric columns, the first listed earlier, whose pairs pass the thresholds is reported |
| `Analytics.ScanColumns` | python_core/analytics.py:89-172 | the per-column loop computes `Scanned` |
| `Analytics.SkewInsightSpec` | python_core/analytics.py:89-114 | at most one skew insight per column, for a numeric non-constant column, confidence in `(30, 95]` |
| `Analytics.AnomalyInsightSpec` | python_core/analytics.py:122-142 | a column is reported iff it has outliers, with their exact count, the first ten, and confidence `min(2 * pct, 95)` for `pct` the outliers' share of the values in percent, which lies in `(0, 95]` |
| `Analytics.PatternInsightSpec` | python_core/analytics.py:150-172 | at most one pattern per column, and one exactly when some present value makes up more than half of the present values; for a categorical column it names a most frequent present value, with confidence its percentage, in `(50, 100]` |
| `Analytics.ScannedSpec` | python_core/analytics.py:85-174 | each scan gives at most one insight per column, each about one of the columns |
| `Analytics.ScannedContains` | python_core/analytics.py:85-174 | each scan keeps every insight its columns contribute |
| `Analytics.PatternsComplete` | python_core/analytics.py:150-172 | conversely, every categorical column one of whose present values makes up more than half of them is reported by the pattern scan |
| `Analytics.GenerateInsights` | python_core/analytics.py:25-48 | the method computes `Insights` |
| `Analytics.RankedTop` | python_core/analytics.py:47-48 | the top ten hold `min(10, len(all))` candidates, sorted by confidence, a sub-multiset of the candidates, and none of the rest has higher confidence |
| `Analytics.InsightsSpec` | python_core/analytics.py:32-48 | exactly `min(10, len(all))` insights, by non-increasing confidence, a sub-multiset of all candidates, none left out more confident than one kept |
| `Regression.ModelOf` | python_core/analytics.py:218-245 | the model is a `linear_regression` that records target, feature, slope and intercept, has the line's `R^2` times 100 as accuracy, and predicts `slope * x + intercept` for the first 50 pairs |
| `Regression.Fit` | python_core/analytics.py:204-245 | no model iff the feature values are constant; otherwise the model belongs to the target and feature, predicts its pairs, and is `LeastSquares`: the least-squares slope, the intercept `(Σy - slope*Σx)/n`, and accuracy `R^2 * 100` of that line |
| `Regression.LeastSquaresProps` | python_core/analytics.py:210-223 | a least-squares model's line passes through the means of x and y; its accuracy is at most 100, and 0 for a constant target |
| `Regression.PredictionModel` | python_core/analytics.py:176-245 | a model exists only with features and at least 10 pairs; it uses the first feature, predicts its pairs, and is `LeastSquares` for the pairs of that feature and the target |
| `Regression.PredictionModelFit` | python_core/analytics.py:204-245 | the returned model's line passes through the means of the feature and target values; its accuracy is at most 100, and 0 for a constant target |
| `Regression.Predict` | python_core/analytics.py:226-233 | the loop predicts `slope * x + intercept` for the first 50 pairs |
| `Regression.CreatePredictionModel` | python_core/analytics.py:176-245 | the method computes `PredictionModel` |
| `Regression.FitModel` | python_core/analytics.py:204-245 | the method computes `Fit` |
| `Regression.PredictionModelNone` | python_core/analytics.py:187-213 | no model iff there are no features, fewer than 10 pairs, or constant feature values |
| `Regression.TotalSquaresZero` | python_core/analytics.py:219-220 | the total sum of squares is non-negative, and zero exactly for a constant target |
| `Regression.RSquaredBounds` | python_core/analytics.py:218-223 | `R^2 <= 1`, and `0` for a constant target |
| `Regression.LineThroughMeans` | python_core/analytics.py:215-216 | with that intercept the residuals sum to zero and the line passes through the means |
| `Regression.CalculateFeatureImportance` | python_core/analytics.py:247-284 | the method computes `FeatureImportance` |
| `Regression.ScoreColumns` | python_core/analytics.py:269-280 | the loop computes `Scores` |
| `Regression.ScoresSpec` | python_core/analytics.py:269-280 | an entry is scored exactly for each other numeric column whose parsed values match the target's in number |
| `Regression.FeatureImportanceSpec` | python_core/analytics.py:257-284 | empty for a missing, non-numeric or valueless target; otherwise exactly the scored entries, by non-increasing importance, stable |
| `Regression.ScoredEntry` | python_core/analytics.py:270-280 | each entry names another numeric column, with importance the non-negative absolute correlation, zero against a constant target |
| `Drift.RelativeChange` | python_core/analytics.py:317 | the corrected relative mean change is non-negative |
| `Drift.RelativeChangeProps` | python_core/analytics.py:317 | it is zero iff the means are equal, times the absolute reference mean is the absolute change, is sign-symmetric, and agrees with the code for a positive reference mean |
| `Drift.AsWrittenMissesNegativeMeans` | python_core/analytics.py:317-319 | as written, a negative reference mean yields a negative score that never exceeds a threshold |
| `Drift.AsWrittenExample` | python_core/analytics.py:317 | a mean moving from -10 to -20 scores -1 as written and 1 corrected |
| `Drift.CategoryShiftBounds` | python_core/analytics.py:336-347 | the categorical drift score lies in `[0, 1]` |
| `Drift.CategoryShiftSame` | python_core/analytics.py:336-347 | a distribution has drift `0` against itself |
| `Drift.CategoriesCover` | python_core/analytics.py:336 | the union of categories is duplicate-free and covers both columns |
| `Drift.DistributionShift` | python_core/analytics.py:340-347 | the loop over categories computes `CategoryShift` |
| `Drift.CompareColumn` | python_core/analytics.py:300-356 | the method computes one column's `ColumnDrift` with the relative change as written |
| `Drift.DetectDataDrift` | python_core/analytics.py:286-358 | the method computes `DataDrift` with the relative change as written |
| `Drift.MeanChangeAbove` | python_core/analytics.py:317-319 | a mean change above a threshold of at least 0 needs a non-zero reference mean different from the current one, and as written a positive one |
| `Drift.ColumnDriftSpec` | python_core/analytics.py:300-356 | for either formula: at most one report, and one exactly when the column has a namesake in the reference and either is numeric with numbers on both sides and a mean change above the threshold, or is categorical with present values on both sides and a distribution shift above the threshold; the report names the column, is significant and carries the means and their change, or the shift |
| `Drift.ColumnDriftReported` | python_core/analytics.py:300-356 | a drifting column gets one report, under its own name |
| `Drift.DriftOfSpec` | python_core/analytics.py:297-358 | the loop over the columns yields at most one report per column, each the report of one of them |
| `Drift.DriftOfContains` | python_core/analytics.py:297-358 | the loop keeps every column's report |
| `Drift.DataDriftSpec` | python_core/analytics.py:297-358 | at most one report per column, each the report of one column; every drifting column is reported; with a threshold of 1 or more only numeric drift is reported; as written, a numeric report always has a positive reference mean |
| `Drift.NegativeReferenceMissed` | python_core/analytics.py:317-319 | a numeric column whose reference mean is negative and whose corrected change exceeds the threshold is not reported as written, and is reported when corrected |
| `Drift.ColumnDriftSelf` | python_core/analytics.py:300-356 | a column compared with itself shows no drift, for a threshold of at least 0 |
| `Drift.DriftOfSelf` | python_core/analytics.py:297-358 | columns whose namesakes are themselves show no drift |
| `Drift.NoDriftAgainstItself` | python_core/analytics.py:286-358 | a dataset with distinct column names shows no drift against itself, for either formula |
| `Visualization.PointDict` | python_core/visualization.py:43-48 | the point's dict holds `y` under the y column; `x` under the x column unless the two columns coincide; under the keys `x` and `y` the coordinates, unless a column of that name overwrote them, in which case the value written last |
| `Visualization.PointDictKeys` | python_core/visualization.py:43-48 | its keys are exactly `x`, `y` and the two column names |
| `Visualization.BarChartData` | python_core/visualization.py:23-52 | the loop computes `BarData` |
| `Visualization.LineChartData` | python_core/visualization.py:54-67 | line chart data is bar chart data |
| `Visualization.BarDataSpec` | python_core/visualization.py:35-52 | at most `limit` points, each from a row in the first `limit` with both values and a numeric y |
| `Visualization.ScatterPlotData` | python_core/visualization.py:69-99 | the loop computes `ScatterData` |
| `Visualization.ScatterDataSpec` | python_core/visualization.py:81-99 | at most `limit` points, each from a row in the first `limit` whose x and y both parse |
| `Visualization.ScatterWithinBar` | python_core/visualization.py:81-99 | a scatter plot never has more points than the bar chart of the same columns |
| `Visualization.PieDataEntries` | python_core/visualization.py:112-122 | each slice is the text of a present value with that value's count |
| `Visualization.PieDataCounts` | python_core/visualization.py:112-122 | one slice per distinct value, the counts sum to the number of present values, in non-increasing order |
| `Visualization.ChartColors` | python_core/visualization.py:124-147 | `max(count, 0)` colours cycling through the five base colours |
| `Visualization.GeneratedConfigChecked` | python_core/visualization.py:149-208 | the generator checks nothing: its config validates exactly when it is acceptable for the columns, and a missing x column is refused with the not-found message |
| `Visualization.NamesFind` | python_core/visualization.py:178-180 | a name is listed iff a column by that name is found |
| `Visualization.ValidateChartConfig` | python_core/visualization.py:167-208 | valid exactly when there is no error message |
| `Visualization.ValidateChartConfigSpec` | python_core/visualization.py:177-208 | a config validates iff its x column exists, a non-pie chart names an existing numeric y column, a pie's x is categorical or text, and a scatter's x is numeric; a missing x column is reported first |
| `Visualization.GetRecommendedCharts` | python_core/visualization.py:210-259 | the method computes `RecommendedAsWritten` |
| `Visualization.RecommendBars` | python_core/visualization.py:222-231 | the nested loop computes `Bars` |
| `Visualization.RecommendScatters` | python_core/visualization.py:233-245 | the scatter loop as written: each numeric column with a successor adds one plot until the list holds 5 |
| `Visualization.RecommendPie` | python_core/visualization.py:247-257 | the loop stops at the first categorical column with 2 to 10 distinct values |
| `Visualization.BarsSpec` | python_core/visualization.py:222-231 | one bar chart per categorical and numeric column pair |
| `Visualization.BarsComplete` | python_core/visualization.py:222-231 | every categorical and numeric column pair has its bar chart |
| `Visualization.FirstPieSpec` | python_core/visualization.py:247-257 | at most one pie chart, for the first column of suitable size, and none iff no column suits |
| `Visualization.RecommendedCounts` | python_core/visualization.py:217-259 | with one scatter plot: at most 5 recommendations; exactly one bar chart per pair of the first two categorical and first two numeric columns; one scatter plot iff there are two numeric columns; one pie chart iff a column suits and there is room |
| `Visualization.RecommendedComplete` | python_core/visualization.py:217-259 | with one scatter plot, the list holds every such bar chart, the scatter plot of the first two numeric columns, and the pie chart unless the list is full |
| `Visualization.RecommendedExplained` | python_core/visualization.py:217-259 | with one scatter plot, every recommendation is a bar of a leading categorical and numeric column, the scatter of the first two numeric columns, or a pie of a suitable column |
| `Visualization.RecommendationsValid` | python_core/visualization.py:178-259 | with one scatter plot and distinct non-empty column names, every recommendation passes `validate_chart_config` |
| `Visualization.ScattersAsWrittenClosed` | python_core/visualization.py:233-245 | the scatter loop as written appends the plots of consecutive numeric columns, as many as `ScatterCount` says |
| `Visualization.RecommendedAsWrittenCounts` | python_core/visualization.py:217-259 | as written: at most 5 recommendations; every bar chart of the first two categorical and first two numeric columns; a scatter plot per numeric column with a successor until the list is full, at least one when there are two numeric columns; one pie chart iff a column suits and there is room |
| `Visualization.RecommendedAsWrittenComplete` | python_core/visualization.py:217-259 | as written, the list holds every such bar chart, the scatter plot of each numeric column with its successor as far as the scatter count reaches, and the pie chart unless the list is full |
| `Visualization.RecommendedAsWrittenExplained` | python_core/visualization.py:217-259 | as written, every recommendation is a bar of a leading categorical and numeric column, the scatter of a numeric column with the next one, or a pie of a suitable column |
| `Visualization.RecommendationsAsWrittenValid` | python_core/visualization.py:178-259 | with distinct non-empty column names, every recommendation as written passes `validate_chart_config` |
| `Visualization.ScattersAsWrittenExample` | python_core/visualization.py:233-245 | three numeric columns get two scatter plots as written, one as intended |
| `Visualization.ExportData` | python_core/visualization.py:262-297 | the method computes `ExportChartData`: CSV text, the JSON dump, or the unsupported-format error |
| `Visualization.CollectKeys` | python_core/visualization.py:282-284 | the loop gathers the keys of every item, in order |
| `Visualization.CsvLines` | python_core/visualization.py:289-292 | the header line followed by one line per item |
| `Visualization.Fields` | python_core/visualization.py:291 | one field per header key |
| `Visualization.CsvHeaderMembers` | python_core/visualization.py:282-286 | the header holds exactly the keys of some item (each row's key list; for a `Rows.WellFormed` row, the dictionary's keys) |
| `Visualization.CsvHeaderOrdered` | python_core/visualization.py:286 | the header is strictly sorted, without repeats |
| `Visualization.ExportCsvSpec` | python_core/visualization.py:277-294 | no data gives `""`; for newline-free data the text has exactly one line per item after the header |

## Left out

- `format_bytes` and `debounce` (`data_utils.py`) are not modelled. One formats a size for display; the other schedules calls on a timer.
- JSON serialisation is not modelled:
  - `Dataset.memory_usage` is the uninterpreted `SerializedSize(rows)`;
  - the JSON branch of `export_chart_data` returns the marker `JsonDump` without its text.
- Some Python library calls are uninterpreted functions: `float()`'s literal grammar (`FloatLiteral`), `str()` of a number (`NumText`), `datetime.fromisoformat` (`IsoDateParses`) and the two date regular expressions (`DateTextMatches`). `math.sqrt` is only known to be positive on positive input. Properties that depend on what these return are not stated.
- `Strings.Lower`: only ASCII letters are lowered. Python's `str.lower()` also lowers other letters (`'É'.lower()` is `'é'`).
- `Strings.Strip`: only the ASCII whitespace characters (space, `\t`, `\n`, `\r`, `\v`, `\f` and `\x1c` to `\x1f`) count as whitespace. Python's `str.strip()` also strips Unicode spaces such as `'\xa0'`.
- `Strings.CollapseWhitespace`: the same ASCII whitespace only. Python's `\s` also matches Unicode spaces such as `'\xa0'`.
- Numbers are exact reals. IEEE rounding, infinities and NaN are not modelled. `int` and `float` cells are not told apart.
- Sorting on a column whose keys mix numbers and strings raises `TypeError` in Python. The model orders numbers before strings before `+inf` instead. A string key `"inf"` that `float()` accepts is treated as unparsable.
- `DataUtils.ProfileOfAnalyzed`: duplicate rows are counted by Python equality. This differs from the `json.dumps` text comparison the code uses, which tells `True` from `1` and `1` from `1.0`.
- `Analytics.SkewInsightSpec`: the skewness value and the mean/std shown with it are not related to a closed form. Only the guard conditions and the confidence bounds are stated.
- Insight descriptions (formatted numbers such as `{correlation:.3f}`) are not modelled. Titles are kept as plain concatenations.
- `Regression.RSquaredBounds`: it does not state `R^2 >= 0`. The least-squares optimality of slope and intercept (the residual sum in closed form) is not proved.
- `DataAnalyzer` and `ChartDataGenerator` only read their dataset, so they are modelled as functions and methods taking the dataset (or its columns and rows) as a parameter.
- `main.py`, `example_usage.py` and the package `__init__.py` are not part of this model. `types.py` contributes only its records, as `Types`.

## Findings

| source | as written | input that shows it | evidently intended | confidence | as-written member | corrected member |
|---|---|---|---|---|---|---|
| python_core/analytics.py:317 | `abs(current_mean - ref_mean) / ref_mean` divides by the signed reference mean, so a negative reference mean gives a negative score that never passes the threshold | reference values with mean `-10`, current values with mean `-20`: score `-1`, no drift reported | divide by `abs(ref_mean)`: score `1`, drift reported | not executed | `Drift.AsWrittenMissesNegativeMeans` | `Drift.RelativeChangeProps` |
| python_core/visualization.py:234-245 | the inner `break`, meant to keep a single scatter plot, leaves only the inner loop, so each numeric column adds a scatter plot with its successor | three numeric columns and no categorical ones: two scatter plots | a single scatter plot of the first two numeric columns | not executed | `Visualization.ScattersAsWrittenExample` | `Visualization.RecommendedCounts` |
