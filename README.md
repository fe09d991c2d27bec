# Frequency-distribution engine of the visitor dashboard

The dashboard takes the visitor counts of one region and builds a frequency
distribution (dashboard.py:76-115). It returns:

- The summary statistics: the sample size n, the minimum and maximum, the
  range R, Sturges' class count k and the class width h.
- The frequency table. It has one row per non-empty class: the row number,
  the class interval, its frequency, its probability, the cumulative
  probability, and the random-number interval over 1..100 that a Monte
  Carlo draw uses to pick the row.

This project models that computation for samples of integers. Probabilities
are integer hundredths, so 0.37 is 37 and 1.00 is 100. The modules follow
the steps of the computation:

- `Statistics` (stats.dfy): the extremes, Sturges' k and the width h.
- `Binning` (binning.dfy): the class-building loop, the cut edges, and the
  rule `pd.cut(..., right=True, include_lowest=True)` uses to put a value in
  a class.
- `Tally` (tally.dfy): `value_counts`, and dropping the empty classes.
- `Probability` (probability.dfy): rounding, absorbing the rounding deficit,
  `cumsum`, and the random-number intervals.
- `FrequencyEngine` (engine.dfy):
  - `Table` defines the whole computation as a function.
  - `FrequencyTable` computes it step by step and is proved equal to `Table`.
  - The remaining lemmas state what a successful table satisfies.
- `Scenario` (scenario.dfy): the ten-visit sample 10, 12, 12, 15, 18, 20,
  22, 25, 28, 30, worked out row by row through `Table`; the table of a
  single observation; and the error for 7, 7, 7.

Where the code and its intended reading differ, the model follows the code:

- **Classification follows `pd.cut`, not the labels.** An observation equal to
  the lower edge of class j + 1 is counted in class j, whose label ends one
  below it. In the sample, 15, 20, 25 and 30 each land one class lower than
  their labels suggest (`ClassifyLowerEdgeOfNext`, `ScenarioClassify`).
- **Two inputs give an error, not a table.**
  - An empty sample fails at `math.log10(0)` (line 80).
  - A sample of two or more observations, all equal, has R = 0 and h = 0.
    The last two cut edges then coincide, and `pd.cut` rejects repeated edges
    (line 93).

  Both are modelled as `Err` outcomes of `Table` (`TableOutcome`), not as
  preconditions.
- **A single observation gives a table.** Then k = 1 and there are only two
  edges, x and x. `pd.cut` checks edges for repeats only when there are more
  than two, so it lets these through and puts x in the one class x - x. The
  table has one row with probability 1.00, cumulative 1.00 and random
  numbers 1 - 100 (`SingleVisitTable`).

Sturges' rule is modelled exactly, with no logarithm. `ceil(1 + 3.3 *
log10(n))` is the least k >= 1 with n^33 <= 10^(10 (k - 1)).
`round(2)` (numpy rounds half to even) is computed on the exact fraction
100 * f / total.

## Model

| member | source | states |
|---|---|---|
| Statistics.Min | dashboard.py:78 | x_min is an observation and no observation is smaller |
| Statistics.Max | dashboard.py:78 | x_max is an observation and no observation is larger |
| Statistics.SturgesK | dashboard.py:80 | k >= 1 satisfies Sturges' inequality and k - 1 does not (or k = 1) |
| Statistics.SturgesKLeast | dashboard.py:80 | no class count smaller than k satisfies Sturges' inequality |
| Statistics.SturgesKOfOne | dashboard.py:80 | one observation gives one class |
| Statistics.SturgesKIsOne | dashboard.py:80 | Sturges' rule gives one class exactly when there is one observation |
| Statistics.SturgesKOfTen | dashboard.py:80 | ten observations give ceil(4.3) = 5 classes |
| Statistics.ClassWidth | dashboard.py:81 | h = ceil(R / k) is the least width with k * h >= R |
| Statistics.ClassWidthPositive | dashboard.py:81 | h >= 1 exactly when R >= 1 |
| Binning.Bins | dashboard.py:83-88 | the loop builds exactly k classes |
| Binning.BinsAt | dashboard.py:83-88 | class j is start + j(h + 1) .. start + j(h + 1) + h |
| Binning.BinsContiguous | dashboard.py:83-88 | the first lower edge is the start, each class is h wide, and each next lower edge is the previous upper edge + 1 |
| Binning.BuildBins | dashboard.py:83-88 | the loop yields the k contiguous classes of width h from floor(x_min) |
| Binning.CutEdges | dashboard.py:91 | there are k + 1 cut edges |
| Binning.EdgesIncreasingIff | dashboard.py:81-93 | the cut edges are strictly increasing exactly when h >= 1; with h = 0 the last two coincide |
| Binning.EdgesNonDecreasing | dashboard.py:83-91 | whatever the width, the cut edges never decrease |
| Binning.EdgesDistinctIff | dashboard.py:91-93 | on the cut edges, no repeated edge (the check `pd.cut` makes) is the same as strictly increasing |
| Binning.EdgesAccepted | dashboard.py:93 | for edges that never decrease, as the loop's do, `pd.cut` accepts a list of exactly two edges, or edges without repeats |
| Binning.StrictlyIncreasing | dashboard.py:91-93 | each edge is below every later edge |
| Binning.EdgesSpan | dashboard.py:88-91 | the edges run from the start to start + k h + k - 1 |
| Binning.CountBelow | dashboard.py:93 | searchsorted(x) counts at most all the edges |
| Binning.CountBelowSplits | dashboard.py:93 | on increasing edges, the edges below x are exactly the first searchsorted(x) ones |
| Binning.Classify | dashboard.py:93 | a class index, when there is one, addresses a real class |
| Binning.ClassifyIff | dashboard.py:93 | x is in class j exactly when e_j < x <= e_(j+1), or j = 0 and x = e_0 |
| Binning.ClassifyCovers | dashboard.py:93 | every value from the first to the last edge gets a class |
| Binning.ClassifyLowerEdgeOfNext | dashboard.py:90-93 | the lower edge of class j + 1 is counted in class j, although its label ends below it |
| Tally.Sum | dashboard.py:102 | `prob_rounded.sum()`: a column's sum; `SumUpdate`, `SumAtMost` and `SumConcat` state how it changes |
| Tally.FreqSum | dashboard.py:99 | `freq_table["Frekuensi"].sum()`: the total of the frequency column, never negative |
| Tally.Frequencies | dashboard.py:93-94 | one count per class |
| Tally.FrequenciesAppend | dashboard.py:93-94 | one more observation adds one to the count of its class, if it has a class |
| Tally.CountIn | dashboard.py:93-94 | the reference count of one class is at most n |
| Tally.FrequenciesCount | dashboard.py:93-94 | each count is the number of observations classified into that class |
| Tally.FrequenciesSum | dashboard.py:93-94 | the counts sum to at most n, and to n when every observation has a class |
| Tally.Classes | dashboard.py:94-95 | one entry per class |
| Tally.FreqSumClasses | dashboard.py:94-95 | pairing counts with their classes keeps their sum |
| Tally.Prune | dashboard.py:96 | only positive counts remain, no more entries than before, and the frequency sum is kept |
| Tally.PruneMembers | dashboard.py:96 | an entry remains exactly when it was there with a positive count |
| Tally.PruneFromClasses | dashboard.py:96 | each remaining entry is one of the classes with its count |
| Tally.PruneKeepsCounted | dashboard.py:96 | each class with a positive count remains |
| Tally.PruneKeepsPositive | dashboard.py:96 | a table with no empty class is unchanged |
| Tally.PruneDropsEmptyLast | dashboard.py:96 | an empty last class is dropped |
| Tally.PruneAscending | dashboard.py:94-96 | dropping entries keeps ascending class order |
| Tally.BinsAscending | dashboard.py:83-94 | the classes are ascending and do not overlap |
| Probability.RoundHalfEven | dashboard.py:101 | the result is within half of num / den, and a tie goes to the even neighbour |
| Probability.Hundredths | dashboard.py:101 | the rounded probability is within half a hundredth of freq / total |
| Probability.RoundedColumn | dashboard.py:100-101 | one rounded probability per row |
| Probability.RoundedColumnBounds | dashboard.py:100-101 | the rounded column is within half a hundredth per row of 100 * FreqSum / total |
| Probability.RoundingDeficit | dashboard.py:102 | the deficit from 100 is at most half a hundredth per row |
| Probability.FirstArgMax | dashboard.py:104 | idxmax is the first position holding the largest value |
| Probability.Reconcile | dashboard.py:102-106 | the column sums to 100, the first maximum absorbs the deficit, and every other row is unchanged |
| Probability.ReconcileBalanced | dashboard.py:102-103 | a column that already sums to 100 is not changed |
| Probability.RoundedUpWhenTight | dashboard.py:100-101 | when the rounded column overshoots by the full half hundredth per row, every row was a tie rounded up |
| Probability.ReconcileNonNegative | dashboard.py:102-106 | with at most 16 rows no reconciled probability is negative |
| Probability.ReconcileCanTurnNegative | dashboard.py:102-106 | 17 rows are enough for a negative probability: six classes of 79 and eleven of 66 out of 1200 reconcile to -1 in the first row |
| Probability.CumulativeFrom | dashboard.py:109 | the running sum from a start value has one entry per row |
| Probability.Cumulative | dashboard.py:109 | the cumulative column has one entry per row |
| Probability.CumulativeIsPrefixSum | dashboard.py:109 | cumulative entry i is the sum of the first i + 1 probabilities, and adds row i to entry i - 1 |
| Probability.CumulativeLast | dashboard.py:109 | the last cumulative entry is the column sum |
| Probability.CumulativeNonDecreasing | dashboard.py:109 | with no negative probability the cumulative column is non-negative and never decreases |
| Probability.RandomIntervals | dashboard.py:111-115 | one random-number interval per row |
| Probability.RandomIntervalsTile | dashboard.py:111-115 | the intervals start at 1, each continues from the previous one, each holds as many numbers as its probability, and the last ends at 100 |
| Probability.RandomIntervalsDisjoint | dashboard.py:111-115 | with no negative probability the intervals are in order, do not overlap, and lie inside 1..100 |
| Probability.RandomIntervalsCover | dashboard.py:111-115 | every number 1..100 is in the interval of a row whose cumulative value reaches it while no earlier row's does |
| FrequencyEngine.ClassCount | dashboard.py:80 | the sample has at least one class |
| FrequencyEngine.Range | dashboard.py:79 | R = x_max - x_min is never negative |
| FrequencyEngine.Width | dashboard.py:81 | h is the least width whose k classes span R |
| FrequencyEngine.SampleBins | dashboard.py:83-88 | the sample has k classes |
| FrequencyEngine.SampleEdges | dashboard.py:91 | the sample has k + 1 cut edges |
| FrequencyEngine.SampleClasses | dashboard.py:93-96 | at most k classes remain, each with a positive count |
| FrequencyEngine.Table | dashboard.py:76-115 | the whole computation, as a function of the sample; its properties are the `Table...` lemmas |
| FrequencyEngine.Rows | dashboard.py:98-115 | one row per retained class |
| FrequencyEngine.FrequencyTable | dashboard.py:76-115 | the step-by-step computation returns exactly `Table` |
| FrequencyEngine.Tabulate | dashboard.py:93-115 | classifying, counting, pruning and the probability columns give the rows of `Table` |
| FrequencyEngine.AbsorbDeficit | dashboard.py:102-106 | the in-place update is `Reconcile` and the column sums to 100 |
| FrequencyEngine.EdgesUsable | dashboard.py:81-93 | the sample's cut edges are strictly increasing exactly when it has two different values |
| FrequencyEngine.EdgesAcceptedIff | dashboard.py:80-93 | `pd.cut` accepts the sample's edges exactly when it is a single observation or has two different values |
| FrequencyEngine.EdgesUsableFor | dashboard.py:81-93 | the cut edges are strictly increasing exactly when R >= 1 |
| FrequencyEngine.SampleClassified | dashboard.py:81-93 | the last cut edge is at least x_max, and every observation gets a class |
| FrequencyEngine.TotalIsSampleSize | dashboard.py:93-99 | with accepted edges the retained frequencies add up to n |
| FrequencyEngine.SampleProbs | dashboard.py:99-106 | one probability per retained row, and at least one row |
| FrequencyEngine.TableOutcome | dashboard.py:76-93 | an empty sample fails in log10; two or more equal values fail on repeated edges; a single observation or two different values give a table; each both ways |
| FrequencyEngine.TableWhenEdgesRefused | dashboard.py:91-93 | refused edges give the error |
| FrequencyEngine.TableWhenEdgesAccepted | dashboard.py:76-115 | accepted edges give the summary and the rows |
| FrequencyEngine.TableParts | dashboard.py:76-115 | a successful table has accepted edges, its summary, and its rows |
| FrequencyEngine.TableSummary | dashboard.py:77-81 | x_min and x_max bound the sample and belong to it; R = x_max - x_min; k is Sturges' k; h is the least width whose k classes span R; one observation has R = 0, k = 1, h = 0; a larger sample has R >= 1 and h >= 1 |
| FrequencyEngine.SingleObservationSummary | dashboard.py:77-81 | one observation x has x_min = x_max = x, R = 0, k = 1 and h = 0 |
| FrequencyEngine.SampleBounds | dashboard.py:78 | every observation lies between x_min and x_max |
| FrequencyEngine.RangePositive | dashboard.py:79 | R >= 1 exactly when x_min < x_max |
| FrequencyEngine.SampleWidth | dashboard.py:80-81 | with R >= 1, k >= 1 and h >= 1 is the least width that spans R |
| FrequencyEngine.FreqColumnSum | dashboard.py:94-99 | the frequency column sums to the classes' frequency sum |
| FrequencyEngine.TableRows | dashboard.py:94-99 | 1 <= m <= k rows numbered 1..m, each with a positive count, in ascending non-overlapping class order, with counts summing to n |
| FrequencyEngine.SampleRows | dashboard.py:94-99 | the same row facts for any probability column |
| FrequencyEngine.TableRowsAreClasses | dashboard.py:93-98 | each row is one of the k classes, with the number of observations classified into it |
| FrequencyEngine.TableKeepsCountedClasses | dashboard.py:93-98 | every class holding an observation has its row |
| FrequencyEngine.RowsFromClasses | dashboard.py:93-98 | each row built from the pruned classes is a class with its count |
| FrequencyEngine.RowsKeepCounted | dashboard.py:93-98 | every counted class is among the rows built from the pruned classes |
| FrequencyEngine.RowsCumulative | dashboard.py:108-109 | the probability column is kept, and the cumulative column adds each row to the previous one and ends at 100 |
| FrequencyEngine.TableProbabilities | dashboard.py:99-106 | the probabilities sum to 100; every row but the first maximum keeps its rounded value; the first maximum absorbs the deficit |
| FrequencyEngine.TableCumulative | dashboard.py:108-109 | the cumulative column starts at the first probability, adds each row to the previous one and ends at 100 |
| FrequencyEngine.TableRandomIntervals | dashboard.py:111-115 | the random-number intervals start at 1, continue row by row, end at each row's cumulative value, hold as many numbers as the row's probability, and end at 100 |
| FrequencyEngine.RowsRandomIntervals | dashboard.py:111-115 | the random-number interval facts of `TableRandomIntervals`, for any column summing to 100 |
| FrequencyEngine.RowsPartition | dashboard.py:109-115 | with no negative probability the cumulative column never decreases and the intervals are in order, do not overlap, and lie in 1..100 |
| FrequencyEngine.SampleProbsNonNegative | dashboard.py:99-106 | with at most 16 retained classes no probability is negative |
| FrequencyEngine.TablePartition | dashboard.py:99-115 | with at most 16 rows: no negative probability, the cumulative column never decreases, and the intervals are in order, do not overlap, and lie in 1..100 |
| FrequencyEngine.RowsCover | dashboard.py:111-115 | for any column summing to 100, every number 1..100 is drawn by a row whose cumulative value reaches it while no earlier row's does |
| FrequencyEngine.TableCovers | dashboard.py:111-115 | every number 1..100 is drawn by a row whose cumulative value reaches it while no earlier row's does |
| Scenario.ScenarioSummary | dashboard.py:77-81 | the ten-visit sample has x_min = 10, x_max = 30, R = 20, k = 5 and h = 4 |
| Scenario.ScenarioBins | dashboard.py:83-91 | its classes are 10-14, 15-19, 20-24, 25-29 and 30-34, with edges 10, 15, 20, 25, 30, 34 |
| Scenario.ScenarioClassify | dashboard.py:93 | 10, 12, 12 and 15 go to the first class, 18 and 20 to the second, 22 and 25 to the third, 28 and 30 to the fourth |
| Scenario.ScenarioFrequencies | dashboard.py:93-94 | the counts are 4, 2, 2, 2, 0 |
| Scenario.ScenarioClasses | dashboard.py:94-96 | the empty class 30-34 is dropped |
| Scenario.ScenarioProbs | dashboard.py:99-106 | the probabilities are 0.40, 0.20, 0.20, 0.20, already summing to 1.00 |
| Scenario.ScenarioRows | dashboard.py:98-115 | the cumulative column is 40, 60, 80, 100 and the random-number intervals are 1-40, 41-60, 61-80, 81-100 |
| Scenario.ScenarioTable | dashboard.py:76-115 | the whole summary and table for the sample |
| Scenario.ScenarioAllEqual | dashboard.py:79-93 | the three equal visits 7, 7, 7 give the repeated-edges error |
| Scenario.SingleVisitClasses | dashboard.py:83-96 | a single observation x has the one class x - x, the accepted edges x, x, and frequency 1 |
| Scenario.SingleVisitRows | dashboard.py:98-115 | its probability, cumulative value and random-number interval are 100, 100 and 1-100 |
| Scenario.SingleVisitTable | dashboard.py:76-115 | the whole summary and one-row table for a single observation |

## Left out

- The Streamlit page is not modelled: page setup, menu, region selection,
  headings, warnings and table rendering (dashboard.py:7-14, 44-74,
  117-131). It is user interface.
- `load_excel_data` (dashboard.py:19-36) is not modelled. It is file I/O
  through pandas, and its only logic is error display. The sample is a
  parameter of `Table`.
- Column-name normalisation, the exclusion of the id/month/year columns
  (dashboard.py:63-65) and `dropna()` (line 76) are not modelled. They are
  pandas operations on the loaded sheet; the model starts from the cleaned
  list of counts.
- Observations are integers. For non-integer values, `floor(x_min)` and the
  float edges could leave observations without a class. `Classify` returns
  `None` for values outside the edges, but no lemma covers fractional
  samples.
- Floating point is not modelled. Each item is replaced by exact integer
  arithmetic:
  - `math.log10` with the inexact constant 3.3 (line 80) becomes the exact
    Sturges inequality.
  - The float division in `math.ceil(R / k)` (line 81) becomes the exact
    integer ceiling. The float result is exact only while R is below 2^53.
  - Float `round(2)` (lines 101, 106, 109) becomes round-half-to-even on
    exact hundredths. A decimal fraction that is a tie in exact arithmetic
    may not be one in binary floating point.
  - The test `abs(selisih) > 0` (line 103) can be true in floats for a sum
    that is exactly 1.00 in decimal. The model compares exact hundredths.
  - The `astype(int)` truncation of `cum * 100` (line 111) can give, for
    example, 28 for 0.29 in floats. In exact hundredths it is the identity.
- The label strings `"{low} - {high}"` (lines 90, 113-115) are kept as
  integer pairs (`Interval`).
- FrequencyEngine.TablePartition: proved only for at most 16 rows. Every
  sample of up to about 35 000 observations has k <= 16 and so qualifies.
  With 17 or more non-empty classes, reconciliation can make a probability
  negative (`ReconcileCanTurnNegative`). The random-number intervals then
  run backwards and overlap, so the general promise that they partition
  1..100 does not hold.
- FrequencyEngine.SampleProbsNonNegative: proved only for at most 16
  retained classes, for the same reason.
