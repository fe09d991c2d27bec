/** The frequency-distribution engine of dashboard.py:76-115: from a sample of
    integer visitor counts to the summary statistics and the table of classes,
    frequencies, probabilities, cumulative probabilities and random-number
    intervals. */
module FrequencyEngine {
  import opened Statistics
  import opened Binning
  import opened Tally
  import opened Probability

  datatype Result<T, E> = Ok(value: T) | Err(error: E)

  /** The two ways the computation stops with an exception instead of a table. */
  datatype EngineError =
    | EmptySample        // no observation: math.log10(0) fails (dashboard.py:80)
    | BinEdgesNotUnique  // two or more observations, all equal: pd.cut rejects the repeated edges (dashboard.py:93)

  /** n, x_min, x_max, R, k and h. */
  datatype Summary = Summary(n: nat, xMin: int, xMax: int, range: int, k: nat, h: nat)

  /** One table row: No, Interval Jumlah, Frekuensi, Probabilitas and
      Prob. Kumulatif (both in hundredths), and Interval Angka Acak. */
  datatype Row = Row(no: nat, interval: Interval, freq: nat, prob: int, cum: int, random: Interval)

  datatype Report = Report(summary: Summary, rows: seq<Row>)

  /** Sturges' class count for the sample. */
  function ClassCount(data: seq<int>): (k: nat)
    requires |data| > 0
    ensures k >= 1
  {
    SturgesK(|data|)
  }

  /** The range R = x_max - x_min. */
  function Range(data: seq<int>): (r: nat)
    requires |data| > 0
  {
    Max(data) - Min(data)
  }

  /** The class width for the sample. */
  function Width(data: seq<int>): (h: nat)
    requires |data| > 0
    ensures LeastCover(Range(data), ClassCount(data), h)
  {
    ClassWidth(Range(data), ClassCount(data))
  }

  /** The classes laid out from the floor of the minimum (the minimum itself,
      the sample being integers). */
  function SampleBins(data: seq<int>): (bins: seq<Interval>)
    requires |data| > 0
    ensures |bins| == ClassCount(data)
  {
    Bins(Min(data), Width(data), ClassCount(data))
  }

  function SampleEdges(data: seq<int>): (e: seq<int>)
    requires |data| > 0
    ensures |e| == ClassCount(data) + 1
  {
    CutEdges(SampleBins(data))
  }

  /** The non-empty classes with their frequencies, in class order. */
  function SampleClasses(data: seq<int>): (c: seq<Class>)
    requires |data| > 0
    ensures |c| <= ClassCount(data)
    ensures forall i :: 0 <= i < |c| ==> c[i].freq > 0
  {
    Prune(Classes(SampleBins(data), Frequencies(data, SampleEdges(data))))
  }

  /** Numbering the rows 1..m and adding the probability, cumulative and
      random-number columns. */
  function Rows(c: seq<Class>, probs: seq<int>): (rows: seq<Row>)
    requires |probs| == |c|
    ensures |rows| == |c|
  {
    var cum := Cumulative(probs);
    var rnd := RandomIntervals(cum);
    seq(|c|, i requires 0 <= i < |c| =>
      Row(i + 1, c[i].interval, c[i].freq, probs[i], cum[i], rnd[i]))
  }

  /** The cut edges are usable exactly when the sample has two different values. */
  lemma EdgesUsable(data: seq<int>)
    requires |data| > 0
    ensures StrictlyIncreasing(SampleEdges(data)) <==> Min(data) < Max(data)
  {
    EdgesUsableFor(Min(data), Range(data), ClassCount(data));
  }

  /** `pd.cut` accepts the sample's edges exactly when the sample is a single
      observation (two equal edges) or has two different values. */
  lemma EdgesAcceptedIff(data: seq<int>)
    requires |data| > 0
    ensures EdgesAccepted(SampleEdges(data)) <==> |data| == 1 || Min(data) < Max(data)
  {
    EdgesUsable(data);
    SturgesKIsOne(|data|);
  }

  lemma EdgesUsableFor(xMin: int, range: nat, k: nat)
    requires k >= 1
    ensures StrictlyIncreasing(CutEdges(Bins(xMin, ClassWidth(range, k), k))) <==> range >= 1
  {
    ClassWidthPositive(range, k);
    EdgesIncreasingIff(xMin, ClassWidth(range, k), k);
  }

  /** Every observation gets a class (by `Classify` being a function, exactly
      one): the last cut edge is at least x_max, and when the edges are not
      strictly increasing all observations equal the first edge. */
  lemma SampleClassified(data: seq<int>)
    requires |data| > 0
    ensures SampleEdges(data)[ClassCount(data)] >= Max(data)
    ensures forall i :: 0 <= i < |data| ==> Classify(SampleEdges(data), data[i]).Some?
  {
    var k, h := ClassCount(data), Width(data);
    var e := SampleEdges(data);
    EdgesUsable(data);
    EdgesSpan(Min(data), h, k);
    assert k * h + k - 1 >= Range(data);
    forall i | 0 <= i < |data| ensures Classify(e, data[i]).Some? {
      assert data[i] in data;
      if StrictlyIncreasing(e) {
        ClassifyCovers(e, data[i]);
      } else {
        assert data[i] == e[0];
      }
    }
  }

  /** When `pd.cut` accepts the edges every observation gets a class, so the
      retained frequencies add up to the sample size. */
  lemma TotalIsSampleSize(data: seq<int>)
    requires |data| > 0 && EdgesAccepted(SampleEdges(data))
    ensures FreqSum(SampleClasses(data)) == |data|
  {
    var e := SampleEdges(data);
    SampleClassified(data);
    FrequenciesSum(data, e);
    FreqSumClasses(SampleBins(data), Frequencies(data, e));
  }

  /** The reconciled probability column of a sample with usable edges. */
  function SampleProbs(data: seq<int>): (p: seq<int>)
    requires |data| > 0 && EdgesAccepted(SampleEdges(data))
    ensures |p| == |SampleClasses(data)| > 0
  {
    TotalIsSampleSize(data);
    Reconcile(RoundedColumn(SampleClasses(data), |data|))
  }

  /** The whole computation as a function of the sample. */
  function Table(data: seq<int>): (r: Result<Report, EngineError>)
  {
    if |data| == 0 then Err(EmptySample)
    else if !EdgesAccepted(SampleEdges(data)) then Err(BinEdgesNotUnique)
    else
      var summary := Summary(|data|, Min(data), Max(data), Range(data),
                             ClassCount(data), Width(data));
      Ok(Report(summary, Rows(SampleClasses(data), SampleProbs(data))))
  }

  /** dashboard.py:76-115, step by step. */
  method FrequencyTable(data: seq<int>) returns (r: Result<Report, EngineError>)
    ensures r == Table(data)
  {
    if |data| == 0 {
      return Err(EmptySample);
    }
    var n := |data|;
    var xMin, xMax := Min(data), Max(data);
    var range: nat := xMax - xMin;
    var k := SturgesK(n);
    var h := ClassWidth(range, k);
    assert range == Range(data) && k == ClassCount(data) && h == Width(data);
    var bins := BuildBins(xMin, h, k);
    var edges := CutEdges(bins);
    if !EdgesAccepted(edges) {
      TableWhenEdgesRefused(data);
      return Err(BinEdgesNotUnique);
    }
    var rows := Tabulate(data, bins, edges);
    r := Ok(Report(Summary(n, xMin, xMax, range, k, h), rows));
    TableWhenEdgesAccepted(data);
  }

  lemma TableWhenEdgesRefused(data: seq<int>)
    requires |data| > 0 && !EdgesAccepted(SampleEdges(data))
    ensures Table(data) == Err(BinEdgesNotUnique)
  {
  }

  lemma TableWhenEdgesAccepted(data: seq<int>)
    requires |data| > 0 && EdgesAccepted(SampleEdges(data))
    ensures Table(data) == Ok(Report(Summary(|data|, Min(data), Max(data), Range(data), ClassCount(data), Width(data)),
                                     Rows(SampleClasses(data), SampleProbs(data))))
  {
  }

  /** dashboard.py:93-115: classify and count, prune, and add the probability,
      cumulative and random-number columns. */
  method Tabulate(data: seq<int>, bins: seq<Interval>, edges: seq<int>) returns (rows: seq<Row>)
    requires |data| > 0 && bins == SampleBins(data) && edges == SampleEdges(data)
    requires EdgesAccepted(edges)
    ensures rows == Rows(SampleClasses(data), SampleProbs(data))
  {
    var table := Prune(Classes(bins, Frequencies(data, edges)));
    TotalIsSampleSize(data);
    var total := FreqSum(table);
    var probs := RoundedColumn(table, total);
    probs := AbsorbDeficit(probs);
    rows := Rows(table, probs);
  }

  /** dashboard.py:102-106 in place: the deficit 100 - sum is added to the
      first row with the largest rounded value. */
  method AbsorbDeficit(p: seq<int>) returns (q: seq<int>)
    requires |p| > 0
    ensures q == Reconcile(p)
    ensures Sum(q) == 100
  {
    q := p;
    var deficit := 100 - Sum(q);
    if deficit != 0 {
      var idx := FirstArgMax(q);
      q := q[idx := q[idx] + deficit];
    }
  }

  /** The computation fails on an empty sample and on two or more equal
      observations, and succeeds on a single observation and on a sample
      with two different values. */
  lemma TableOutcome(data: seq<int>)
    ensures Table(data) == Err(EmptySample) <==> |data| == 0
    ensures Table(data) == Err(BinEdgesNotUnique) <==> |data| >= 2 && Min(data) == Max(data)
    ensures Table(data).Ok? <==> |data| == 1 || (|data| > 0 && Min(data) < Max(data))
  {
    if |data| > 0 {
      EdgesAcceptedIff(data);
    }
  }

  /** What a successful computation is made of. */
  lemma TableParts(data: seq<int>)
    requires Table(data).Ok?
    ensures |data| > 0 && EdgesAccepted(SampleEdges(data))
    ensures Table(data).value.summary ==
              Summary(|data|, Min(data), Max(data), Range(data), ClassCount(data), Width(data))
    ensures Table(data).value.rows == Rows(SampleClasses(data), SampleProbs(data))
  {
  }

  /** The summary: the extremes of the sample, Sturges' class count, and the
      least width whose k classes span the range; a single observation has
      R = 0, one class and width 0, any larger sample R >= 1 and h >= 1. */
  lemma TableSummary(data: seq<int>)
    requires Table(data).Ok?
    ensures var s := Table(data).value.summary;
            s.n == |data| && s.xMin in data && s.xMax in data &&
            (forall i :: 0 <= i < |data| ==> s.xMin <= data[i] <= s.xMax) &&
            s.range == s.xMax - s.xMin &&
            s.k == SturgesK(|data|) && s.k >= 1 && LeastCover(s.range, s.k, s.h) &&
            (s.n == 1 ==> s.range == 0 && s.k == 1 && s.h == 0) &&
            (s.n >= 2 ==> s.range >= 1 && s.h >= 1)
  {
    TableParts(data);
    EdgesAcceptedIff(data);
    SampleBounds(data);
    RangePositive(data);
    if |data| == 1 {
      SingleObservationSummary(data);
    } else {
      SampleWidth(data);
    }
  }

  /** A single observation is both extremes, with R = 0, k = 1 and h = 0. */
  lemma SingleObservationSummary(data: seq<int>)
    requires |data| == 1
    ensures Min(data) == Max(data) == data[0] && Range(data) == 0
    ensures ClassCount(data) == 1 && Width(data) == 0
  {
    SturgesKOfOne();
  }

  lemma SampleBounds(data: seq<int>)
    requires |data| > 0
    ensures forall i :: 0 <= i < |data| ==> Min(data) <= data[i] <= Max(data)
  {
    forall i | 0 <= i < |data| ensures Min(data) <= data[i] <= Max(data) {
      assert data[i] in data;
    }
  }

  lemma RangePositive(data: seq<int>)
    requires |data| > 0
    ensures Range(data) >= 1 <==> Min(data) < Max(data)
  {
  }

  lemma SampleWidth(data: seq<int>)
    requires |data| > 0 && Range(data) >= 1
    ensures ClassCount(data) >= 1 && Width(data) >= 1
    ensures LeastCover(Range(data), ClassCount(data), Width(data))
  {
    ClassWidthPositive(Range(data), ClassCount(data));
  }

  function FreqColumn(rows: seq<Row>): (f: seq<int>)
  {
    seq(|rows|, i requires 0 <= i < |rows| => rows[i].freq)
  }

  function ProbColumn(rows: seq<Row>): (p: seq<int>)
  {
    seq(|rows|, i requires 0 <= i < |rows| => rows[i].prob)
  }

  lemma {:induction false} FreqColumnSum(c: seq<Class>, probs: seq<int>)
    requires |probs| == |c|
    ensures Sum(FreqColumn(Rows(c, probs))) == FreqSum(c)
  {
    if c != [] {
      var n := |c|;
      FreqColumnSum(c[..n - 1], probs[..n - 1]);
      assert FreqColumn(Rows(c, probs))[..n - 1] == FreqColumn(Rows(c[..n - 1], probs[..n - 1]));
    }
  }

  /** The rows are numbered 1..m with m <= k, in ascending non-overlapping
      class order, each with a positive count, and the frequencies add up to
      the sample size. */
  lemma TableRows(data: seq<int>)
    requires Table(data).Ok?
    ensures var rows := Table(data).value.rows;
            1 <= |rows| <= ClassCount(data) &&
            (forall i :: 0 <= i < |rows| ==> rows[i].no == i + 1 && rows[i].freq > 0) &&
            (forall i, j :: 0 <= i < j < |rows| ==> rows[i].interval.high < rows[j].interval.low) &&
            Sum(FreqColumn(rows)) == |data|
  {
    TableParts(data);
    SampleRows(data, SampleProbs(data));
  }

  /** The row facts of TableRows, for any probability column. */
  lemma SampleRows(data: seq<int>, probs: seq<int>)
    requires |data| > 0 && EdgesAccepted(SampleEdges(data))
    requires |probs| == |SampleClasses(data)|
    ensures var rows := Rows(SampleClasses(data), probs);
            1 <= |rows| <= ClassCount(data) &&
            (forall i :: 0 <= i < |rows| ==> rows[i].no == i + 1 && rows[i].freq > 0) &&
            (forall i, j :: 0 <= i < j < |rows| ==> rows[i].interval.high < rows[j].interval.low) &&
            Sum(FreqColumn(rows)) == |data|
  {
    var f := Frequencies(data, SampleEdges(data));
    TotalIsSampleSize(data);
    BinsAscending(Min(data), Width(data), ClassCount(data), f);
    PruneAscending(Classes(SampleBins(data), f));
    FreqColumnSum(SampleClasses(data), probs);
  }

  /** Each row is one of the k classes with the number of observations that
      fall in it. */
  lemma TableRowsAreClasses(data: seq<int>)
    requires Table(data).Ok?
    ensures var rows := Table(data).value.rows;
            forall i :: 0 <= i < |rows| ==>
              exists j :: 0 <= j < |SampleBins(data)| && rows[i].interval == SampleBins(data)[j] &&
                          rows[i].freq == CountIn(data, SampleEdges(data), j)
  {
    TableParts(data);
    RowsFromClasses(SampleBins(data), SampleEdges(data), data, SampleProbs(data));
  }

  /** Every class holding an observation has its row: the pruning drops
      exactly the empty classes. */
  lemma TableKeepsCountedClasses(data: seq<int>)
    requires Table(data).Ok?
    ensures var rows := Table(data).value.rows;
            forall j :: 0 <= j < |SampleBins(data)| && CountIn(data, SampleEdges(data), j) > 0 ==>
              exists i :: 0 <= i < |rows| && rows[i].interval == SampleBins(data)[j] &&
                          rows[i].freq == CountIn(data, SampleEdges(data), j)
  {
    TableParts(data);
    RowsKeepCounted(SampleBins(data), SampleEdges(data), data, SampleProbs(data));
  }

  /** Each row is one of the classes, with the number of observations in it. */
  lemma RowsFromClasses(bins: seq<Interval>, e: seq<int>, data: seq<int>, probs: seq<int>)
    requires |e| == |bins| + 1
    requires |probs| == |Prune(Classes(bins, Frequencies(data, e)))|
    ensures var rows := Rows(Prune(Classes(bins, Frequencies(data, e))), probs);
            forall i :: 0 <= i < |rows| ==>
              exists j :: 0 <= j < |bins| && rows[i].interval == bins[j] &&
                          rows[i].freq == CountIn(data, e, j)
  {
    var f := Frequencies(data, e);
    var c := Prune(Classes(bins, f));
    var rows := Rows(c, probs);
    forall i | 0 <= i < |rows|
      ensures exists j :: 0 <= j < |bins| && rows[i].interval == bins[j] && rows[i].freq == CountIn(data, e, j)
    {
      PruneFromClasses(bins, f, i);
      var j :| 0 <= j < |bins| && c[i] == Class(bins[j], f[j]);
      FrequenciesCount(data, e, j);
      assert rows[i].interval == bins[j] && rows[i].freq == CountIn(data, e, j);
    }
  }

  /** Each class holding an observation has its row. */
  lemma RowsKeepCounted(bins: seq<Interval>, e: seq<int>, data: seq<int>, probs: seq<int>)
    requires |e| == |bins| + 1
    requires |probs| == |Prune(Classes(bins, Frequencies(data, e)))|
    ensures var rows := Rows(Prune(Classes(bins, Frequencies(data, e))), probs);
            forall j :: 0 <= j < |bins| && CountIn(data, e, j) > 0 ==>
              exists i :: 0 <= i < |rows| && rows[i].interval == bins[j] &&
                          rows[i].freq == CountIn(data, e, j)
  {
    var f := Frequencies(data, e);
    var c := Prune(Classes(bins, f));
    var rows := Rows(c, probs);
    forall j | 0 <= j < |bins| && CountIn(data, e, j) > 0
      ensures exists i :: 0 <= i < |rows| && rows[i].interval == bins[j] && rows[i].freq == CountIn(data, e, j)
    {
      FrequenciesCount(data, e, j);
      PruneKeepsCounted(bins, f, j);
      var i :| 0 <= i < |c| && c[i] == Class(bins[j], f[j]);
      assert rows[i].interval == bins[j] && rows[i].freq == CountIn(data, e, j);
    }
  }

  /** In any rows built from a column summing to 100: the column is the
      probability column, and the cumulative column adds each row to the
      previous one and ends at 100. */
  lemma RowsCumulative(c: seq<Class>, probs: seq<int>)
    requires |probs| == |c| > 0 && Sum(probs) == 100
    ensures ProbColumn(Rows(c, probs)) == probs
    ensures Rows(c, probs)[0].cum == probs[0]
    ensures forall i :: 0 < i < |c| ==> Rows(c, probs)[i].cum == Rows(c, probs)[i - 1].cum + probs[i]
    ensures Rows(c, probs)[|c| - 1].cum == 100
  {
    CumulativeLast(probs);
    CumulativeIsPrefixSum(probs, 0);
    assert Sum(probs[..1]) == probs[0];
    forall i | 0 < i < |c| ensures Cumulative(probs)[i] == Cumulative(probs)[i - 1] + probs[i] {
      CumulativeIsPrefixSum(probs, i);
    }
  }

  /** The probability column sums to exactly 100 hundredths; every row holds
      its own rounded probability except the first row with the largest
      rounded value, which also absorbs the rounding deficit. */
  lemma TableProbabilities(data: seq<int>)
    requires Table(data).Ok?
    ensures var rows := Table(data).value.rows;
            var rounded := RoundedColumn(SampleClasses(data), |data|);
            var top := FirstArgMax(rounded);
            Sum(ProbColumn(rows)) == 100 &&
            (forall i :: 0 <= i < |rows| && i != top ==> rows[i].prob == Hundredths(rows[i].freq, |data|)) &&
            rows[top].prob == Hundredths(rows[top].freq, |data|) + (100 - Sum(rounded))
  {
    TableParts(data);
    RowsCumulative(SampleClasses(data), SampleProbs(data));
  }

  /** The cumulative column adds each row's probability to the previous
      row's cumulative value and ends at 100. */
  lemma TableCumulative(data: seq<int>)
    requires Table(data).Ok?
    ensures var rows := Table(data).value.rows;
            rows[0].cum == rows[0].prob &&
            (forall i :: 0 < i < |rows| ==> rows[i].cum == rows[i - 1].cum + rows[i].prob) &&
            rows[|rows| - 1].cum == 100
  {
    TableParts(data);
    RowsCumulative(SampleClasses(data), SampleProbs(data));
  }

  /** The random-number intervals start at 1, each continues where the
      previous stops and ends at the row's cumulative hundredths, each holds
      as many numbers as the row's probability, and the last ends at 100. */
  lemma TableRandomIntervals(data: seq<int>)
    requires Table(data).Ok?
    ensures var rows := Table(data).value.rows;
            rows[0].random.low == 1 &&
            (forall i :: 0 < i < |rows| ==> rows[i].random.low == rows[i - 1].random.high + 1) &&
            (forall i :: 0 <= i < |rows| ==> rows[i].random.high == rows[i].cum) &&
            (forall i :: 0 <= i < |rows| ==> rows[i].random.high - rows[i].random.low + 1 == rows[i].prob) &&
            rows[|rows| - 1].random.high == 100
  {
    TableParts(data);
    RowsRandomIntervals(SampleClasses(data), SampleProbs(data));
  }

  /** The random-number facts of TableRandomIntervals, for any column summing
      to 100. */
  lemma RowsRandomIntervals(c: seq<Class>, probs: seq<int>)
    requires |probs| == |c| > 0 && Sum(probs) == 100
    ensures var rows := Rows(c, probs);
            rows[0].random.low == 1 &&
            (forall i :: 0 < i < |rows| ==> rows[i].random.low == rows[i - 1].random.high + 1) &&
            (forall i :: 0 <= i < |rows| ==> rows[i].random.high == rows[i].cum) &&
            (forall i :: 0 <= i < |rows| ==> rows[i].random.high - rows[i].random.low + 1 == rows[i].prob) &&
            rows[|rows| - 1].random.high == 100
  {
    RandomIntervalsTile(probs);
  }

  /** Rows built from a non-negative column summing to 100 have a
      non-decreasing cumulative column and random-number intervals in order,
      without overlap, inside 1..100. */
  lemma RowsPartition(c: seq<Class>, probs: seq<int>)
    requires |probs| == |c| > 0 && Sum(probs) == 100
    requires forall t :: 0 <= t < |probs| ==> probs[t] >= 0
    ensures var rows := Rows(c, probs);
            (forall i, j :: 0 <= i <= j < |rows| ==> 0 <= rows[i].cum <= rows[j].cum) &&
            (forall i, j :: 0 <= i < j < |rows| ==> rows[i].random.high < rows[j].random.low) &&
            (forall i :: 0 <= i < |rows| ==> 1 <= rows[i].random.low && rows[i].random.high <= 100)
  {
    var rows := Rows(c, probs);
    forall i, j | 0 <= i <= j < |rows| ensures 0 <= rows[i].cum <= rows[j].cum {
      CumulativeNonDecreasing(probs, i, j);
    }
    forall i, j | 0 <= i < j < |rows| ensures rows[i].random.high < rows[j].random.low {
      RandomIntervalsDisjoint(probs, i, j);
    }
    forall i | 0 <= i < |rows| ensures 1 <= rows[i].random.low && rows[i].random.high <= 100 {
      if i > 0 {
        RandomIntervalsDisjoint(probs, 0, i);
      } else {
        CumulativeLast(probs);
        CumulativeNonDecreasing(probs, 0, |probs| - 1);
      }
    }
  }

  /** With at most 16 retained classes no reconciled probability is negative. */
  lemma SampleProbsNonNegative(data: seq<int>)
    requires |data| > 0 && EdgesAccepted(SampleEdges(data)) && |SampleClasses(data)| <= 16
    ensures forall t :: 0 <= t < |SampleProbs(data)| ==> SampleProbs(data)[t] >= 0
  {
    TotalIsSampleSize(data);
    ReconcileNonNegative(SampleClasses(data), |data|);
  }

  /** With at most 16 rows (so for every sample of up to about 35 000
      observations, which has at most 16 classes) no probability is
      negative, the cumulative column never decreases, and the random-number
      intervals lie in order without overlapping inside 1..100; TableCovers
      shows that together they cover it. */
  lemma TablePartition(data: seq<int>)
    requires Table(data).Ok? && |Table(data).value.rows| <= 16
    ensures var rows := Table(data).value.rows;
            (forall i :: 0 <= i < |rows| ==> rows[i].prob >= 0) &&
            (forall i, j :: 0 <= i <= j < |rows| ==> 0 <= rows[i].cum <= rows[j].cum) &&
            (forall i, j :: 0 <= i < j < |rows| ==> rows[i].random.high < rows[j].random.low) &&
            (forall i :: 0 <= i < |rows| ==> 1 <= rows[i].random.low && rows[i].random.high <= 100)
  {
    TableParts(data);
    SampleProbsNonNegative(data);
    RowsPartition(SampleClasses(data), SampleProbs(data));
  }

  /** Rows built from a column summing to 100 draw every random number
      1..100 in some row: the first whose cumulative value reaches it. */
  lemma RowsCover(c: seq<Class>, probs: seq<int>, v: int)
    requires |probs| == |c| > 0 && Sum(probs) == 100 && 1 <= v <= 100
    ensures exists i :: 0 <= i < |Rows(c, probs)| &&
              Rows(c, probs)[i].random.low <= v <= Rows(c, probs)[i].random.high &&
              forall t :: 0 <= t < i ==> Rows(c, probs)[t].cum < v
  {
    RandomIntervalsCover(probs, v);
    var i :| 0 <= i < |probs| && RandomIntervals(Cumulative(probs))[i].low <= v <= RandomIntervals(Cumulative(probs))[i].high &&
             forall t :: 0 <= t < i ==> Cumulative(probs)[t] < v;
    assert Rows(c, probs)[i].random == RandomIntervals(Cumulative(probs))[i];
    assert forall t :: 0 <= t < i ==> Rows(c, probs)[t].cum == Cumulative(probs)[t];
  }

  /** Every random number 1..100 is drawn by a row: the first row whose
      cumulative value reaches it. */
  lemma TableCovers(data: seq<int>, v: int)
    requires Table(data).Ok? && 1 <= v <= 100
    ensures exists i :: 0 <= i < |Table(data).value.rows| &&
              Table(data).value.rows[i].random.low <= v <= Table(data).value.rows[i].random.high &&
              forall t :: 0 <= t < i ==> Table(data).value.rows[t].cum < v
  {
    TableParts(data);
    RowsCover(SampleClasses(data), SampleProbs(data), v);
  }
}
