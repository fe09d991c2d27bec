/** The ten-visit sample 10, 12, 12, 15, 18, 20, 22, 25, 28, 30 worked through
    the engine: five classes of width 4 from 10, the observations 15, 20, 25
    and 30 counted in the class below the one whose label starts at them, the
    empty last class dropped, and probabilities that already sum to 1.00;
    then a single observation, which gives a one-row table, and three equal
    observations, which give the repeated-edges error. */
module Scenario {
  import opened Statistics
  import opened Binning
  import opened Tally
  import opened Probability
  import opened FrequencyEngine

  const Visitors: seq<int> := [10, 12, 12, 15, 18, 20, 22, 25, 28, 30]
  const Edges: seq<int> := [10, 15, 20, 25, 30, 34]
  const Laid: seq<Interval> := [Interval(10, 14), Interval(15, 19), Interval(20, 24), Interval(25, 29), Interval(30, 34)]

  /** n = 10, x_min = 10, x_max = 30, R = 20, k = 5, h = 4. */
  lemma ScenarioSummary()
    ensures Min(Visitors) == 10 && Max(Visitors) == 30 && Range(Visitors) == 20
    ensures ClassCount(Visitors) == 5 && Width(Visitors) == 4
  {
    assert forall i :: 0 <= i < |Visitors| ==> 10 <= Visitors[i] <= 30;
    assert Visitors[0] in Visitors && Visitors[9] in Visitors;
    SturgesKOfTen();
  }

  /** The classes 10 - 14, 15 - 19, 20 - 24, 25 - 29, 30 - 34 and their cut
      edges. */
  lemma ScenarioBins()
    ensures SampleBins(Visitors) == Laid
    ensures SampleEdges(Visitors) == Edges
  {
    ScenarioSummary();
    BinsAt(10, 4, 5, 0);
    BinsAt(10, 4, 5, 1);
    BinsAt(10, 4, 5, 2);
    BinsAt(10, 4, 5, 3);
    BinsAt(10, 4, 5, 4);
  }

  /** 15 lies in (10, 15], so it counts in the first class. */
  lemma ScenarioClassify()
    ensures Classify(Edges, 10) == Some(0) && Classify(Edges, 12) == Some(0) && Classify(Edges, 15) == Some(0)
    ensures Classify(Edges, 18) == Some(1) && Classify(Edges, 20) == Some(1)
    ensures Classify(Edges, 22) == Some(2) && Classify(Edges, 25) == Some(2)
    ensures Classify(Edges, 28) == Some(3) && Classify(Edges, 30) == Some(3)
  {
  }

  /** The counts 4, 2, 2, 2, 0, one observation at a time. */
  lemma ScenarioFrequencies()
    ensures Frequencies(Visitors, Edges) == [4, 2, 2, 2, 0]
  {
    assert Visitors[..0] == [];
    ScenarioPrefix3();
    ScenarioPrefix5();
    ScenarioPrefix8();
    ScenarioPrefix10();
    assert Visitors[..10] == Visitors;
  }

  /** The counts after the first 3 observations. */
  lemma ScenarioPrefix3()
    requires Frequencies(Visitors[..0], Edges) == [0, 0, 0, 0, 0]
    ensures Frequencies(Visitors[..3], Edges) == [3, 0, 0, 0, 0]
  {
    var v := Visitors;
    ScenarioStep(v[..0], v[0], 0, [0, 0, 0, 0, 0]);
    assert v[..0] + [v[0]] == v[..1];
    ScenarioStep(v[..1], v[1], 0, [1, 0, 0, 0, 0]);
    assert v[..1] + [v[1]] == v[..2];
    ScenarioStep(v[..2], v[2], 0, [2, 0, 0, 0, 0]);
    assert v[..2] + [v[2]] == v[..3];
  }

  /** The counts after the first 5 observations. */
  lemma ScenarioPrefix5()
    requires Frequencies(Visitors[..3], Edges) == [3, 0, 0, 0, 0]
    ensures Frequencies(Visitors[..5], Edges) == [4, 1, 0, 0, 0]
  {
    var v := Visitors;
    ScenarioStep(v[..3], v[3], 0, [3, 0, 0, 0, 0]);
    assert v[..3] + [v[3]] == v[..4];
    ScenarioStep(v[..4], v[4], 1, [4, 0, 0, 0, 0]);
    assert v[..4] + [v[4]] == v[..5];
  }

  /** The counts after the first 8 observations. */
  lemma ScenarioPrefix8()
    requires Frequencies(Visitors[..5], Edges) == [4, 1, 0, 0, 0]
    ensures Frequencies(Visitors[..8], Edges) == [4, 2, 2, 0, 0]
  {
    var v := Visitors;
    ScenarioStep(v[..5], v[5], 1, [4, 1, 0, 0, 0]);
    assert v[..5] + [v[5]] == v[..6];
    ScenarioStep(v[..6], v[6], 2, [4, 2, 0, 0, 0]);
    assert v[..6] + [v[6]] == v[..7];
    ScenarioStep(v[..7], v[7], 2, [4, 2, 1, 0, 0]);
    assert v[..7] + [v[7]] == v[..8];
  }

  /** The counts after the first 10 observations. */
  lemma ScenarioPrefix10()
    requires Frequencies(Visitors[..8], Edges) == [4, 2, 2, 0, 0]
    ensures Frequencies(Visitors[..10], Edges) == [4, 2, 2, 2, 0]
  {
    var v := Visitors;
    ScenarioStep(v[..8], v[8], 3, [4, 2, 2, 0, 0]);
    assert v[..8] + [v[8]] == v[..9];
    ScenarioStep(v[..9], v[9], 3, [4, 2, 2, 1, 0]);
    assert v[..9] + [v[9]] == v[..10];
  }

  /** One more observation in class j adds one to the j-th count. */
  lemma ScenarioStep(d: seq<int>, x: int, j: nat, before: seq<nat>)
    requires j < |before| == 5 && Frequencies(d, Edges) == before && Classify(Edges, x) == Some(j)
    ensures Frequencies(d + [x], Edges) == before[j := before[j] + 1]
  {
    FrequenciesAppend(d, Edges, x);
  }

  /** The four classes with a visitor count; 30..34 is dropped. */
  const Counted: seq<Class> := [
    Class(Interval(10, 14), 4), Class(Interval(15, 19), 2),
    Class(Interval(20, 24), 2), Class(Interval(25, 29), 2)]

  lemma ScenarioClasses()
    ensures SampleClasses(Visitors) == Counted
  {
    ScenarioBins();
    ScenarioFrequencies();
    ScenarioPrune();
  }

  lemma ScenarioPrune()
    ensures Prune(Classes(Laid, [4, 2, 2, 2, 0])) == Counted
  {
    var last := Class(Interval(30, 34), 0);
    ScenarioPaired();
    PruneDropsEmptyLast(Counted, last);
    PruneKeepsPositive(Counted);
  }

  lemma ScenarioPaired()
    ensures Classes(Laid, [4, 2, 2, 2, 0]) == Counted + [Class(Interval(30, 34), 0)]
  {
  }

  lemma ScenarioEdgesIncrease()
    ensures StrictlyIncreasing(SampleEdges(Visitors))
  {
    ScenarioSummary();
    EdgesUsable(Visitors);
  }

  lemma ScenarioRounded()
    ensures RoundedColumn(Counted, 10) == [40, 20, 20, 20]
  {
    assert Hundredths(4, 10) == 40 && Hundredths(2, 10) == 20;
  }

  lemma ScenarioProbs()
    ensures EdgesAccepted(SampleEdges(Visitors)) && SampleProbs(Visitors) == [40, 20, 20, 20]
  {
    ScenarioEdgesIncrease();
    ScenarioClasses();
    ScenarioRounded();
    ScenarioTotal();
    ReconcileBalanced([40, 20, 20, 20]);
  }

  lemma ScenarioTotal()
    ensures Sum([40, 20, 20, 20]) == 100
  {
    var a, b, c, d := [40], [40, 20], [40, 20, 20], [40, 20, 20, 20];
    assert a[..0] == [] && b[..1] == a && c[..2] == b && d[..3] == c;
    assert Sum(a) == 40 && Sum(b) == 60 && Sum(c) == 80;
  }

  lemma ScenarioRows()
    ensures Rows(Counted, [40, 20, 20, 20]) == [
              Row(1, Interval(10, 14), 4, 40, 40, Interval(1, 40)),
              Row(2, Interval(15, 19), 2, 20, 60, Interval(41, 60)),
              Row(3, Interval(20, 24), 2, 20, 80, Interval(61, 80)),
              Row(4, Interval(25, 29), 2, 20, 100, Interval(81, 100))]
  {
    var p := [40, 20, 20, 20];
    assert p[1..] == [20, 20, 20] && p[1..][1..] == [20, 20] && p[1..][1..][1..] == [20];
    assert Cumulative(p) == [40, 60, 80, 100];
  }

  /** The whole table for the sample. */
  lemma ScenarioTable()
    ensures Table(Visitors) == Ok(Report(Summary(10, 10, 30, 20, 5, 4), [
              Row(1, Interval(10, 14), 4, 40, 40, Interval(1, 40)),
              Row(2, Interval(15, 19), 2, 20, 60, Interval(41, 60)),
              Row(3, Interval(20, 24), 2, 20, 80, Interval(61, 80)),
              Row(4, Interval(25, 29), 2, 20, 100, Interval(81, 100))]))
  {
    ScenarioSummary();
    ScenarioClasses();
    ScenarioProbs();
    ScenarioRows();
  }

  /** A single observation x: one class x - x, whose two equal edges `pd.cut`
      lets through, holding the observation. */
  lemma SingleVisitClasses(x: int)
    ensures SampleBins([x]) == [Interval(x, x)]
    ensures SampleEdges([x]) == [x, x] && EdgesAccepted([x, x])
    ensures SampleClasses([x]) == [Class(Interval(x, x), 1)]
  {
    SingleObservationSummary([x]);
    BinsAt(x, 0, 1, 0);
    assert Classify([x, x], x) == Some(0);
    assert [x][..0] == [];
    assert Frequencies([x], [x, x]) == [1];
    var c := [Class(Interval(x, x), 1)];
    assert Classes([Interval(x, x)], [1]) == c;
    assert c[..0] == [];
  }

  /** Its probability is 1.00, cumulative 1.00, and it draws every random
      number 1 - 100. */
  lemma SingleVisitRows(x: int)
    ensures EdgesAccepted(SampleEdges([x])) && SampleProbs([x]) == [100]
    ensures Rows([Class(Interval(x, x), 1)], [100]) == [Row(1, Interval(x, x), 1, 100, 100, Interval(1, 100))]
  {
    SingleVisitClasses(x);
    assert Hundredths(1, 1) == 100;
    assert RoundedColumn([Class(Interval(x, x), 1)], 1) == [100];
    assert [100][..0] == [];
    ReconcileBalanced([100]);
    assert [100][1..] == [];
    assert Cumulative([100]) == [100];
  }

  /** The whole table for a single observation: one row holding every
      random number. */
  lemma SingleVisitTable(x: int)
    ensures Table([x]) == Ok(Report(Summary(1, x, x, 0, 1, 0),
                                    [Row(1, Interval(x, x), 1, 100, 100, Interval(1, 100))]))
  {
    SingleObservationSummary([x]);
    SingleVisitClasses(x);
    SingleVisitRows(x);
  }

  /** Three equal visits, 7, 7, 7: R = 0 and h = 0 repeat the last cut edge
      over three classes, and `pd.cut` refuses the edges. */
  lemma ScenarioAllEqual()
    ensures Table([7, 7, 7]) == Err(BinEdgesNotUnique)
  {
    assert [7, 7, 7][0] in [7, 7, 7];
    TableOutcome([7, 7, 7]);
  }
}
