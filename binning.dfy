/** Class construction and classification (dashboard.py:83-93): the k classes
    of width h laid out from the floor of the minimum, the k + 1 cut edges
    handed to `pd.cut`, and the rule by which `pd.cut(..., right=True,
    include_lowest=True)` assigns an observation to a class. */
module Binning {

  /** A closed integer interval `low - high`; the label `"{low} - {high}"`. */
  datatype Interval = Interval(low: int, high: int)

  datatype Option<T> = None | Some(value: T)

  /** The k classes of width h that the loop lays out from `start`: each class
      is `lower - lower + h`, and the next one starts at its upper edge + 1. */
  function Bins(start: int, h: nat, k: nat): (bins: seq<Interval>)
    ensures |bins| == k
    decreases k
  {
    if k == 0 then [] else [Interval(start, start + h)] + Bins(start + h + 1, h, k - 1)
  }

  /** Closed form of the j-th class. */
  lemma {:induction false} BinsAt(start: int, h: nat, k: nat, j: nat)
    requires j < k
    ensures Bins(start, h, k)[j] == Interval(start + j * (h + 1), start + j * (h + 1) + h)
    decreases j
  {
    if j > 0 {
      BinsAt(start + h + 1, h, k - 1, j - 1);
      assert start + h + 1 + (j - 1) * (h + 1) == start + j * (h + 1);
    }
  }

  /** The classes start at `start`, each is `h` wide, and each next lower edge
      is the previous upper edge + 1. */
  lemma BinsContiguous(start: int, h: nat, k: nat)
    ensures k > 0 ==> Bins(start, h, k)[0].low == start
    ensures forall j :: 0 <= j < k ==> Bins(start, h, k)[j].high == Bins(start, h, k)[j].low + h
    ensures forall j :: 0 < j < k ==> Bins(start, h, k)[j].low == Bins(start, h, k)[j - 1].high + 1
  {
    var bins := Bins(start, h, k);
    forall j | 0 <= j < k
      ensures bins[j].high == bins[j].low + h
      ensures j > 0 ==> bins[j].low == bins[j - 1].high + 1
    {
      BinsAt(start, h, k, j);
      if j > 0 {
        BinsAt(start, h, k, j - 1);
        assert j * (h + 1) == (j - 1) * (h + 1) + h + 1;
      }
    }
  }

  /** The bin-construction loop of dashboard.py:83-88. */
  method BuildBins(start: int, h: nat, k: nat) returns (bins: seq<Interval>)
    ensures bins == Bins(start, h, k)
    ensures |bins| == k
    ensures k > 0 ==> bins[0].low == start
    ensures forall j :: 0 <= j < k ==> bins[j].high == bins[j].low + h
    ensures forall j :: 0 < j < k ==> bins[j].low == bins[j - 1].high + 1
  {
    var lower := start;
    bins := [];
    for i := 0 to k
      invariant bins + Bins(lower, h, k - i) == Bins(start, h, k)
    {
      var upper := lower + h;
      assert Bins(lower, h, k - i) == [Interval(lower, upper)] + Bins(upper + 1, h, k - i - 1);
      bins := bins + [Interval(lower, upper)];
      lower := upper + 1;
    }
    BinsContiguous(start, h, k);
  }

  /** The cut edges: every lower edge, then the last upper edge. */
  function CutEdges(bins: seq<Interval>): (edges: seq<int>)
    requires |bins| > 0
    ensures |edges| == |bins| + 1
  {
    seq(|bins|, j requires 0 <= j < |bins| => bins[j].low) + [bins[|bins| - 1].high]
  }

  predicate StrictlyIncreasing(e: seq<int>)
  {
    forall i, j :: 0 <= i < j < |e| ==> e[i] < e[j]
  }

  /** The check `pd.cut` makes on its edges: repeated edges are refused,
      except that a list of exactly two edges is let through. The edges the
      loop lays out never decrease, so for them "no repeats" means strictly
      increasing. */
  predicate EdgesAccepted(e: seq<int>)
  {
    |e| == 2 || StrictlyIncreasing(e)
  }

  lemma MulMonotone(a: nat, b: nat, c: nat)
    requires a < b && c >= 1
    ensures a * c + c <= b * c
  {
    var d := b - a;
    assert b * c == a * c + d * c;
    assert d * c == (d - 1) * c + c;
  }

  /** The k + 1 cut edges are strictly increasing exactly when the classes are
      at least one wide; a zero width repeats the last edge. */
  lemma EdgesIncreasingIff(start: int, h: nat, k: nat)
    requires k >= 1
    ensures StrictlyIncreasing(CutEdges(Bins(start, h, k))) <==> h >= 1
    ensures h == 0 ==> CutEdges(Bins(start, h, k))[k - 1] == CutEdges(Bins(start, h, k))[k]
  {
    var bins := Bins(start, h, k);
    var e := CutEdges(bins);
    BinsAt(start, h, k, k - 1);
    if h >= 1 {
      forall i, j | 0 <= i < j < |e| ensures e[i] < e[j] {
        BinsAt(start, h, k, i);
        if j < k {
          BinsAt(start, h, k, j);
          MulMonotone(i, j, h + 1);
        } else if i < k - 1 {
          MulMonotone(i, k - 1, h + 1);
        }
      }
    } else {
      assert e[k - 1] == e[k];
    }
  }

  /** Whatever the width, the cut edges never decrease. */
  lemma EdgesNonDecreasing(start: int, h: nat, k: nat)
    requires k >= 1
    ensures forall i, j :: 0 <= i <= j < |CutEdges(Bins(start, h, k))| ==>
              CutEdges(Bins(start, h, k))[i] <= CutEdges(Bins(start, h, k))[j]
  {
    var e := CutEdges(Bins(start, h, k));
    BinsAt(start, h, k, k - 1);
    forall i, j | 0 <= i < j < |e| ensures e[i] <= e[j] {
      BinsAt(start, h, k, i);
      if j < k {
        BinsAt(start, h, k, j);
        MulMonotone(i, j, h + 1);
      } else if i < k - 1 {
        MulMonotone(i, k - 1, h + 1);
      }
    }
  }

  /** On the cut edges, "no two edges are equal", the check `pd.cut` makes,
      is the same as strictly increasing. */
  lemma EdgesDistinctIff(start: int, h: nat, k: nat)
    requires k >= 1
    ensures StrictlyIncreasing(CutEdges(Bins(start, h, k))) <==>
              forall i, j :: 0 <= i < j < |CutEdges(Bins(start, h, k))| ==>
                CutEdges(Bins(start, h, k))[i] != CutEdges(Bins(start, h, k))[j]
  {
    EdgesNonDecreasing(start, h, k);
  }

  /** The first and the last cut edge. */
  lemma EdgesSpan(start: int, h: nat, k: nat)
    requires k >= 1
    ensures CutEdges(Bins(start, h, k))[0] == start
    ensures CutEdges(Bins(start, h, k))[k] == start + k * h + k - 1
  {
    BinsAt(start, h, k, 0);
    BinsAt(start, h, k, k - 1);
    assert (k - 1) * (h + 1) + h == k * h + k - 1;
  }

  /** How many edges lie strictly below x: numpy's `searchsorted(x, side="left")`. */
  function CountBelow(e: seq<int>, x: int): (c: nat)
    ensures c <= |e|
  {
    if e == [] then 0 else (if e[0] < x then 1 else 0) + CountBelow(e[1..], x)
  }

  /** On increasing edges, the edges below x are exactly the first CountBelow. */
  lemma {:induction false} CountBelowSplits(e: seq<int>, x: int, i: nat)
    requires StrictlyIncreasing(e) && i < |e|
    ensures e[i] < x <==> i < CountBelow(e, x)
  {
    var rest := e[1..];
    assert StrictlyIncreasing(rest) by {
      forall a, b | 0 <= a < b < |rest| ensures rest[a] < rest[b] {
        assert rest[a] == e[a + 1] && rest[b] == e[b + 1];
      }
    }
    if i > 0 {
      CountBelowSplits(rest, x, i - 1);
      if e[0] >= x {
        assert e[i] >= x;
      }
    } else if e[0] >= x && |rest| > 0 {
      CountBelowSplits(rest, x, 0);
    }
  }

  /** The class `pd.cut(..., right=True, include_lowest=True)` gives x: the j
      with c_j < x <= c_(j+1), where x == c_0 also belongs to the first
      class; values outside the edges get no class (NaN). */
  function Classify(e: seq<int>, x: int): (b: Option<nat>)
    ensures b.Some? ==> b.value + 1 < |e|
  {
    var pos := if |e| > 0 && x == e[0] then 1 else CountBelow(e, x);
    if pos == 0 || pos >= |e| then None else Some(pos - 1)
  }

  /** On increasing edges, x is in class j exactly when it lies in
      (e[j], e[j+1]], or j is the first class and x is its lowest edge. */
  lemma ClassifyIff(e: seq<int>, x: int, j: nat)
    requires StrictlyIncreasing(e)
    ensures Classify(e, x) == Some(j) <==>
              j + 1 < |e| && (e[j] < x <= e[j + 1] || (j == 0 && x == e[0]))
  {
    if |e| > 0 && x == e[0] {
      if j > 0 && j + 1 < |e| {
        assert e[0] < e[j];
      }
    } else if j + 1 < |e| {
      CountBelowSplits(e, x, j);
      CountBelowSplits(e, x, j + 1);
    }
  }

  /** Every value between the first and the last edge falls in some class. */
  lemma ClassifyCovers(e: seq<int>, x: int)
    requires StrictlyIncreasing(e) && |e| >= 2
    requires e[0] <= x <= e[|e| - 1]
    ensures Classify(e, x).Some?
  {
    if x != e[0] {
      CountBelowSplits(e, x, 0);
      CountBelowSplits(e, x, |e| - 1);
    }
  }

  /** The rule does not follow the labels: an observation equal to the lower
      edge of class j + 1 is counted in class j, whose label ends at that
      edge - 1. */
  lemma ClassifyLowerEdgeOfNext(start: int, h: nat, k: nat, j: nat)
    requires h >= 1 && j + 1 < k
    ensures Classify(CutEdges(Bins(start, h, k)), Bins(start, h, k)[j + 1].low) == Some(j)
    ensures Bins(start, h, k)[j].high < Bins(start, h, k)[j + 1].low
  {
    var e := CutEdges(Bins(start, h, k));
    EdgesIncreasingIff(start, h, k);
    BinsContiguous(start, h, k);
    ClassifyIff(e, e[j + 1], j);
  }
}
