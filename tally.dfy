/** Counting the observations of each class and dropping the classes nobody
    falls in (dashboard.py:94-99). */
module Tally {
  import opened Binning

  /** The sum of a column. */
  function Sum(s: seq<int>): (t: int)
  {
    if s == [] then 0 else Sum(s[..|s| - 1]) + s[|s| - 1]
  }

  /** Changing one entry changes the sum by the difference. */
  lemma {:induction false} SumUpdate(s: seq<int>, i: nat, v: int)
    requires i < |s|
    ensures Sum(s[i := v]) == Sum(s) - s[i] + v
  {
    var n := |s|;
    var t := s[i := v];
    if i < n - 1 {
      assert t[..n - 1] == s[..n - 1][i := v];
      SumUpdate(s[..n - 1], i, v);
    } else {
      assert t[..n - 1] == s[..n - 1];
    }
  }

  lemma {:induction false} SumZeros(k: nat)
    ensures Sum(seq(k, _ => 0)) == 0
  {
    if k > 0 {
      assert seq(k, _ => 0)[..k - 1] == seq(k - 1, _ => 0);
      SumZeros(k - 1);
    }
  }

  /** The per-class counts of `value_counts()` over the classes `pd.cut`
      assigns, one entry per class, in class order. Observations without a
      class (NaN) are not counted. */
  function Frequencies(data: seq<int>, e: seq<int>): (f: seq<nat>)
    requires |e| >= 1
    ensures |f| == |e| - 1
  {
    if data == [] then seq(|e| - 1, _ => 0)
    else
      var f := Frequencies(data[..|data| - 1], e);
      match Classify(e, data[|data| - 1])
      case None => f
      case Some(j) => f[j := f[j] + 1]
  }

  /** One more observation adds one to the count of its class, if it has one. */
  lemma FrequenciesAppend(data: seq<int>, e: seq<int>, x: int)
    requires |e| >= 1
    ensures Frequencies(data + [x], e) ==
              match Classify(e, x)
              case None => Frequencies(data, e)
              case Some(j) => Frequencies(data, e)[j := Frequencies(data, e)[j] + 1]
  {
    assert (data + [x])[..|data|] == data;
  }

  /** Reference count: how many observations the classification puts in
      class j. */
  function CountIn(data: seq<int>, e: seq<int>, j: nat): (c: nat)
    ensures c <= |data|
  {
    if data == [] then 0
    else CountIn(data[..|data| - 1], e, j) + (if Classify(e, data[|data| - 1]) == Some(j) then 1 else 0)
  }

  /** Each frequency is the number of observations in its class. */
  lemma {:induction false} FrequenciesCount(data: seq<int>, e: seq<int>, j: nat)
    requires j + 1 < |e|
    ensures Frequencies(data, e)[j] == CountIn(data, e, j)
  {
    if data != [] {
      FrequenciesCount(data[..|data| - 1], e, j);
    }
  }

  /** The frequencies add up to at most the sample size, and to exactly the
      sample size when every observation has a class. */
  lemma {:induction false} FrequenciesSum(data: seq<int>, e: seq<int>)
    requires |e| >= 1
    ensures Sum(Frequencies(data, e)) <= |data|
    ensures (forall i :: 0 <= i < |data| ==> Classify(e, data[i]).Some?) ==>
              Sum(Frequencies(data, e)) == |data|
  {
    if data == [] {
      SumZeros(|e| - 1);
    } else {
      var init := data[..|data| - 1];
      FrequenciesSum(init, e);
      var f := Frequencies(init, e);
      forall i | 0 <= i < |init| ensures init[i] == data[i] { }
      match Classify(e, data[|data| - 1])
      case None =>
      case Some(j) => SumUpdate(f, j, f[j] + 1);
    }
  }

  /** A frequency-table entry before numbering: a class and its count. */
  datatype Class = Class(interval: Interval, freq: nat)

  /** The classes paired with their counts, in class order. */
  function Classes(bins: seq<Interval>, f: seq<nat>): (c: seq<Class>)
    requires |bins| == |f|
    ensures |c| == |bins|
  {
    seq(|bins|, j requires 0 <= j < |bins| => Class(bins[j], f[j]))
  }

  /** The sum of the frequency column. */
  function FreqSum(c: seq<Class>): (t: nat)
  {
    if c == [] then 0 else FreqSum(c[..|c| - 1]) + c[|c| - 1].freq
  }

  /** Pairing the counts with their classes keeps their sum. */
  lemma {:induction false} FreqSumClasses(bins: seq<Interval>, f: seq<nat>)
    requires |bins| == |f|
    ensures FreqSum(Classes(bins, f)) == Sum(f)
  {
    if f != [] {
      var n := |f|;
      assert Classes(bins, f)[..n - 1] == Classes(bins[..n - 1], f[..n - 1]);
      FreqSumClasses(bins[..n - 1], f[..n - 1]);
    }
  }

  /** `freq_table[freq_table["Frekuensi"] > 0]`: the classes with a positive
      count, in their original order. */
  function Prune(c: seq<Class>): (r: seq<Class>)
    ensures |r| <= |c|
    ensures forall i :: 0 <= i < |r| ==> r[i].freq > 0
    ensures FreqSum(r) == FreqSum(c)
  {
    if c == [] then []
    else
      var init, last := c[..|c| - 1], c[|c| - 1];
      var r := Prune(init);
      assert c == init + [last];
      if last.freq > 0 then
        assert (r + [last])[..|r|] == r;
        r + [last]
      else r
  }

  /** Each retained entry is one of the classes with its count. */
  lemma PruneFromClasses(bins: seq<Interval>, f: seq<nat>, i: nat)
    requires |bins| == |f| && i < |Prune(Classes(bins, f))|
    ensures exists j :: 0 <= j < |bins| && Prune(Classes(bins, f))[i] == Class(bins[j], f[j])
  {
    var all := Classes(bins, f);
    var c := Prune(all);
    PruneMembers(all);
    assert c[i] in c;
    var j :| 0 <= j < |all| && all[j] == c[i];
    assert c[i] == Class(bins[j], f[j]);
  }

  /** Each class with a positive count is retained. */
  lemma PruneKeepsCounted(bins: seq<Interval>, f: seq<nat>, j: nat)
    requires |bins| == |f| && j < |bins| && f[j] > 0
    ensures exists i :: 0 <= i < |Prune(Classes(bins, f))| && Prune(Classes(bins, f))[i] == Class(bins[j], f[j])
  {
    var all := Classes(bins, f);
    PruneMembers(all);
    assert all[j] in all;
  }

  /** An entry is retained exactly when it is one of the classes and its
      count is positive. */
  lemma {:induction false} PruneMembers(c: seq<Class>)
    ensures forall x :: x in Prune(c) <==> x in c && x.freq > 0
  {
    if c != [] {
      var init, last := c[..|c| - 1], c[|c| - 1];
      PruneMembers(init);
      assert c == init + [last];
    }
  }

  /** Pruning leaves a column without empty classes as it is. */
  lemma {:induction false} PruneKeepsPositive(c: seq<Class>)
    requires forall i :: 0 <= i < |c| ==> c[i].freq > 0
    ensures Prune(c) == c
  {
    if c != [] {
      var init := c[..|c| - 1];
      PruneKeepsPositive(init);
      assert init + [c[|c| - 1]] == c;
    }
  }

  /** An empty last class is dropped. */
  lemma PruneDropsEmptyLast(c: seq<Class>, x: Class)
    requires x.freq == 0
    ensures Prune(c + [x]) == Prune(c)
  {
    assert (c + [x])[..|c|] == c;
  }

  /** Entries in ascending, non-overlapping class order. */
  predicate Ascending(c: seq<Class>)
  {
    forall i, j :: 0 <= i < j < |c| ==> c[i].interval.high < c[j].interval.low
  }

  /** Dropping entries keeps the remaining ones in ascending order. */
  lemma {:induction false} PruneAscending(c: seq<Class>)
    requires Ascending(c)
    ensures Ascending(Prune(c))
  {
    if c != [] {
      var init, last := c[..|c| - 1], c[|c| - 1];
      assert Ascending(init);
      PruneAscending(init);
      PruneMembers(init);
      var r := Prune(init);
      if last.freq > 0 {
        forall i | 0 <= i < |r| ensures r[i].interval.high < last.interval.low {
          assert r[i] in init;
          var t :| 0 <= t < |init| && init[t] == r[i];
          assert c[t] == r[i];
        }
      }
    }
  }

  /** The classes the loop lays out are ascending and do not overlap. */
  lemma BinsAscending(start: int, h: nat, k: nat, f: seq<nat>)
    requires |f| == k
    ensures Ascending(Classes(Bins(start, h, k), f))
  {
    var c := Classes(Bins(start, h, k), f);
    forall i, j | 0 <= i < j < k ensures c[i].interval.high < c[j].interval.low {
      BinsAt(start, h, k, i);
      BinsAt(start, h, k, j);
      MulMonotone(i, j, h + 1);
    }
  }
}
