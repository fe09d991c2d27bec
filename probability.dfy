/** Probabilities, their rounding reconciliation, the cumulative column and
    the random-number intervals (dashboard.py:99-115). Probabilities are
    integer hundredths: 0.37 is 37 and 1.00 is 100. */
module Probability {
  import opened Binning
  import opened Tally

  /** num / den rounded to the nearest integer, ties to the even neighbour
      (numpy's `round`). */
  function RoundHalfEven(num: nat, den: nat): (r: nat)
    requires den > 0
    ensures den * (2 * r) <= 2 * num + den
    ensures 2 * num <= den * (2 * r) + den
    ensures (den * (2 * r) == 2 * num + den || 2 * num == den * (2 * r) + den) ==> r % 2 == 0
  {
    var q, rem := num / den, num % den;
    assert 2 * num == den * (2 * q) + 2 * rem;
    assert den * (2 * (q + 1)) == den * (2 * q) + 2 * den;
    if 2 * rem < den then q
    else if 2 * rem > den then q + 1
    else if q % 2 == 0 then q else q + 1
  }

  /** r hundredths is within half a hundredth of freq / total. */
  predicate NearestHundredth(freq: nat, total: nat, r: int)
  {
    total * (2 * r) <= 200 * freq + total && 200 * freq <= total * (2 * r) + total
  }

  /** `(freq / total).round(2)` in hundredths. */
  function Hundredths(freq: nat, total: nat): (r: nat)
    requires total > 0
    ensures NearestHundredth(freq, total, r)
  {
    RoundHalfEven(100 * freq, total)
  }

  /** The independently rounded probability column, `prob_raw.round(2)`. */
  function RoundedColumn(c: seq<Class>, total: nat): (p: seq<int>)
    requires total > 0
    ensures |p| == |c|
  {
    seq(|c|, i requires 0 <= i < |c| => Hundredths(c[i].freq, total))
  }

  lemma RoundedColumnPrefix(c: seq<Class>, total: nat, n: nat)
    requires total > 0 && n <= |c|
    ensures RoundedColumn(c, total)[..n] == RoundedColumn(c[..n], total)
  {
  }

  /** Each rounded entry is at most half a hundredth from 100 * freq / total,
      so the rounded column is at most half a hundredth per row from
      100 * FreqSum / total. */
  lemma {:induction false} RoundedColumnBounds(c: seq<Class>, total: nat)
    requires total > 0
    ensures total * (2 * Sum(RoundedColumn(c, total)) - |c|) <= 200 * FreqSum(c)
    ensures 200 * FreqSum(c) <= total * (2 * Sum(RoundedColumn(c, total)) + |c|)
  {
    if c != [] {
      var n := |c|;
      var init := c[..n - 1];
      RoundedColumnBounds(init, total);
      RoundedColumnPrefix(c, total, n - 1);
      var s0 := Sum(RoundedColumn(init, total));
      var f := c[n - 1].freq;
      assert Sum(RoundedColumn(c, total)) == s0 + Hundredths(f, total);
      assert FreqSum(c) == FreqSum(init) + f;
      BoundsStep(total, s0, Hundredths(f, total), n - 1, FreqSum(init), f);
    }
  }

  /** Adding one row to the rounding bounds of the rows before it. */
  lemma BoundsStep(total: nat, s0: int, r: int, n: int, sum0: int, f: int)
    requires total * (2 * s0 - n) <= 200 * sum0 <= total * (2 * s0 + n)
    requires total * (2 * r) <= 200 * f + total && 200 * f <= total * (2 * r) + total
    ensures total * (2 * (s0 + r) - (n + 1)) <= 200 * (sum0 + f)
    ensures 200 * (sum0 + f) <= total * (2 * (s0 + r) + (n + 1))
  {
    assert total * (2 * (s0 + r) - (n + 1)) == total * (2 * s0 - n) + total * (2 * r) - total;
    assert total * (2 * (s0 + r) + (n + 1)) == total * (2 * s0 + n) + total * (2 * r) + total;
  }

  lemma MulCancel(a: int, b: int, t: nat)
    requires t > 0 && t * a <= t * b
    ensures a <= b
  {
    if a > b {
      MulGap(t, a, b);
      assert false;
    }
  }

  lemma MulGap(t: nat, a: int, b: int)
    requires t > 0 && a > b
    ensures t * a > t * b
  {
    assert t * a == t * b + t * (a - b);
  }

  /** When the frequencies add up to the total, independent rounding misses
      100 by at most half a hundredth per row. */
  lemma RoundingDeficit(c: seq<Class>, total: nat)
    requires total > 0 && FreqSum(c) == total
    ensures 2 * (100 - Sum(RoundedColumn(c, total))) <= |c|
    ensures 2 * (Sum(RoundedColumn(c, total)) - 100) <= |c|
  {
    var s := Sum(RoundedColumn(c, total));
    RoundedColumnBounds(c, total);
    assert 200 * FreqSum(c) == total * 200;
    MulCancel(2 * s - |c|, 200, total);
    MulCancel(200, 2 * s + |c|, total);
  }

  /** `idxmax()`: the first position of the largest value. */
  function FirstArgMax(s: seq<int>): (i: nat)
    requires |s| > 0
    ensures i < |s|
    ensures forall t :: 0 <= t < |s| ==> s[t] <= s[i]
    ensures forall t :: 0 <= t < i ==> s[t] < s[i]
  {
    if |s| == 1 then 0
    else
      var j := FirstArgMax(s[..|s| - 1]);
      if s[|s| - 1] > s[j] then |s| - 1 else j
  }

  /** dashboard.py:102-106: the deficit 100 - sum is added to the first row
      holding the largest rounded value; no other row changes. */
  function Reconcile(p: seq<int>): (q: seq<int>)
    requires |p| > 0
    ensures |q| == |p|
    ensures Sum(q) == 100
    ensures q[FirstArgMax(p)] == p[FirstArgMax(p)] + (100 - Sum(p))
    ensures forall t :: 0 <= t < |p| && t != FirstArgMax(p) ==> q[t] == p[t]
  {
    var d := 100 - Sum(p);
    if d != 0 then
      var i := FirstArgMax(p);
      SumUpdate(p, i, p[i] + d);
      p[i := p[i] + d]
    else p
  }

  /** A column that already sums to 100 is left as it is. */
  lemma ReconcileBalanced(p: seq<int>)
    requires |p| > 0 && Sum(p) == 100
    ensures Reconcile(p) == p
  {
  }

  lemma {:induction false} SumAtMost(s: seq<int>, m: int)
    requires forall t :: 0 <= t < |s| ==> s[t] <= m
    ensures Sum(s) <= |s| * m
  {
    if s != [] {
      SumAtMost(s[..|s| - 1], m);
    }
  }

  lemma MulMonotoneBoth(a: nat, b: nat, c: nat, d: nat)
    requires a <= c && b <= d
    ensures a * b <= c * d
  {
    assert a * b <= c * b;
    assert c * b <= c * d;
  }

  /** When the rounded column misses 100 by the full half hundredth per row,
      every row was a tie rounded up: exactly half a hundredth below its
      rounded value. */
  lemma {:induction false} RoundedUpWhenTight(c: seq<Class>, total: nat)
    requires total > 0
    requires total * (2 * Sum(RoundedColumn(c, total)) - |c|) == 200 * FreqSum(c)
    ensures forall t :: 0 <= t < |c| ==>
              total * (2 * RoundedColumn(c, total)[t]) == 200 * c[t].freq + total
  {
    if c != [] {
      var n := |c|;
      var init := c[..n - 1];
      RoundedColumnBounds(init, total);
      RoundedColumnPrefix(c, total, n - 1);
      var s0 := Sum(RoundedColumn(init, total));
      var f := c[n - 1].freq;
      var r := Hundredths(f, total);
      assert Sum(RoundedColumn(c, total)) == s0 + r;
      assert FreqSum(c) == FreqSum(init) + f;
      TightStep(total, s0, r, n - 1, FreqSum(init), f);
      RoundedUpWhenTight(init, total);
      forall t | 0 <= t < n
        ensures total * (2 * RoundedColumn(c, total)[t]) == 200 * c[t].freq + total
      {
        if t < n - 1 {
          assert RoundedColumn(c, total)[t] == RoundedColumn(init, total)[t];
          assert c[t] == init[t];
        }
      }
    }
  }

  /** The rows before the last one and the last one each keep their own
      bound, so when the sum of the bounds is met both are met. */
  lemma TightStep(total: nat, s0: int, r: int, n: int, sum0: int, f: int)
    requires total * (2 * s0 - n) <= 200 * sum0
    requires total * (2 * r) <= 200 * f + total
    requires total * (2 * (s0 + r) - (n + 1)) == 200 * (sum0 + f)
    ensures total * (2 * s0 - n) == 200 * sum0
    ensures total * (2 * r) == 200 * f + total
  {
    assert total * (2 * (s0 + r) - (n + 1)) == total * (2 * s0 - n) + total * (2 * r) - total;
  }

  /** With at most 16 rows, reconciliation never drives a probability below
      zero. The column overshoots 100 by at most 8 hundredths. An overshoot of
      at most 7 leaves the largest row at no less than 100 / 16, so at least
      7. An overshoot of 8 needs 16 rows that were all ties rounded up to an
      even value, with the largest at least 8, since 16 rows of at most 6
      cannot make 108. */
  lemma ReconcileNonNegative(c: seq<Class>, total: nat)
    requires total > 0 && FreqSum(c) == total && 1 <= |c| <= 16
    ensures forall t :: 0 <= t < |c| ==> Reconcile(RoundedColumn(c, total))[t] >= 0
  {
    var p := RoundedColumn(c, total);
    var i := FirstArgMax(p);
    var m := |c|;
    var deficit := 100 - Sum(p);
    if deficit < 0 {
      RoundingDeficit(c, total);
      SumAtMost(p, p[i]);
      var big := -deficit;
      assert big <= 8;
      if p[i] < big {
        if big <= 7 {
          MulMonotoneBoth(m, p[i], 16, big - 1);
          assert false;
        } else {
          assert m == 16 && Sum(p) == 108;
          assert total * (2 * Sum(p) - m) == 200 * FreqSum(c);
          RoundedUpWhenTight(c, total);
          assert total * (2 * p[i]) == 2 * (100 * c[i].freq) + total;
          assert p[i] % 2 == 0;
          MulMonotoneBoth(m, p[i], 16, 6);
          assert false;
        }
      }
    }
  }

  lemma {:induction false} SumFront(s: seq<int>)
    requires |s| > 0
    ensures Sum(s) == s[0] + Sum(s[1..])
  {
    if |s| > 1 {
      SumFront(s[..|s| - 1]);
      assert s[..|s| - 1][1..] == s[1..][..|s| - 2];
    }
  }

  /** `cumsum()` of a column, continuing from `acc`. */
  function CumulativeFrom(p: seq<int>, acc: int): (c: seq<int>)
    ensures |c| == |p|
  {
    if p == [] then [] else [acc + p[0]] + CumulativeFrom(p[1..], acc + p[0])
  }

  /** The cumulative column `cumsum().round(2)`; in hundredths the rounding is
      exact. */
  function Cumulative(p: seq<int>): (c: seq<int>)
    ensures |c| == |p|
  {
    CumulativeFrom(p, 0)
  }

  lemma {:induction false} CumulativeFromPrefix(p: seq<int>, acc: int, i: nat)
    requires i < |p|
    ensures CumulativeFrom(p, acc)[i] == acc + Sum(p[..i + 1])
  {
    if i == 0 {
      assert p[..1][..0] == [];
    } else {
      CumulativeFromPrefix(p[1..], acc + p[0], i - 1);
      SumFront(p[..i + 1]);
      assert p[..i + 1][1..] == p[1..][..i];
    }
  }

  /** Entry i of the cumulative column is the sum of the first i + 1
      probabilities; each entry adds its own row to the previous one. */
  lemma CumulativeIsPrefixSum(p: seq<int>, i: nat)
    requires i < |p|
    ensures Cumulative(p)[i] == Sum(p[..i + 1])
    ensures i > 0 ==> Cumulative(p)[i] == Cumulative(p)[i - 1] + p[i]
  {
    CumulativeFromPrefix(p, 0, i);
    if i > 0 {
      CumulativeFromPrefix(p, 0, i - 1);
      assert p[..i + 1][..i] == p[..i];
    }
  }

  /** The last cumulative entry is the column total. */
  lemma CumulativeLast(p: seq<int>)
    requires |p| > 0
    ensures Cumulative(p)[|p| - 1] == Sum(p)
  {
    CumulativeIsPrefixSum(p, |p| - 1);
    assert p[..|p|] == p;
  }

  /** With no negative probability the cumulative column never decreases. */
  lemma {:induction false} CumulativeNonDecreasing(p: seq<int>, i: nat, j: nat)
    requires forall t :: 0 <= t < |p| ==> p[t] >= 0
    requires i <= j < |p|
    ensures 0 <= Cumulative(p)[i] <= Cumulative(p)[j]
  {
    if i < j {
      CumulativeNonDecreasing(p, i, j - 1);
      CumulativeIsPrefixSum(p, j);
    } else if i == 0 {
      CumulativeIsPrefixSum(p, 0);
      assert Sum(p[..1]) == p[0];
    } else {
      CumulativeNonDecreasing(p, i - 1, i - 1);
      CumulativeIsPrefixSum(p, i);
    }
  }

  /** dashboard.py:111-115: row i draws the random numbers from one past the
      previous row's cumulative hundredths (1 for the first row) up to its own
      cumulative hundredths. */
  function RandomIntervals(cum: seq<int>): (r: seq<Interval>)
    ensures |r| == |cum|
  {
    seq(|cum|, i requires 0 <= i < |cum| =>
      Interval(if i == 0 then 1 else cum[i - 1] + 1, cum[i]))
  }

  /** The random-number intervals of a column summing to 100 start at 1, each
      continues where the previous one stops, each holds as many numbers as
      its row's probability in hundredths, and the last one ends at 100. */
  lemma RandomIntervalsTile(p: seq<int>)
    requires |p| > 0 && Sum(p) == 100
    ensures RandomIntervals(Cumulative(p))[0].low == 1
    ensures forall i :: 0 < i < |p| ==>
              RandomIntervals(Cumulative(p))[i].low == RandomIntervals(Cumulative(p))[i - 1].high + 1
    ensures forall i :: 0 <= i < |p| ==>
              RandomIntervals(Cumulative(p))[i].high - RandomIntervals(Cumulative(p))[i].low + 1 == p[i]
    ensures RandomIntervals(Cumulative(p))[|p| - 1].high == 100
  {
    var r := RandomIntervals(Cumulative(p));
    forall i | 0 <= i < |p| ensures r[i].high - r[i].low + 1 == p[i] {
      CumulativeIsPrefixSum(p, i);
      if i == 0 {
        assert Sum(p[..1]) == p[0];
      }
    }
    CumulativeLast(p);
  }

  /** With no negative probability the intervals lie in order without
      overlapping, inside 1..100. */
  lemma RandomIntervalsDisjoint(p: seq<int>, i: nat, j: nat)
    requires Sum(p) == 100 && forall t :: 0 <= t < |p| ==> p[t] >= 0
    requires i < j < |p|
    ensures RandomIntervals(Cumulative(p))[i].high < RandomIntervals(Cumulative(p))[j].low
    ensures 1 <= RandomIntervals(Cumulative(p))[j].low
    ensures RandomIntervals(Cumulative(p))[j].high <= 100
  {
    CumulativeNonDecreasing(p, i, j - 1);
    CumulativeNonDecreasing(p, j, |p| - 1);
    CumulativeLast(p);
  }

  /** Every number 1..100 is drawn by some row: the first row whose
      cumulative hundredths reach it. With no negative probability
      RandomIntervalsDisjoint makes that row the only one. */
  lemma RandomIntervalsCover(p: seq<int>, v: int)
    requires |p| > 0 && Sum(p) == 100
    requires 1 <= v <= 100
    ensures exists i :: 0 <= i < |p| &&
              RandomIntervals(Cumulative(p))[i].low <= v <= RandomIntervals(Cumulative(p))[i].high &&
              forall t :: 0 <= t < i ==> Cumulative(p)[t] < v
  {
    var cum := Cumulative(p);
    var r := RandomIntervals(cum);
    CumulativeLast(p);
    var i := 0;
    while cum[i] < v
      invariant 0 <= i < |p|
      invariant forall t :: 0 <= t < i ==> cum[t] < v
      decreases |p| - i
    {
      i := i + 1;
    }
    assert r[i].low <= v <= r[i].high;
  }

  /** Seventeen rows are enough to turn a probability negative: six classes
      of 79 and eleven of 66 out of 1200 round to 7 and 6 hundredths (6.58
      and the tie 5.5), the column sums to 108, and reconciliation puts -1 in
      the first row, so its random-number interval is empty and runs
      backwards. */
  lemma ReconcileCanTurnNegative(bins: seq<Interval>)
    requires |bins| == 17
    ensures var c := Classes(bins, seq(6, _ => 79) + seq(11, _ => 66));
            FreqSum(c) == 1200 &&
            Reconcile(RoundedColumn(c, 1200))[0] == -1
  {
    var f: seq<nat> := seq(6, _ => 79) + seq(11, _ => 66);
    FreqSumClasses(bins, f);
    SumConcat(seq(6, _ => 79), seq(11, _ => 66));
    SumConstant(6, 79);
    SumConstant(11, 66);
    SeventeenRounded(bins);
    var p := seq(6, _ => 7) + seq(11, _ => 6);
    SumConcat(seq(6, _ => 7), seq(11, _ => 6));
    SumConstant(6, 7);
    SumConstant(11, 6);
    var i := FirstArgMax(p);
    assert p[0] == 7 && p[i] <= 7;
    assert i == 0;
  }

  lemma SeventeenRounded(bins: seq<Interval>)
    requires |bins| == 17
    ensures RoundedColumn(Classes(bins, seq(6, _ => 79) + seq(11, _ => 66)), 1200) ==
              seq(6, _ => 7) + seq(11, _ => 6)
  {
    assert Hundredths(79, 1200) == 7 && Hundredths(66, 1200) == 6;
  }

  lemma {:induction false} SumConcat(a: seq<int>, b: seq<int>)
    ensures Sum(a + b) == Sum(a) + Sum(b)
    decreases |b|
  {
    if b == [] {
      assert a + b == a;
    } else {
      assert (a + b)[..|a + b| - 1] == a + b[..|b| - 1];
      assert (a + b)[|a + b| - 1] == b[|b| - 1];
      SumConcat(a, b[..|b| - 1]);
    }
  }

  lemma {:induction false} SumConstant(n: nat, v: int)
    ensures Sum(seq(n, _ => v)) == n * v
  {
    if n > 0 {
      assert seq(n, _ => v)[..n - 1] == seq(n - 1, _ => v);
      SumConstant(n - 1, v);
    }
  }
}
