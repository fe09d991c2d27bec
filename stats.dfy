/** Summary statistics of a sample of visitor counts: the extremes, Sturges'
    class count and the class width (dashboard.py:77-81). */
module Statistics {

  /** The smallest observation (pandas `Series.min`). */
  function Min(s: seq<int>): (m: int)
    requires |s| > 0
    ensures m in s
    ensures forall x :: x in s ==> m <= x
  {
    if |s| == 1 then s[0]
    else
      var init, last := s[..|s| - 1], s[|s| - 1];
      var m := Min(init);
      assert s == init + [last];
      if last < m then last else m
  }

  /** The largest observation (pandas `Series.max`). */
  function Max(s: seq<int>): (m: int)
    requires |s| > 0
    ensures m in s
    ensures forall x :: x in s ==> x <= m
  {
    if |s| == 1 then s[0]
    else
      var init, last := s[..|s| - 1], s[|s| - 1];
      var m := Max(init);
      assert s == init + [last];
      if last > m then last else m
  }

  function Pow(b: nat, e: nat): (p: nat)
  {
    if e == 0 then 1 else b * Pow(b, e - 1)
  }

  lemma {:induction false} PowOfOne(e: nat)
    ensures Pow(1, e) == 1
  {
    if e > 0 { PowOfOne(e - 1); }
  }

  lemma {:induction false} PowOfTenExceeds(e: nat)
    ensures Pow(10, e) > e
  {
    if e > 0 { PowOfTenExceeds(e - 1); }
  }

  /** For a base of at least 2 a larger exponent gives a strictly larger power. */
  lemma {:induction false} PowStrictlyMonotone(b: nat, d: nat, e: nat)
    requires b >= 2 && d < e
    ensures Pow(b, d) < Pow(b, e)
  {
    if d + 1 < e {
      PowStrictlyMonotone(b, d, e - 1);
    } else {
      PowPositive(b, d);
    }
  }

  lemma {:induction false} PowPositive(b: nat, e: nat)
    requires b >= 1
    ensures Pow(b, e) >= 1
  {
    if e > 0 { PowPositive(b, e - 1); }
  }

  /** k classes satisfy Sturges' rule for n observations when
      1 + 3.3 * log10(n) <= k, which over the integers reads
      n^33 <= 10^(10 * (k - 1)). */
  predicate SturgesEnough(n: nat, k: nat)
    requires k >= 1
  {
    Pow(n, 33) <= Pow(10, 10 * (k - 1))
  }

  /** The least class count from `k` upward that satisfies Sturges' rule. */
  function SturgesFrom(n: nat, k: nat): (r: nat)
    requires n >= 1 && k >= 1
    ensures r >= k && SturgesEnough(n, r)
    ensures r == k || !SturgesEnough(n, r - 1)
    decreases Pow(n, 33) - k
  {
    if SturgesEnough(n, k) then k
    else
      PowOfTenExceeds(10 * (k - 1));
      SturgesFrom(n, k + 1)
  }

  /** Sturges' class count `ceil(1 + 3.3 * log10(n))`, computed exactly as the
      least k >= 1 with n^33 <= 10^(10 * (k - 1)). */
  function SturgesK(n: nat): (k: nat)
    requires n >= 1
    ensures k >= 1 && SturgesEnough(n, k)
    ensures k == 1 || !SturgesEnough(n, k - 1)
  {
    SturgesFrom(n, 1)
  }

  /** No smaller class count satisfies Sturges' rule. */
  lemma SturgesKLeast(n: nat, j: nat)
    requires n >= 1 && j >= 1 && SturgesEnough(n, j)
    ensures SturgesK(n) <= j
  {
    var k := SturgesK(n);
    if j < k {
      assert k - 1 >= 1 && !SturgesEnough(n, k - 1);
      if j < k - 1 {
        PowStrictlyMonotone(10, 10 * (j - 1), 10 * (k - 2));
      }
      assert false;
    }
  }

  /** A single observation gives a single class. */
  lemma SturgesKOfOne()
    ensures SturgesK(1) == 1
  {
    PowOfOne(33);
    assert SturgesEnough(1, 1);
  }

  /** One class exactly when there is a single observation: for n >= 2,
      n^33 > 1 = 10^0. */
  lemma SturgesKIsOne(n: nat)
    requires n >= 1
    ensures SturgesK(n) == 1 <==> n == 1
  {
    if n == 1 {
      SturgesKOfOne();
    } else if SturgesK(n) == 1 {
      PowStrictlyMonotone(n, 0, 33);
      assert false;
    }
  }

  /** Ten observations give 1 + 3.3 = 4.3, rounded up to five classes. */
  lemma SturgesKOfTen()
    ensures SturgesK(10) == 5
  {
    var k := SturgesK(10);
    if k < 5 {
      PowStrictlyMonotone(10, 10 * (k - 1), 33);
      assert false;
    }
    if k > 5 {
      PowStrictlyMonotone(10, 33, 10 * (k - 2));
      assert false;
    }
  }

  /** h is the least width whose k classes span the range R:
      k * (h - 1) < R <= k * h. */
  predicate LeastCover(range: int, k: nat, h: nat)
  {
    k * h >= range && (h == 0 || k * (h - 1) < range)
  }

  /** The class width `ceil(R / k)`: the least width whose k classes span the
      range R. */
  function ClassWidth(range: nat, k: nat): (h: nat)
    requires k >= 1
    ensures LeastCover(range, k, h)
  {
    (range + k - 1) / k
  }

  /** The width is positive exactly when the range is. */
  lemma ClassWidthPositive(range: nat, k: nat)
    requires k >= 1
    ensures ClassWidth(range, k) >= 1 <==> range >= 1
  {
  }
}
