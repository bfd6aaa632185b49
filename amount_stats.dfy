/**
 * The statistics `analyzeAmounts` reports over the records' totals (minimum,
 * maximum, average, median, sum and count), over exact numbers.
 */
module AmountStats {
  import opened Sorting

  /** The sort key of `sort((a, b) => a - b)`: the number itself. */
  function Itself(x: real): real {
    x
  }

  function SumReals(xs: seq<real>): real {
    if xs == [] then 0.0 else SumReals(xs[..|xs| - 1]) + xs[|xs| - 1]
  }

  /** `Math.min(...xs)` on a non-empty list. */
  function Min(xs: seq<real>): (m: real)
    requires |xs| > 0
    ensures m in xs
    ensures forall i :: 0 <= i < |xs| ==> m <= xs[i]
  {
    if |xs| == 1 then xs[0]
    else
      var rest := Min(xs[..|xs| - 1]);
      assert xs == xs[..|xs| - 1] + [xs[|xs| - 1]];
      if xs[|xs| - 1] < rest then xs[|xs| - 1] else rest
  }

  /** `Math.max(...xs)` on a non-empty list. */
  function Max(xs: seq<real>): (m: real)
    requires |xs| > 0
    ensures m in xs
    ensures forall i :: 0 <= i < |xs| ==> xs[i] <= m
  {
    if |xs| == 1 then xs[0]
    else
      var rest := Max(xs[..|xs| - 1]);
      assert xs == xs[..|xs| - 1] + [xs[|xs| - 1]];
      if xs[|xs| - 1] > rest then xs[|xs| - 1] else rest
  }

  /** The middle value of an ascending list, or the mean of the two middle values when the length is even. */
  function Median(sorted: seq<real>): real
    requires |sorted| > 0
  {
    var n := |sorted|;
    if n % 2 == 0 then (sorted[n / 2 - 1] + sorted[n / 2]) / 2.0 else sorted[n / 2]
  }

  /** What `analyzeAmounts` returns when every total is a number (`toFixed(2)` is not modelled). */
  datatype Summary = Summary(min: real, max: real, average: real, median: real, total: real, count: nat)

  /** The sum over the count. */
  function Average(xs: seq<real>): (a: real)
    requires |xs| > 0
    ensures a * |xs| as real == SumReals(xs)
  {
    DivTimes(SumReals(xs), |xs| as real);
    SumReals(xs) / |xs| as real
  }

  function Summarize(xs: seq<real>): Summary
    requires |xs| > 0
  {
    Summary(Min(xs), Max(xs), Average(xs), Median(Sort(Itself, xs)), SumReals(xs), |xs|)
  }

  lemma {:induction false} SumBounds(xs: seq<real>, lo: real, hi: real)
    requires forall i :: 0 <= i < |xs| ==> lo <= xs[i] <= hi
    ensures |xs| as real * lo <= SumReals(xs) <= |xs| as real * hi
  {
    if xs != [] {
      var n := |xs| - 1;
      SumBounds(xs[..n], lo, hi);
      assert (n + 1) as real * lo == n as real * lo + lo;
      assert (n + 1) as real * hi == n as real * hi + hi;
    }
  }

  lemma {:induction false} DivBounds(t: real, n: real, lo: real, hi: real)
    requires n > 0.0 && n * lo <= t <= n * hi
    ensures lo <= t / n <= hi
  {
    assert t / n * n == t;
  }

  /** The average lies between the smallest and the largest amount. */
  lemma {:induction false} AverageBetween(xs: seq<real>)
    requires |xs| > 0
    ensures Min(xs) <= Average(xs) <= Max(xs)
  {
    SumBounds(xs, Min(xs), Max(xs));
    DivBounds(SumReals(xs), |xs| as real, Min(xs), Max(xs));
  }

  /**
   * The median is computed on an ascending permutation of the amounts, and
   * lies between its two middle entries (the same entry when the count is odd).
   */
  lemma {:induction false} MedianIsMiddle(xs: seq<real>)
    requires |xs| > 0
    ensures var sorted := Sort(Itself, xs);
      && multiset(sorted) == multiset(xs)
      && SortedBy(Itself, sorted)
      && sorted[(|xs| - 1) / 2] <= Median(sorted) <= sorted[|xs| / 2]
  {
    var sorted := Sort(Itself, xs);
    SortSorted(Itself, xs);
    if (|xs| - 1) / 2 < |xs| / 2 {
      assert Itself(sorted[(|xs| - 1) / 2]) <= Itself(sorted[|xs| / 2]);
    }
    MedianBetween(sorted);
  }

  /** The median of a list whose two middle entries are in order lies between them. */
  lemma {:induction false} MedianBetween(sorted: seq<real>)
    requires |sorted| > 0 && sorted[(|sorted| - 1) / 2] <= sorted[|sorted| / 2]
    ensures sorted[(|sorted| - 1) / 2] <= Median(sorted) <= sorted[|sorted| / 2]
  {
  }

  /** Every entry of the sorted copy is one of the amounts, so lies between the minimum and the maximum. */
  lemma {:induction false} SortedWithinBounds(xs: seq<real>, k: nat)
    requires k < |xs|
    ensures Min(xs) <= Sort(Itself, xs)[k] <= Max(xs)
  {
    var sorted := Sort(Itself, xs);
    assert sorted[k] in multiset(sorted);
    assert sorted[k] in multiset(xs);
  }

  /**
   * On a non-empty list: the count is the length, the total is the sum,
   * and min <= median <= max, min <= average <= max.
   */
  lemma {:induction false} SummaryBounds(xs: seq<real>)
    requires |xs| > 0
    ensures var s := Summarize(xs);
      && s.count == |xs| && s.total == SumReals(xs) && s.average == Average(xs)
      && s.min <= s.median <= s.max
      && s.min <= s.average <= s.max
  {
    var n := |xs|;
    MedianIsMiddle(xs);
    SortedWithinBounds(xs, (n - 1) / 2);
    SortedWithinBounds(xs, n / 2);
    AverageBetween(xs);
  }

  lemma {:induction false} DivTimes(t: real, n: real)
    requires n > 0.0
    ensures t / n * n == t
  {
  }
}
