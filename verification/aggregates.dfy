/** SQL aggregation over a column of amounts: SUM yields NULL over no rows. */
module Aggregates {
  import opened Wrappers

  function Sum(xs: seq<int>): int {
    if |xs| == 0 then 0 else xs[0] + Sum(xs[1..])
  }

  /** `aggregate(Sum(...))`: NULL when no row takes part, otherwise the sum. */
  function SqlSum(xs: seq<int>): (r: Option<int>)
    ensures r.None? <==> |xs| == 0
    ensures r.GetOr(0) == Sum(xs)
  {
    if |xs| == 0 then None else Some(Sum(xs))
  }

  /** Summing is additive over concatenation, so grouping rows in any way keeps the total. */
  lemma {:induction false} SumAppend(a: seq<int>, b: seq<int>)
    ensures Sum(a + b) == Sum(a) + Sum(b)
    decreases |a|
  {
    if |a| == 0 {
      assert a + b == b;
    } else {
      assert (a + b)[1..] == a[1..] + b;
      SumAppend(a[1..], b);
    }
  }

  /** Removing the last element. */
  lemma SumLast(a: seq<int>)
    requires |a| > 0
    ensures Sum(a) == Sum(a[..|a| - 1]) + a[|a| - 1]
  {
    assert a == a[..|a| - 1] + [a[|a| - 1]];
    SumAppend(a[..|a| - 1], [a[|a| - 1]]);
  }
}
