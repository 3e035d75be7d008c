/** Sums of lists of amounts. */
module Amounts {

  function Sum(values: seq<int>): int {
    if |values| == 0 then 0 else Sum(values[..|values| - 1]) + values[|values| - 1]
  }

  lemma SumAppend(values: seq<int>, v: int)
    ensures Sum(values + [v]) == Sum(values) + v
  {
    assert (values + [v])[..|values|] == values;
  }

  lemma {:induction false} SumConcat(a: seq<int>, b: seq<int>)
    ensures Sum(a + b) == Sum(a) + Sum(b)
    decreases |b|
  {
    if b == [] {
      assert a + b == a;
    } else {
      assert (a + b)[..|a + b| - 1] == a + b[..|b| - 1];
      SumConcat(a, b[..|b| - 1]);
    }
  }

  lemma SumFirst(values: seq<int>)
    requires values != []
    ensures Sum(values) == values[0] + Sum(values[1..])
  {
    assert values == values[..1] + values[1..];
    SumConcat(values[..1], values[1..]);
    assert values[..1] == [] + [values[0]];
    SumAppend([], values[0]);
  }

  lemma {:induction false} SumNonNegative(values: seq<int>)
    requires forall i :: 0 <= i < |values| ==> 0 <= values[i]
    ensures 0 <= Sum(values)
    decreases |values|
  {
    if values != [] {
      SumNonNegative(values[..|values| - 1]);
    }
  }

  lemma {:induction false} SumAtMost(values: seq<int>, bound: int)
    requires forall i :: 0 <= i < |values| ==> values[i] <= bound
    ensures Sum(values) <= bound * |values|
    decreases |values|
  {
    if values != [] {
      SumAtMost(values[..|values| - 1], bound);
      assert bound * |values| == bound * (|values| - 1) + bound;
    }
  }

  /** The sum of the values from position `lo` up to `hi`; nothing when there are none. */
  function Pending(values: seq<int>, lo: nat, hi: nat): int {
    if lo < hi <= |values| then Sum(values[lo..hi]) else 0
  }

  lemma PendingGrows(values: seq<int>, lo: nat, hi: nat)
    requires lo <= hi < |values|
    ensures Pending(values, lo, hi + 1) == Pending(values, lo, hi) + values[hi]
  {
    var part := values[lo..hi];
    assert values[lo..hi + 1] == part + [values[hi]];
    SumAppend(part, values[hi]);
  }

  lemma PendingShrinks(values: seq<int>, lo: nat, hi: nat)
    requires lo < hi <= |values|
    ensures Pending(values, lo + 1, hi) == Pending(values, lo, hi) - values[lo]
  {
    var part := values[lo..hi];
    assert part[0] == values[lo] && part[1..] == values[lo + 1..hi];
    SumFirst(part);
  }
}
