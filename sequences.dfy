/** General facts about sequences shared by the vocabulary, the planes and
    the aggregation. */
module Sequences {

  /** No element occurs twice. */
  predicate Unique<T(==)>(s: seq<T>) {
    forall i, j :: 0 <= i < j < |s| ==> s[i] != s[j]
  }

  /** sum() of a list of integers, added left to right. */
  function Sum(xs: seq<int>): int {
    if |xs| == 0 then 0 else Sum(xs[..|xs| - 1]) + xs[|xs| - 1]
  }

  lemma SumPrefix(t: seq<int>, i: int)
    requires 0 < i <= |t|
    ensures Sum(t[..i]) == Sum(t[..i - 1]) + t[i - 1]
  {
    assert t[..i][..i - 1] == t[..i - 1];
  }

  lemma SumOfEight(t: seq<int>)
    requires |t| == 8
    ensures Sum(t) == t[0] + t[1] + t[2] + t[3] + t[4] + t[5] + t[6] + t[7]
  {
    assert t[..8] == t;
    assert t[..0] == [];
    SumPrefix(t, 8);
    SumPrefix(t, 7);
    SumPrefix(t, 6);
    SumPrefix(t, 5);
    SumPrefix(t, 4);
    SumPrefix(t, 3);
    SumPrefix(t, 2);
    SumPrefix(t, 1);
  }
}
