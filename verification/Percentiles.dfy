/** Nearest-rank percentiles: `_quantiles` of microstream.py and microstructure_features.py. */
module Percentiles {
  import opened Prelude
  import opened Sorting

  predicate NotAbove(a: real, b: real) { a <= b }

  /** The position in the sorted values, for any percentile. */
  function Rank(n: nat, percentile: int): (k: nat)
    requires n > 0
    ensures k < n
  {
    Min(Max(0, (n * percentile + 99) / 100 - 1), n - 1)
  }

  function Percentile(values: seq<real>, percentile: int): real
    requires values != []
  {
    SortedPermutes(values, NotAbove);
    Sorted(values, NotAbove)[Rank(|values|, percentile)]
  }

  method Quantiles(values: seq<real>, percentiles: seq<int>) returns (result: map<int, real>)
    ensures values == [] ==> result == map[]
    ensures values != [] ==>
      forall p :: (p in result <==> p in percentiles) && (p in result ==> result[p] == Percentile(values, p))
  {
    var ordered := Sorted(values, NotAbove);
    SortedPermutes(values, NotAbove);
    result := map[];
    if values == [] {
      return;
    }
    for i := 0 to |percentiles|
      invariant forall p :: (p in result <==> p in percentiles[..i]) && (p in result ==> result[p] == Percentile(values, p))
    {
      var p := percentiles[i];
      var index := Max(0, (|ordered| * p + 99) / 100 - 1);
      result := result[p := ordered[Min(index, |ordered| - 1)]];
    }
  }

  // ------------------------------------------------------------------ counting

  function Count(values: seq<real>, f: real -> bool): (n: nat)
    ensures n <= |values|
  {
    if values == [] then 0 else (if f(values[0]) then 1 else 0) + Count(values[1..], f)
  }

  function AtMost(values: seq<real>, v: real): nat { Count(values, x => x <= v) }

  function Below(values: seq<real>, v: real): nat { Count(values, x => x < v) }

  lemma {:induction false} InsertedCount(x: real, s: seq<real>, f: real -> bool)
    ensures Count(Inserted(x, s, NotAbove), f) == (if f(x) then 1 else 0) + Count(s, f)
  {
    var inserted := Inserted(x, s, NotAbove);
    if s != [] && !NotAbove(x, s[0]) {
      InsertedCount(x, s[1..], f);
      assert inserted[1..] == Inserted(x, s[1..], NotAbove);
    } else {
      assert inserted[1..] == s;
    }
  }

  lemma {:induction false} SortedCount(s: seq<real>, f: real -> bool)
    ensures Count(Sorted(s, NotAbove), f) == Count(s, f)
  {
    if s != [] {
      SortedCount(s[1..], f);
      InsertedCount(s[0], Sorted(s[1..], NotAbove), f);
    }
  }

  lemma {:induction false} CountAtLeast(s: seq<real>, f: real -> bool, k: nat)
    requires k <= |s| && forall i :: 0 <= i < k ==> f(s[i])
    ensures Count(s, f) >= k
  {
    if k > 0 {
      assert f(s[0]);
      assert forall i :: 0 <= i < k - 1 ==> s[1..][i] == s[i + 1];
      CountAtLeast(s[1..], f, k - 1);
    }
  }

  lemma {:induction false} CountAtMost(s: seq<real>, f: real -> bool, k: nat)
    requires k <= |s| && forall i :: k <= i < |s| ==> !f(s[i])
    ensures Count(s, f) <= k
  {
    if s != [] {
      assert forall i :: 0 <= i < |s| - 1 ==> s[1..][i] == s[i + 1];
      CountAtMost(s[1..], f, if k == 0 then 0 else k - 1);
    }
  }

  lemma {:induction false} CountWeaker(s: seq<real>, f: real -> bool, g: real -> bool)
    requires forall x :: f(x) ==> g(x)
    ensures Count(s, f) <= Count(s, g)
  {
    if s != [] {
      CountWeaker(s[1..], f, g);
    }
  }

  // ------------------------------------------------------------------ nearest rank

  lemma RankBounds(n: nat, percentile: int)
    requires n > 0 && 1 <= percentile <= 100
    ensures 100 * Rank(n, percentile) < n * percentile <= 100 * (Rank(n, percentile) + 1)
  {
    assert n <= n * percentile <= n * 100;
  }

  lemma {:induction false} RankCounts(values: seq<real>, k: nat)
    requires k < |values| == |Sorted(values, NotAbove)|
    ensures Below(values, Sorted(values, NotAbove)[k]) <= k < AtMost(values, Sorted(values, NotAbove)[k])
  {
    var s := Sorted(values, NotAbove);
    SortedOrdered(values, NotAbove);
    SortedCount(values, x => x < s[k]);
    SortedCount(values, x => x <= s[k]);
    assert forall i :: 0 <= i < k + 1 ==> NotAbove(s[i], s[k]);
    assert forall i :: k <= i < |s| ==> NotAbove(s[k], s[i]);
    CountAtMost(s, x => x < s[k], k);
    CountAtLeast(s, x => x <= s[k], k + 1);
  }

  /** The percentile is one of the values, at least that share of the values is not above it and less than
      that share is below it, repeated values included. */
  lemma NearestRank(values: seq<real>, percentile: int)
    requires values != [] && 1 <= percentile <= 100
    ensures
      var v := Percentile(values, percentile);
      && v in values
      && 100 * Below(values, v) < percentile * |values| <= 100 * AtMost(values, v)
  {
    var k := Rank(|values|, percentile);
    SortedPermutes(values, NotAbove);
    SortedMembers(values, NotAbove);
    RankBounds(|values|, percentile);
    RankCounts(values, k);
  }

  /** And it is the only such number: the least one that the wanted share of values does not exceed. */
  lemma LeastWithShare(values: seq<real>, percentile: int, v: real)
    requires values != [] && 1 <= percentile <= 100
    ensures percentile * |values| <= 100 * AtMost(values, v) <==> Percentile(values, percentile) <= v
  {
    var r := Percentile(values, percentile);
    NearestRank(values, percentile);
    if r <= v {
      CountWeaker(values, x => x <= r, x => x <= v);
    } else {
      CountWeaker(values, x => x <= v, x => x < r);
    }
  }

  lemma RankGrows(n: nat, p: int, q: int)
    requires n > 0 && p <= q
    ensures Rank(n, p) <= Rank(n, q)
  {
    assert n * p <= n * q;
  }

  /** A larger percentile is never a smaller value, for any integers; outside 1..100 it stays at the least
      or the greatest value. */
  lemma PercentileGrows(values: seq<real>, p: int, q: int)
    requires values != [] && p <= q
    ensures Percentile(values, p) <= Percentile(values, q)
    ensures p <= 0 ==> forall v :: v in values ==> Percentile(values, p) <= v
    ensures q >= 100 ==> forall v :: v in values ==> v <= Percentile(values, q)
  {
    var s := Sorted(values, NotAbove);
    SortedPermutes(values, NotAbove);
    SortedOrdered(values, NotAbove);
    SortedMembers(values, NotAbove);
    RankGrows(|values|, p, q);
    assert NotAbove(s[Rank(|values|, p)], s[Rank(|values|, q)]);
    EndRanks(|values|, p);
    EndRanks(|values|, q);
    forall v | v in values
      ensures p <= 0 ==> Percentile(values, p) <= v
      ensures q >= 100 ==> v <= Percentile(values, q)
    {
      var i :| 0 <= i < |s| && s[i] == v;
      assert NotAbove(s[0], s[i]) && NotAbove(s[i], s[|s| - 1]);
    }
  }

  lemma EndRanks(n: nat, p: int)
    requires n > 0
    ensures p <= 0 ==> Rank(n, p) == 0
    ensures p >= 100 ==> Rank(n, p) == n - 1
  {
    if p <= 0 {
      assert n * p <= 0;
    }
    if p >= 100 {
      assert n * p >= n * 100;
    }
  }

  /** The order in which samples were collected does not matter. */
  lemma PercentileForgetsOrder(values: seq<real>, others: seq<real>, percentile: int)
    requires values != [] && multiset(values) == multiset(others)
    ensures |others| == |values| && Percentile(values, percentile) == Percentile(others, percentile)
  {
    SameLength(values, others);
    SortedPermutes(values, NotAbove);
    SortedPermutes(others, NotAbove);
    SortedOrdered(values, NotAbove);
    SortedOrdered(others, NotAbove);
    OrderedIsUnique(Sorted(values, NotAbove), Sorted(others, NotAbove), NotAbove);
  }
}
