/** The weight loops of assemble_prediction and contextualize_prediction as they are computed, with
    every operation rounded to 28 digits: the last weight closes the sum to exactly 1, as the receipt
    contracts demand. */
module RoundedClosure {
  import opened Competence
  import opened Weighting
  import opened DecimalRounding

  /** The largest number of components the closure is proved for. */
  const MOST_COMPONENTS := 1000000000000

  /** What 10^12 roundings can move a sum by, relative to it. */
  const DRIFT := 0.000000000000002

  /** sum(values, Decimal("0")): left to right, rounding after each addition. */
  function RoundedSum(s: seq<real>): real {
    if s == [] then 0.0 else Round(RoundedSum(s[..|s| - 1]) + s[|s| - 1])
  }

  function RoundedShares(u: seq<real>, total: real): seq<real>
    requires total != 0.0
  {
    seq(|u|, i requires 0 <= i < |u| => Round(u[i] / total))
  }

  /** Shares of the rounded total, and what the rounded running sum of them leaves of 1. */
  function RoundedWeights(u: seq<real>): seq<real>
    requires u != [] && RoundedSum(u) > 0.0
  {
    var shares := RoundedShares(u[..|u| - 1], RoundedSum(u));
    shares + [Round(1.0 - RoundedSum(shares))]
  }

  method ComputeRoundedSum(u: seq<real>) returns (total: real)
    ensures total == RoundedSum(u)
  {
    total := 0.0;
    var i := 0;
    while i < |u|
      invariant 0 <= i <= |u| && total == RoundedSum(u[..i])
    {
      assert u[..i + 1][..i] == u[..i];
      total := Round(total + u[i]);
      i := i + 1;
    }
    assert u[..i] == u;
  }

  lemma OneMoreShare(shares: seq<real>, i: nat)
    requires i < |shares|
    ensures shares[..i + 1] == shares[..i] + [shares[i]]
    ensures RoundedSum(shares[..i + 1]) == Round(RoundedSum(shares[..i]) + shares[i])
  {
    assert shares[..i + 1][..i] == shares[..i];
  }

  /** The loop of the source: the last weight is what the running sum leaves of 1. */
  method ComputeRoundedWeights(u: seq<real>) returns (weights: seq<real>)
    requires u != [] && RoundedSum(u) > 0.0
    ensures weights == RoundedWeights(u)
  {
    var total := ComputeRoundedSum(u);
    var running, index := 0.0, 0;
    weights := [];
    ghost var shares := RoundedShares(u[..|u| - 1], total);
    while index < |u|
      invariant 0 <= index <= |u|
      invariant index < |u| ==> weights == shares[..index] && running == RoundedSum(shares[..index])
      invariant index == |u| ==> weights == shares + [Round(1.0 - RoundedSum(shares))]
    {
      var weight;
      if index == |u| - 1 {
        assert shares[..index] == shares;
        weight := Round(1.0 - running);
      } else {
        OneMoreShare(shares, index);
        weight := Round(u[index] / total);
        running := Round(running + weight);
      }
      weights := weights + [weight];
      index := index + 1;
    }
  }

  // ------------------------------------------------------------------ how far rounding drifts

  ghost predicate AllPositive(s: seq<real>) {
    forall i :: 0 <= i < |s| ==> s[i] > 0.0
  }

  lemma {:induction false} SumPositive(s: seq<real>)
    requires AllPositive(s)
    ensures Sum(s) >= 0.0 && (s != [] ==> Sum(s) > 0.0)
  {
    if s != [] {
      SumPositive(s[..|s| - 1]);
    }
  }

  lemma DriftUp(S: real, u: real, r: real, f: real)
    requires S >= 0.0 && u > 0.0 && 1.0 <= f <= 2.0 && r <= Times(S, f)
    ensures (r + u) + (r + u) / PARTS <= Times(S + u, f + 2.0 / PARTS)
  {
    var x := S + u;
    assert Times(x, f) == Times(S, f) + Times(u, f);
    Between(f, u, 1.0, 2.0);
    Between(f, x, 1.0, 2.0);
    assert Times(u, f) == Times(f, u) && Times(x, f) == Times(f, x);
    assert Times(x, f + 2.0 / PARTS) == Times(x, f) + x * (2.0 / PARTS);
  }

  lemma DriftDown(S: real, u: real, r: real, f: real)
    requires S >= 0.0 && u > 0.0 && 0.0 <= f <= 1.0 && Times(S, f) <= r
    ensures Times(S + u, f - 2.0 / PARTS) <= (r + u) - (r + u) / PARTS
  {
    var x := S + u;
    assert Times(x, f) == Times(S, f) + Times(u, f);
    Between(f, u, 0.0, 1.0);
    Between(f, x, 0.0, 1.0);
    assert Times(u, f) == Times(f, u) && Times(x, f) == Times(f, x);
    assert Times(x, f - 2.0 / PARTS) == Times(x, f) - x * (2.0 / PARTS);
  }

  function Factor(k: nat): real { (k as real) * (2.0 / PARTS) }

  lemma FactorSteps(k: nat)
    ensures Factor(k + 1) == Factor(k) + 2.0 / PARTS
    ensures k <= MOST_COMPONENTS ==> 0.0 <= Factor(k) <= DRIFT
  {
  }

  ghost predicate Within(r: real, S: real, f: real) {
    Times(S, 1.0 - f) <= r <= Times(S, 1.0 + f)
  }

  lemma DriftStep(S: real, u: real, r: real, f: real)
    requires S >= 0.0 && u > 0.0 && 0.0 <= f <= 1.0 && Within(r, S, f)
    ensures Within(Round(r + u), S + u, f + 2.0 / PARTS)
  {
    Between(1.0 - f, S, 0.0, 1.0);
    DriftUp(S, u, r, 1.0 + f);
    DriftDown(S, u, r, 1.0 - f);
    RoundingNear(r + u);
  }

  lemma {:induction false} RoundedSumDrift(s: seq<real>)
    requires AllPositive(s) && |s| <= MOST_COMPONENTS
    ensures Within(RoundedSum(s), Sum(s), Factor(|s|))
  {
    if s != [] {
      var n := |s| - 1;
      RoundedSumDrift(s[..n]);
      SumPositive(s[..n]);
      FactorSteps(n);
      DriftStep(Sum(s[..n]), s[n], RoundedSum(s[..n]), Factor(n));
    }
  }

  /** A rounded sum of at most 10^12 positive values stays within the drift of the exact one. */
  lemma {:induction false} RoundedSumNear(s: seq<real>)
    requires AllPositive(s) && |s| <= MOST_COMPONENTS
    ensures Sum(s) - DRIFT * Sum(s) <= RoundedSum(s) <= Sum(s) + DRIFT * Sum(s)
    ensures s != [] ==> RoundedSum(s) > 0.0
  {
    RoundedSumDrift(s);
    SumPositive(s);
    FactorSteps(|s|);
    FactorNear(Sum(s), Factor(|s|));
  }

  lemma FactorNear(sum: real, f: real)
    requires sum >= 0.0 && -DRIFT <= f <= DRIFT
    ensures sum - DRIFT * sum <= Times(sum, 1.0 - f) && Times(sum, 1.0 + f) <= sum + DRIFT * sum
  {
    assert (DRIFT - f) * sum >= 0.0;
  }

  lemma ShareTimes(x: real, total: real, w: real)
    requires x > 0.0 && total > 0.0 && x / total - (x / total) / PARTS <= w <= x / total + (x / total) / PARTS
    ensures x - x / PARTS <= Times(w, total) <= x + x / PARTS
    ensures w > 0.0
  {
    var q := x / total;
    assert Times(q, total) == x;
    assert q > 0.0;
    var low, high := q - q / PARTS, q + q / PARTS;
    assert Times(low, total) == x - x / PARTS && Times(high, total) == x + x / PARTS;
    MulLe(low, w, total);
    MulLe(w, high, total);
  }

  lemma DistributeOver(a: real, b: real, c: real)
    ensures Times(a + b, c) == Times(a, c) + Times(b, c)
  {
  }

  lemma ShareNear(x: real, total: real)
    requires x > 0.0 && total > 0.0
    ensures Round(x / total) > 0.0
    ensures x - x / PARTS <= Times(Round(x / total), total) <= x + x / PARTS
  {
    RoundingNear(x / total);
    ShareTimes(x, total, Round(x / total));
  }

  lemma SharesPositive(u: seq<real>, total: real)
    requires AllPositive(u) && total > 0.0
    ensures AllPositive(RoundedShares(u, total))
  {
    forall i | 0 <= i < |u| ensures RoundedShares(u, total)[i] > 0.0 {
      ShareNear(u[i], total);
    }
  }

  lemma {:induction false} SharesNear(u: seq<real>, total: real)
    requires AllPositive(u) && total > 0.0
    ensures Sum(u) - Sum(u) / PARTS <= Times(Sum(RoundedShares(u, total)), total) <= Sum(u) + Sum(u) / PARTS
  {
    if u != [] {
      var n := |u| - 1;
      SharesNear(u[..n], total);
      var shares := RoundedShares(u, total);
      assert shares[..n] == RoundedShares(u[..n], total);
      assert shares[n] == Round(u[n] / total);
      ShareNear(u[n], total);
      DistributeOver(Sum(shares[..n]), shares[n], total);
    }
  }

  // ------------------------------------------------------------------ the running sum stays in [0.1, 1)

  /** Neither so few components or so uneven that one takes nearly all, nor so many that one gets
      nearly nothing. */
  ghost predicate Balanced(u: seq<real>) {
    && 2 <= |u| <= MOST_COMPONENTS && AllPositive(u)
    && 0.00000000000001 * Sum(u) <= u[|u| - 1] <= 0.89 * Sum(u)
  }

  /** How far the last weight can be off, against the total. */
  const OFF := 0.000000000000007

  lemma CancelTimes(r: real, total: real, low: real, high: real)
    requires total > 0.0 && low * total <= Times(r, total) <= high * total
    ensures low <= r <= high
  {
    CancelFactor(total, low, r);
    CancelFactor(total, r, high);
  }

  lemma ScaleTimes(r: real, w: real, total: real)
    requires total > 0.0 && w - DRIFT * w <= r <= w + DRIFT * w
    ensures Times(w, total) - DRIFT * Times(w, total) <= Times(r, total) <= Times(w, total) + DRIFT * Times(w, total)
  {
    var low, high := w - DRIFT * w, w + DRIFT * w;
    assert Times(low, total) == Times(w, total) - DRIFT * Times(w, total);
    assert Times(high, total) == Times(w, total) + DRIFT * Times(w, total);
    MulLe(low, r, total);
    MulLe(r, high, total);
  }

  /** Where the running sum ends, from the exact sum of the others and of all. */
  lemma RunningFrom(running: real, exactShares: real, total: real, others: real, last: real)
    requires others > 0.0 && last > 0.0 && total > 0.0
    requires others + last - DRIFT * (others + last) <= total <= others + last + DRIFT * (others + last)
    requires others - others / PARTS <= Times(exactShares, total) <= others + others / PARTS
    requires exactShares - DRIFT * exactShares <= running <= exactShares + DRIFT * exactShares
    requires 0.00000000000001 * (others + last) <= last <= 0.89 * (others + last)
    ensures 0.105 <= running <= 1.0 - 0.000000000000001
    ensures last - OFF * (others + last) <= Times(1.0 - running, total) <= last + OFF * (others + last)
    ensures last <= 3.0 * others ==> running >= 0.2499
  {
    ScaleTimes(running, exactShares, total);
    CancelTimes(running, total, 0.105, 1.0 - 0.000000000000001);
    assert Times(1.0 - running, total) == total - Times(running, total);
    if last <= 3.0 * others {
      CancelTimes(running, total, 0.2499, 1.0);
    }
  }

  function SharesOf(u: seq<real>): seq<real>
    requires u != [] && RoundedSum(u) > 0.0
  {
    RoundedShares(u[..|u| - 1], RoundedSum(u))
  }

  lemma {:induction false} SplitLast(u: seq<real>)
    requires u != []
    ensures Sum(u) == Sum(u[..|u| - 1]) + u[|u| - 1]
  {
  }

  /** What the rounded total, the shares and their rounded sum are near. */
  lemma {:induction false} RoundedParts(u: seq<real>)
    requires Balanced(u)
    ensures RoundedSum(u) > 0.0
    ensures
      var total, exact, shares := RoundedSum(u), Sum(u), SharesOf(u);
      var others := Sum(u[..|u| - 1]);
      && exact - DRIFT * exact <= total <= exact + DRIFT * exact
      && others > 0.0
      && others - others / PARTS <= Times(Sum(shares), total) <= others + others / PARTS
      && Sum(shares) - DRIFT * Sum(shares) <= RoundedSum(shares) <= Sum(shares) + DRIFT * Sum(shares)
  {
    var n := |u| - 1;
    RoundedSumNear(u);
    SumPositive(u[..n]);
    SharesNear(u[..n], RoundedSum(u));
    SharesPositive(u[..n], RoundedSum(u));
    RoundedSumNear(SharesOf(u));
  }

  lemma {:induction false} RunningSum(u: seq<real>)
    requires Balanced(u)
    ensures RoundedSum(u) > 0.0
    ensures
      var running, last, others := RoundedSum(SharesOf(u)), u[|u| - 1], Sum(u[..|u| - 1]);
      && 0.105 <= running <= 1.0 - 0.000000000000001
      && last - OFF * (others + last) <= Times(1.0 - running, RoundedSum(u)) <= last + OFF * (others + last)
      && (last <= 3.0 * others ==> running >= 0.2499)
  {
    RoundedParts(u);
    SplitLast(u);
    RunningFrom(RoundedSum(SharesOf(u)), Sum(SharesOf(u)), RoundedSum(u), Sum(u[..|u| - 1]), u[|u| - 1]);
  }

  // ------------------------------------------------------------------ the remainder is exact

  lemma TenToLastPlace()
    ensures TenTo(-1) == 0.1 && TenTo(0) == 1.0 && 10.0 * PARTS * TenTo(-PRECISION) == 1.0
  {
    TenToStep(-1);
    TenToStep(-PRECISION);
    TenToParts(1 - PRECISION);
  }

  /** A rounded value in [0.1, 1) is a whole number of 28th places, so is what it leaves of 1. */
  lemma RemainderIsExact(x: real)
    requires x > 0.0 && 0.105 <= Round(x) <= 1.0 - 0.000000000000001
    ensures Round(1.0 - Round(x)) == 1.0 - Round(x)
  {
    var u := -PRECISION;
    TenToLastPlace();
    RoundingNear(x);
    ExponentIs(x, -1);
    RoundedIsMultiple(x);
    var k: int :| Round(x) == Units(k, u);
    var rest := 1.0 - Round(x);
    var whole := 10000000000000000000000000000;
    assert Units(whole, u) == 1.0;
    UnitsSubtract(whole, k, u);
    assert Multiple(rest, u) by { assert rest == Units(whole - k, u); }
    if Exponent(rest) > -1 {
      TenToGrows(0, Exponent(rest));
      assert false;
    }
    RepresentableIsKept(rest, u);
  }

  lemma UnitsSubtract(a: int, b: int, u: int)
    ensures Units(a, u) - Units(b, u) == Units(a - b, u)
  {
    assert (a - b) as real == a as real - b as real;
  }

  // ------------------------------------------------------------------ closure

  ghost predicate Closed(weights: seq<real>) {
    && (forall i :: 0 <= i < |weights| ==> 0.0 < weights[i] < 1.0)
    && RoundedSum(weights) == 1.0
  }

  lemma BelowOne(share: real, total: real, x: real, others: real, last: real)
    requires 0.0 < x <= others && last >= 0.00000000000001 * (others + last)
    requires total > 0.0 && others + last - DRIFT * (others + last) <= total
    requires Times(share, total) <= x + x / PARTS
    ensures share < 1.0
  {
    if share >= 1.0 {
      MulLe(1.0, share, total);
    }
  }

  lemma {:induction false} ShareBelowOne(u: seq<real>, i: nat)
    requires Balanced(u) && i < |u| - 1
    ensures RoundedSum(u) > 0.0 && 0.0 < SharesOf(u)[i] < 1.0
  {
    RoundedParts(u);
    SplitLast(u);
    ShareNear(u[i], RoundedSum(u));
    AtMostSum(u[..|u| - 1], i);
    BelowOne(SharesOf(u)[i], RoundedSum(u), u[i], Sum(u[..|u| - 1]), u[|u| - 1]);
  }

  lemma {:induction false} AtMostSum(s: seq<real>, i: nat)
    requires AllPositive(s) && i < |s|
    ensures s[i] <= Sum(s)
  {
    SumPositive(s[..|s| - 1]);
    if i < |s| - 1 {
      AtMostSum(s[..|s| - 1], i);
    }
  }

  /** The loop closes: weights strictly between 0 and 1 whose rounded sum, left to right, is exactly 1. */
  lemma {:induction false} RoundedWeightsClose(u: seq<real>)
    requires Balanced(u)
    ensures RoundedSum(u) > 0.0 && |RoundedWeights(u)| == |u| && Closed(RoundedWeights(u))
    ensures RoundedWeights(u)[|u| - 1] == 1.0 - RoundedSum(SharesOf(u))
  {
    RunningSum(u);
    var shares := SharesOf(u);
    var running, n := RoundedSum(shares), |u| - 1;
    var x := RoundedSum(shares[..n - 1]) + shares[n - 1];
    if x <= 0.0 {
      RoundOfNonPositive(x);
    }
    RemainderIsExact(x);
    OneIsKept();
    var weights := RoundedWeights(u);
    assert weights[..n] == shares && weights[n] == 1.0 - running;
    forall i | 0 <= i < |weights| ensures 0.0 < weights[i] < 1.0 {
      if i < n {
        ShareBelowOne(u, i);
      }
    }
  }

  lemma {:induction false} RoundOfNonPositive(x: real)
    requires x <= 0.0
    ensures Round(x) <= 0.0
  {
    if x < 0.0 {
      RoundingNear(-x);
    }
  }

  // ------------------------------------------------------------------ Z8

  lemma {:induction false} ScoresArePositive(scores: seq<real>)
    requires Scores(scores) && 2 <= |scores| <= MOST_COMPONENTS
    ensures AllPositive(scores)
    ensures 0.5 <= Sum(scores[..|scores| - 1]) && Sum(scores) <= 1500000000000.0
    ensures scores[|scores| - 1] <= 3.0 * Sum(scores[..|scores| - 1])
  {
    var n := |scores| - 1;
    SumWithin(scores[..n], 0.5, 1.5);
    SumWithin(scores, 0.5, 1.5);
    assert n as real >= 1.0 && |scores| as real <= 1000000000000.0;
  }

  lemma ScoresAreBalanced(scores: seq<real>)
    requires Scores(scores) && 2 <= |scores| <= MOST_COMPONENTS
    ensures Balanced(scores)
  {
    ScoresArePositive(scores);
    SplitLast(scores);
  }

  /** What the overlay needs to know of the base weights. */
  ghost predicate BaseWeights(b: seq<real>) {
    && 2 <= |b| <= MOST_COMPONENTS && AllPositive(b)
    && 0.0000000000003 <= b[|b| - 1] <= 0.7501
    && 0.249 <= Sum(b[..|b| - 1]) <= 1.001
  }

  lemma RemainderAtLeast(rest: real, total: real)
    requires 0.0 < total <= 1500000000001.0 && Times(rest, total) >= 0.48
    ensures rest >= 0.0000000000003
  {
    if rest < 0.0000000000003 {
      MulLe(rest, 0.0000000000003, total);
    }
  }

  lemma {:induction false} ScoredLast(scores: seq<real>)
    requires Scores(scores) && 2 <= |scores| <= MOST_COMPONENTS
    ensures RoundedSum(scores) > 0.0
    ensures
      var running := RoundedSum(SharesOf(scores));
      0.2499 <= running && 0.0000000000003 <= 1.0 - running
  {
    ScoresAreBalanced(scores);
    ScoresArePositive(scores);
    SplitLast(scores);
    RunningSum(scores);
    RoundedSumNear(scores);
    RemainderAtLeast(1.0 - RoundedSum(SharesOf(scores)), RoundedSum(scores));
  }

  /** With up to 10^12 components the Z8 loop produces weights the receipt contract accepts. */
  lemma {:induction false} Z8Closes(scores: seq<real>)
    requires Scores(scores) && 2 <= |scores| <= MOST_COMPONENTS
    ensures RoundedSum(scores) > 0.0 && |RoundedWeights(scores)| == |scores|
    ensures Closed(RoundedWeights(scores)) && BaseWeights(RoundedWeights(scores))
  {
    ScoresAreBalanced(scores);
    RoundedWeightsClose(scores);
    ScoredLast(scores);
    var weights, shares := RoundedWeights(scores), SharesOf(scores);
    var n := |scores| - 1;
    SharesPositive(scores[..n], RoundedSum(scores));
    RoundedSumNear(shares);
    assert weights[..n] == shares;
  }

  // ------------------------------------------------------------------ Z9

  function Unnormalized(base: seq<real>, multipliers: seq<real>): seq<real>
    requires |base| == |multipliers|
  {
    seq(|base|, i requires 0 <= i < |base| => Round(Times(multipliers[i], base[i])))
  }

  lemma UnnormalizedNear(b: real, m: real)
    requires b > 0.0 && 0.75 <= m <= 1.25
    ensures 0.0 < 0.749 * b <= Round(Times(m, b)) <= 1.251 * b
  {
    Between(m, b, 0.75, 1.25);
    RoundingNear(Times(m, b));
  }

  lemma UnnormalizedPrefix(base: seq<real>, multipliers: seq<real>)
    requires |base| == |multipliers| && base != []
    ensures
      var n := |base| - 1;
      Unnormalized(base, multipliers)[..n] == Unnormalized(base[..n], multipliers[..n])
  {
    var n := |base| - 1;
    forall i | 0 <= i < n
      ensures Unnormalized(base, multipliers)[..n][i] == Unnormalized(base[..n], multipliers[..n])[i]
    {
      assert base[..n][i] == base[i] && multipliers[..n][i] == multipliers[i];
    }
  }

  lemma {:induction false} UnnormalizedSum(base: seq<real>, multipliers: seq<real>)
    requires |base| == |multipliers| && AllPositive(base)
    requires forall i :: 0 <= i < |base| ==> MULTIPLIER_MIN <= multipliers[i] <= MULTIPLIER_MAX
    ensures 0.749 * Sum(base) <= Sum(Unnormalized(base, multipliers)) <= 1.251 * Sum(base)
  {
    if base != [] {
      var n := |base| - 1;
      UnnormalizedSum(base[..n], multipliers[..n]);
      var u := Unnormalized(base, multipliers);
      UnnormalizedPrefix(base, multipliers);
      UnnormalizedNear(base[n], multipliers[n]);
      assert u[n] == Round(Times(multipliers[n], base[n]));
    }
  }

  lemma OverlayIsBalanced(base: seq<real>, multipliers: seq<real>)
    requires BaseWeights(base) && |base| == |multipliers|
    requires forall i :: 0 <= i < |base| ==> MULTIPLIER_MIN <= multipliers[i] <= MULTIPLIER_MAX
    ensures Balanced(Unnormalized(base, multipliers))
  {
    var u, n := Unnormalized(base, multipliers), |base| - 1;
    forall i | 0 <= i < |u| ensures u[i] > 0.0 {
      UnnormalizedNear(base[i], multipliers[i]);
    }
    UnnormalizedNear(base[n], multipliers[n]);
    UnnormalizedSum(base[..n], multipliers[..n]);
    UnnormalizedPrefix(base, multipliers);
    SplitLast(u);
  }

  /** On base weights that Z8 produced, and multipliers within their bounds, the Z9 loop closes too. */
  lemma {:induction false} Z9Closes(scores: seq<real>, multipliers: seq<real>)
    requires Scores(scores) && 2 <= |scores| <= MOST_COMPONENTS && |scores| == |multipliers|
    requires forall i :: 0 <= i < |multipliers| ==> MULTIPLIER_MIN <= multipliers[i] <= MULTIPLIER_MAX
    ensures RoundedSum(scores) > 0.0 && |RoundedWeights(scores)| == |multipliers|
    ensures
      var u := Unnormalized(RoundedWeights(scores), multipliers);
      RoundedSum(u) > 0.0 && |RoundedWeights(u)| == |scores| && Closed(RoundedWeights(u))
  {
    Z8Closes(scores);
    OverlayIsBalanced(RoundedWeights(scores), multipliers);
    RoundedWeightsClose(Unnormalized(RoundedWeights(scores), multipliers));
  }
}
