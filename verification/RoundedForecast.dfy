/** The forecasts of assemble_prediction and contextualize_prediction as they are computed: products and
    sums rounded to 28 digits. A probability never leaves [0, 1]; a forecast moves with its components,
    and may leave their range by a last place. */
module RoundedForecast {
  import opened Competence
  import opened Weighting
  import opened DecimalRounding
  import opened RoundedClosure

  function RoundedProducts(x: seq<real>, w: seq<real>): seq<real>
    requires |x| == |w|
  {
    seq(|x|, i requires 0 <= i < |x| => Round(Times(x[i], w[i])))
  }

  /** sum(value * weight): every product rounded, then every addition, left to right. */
  function Forecast(x: seq<real>, w: seq<real>): real
    requires |x| == |w|
  {
    RoundedSum(RoundedProducts(x, w))
  }

  method ComputeForecast(x: seq<real>, w: seq<real>) returns (forecast: real)
    requires |x| == |w|
    ensures forecast == Forecast(x, w)
  {
    forecast := 0.0;
    var i := 0;
    ghost var products := RoundedProducts(x, w);
    while i < |x|
      invariant 0 <= i <= |x| && forecast == RoundedSum(products[..i])
    {
      OneMoreShare(products, i);
      forecast := Round(forecast + Round(Times(x[i], w[i])));
      i := i + 1;
    }
    assert products[..i] == products;
  }

  // ------------------------------------------------------------------ order

  lemma AdditionGrows(a: real, b: real, x: real, y: real)
    requires a <= b && x <= y
    ensures Round(a + x) <= Round(b + y)
  {
    RoundGrows(a + x, b + y);
  }

  lemma {:induction false} RoundedSumGrows(a: seq<real>, b: seq<real>)
    requires |a| == |b| && forall i :: 0 <= i < |a| ==> a[i] <= b[i]
    ensures RoundedSum(a) <= RoundedSum(b)
  {
    if a != [] {
      var n := |a| - 1;
      RoundedSumGrows(a[..n], b[..n]);
      AdditionGrows(RoundedSum(a[..n]), RoundedSum(b[..n]), a[n], b[n]);
    }
  }

  ghost predicate NonNegative(w: seq<real>) { forall i :: 0 <= i < |w| ==> w[i] >= 0.0 }

  ghost predicate Below(x: seq<real>, y: seq<real>) { |x| == |y| && forall i :: 0 <= i < |x| ==> x[i] <= y[i] }

  lemma ProductGrows(x: real, y: real, w: real)
    requires x <= y && w >= 0.0
    ensures Round(Times(x, w)) <= Round(Times(y, w))
  {
    MulLe(x, y, w);
    assert Times(x, w) <= Times(y, w);
    RoundGrows(Times(x, w), Times(y, w));
  }

  /** Raising components never lowers the forecast, rounding and all. */
  lemma {:induction false} ForecastGrows(x: seq<real>, y: seq<real>, w: seq<real>)
    requires Below(x, y) && |x| == |w| && NonNegative(w)
    ensures Forecast(x, w) <= Forecast(y, w)
  {
    forall i | 0 <= i < |x| ensures RoundedProducts(x, w)[i] <= RoundedProducts(y, w)[i] {
      ProductGrows(x[i], y[i], w[i]);
    }
    RoundedSumGrows(RoundedProducts(x, w), RoundedProducts(y, w));
  }

  function Constant(c: real, n: nat): seq<real> { seq(n, _ => c) }

  /** The forecast lies between what the same weights make of its lowest and of its highest component. */
  lemma {:induction false} ForecastBetween(x: seq<real>, w: seq<real>, low: real, high: real)
    requires |x| == |w| && NonNegative(w) && forall i :: 0 <= i < |x| ==> low <= x[i] <= high
    ensures Forecast(Constant(low, |w|), w) <= Forecast(x, w) <= Forecast(Constant(high, |w|), w)
  {
    ForecastGrows(Constant(low, |w|), x, w);
    ForecastGrows(x, Constant(high, |w|), w);
  }

  ghost predicate Inside(x: seq<real>, low: real, high: real) { forall i :: 0 <= i < |x| ==> low <= x[i] <= high }

  /** Two forecasts that a caller can compute from the weights alone: where all components are at one end. */
  predicate KeepsEnds(w: seq<real>, low: real, high: real) {
    low <= Forecast(Constant(low, |w|), w) && Forecast(Constant(high, |w|), w) <= high
  }

  /** Weights keep every forecast in the range of its components exactly when they keep it there with all
      components at the low end, and with all at the high end. */
  lemma {:induction false} RangeKeptExactly(w: seq<real>, low: real, high: real)
    requires NonNegative(w) && low <= high
    ensures (forall x :: |x| == |w| && Inside(x, low, high) ==> low <= Forecast(x, w) <= high) <==> KeepsEnds(w, low, high)
  {
    if KeepsEnds(w, low, high) {
      forall x | |x| == |w| && Inside(x, low, high) ensures low <= Forecast(x, w) <= high {
        ForecastBetween(x, w, low, high);
      }
    } else {
      var x := if low <= Forecast(Constant(low, |w|), w) then Constant(high, |w|) else Constant(low, |w|);
      assert |x| == |w| && Inside(x, low, high);
    }
  }

  // ------------------------------------------------------------------ probabilities

  ghost predicate AllRounded(w: seq<real>) { forall i :: 0 <= i < |w| ==> IsRounded(w[i]) }

  lemma {:induction false} ForecastOfOnes(w: seq<real>)
    requires AllRounded(w)
    ensures Forecast(Constant(1.0, |w|), w) == RoundedSum(w)
  {
    forall i | 0 <= i < |w| ensures RoundedProducts(Constant(1.0, |w|), w)[i] == w[i] {
      assert Times(1.0, w[i]) == w[i];
    }
    assert RoundedProducts(Constant(1.0, |w|), w) == w;
  }

  lemma {:induction false} SumOfZeros(s: seq<real>)
    requires forall i :: 0 <= i < |s| ==> s[i] == 0.0
    ensures RoundedSum(s) == 0.0
  {
    if s != [] {
      SumOfZeros(s[..|s| - 1]);
    }
  }

  lemma {:induction false} ForecastOfZeros(w: seq<real>)
    ensures Forecast(Constant(0.0, |w|), w) == 0.0
  {
    forall i | 0 <= i < |w| ensures RoundedProducts(Constant(0.0, |w|), w)[i] == 0.0 {
      assert Times(0.0, w[i]) == 0.0;
    }
    SumOfZeros(RoundedProducts(Constant(0.0, |w|), w));
  }

  /** With weights that close, an assembled probability is a probability: no slack for rounding is needed. */
  lemma {:induction false} ProbabilityStays(x: seq<real>, w: seq<real>)
    requires |x| == |w| && Closed(w) && AllRounded(w) && forall i :: 0 <= i < |x| ==> 0.0 <= x[i] <= 1.0
    ensures 0.0 <= Forecast(x, w) <= 1.0
  {
    ForecastBetween(x, w, 0.0, 1.0);
    ForecastOfZeros(w);
    ForecastOfOnes(w);
  }

  lemma {:induction false} WeightsAreRounded(u: seq<real>)
    requires u != [] && RoundedSum(u) > 0.0
    ensures AllRounded(RoundedWeights(u))
  {
    var w, shares := RoundedWeights(u), SharesOf(u);
    forall i | 0 <= i < |w| ensures IsRounded(w[i]) {
      if i < |u| - 1 {
        assert w[i] == shares[i] == Round(u[i] / RoundedSum(u));
        RoundAgain(u[i] / RoundedSum(u));
      } else {
        RoundAgain(1.0 - RoundedSum(shares));
      }
    }
  }

  /** However many components: the total of the scores is positive. */
  lemma {:induction false} TotalIsPositive(scores: seq<real>)
    requires Scores(scores)
    ensures RoundedSum(scores) > 0.0
  {
    var n := |scores| - 1;
    if n > 0 {
      TotalIsPositive(scores[..n]);
    }
    RoundSigns(RoundedSum(scores[..n]) + scores[n]);
  }

  // ------------------------------------------------------------------ how far rounding can take a forecast

  /** What rounding can move a forecast by, relative to its size. */
  const SLACK := 0.00000000000001

  lemma ProductNear(c: real, w: real, sum: real, s: real)
    requires c > 0.0 && w > 0.0 && sum >= 0.0
    requires Times(c, sum) - Times(c, sum) / PARTS <= s <= Times(c, sum) + Times(c, sum) / PARTS
    ensures Round(Times(c, w)) > 0.0
    ensures
      var x := Times(c, sum + w);
      x - x / PARTS <= s + Round(Times(c, w)) <= x + x / PARTS
  {
    assert Times(c, w) > 0.0;
    assert Times(c, sum + w) == Times(c, sum) + Times(c, w);
    RoundSigns(Times(c, w));
    RoundingNear(Times(c, w));
  }

  lemma {:induction false} ProductsPrefix(c: real, w: seq<real>)
    requires w != []
    ensures
      var n := |w| - 1;
      RoundedProducts(Constant(c, |w|), w)[..n] == RoundedProducts(Constant(c, n), w[..n])
  {
  }

  lemma {:induction false} ProductsNear(c: real, w: seq<real>)
    requires c > 0.0 && AllPositive(w)
    ensures AllPositive(RoundedProducts(Constant(c, |w|), w))
    ensures
      var x := Times(c, Sum(w));
      x - x / PARTS <= Sum(RoundedProducts(Constant(c, |w|), w)) <= x + x / PARTS
  {
    if w != [] {
      var n := |w| - 1;
      ProductsNear(c, w[..n]);
      SumPositive(w[..n]);
      ProductsPrefix(c, w);
      var products := RoundedProducts(Constant(c, |w|), w);
      ProductNear(c, w[n], Sum(w[..n]), Sum(products[..n]));
      assert products[n] == Round(Times(c, w[n]));
      forall i | 0 <= i < |w| ensures products[i] > 0.0 {
        if i < n {
          assert products[i] == products[..n][i];
        }
      }
    }
  }

  lemma SlackCovers(c: real, total: real, sum: real, forecast: real)
    requires c > 0.0 && total > 0.0
    requires total - DRIFT * total <= 1.0 <= total + DRIFT * total
    requires Times(c, total) - Times(c, total) / PARTS <= sum <= Times(c, total) + Times(c, total) / PARTS
    requires sum - DRIFT * sum <= forecast <= sum + DRIFT * sum
    ensures c - SLACK * c <= forecast <= c + SLACK * c
  {
    assert 0.999999999999997 <= total <= 1.000000000000003;
    Between(total, c, 0.999999999999997, 1.000000000000003);
    assert Times(total, c) == Times(c, total);
  }

  lemma {:induction false} PositiveConstantNear(c: real, w: seq<real>)
    requires c > 0.0 && w != [] && |w| <= MOST_COMPONENTS && Closed(w)
    ensures c - SLACK * c <= Forecast(Constant(c, |w|), w) <= c + SLACK * c
  {
    var products := RoundedProducts(Constant(c, |w|), w);
    ProductsNear(c, w);
    RoundedSumNear(w);
    RoundedSumNear(products);
    SumPositive(w);
    SlackCovers(c, Sum(w), Sum(products), RoundedSum(products));
  }

  lemma {:induction false} NegatedSum(a: seq<real>, b: seq<real>)
    requires |a| == |b| && forall i :: 0 <= i < |a| ==> b[i] == -a[i]
    ensures RoundedSum(b) == -RoundedSum(a)
  {
    if a != [] {
      var n := |a| - 1;
      NegatedSum(a[..n], b[..n]);
      RoundSigns(RoundedSum(a[..n]) + a[n]);
    }
  }

  lemma {:induction false} NegatedConstant(c: real, w: seq<real>)
    ensures Forecast(Constant(-c, |w|), w) == -Forecast(Constant(c, |w|), w)
  {
    var a, b := RoundedProducts(Constant(c, |w|), w), RoundedProducts(Constant(-c, |w|), w);
    forall i | 0 <= i < |w| ensures b[i] == -a[i] {
      assert Times(-c, w[i]) == -Times(c, w[i]);
      RoundSigns(Times(c, w[i]));
    }
    NegatedSum(a, b);
  }

  function Size(c: real): real { if c < 0.0 then -c else c }

  /** Components that agree are forecast as they are, up to the slack. */
  lemma {:induction false} ConstantNear(c: real, w: seq<real>)
    requires w != [] && |w| <= MOST_COMPONENTS && Closed(w)
    ensures c - SLACK * Size(c) <= Forecast(Constant(c, |w|), w) <= c + SLACK * Size(c)
  {
    if c > 0.0 {
      PositiveConstantNear(c, w);
    } else if c < 0.0 {
      PositiveConstantNear(-c, w);
      NegatedConstant(c, w);
    } else {
      ForecastOfZeros(w);
    }
  }

  /** A forecast stays in the range of its components, up to the slack. */
  lemma {:induction false} ForecastNear(x: seq<real>, w: seq<real>, low: real, high: real)
    requires |x| == |w| && w != [] && |w| <= MOST_COMPONENTS && Closed(w)
    requires forall i :: 0 <= i < |x| ==> low <= x[i] <= high
    ensures low - SLACK * Size(low) <= Forecast(x, w) <= high + SLACK * Size(high)
  {
    ForecastBetween(x, w, low, high);
    ConstantNear(low, w);
    ConstantNear(high, w);
  }

  // ------------------------------------------------------------------ the weights and the exact shares

  lemma ScaledUp(q: real, total: real, sum: real, u: real)
    requires sum > 0.0 && 0.0 < u <= sum && Times(q, sum) == u && q > 0.0
    requires sum - DRIFT * sum <= total
    ensures u + OFF * sum <= Times(q + SLACK, total)
  {
    var x := q + SLACK;
    MulLe(sum - DRIFT * sum, total, x);
    assert Times(x, sum) == u + SLACK * sum;
    assert (sum - DRIFT * sum) * x == Times(x, sum) - DRIFT * Times(x, sum);
    assert Times(x, total) == total * x;
  }

  lemma ScaledDown(q: real, total: real, sum: real, u: real)
    requires sum > 0.0 && 0.0 < u <= sum && Times(q, sum) == u && q >= SLACK
    requires total <= sum + DRIFT * sum
    ensures Times(q - SLACK, total) <= u - OFF * sum
  {
    var x := q - SLACK;
    MulLe(total, sum + DRIFT * sum, x);
    assert Times(x, sum) == u - SLACK * sum;
    assert (sum + DRIFT * sum) * x == Times(x, sum) + DRIFT * Times(x, sum);
    assert Times(x, total) == total * x;
  }

  lemma CancelTotal(a: real, b: real, total: real)
    requires total > 0.0 && Times(a, total) <= Times(b, total)
    ensures a <= b
  {
    assert Times(a, total) == total * a && Times(b, total) == total * b;
    CancelFactor(total, a, b);
  }

  lemma ShareClose(w: real, total: real, sum: real, u: real)
    requires sum > 0.0 && 0.0 < u <= sum && w > 0.0 && total > 0.0
    requires sum - DRIFT * sum <= total <= sum + DRIFT * sum
    requires u - OFF * sum <= Times(w, total) <= u + OFF * sum
    ensures u / sum - SLACK <= w <= u / sum + SLACK
  {
    var q := u / sum;
    assert Times(q, sum) == u && q > 0.0;
    ScaledUp(q, total, sum, u);
    CancelTotal(w, q + SLACK, total);
    if q >= SLACK {
      ScaledDown(q, total, sum, u);
      CancelTotal(q - SLACK, w, total);
    }
  }

  /** The loop's weights are the exact shares, up to the slack. */
  lemma {:induction false} WeightsNear(u: seq<real>, i: nat)
    requires Balanced(u) && i < |u|
    ensures RoundedSum(u) > 0.0 && Sum(u) > 0.0
    ensures u[i] / Sum(u) - SLACK <= RoundedWeights(u)[i] <= u[i] / Sum(u) + SLACK
  {
    RoundedParts(u);
    SplitLast(u);
    RunningSum(u);
    RoundedWeightsClose(u);
    AtMostSum(u, i);
    if i < |u| - 1 {
      ShareNear(u[i], RoundedSum(u));
      assert RoundedWeights(u)[i] == SharesOf(u)[i];
    }
    ShareClose(RoundedWeights(u)[i], RoundedSum(u), Sum(u), u[i]);
  }

  /** The weights that are computed are the exact shares, up to the slack: the influence bounds of exact
      arithmetic hold for them up to it. */
  lemma {:induction false} WeightsNearShares(scores: seq<real>, i: nat)
    requires Scores(scores) && 2 <= |scores| <= MOST_COMPONENTS && i < |scores|
    ensures RoundedSum(scores) > 0.0 && Sum(scores) > 0.0
    ensures Shares(scores)[i] - SLACK <= RoundedWeights(scores)[i] <= Shares(scores)[i] + SLACK
    ensures
      var n := |scores| as real;
      1.0 / (3.0 * n - 2.0) - SLACK <= RoundedWeights(scores)[i] <= 3.0 / (n + 2.0) + SLACK
  {
    ScoresAreBalanced(scores);
    WeightsNear(scores, i);
    Z8InfluenceBounds(scores, i);
  }

  // ------------------------------------------------------------------ the overlay and its base weights

  lemma PartsOfMultiple(c: real, b: real)
    ensures Times(c - c / PARTS, b) == Times(c, b) - Times(c, b) / PARTS
    ensures Times(c + c / PARTS, b) == Times(c, b) + Times(c, b) / PARTS
  {
  }

  lemma ProductPositive(a: real, b: real)
    requires a > 0.0 && b > 0.0
    ensures Times(a, b) > 0.0
  {
  }

  /** A rounded product lies between the same multiples of the base weight as the exact one, but for rounding. */
  lemma ProductWithin(b: real, m: real, low: real, high: real)
    requires b > 0.0 && 0.0 < low <= m <= high
    ensures Times(low - low / PARTS, b) <= Round(Times(m, b)) <= Times(high + high / PARTS, b)
  {
    ProductPositive(m, b);
    RoundingNear(Times(m, b));
    PartsOfMultiple(low, b);
    PartsOfMultiple(high, b);
    ProductsOrdered(low, m, b);
    ProductsOrdered(m, high, b);
  }

  lemma ProductsOrdered(a: real, c: real, b: real)
    requires a <= c && b >= 0.0
    ensures Times(a, b) <= Times(c, b)
  {
    MulLe(a, c, b);
  }

  ghost predicate BetweenMultiples(u: seq<real>, base: seq<real>, low: real, high: real)
    requires |u| == |base|
  {
    forall i :: 0 <= i < |u| ==> Times(low, base[i]) <= u[i] <= Times(high, base[i])
  }

  lemma {:induction false} SumBetweenMultiples(u: seq<real>, base: seq<real>, low: real, high: real)
    requires |u| == |base| && BetweenMultiples(u, base, low, high)
    ensures Times(low, Sum(base)) <= Sum(u) <= Times(high, Sum(base))
  {
    if u != [] {
      var n := |u| - 1;
      assert forall i :: 0 <= i < n ==> u[..n][i] == u[i] && base[..n][i] == base[i];
      SumBetweenMultiples(u[..n], base[..n], low, high);
      MultipleOfSum(low, Sum(base[..n]), base[n]);
      MultipleOfSum(high, Sum(base[..n]), base[n]);
    }
  }

  lemma MultipleOfSum(c: real, a: real, b: real)
    ensures Times(c, a + b) == Times(c, a) + Times(c, b)
  {
  }

  /** The multiplier range, widened by what rounding can do to the products and to the sum of the base weights. */
  function Lowest(low: real): real { low - 2.0 * DRIFT * low }
  function Highest(high: real): real { high + 2.0 * DRIFT * high }

  lemma TotalNearOne(total: real, S: real, low: real, high: real)
    requires 0.75 <= low <= high <= 1.25
    requires S > 0.0 && S - DRIFT * S <= 1.0 <= S + DRIFT * S
    requires Times(low - low / PARTS, S) <= total <= Times(high + high / PARTS, S)
    ensures Lowest(low) <= total <= Highest(high)
  {
    assert 1.0 - DRIFT <= S <= 1.0 + 1.5 * DRIFT;
    var L, H := low - low / PARTS, high + high / PARTS;
    MulLe(1.0 - DRIFT, S, L);
    MulLe(S, 1.0 + 1.5 * DRIFT, H);
    assert Times(L, S) == S * L && Times(H, S) == S * H;
  }

  lemma FactorOf(u: real, b: real, low: real, high: real) returns (m: real)
    requires b > 0.0 && Times(low, b) <= u <= Times(high, b)
    ensures Times(m, b) == u && low <= m <= high
  {
    m := u / b;
    QuotientTimes(u, b);
    CancelTotal(low, m, b);
    CancelTotal(m, high, b);
  }

  /** The exact shares of rounded products lie between the widened multiples of the base weights. */
  lemma {:induction false} OverlaidShare(base: seq<real>, multipliers: seq<real>, i: nat, low: real, high: real)
    requires |base| == |multipliers| && i < |base| <= MOST_COMPONENTS && AllPositive(base) && RoundedSum(base) == 1.0
    requires 0.75 <= low <= high <= 1.25 && forall k :: 0 <= k < |base| ==> low <= multipliers[k] <= high
    ensures Sum(Unnormalized(base, multipliers)) > 0.0
    ensures
      var u := Unnormalized(base, multipliers);
      WithinRatio(u[i] / Sum(u), base[i], Lowest(low), Highest(high))
  {
    var u, L, H := Unnormalized(base, multipliers), low - low / PARTS, high + high / PARTS;
    forall k | 0 <= k < |u| ensures Times(L, base[k]) <= u[k] <= Times(H, base[k]) {
      ProductWithin(base[k], multipliers[k], low, high);
    }
    SumBetweenMultiples(u, base, L, H);
    RoundedSumNear(base);
    SumPositive(base);
    TotalNearOne(Sum(u), Sum(base), low, high);
    var m := FactorOf(u[i], base[i], L, H);
    OverlayShare(base[i], m, Sum(u), Lowest(low), Highest(high));
  }

  lemma RatiosNear(x: real, b: real)
    requires 0.0 < b < 1.0
    ensures WithinRatio(x, b, Lowest(0.75), Highest(1.25)) ==> 0.6 * b - 2.0 * SLACK <= x <= (5.0 / 3.0) * b + 2.0 * SLACK
    ensures WithinRatio(x, b, Lowest(0.75), Highest(1.15)) ==>
      (15.0 / 23.0) * b - 2.0 * SLACK <= x <= (23.0 / 15.0) * b + 2.0 * SLACK
  {
  }

  /** What the overlay can do to a base weight, as both are computed: within [3/5, 5/3] of it, and within
      [15/23, 23/15] while no multiplier exceeds 1.15, up to the slack. */
  lemma {:induction false} OverlayNearBase(scores: seq<real>, multipliers: seq<real>, i: nat)
    requires Scores(scores) && 2 <= |scores| <= MOST_COMPONENTS && |scores| == |multipliers| && i < |scores|
    requires forall k :: 0 <= k < |multipliers| ==> MULTIPLIER_MIN <= multipliers[k] <= MULTIPLIER_MAX
    ensures RoundedSum(scores) > 0.0 && |RoundedWeights(scores)| == |multipliers|
    ensures
      var base := RoundedWeights(scores);
      var u := Unnormalized(base, multipliers);
      && RoundedSum(u) > 0.0 && |RoundedWeights(u)| == |scores|
      && 0.6 * base[i] - 3.0 * SLACK <= RoundedWeights(u)[i] <= (5.0 / 3.0) * base[i] + 3.0 * SLACK
      && ((forall k :: 0 <= k < |multipliers| ==> multipliers[k] <= 1.15) ==>
            (15.0 / 23.0) * base[i] - 3.0 * SLACK <= RoundedWeights(u)[i] <= (23.0 / 15.0) * base[i] + 3.0 * SLACK)
  {
    Z8Closes(scores);
    var base := RoundedWeights(scores);
    var u := Unnormalized(base, multipliers);
    OverlayIsBalanced(base, multipliers);
    WeightsNear(u, i);
    RatiosNear(u[i] / Sum(u), base[i]);
    OverlaidShare(base, multipliers, i, 0.75, 1.25);
    if forall k :: 0 <= k < |multipliers| ==> multipliers[k] <= 1.15 {
      OverlaidShare(base, multipliers, i, 0.75, 1.15);
    }
  }

  // ------------------------------------------------------------------ a forecast outside the range

  /** 28 nines after the point. */
  const NINES := 0.9999999999999999999999999999

  lemma TenToTwentyEighth()
    ensures TenTo(-28) == 0.0000000000000000000000000001 && TenTo(-1) == 0.1 && TenTo(0) == 1.0
  {
    TenToStep(-1);
    TenToParts(-28);
  }

  lemma HalfOfNines()
    ensures Round(Times(NINES, 0.5)) == 0.5
  {
    TenToTwentyEighth();
    var x := Times(NINES, 0.5);
    assert x == 0.49999999999999999999999999995;
    ExponentIs(x, -1);
    assert Quantum(x) == TenTo(-28);
    var y := x / TenTo(-28);
    assert y * TenTo(-28) == x;
    assert y == 4999999999999999999999999999.5;
    assert y.Floor == 4999999999999999999999999999;
    assert HalfEven(y) == 5000000000000000000000000000;
  }

  lemma EqualWeights()
    ensures RoundedSum([1.0, 1.0]) == 2.0 && RoundedWeights([1.0, 1.0]) == [0.5, 0.5]
  {
    var u := [1.0, 1.0];
    assert u[..1] == [1.0] && [1.0][..0] == [];
    HundredthsAreKept(100, 1.0);
    HundredthsAreKept(200, 2.0);
    HundredthsAreKept(50, 0.5);
    assert RoundedSum([1.0]) == Round(0.0 + 1.0);
    assert RoundedSum(u) == Round(1.0 + 1.0);
    var shares := RoundedShares([1.0], 2.0);
    assert shares == [0.5];
    assert [0.5][..0] == [];
    assert RoundedSum(shares) == Round(0.0 + 0.5);
  }

  lemma SumOfHalves()
    ensures RoundedSum([0.5, 0.5]) == 1.0
  {
    HundredthsAreKept(50, 0.5);
    HundredthsAreKept(100, 1.0);
    assert [0.5, 0.5][..1] == [0.5] && [0.5][..0] == [];
    assert RoundedSum([0.5]) == Round(0.0 + 0.5);
    assert RoundedSum([0.5, 0.5]) == Round(0.5 + 0.5);
  }

  lemma {:induction false} EqualProducts(p: real, product: real)
    requires Round(Times(p, 0.5)) == product
    ensures RoundedProducts([p, p], [0.5, 0.5]) == [product, product]
  {
  }

  /** The range is not kept exactly: two equal scores, two probabilities of 28 nines each, and the assembled
      probability is 1. */
  lemma RangeIsLeft()
    ensures RoundedSum([1.0, 1.0]) == 2.0 && RoundedWeights([1.0, 1.0]) == [0.5, 0.5]
    ensures Forecast([NINES, NINES], [0.5, 0.5]) == 1.0 && NINES < 1.0
  {
    EqualWeights();
    HalfOfNines();
    EqualProducts(NINES, 0.5);
    SumOfHalves();
  }
}
