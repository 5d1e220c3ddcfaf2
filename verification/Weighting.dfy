/** Evidence weights: the Z8 scores of assembly/adaptive.py and the multipliers of assembly/contextual.py,
    with every operation rounded, and, in exact arithmetic, how much influence one component can gain. */
module Weighting {
  import opened Prelude
  import opened Sorting
  import opened Evidence
  import opened Competence
  import opened DecimalRounding

  lemma MulLe(a: real, b: real, c: real)
    requires a <= b && c >= 0.0
    ensures a * c <= b * c
  {
    assert (b - a) * c >= 0.0;
  }

  // ------------------------------------------------------------------ Z8 scores

  datatype Diagnostic = Diagnostic(
    resolvedCount: nat, sampleStrength: real, meanAbsoluteError: Option<real>,
    directionalAccuracy: Option<real>, brierScore: Option<real>, calibrationGap: Option<real>)

  const NO_DIAGNOSTIC := Diagnostic(0, 0.0, None, None, None, None)

  function DiagnosticOf(profile: Option<Profile>): Diagnostic {
    match profile
    case None => NO_DIAGNOSTIC
    case Some(p) =>
      Diagnostic(p.resolvedCount, p.metrics.sampleStrength, p.metrics.meanAbsoluteError,
                 p.metrics.directionalAccuracy, p.metrics.brierScore, p.metrics.calibrationGap)
  }

  predicate RealLe(a: real, b: real) { a <= b }

  /** statistics.median: the middle value, or the mean of the two middle ones. */
  function Median(values: seq<real>): real
    requires values != []
  {
    SortedPermutes(values, RealLe);
    var s, n := Sorted(values, RealLe), |values|;
    if n % 2 == 1 then s[n / 2] else Round(Round(s[n / 2 - 1] + s[n / 2]) / 2.0)
  }

  function ResolvedErrors(diagnostics: seq<Diagnostic>): seq<real> {
    if diagnostics == [] then []
    else
      var d := diagnostics[|diagnostics| - 1];
      ResolvedErrors(diagnostics[..|diagnostics| - 1])
      + (if d.resolvedCount > 0 && d.meanAbsoluteError.Some? then [d.meanAbsoluteError.value] else [])
  }

  function ErrorScale(diagnostics: seq<Diagnostic>): Option<real> {
    var values := ResolvedErrors(diagnostics);
    if values == [] then None else Some(Median(values))
  }

  datatype SkillError = MetricsMissing | DivisionByZero

  function ErrorSkill(scale: Option<real>, mae: real): (r: Result<real, SkillError>)
    ensures r.Ok? ==> 0.0 <= r.value <= 1.0
  {
    if scale.None? then Ok(0.5)
    else if scale.value == 0.0 then Ok(if mae == 0.0 then 1.0 else 0.0)
    else if mae < 0.0 then Ok(0.0)
    else if Round(scale.value + mae) == 0.0 then Err(DivisionByZero)
    else Ok(Clamp(Round(scale.value / Round(scale.value + mae)), 0.0, 1.0))
  }

  /** The mean of four reliabilities, summed and divided one operation after the other. */
  function MeanOfFour(a: real, b: real, c: real, d: real): real {
    Round(Round(Round(Round(a + b) + c) + d) / 4.0)
  }

  lemma MeanOfFourWithin(a: real, b: real, c: real, d: real)
    requires 0.0 <= a <= 1.0 && 0.0 <= b <= 1.0 && 0.0 <= c <= 1.0 && 0.0 <= d <= 1.0
    ensures 0.0 <= MeanOfFour(a, b, c, d) <= 1.0
  {
    RoundWithinHundredths(a + b, 0, 200);
    RoundWithinHundredths(Round(a + b) + c, 0, 300);
    RoundWithinHundredths(Round(Round(a + b) + c) + d, 0, 400);
    RoundWithinHundredths(Round(Round(Round(a + b) + c) + d) / 4.0, 0, 100);
  }

  function Skill(d: Diagnostic, scale: Option<real>): (r: Result<Option<real>, SkillError>)
    ensures r.Ok? && r.value.Some? ==> 0.0 <= r.value.value <= 1.0
    ensures r.Ok? ==> (r.value.None? <==> d.resolvedCount == 0)
  {
    if d.resolvedCount == 0 then Ok(None)
    else if d.directionalAccuracy.None? || d.brierScore.None? || d.calibrationGap.None? || d.meanAbsoluteError.None?
    then Err(MetricsMissing)
    else
      var direction := Clamp(Round(Round(2.0 * d.directionalAccuracy.value) - 1.0), 0.0, 1.0);
      var brier := Clamp(Round(Round(0.25 - d.brierScore.value) / 0.25), 0.0, 1.0);
      var calibration := Clamp(Round(1.0 - Round(2.0 * d.calibrationGap.value)), 0.0, 1.0);
      match ErrorSkill(scale, d.meanAbsoluteError.value)
      case Err(e) => Err(e)
      case Ok(error) =>
        MeanOfFourWithin(direction, brier, calibration, error);
        Ok(Some(MeanOfFour(direction, brier, calibration, error)))
  }

  function Leaning(sampleStrength: real, skill: real): real {
    Round(Times(Round(0.5 * sampleStrength), Round(Round(2.0 * skill) - 1.0)))
  }

  function RawScore(sampleStrength: real, skill: Option<real>): (score: real)
    ensures 0.5 <= score <= 1.5
    ensures skill.None? || sampleStrength == 0.0 ==> score == 1.0
  {
    if skill.None? || sampleStrength == 0.0 then 1.0
    else Clamp(Round(1.0 + Leaning(sampleStrength, skill.value)), 0.5, 1.5)
  }

  /** With the strength and skill that profiles have, the clamp of the score never cuts. */
  lemma ScoreClampIsIdle(sampleStrength: real, skill: real)
    requires 0.0 < sampleStrength <= 1.0 && 0.0 <= skill <= 1.0
    ensures RawScore(sampleStrength, Some(skill)) == Round(1.0 + Leaning(sampleStrength, skill))
  {
    LeaningWithin(sampleStrength, skill);
    RoundWithinHundredths(1.0 + Leaning(sampleStrength, skill), 50, 150);
  }

  lemma LeaningWithin(sampleStrength: real, skill: real)
    requires 0.0 <= sampleStrength <= 1.0 && 0.0 <= skill <= 1.0
    ensures -0.5 <= Leaning(sampleStrength, skill) <= 0.5
  {
    var half, lean := Round(0.5 * sampleStrength), Round(Round(2.0 * skill) - 1.0);
    RoundWithinHundredths(0.5 * sampleStrength, 0, 50);
    RoundWithinHundredths(2.0 * skill, 0, 200);
    RoundWithinHundredths(Round(2.0 * skill) - 1.0, -100, 100);
    Between(lean, half, -1.0, 1.0);
    assert Times(half, lean) == Times(lean, half);
    RoundWithinHundredths(Times(half, lean), -50, 50);
  }

  // ------------------------------------------------------------------ normalisation

  function Shares(scores: seq<real>): seq<real>
    requires Sum(scores) > 0.0
  {
    seq(|scores|, i requires 0 <= i < |scores| => scores[i] / Sum(scores))
  }

  lemma {:induction false} SumScaled(s: seq<real>, t: seq<real>, c: real)
    requires |s| == |t| && forall i :: 0 <= i < |s| ==> s[i] == t[i] * c
    ensures Sum(s) == Sum(t) * c
  {
    if s != [] {
      SumScaled(s[..|s| - 1], t[..|t| - 1], c);
    }
  }

  lemma {:induction false} SharesSumToOne(scores: seq<real>)
    requires Sum(scores) > 0.0
    ensures Sum(Shares(scores)) == 1.0
  {
    var c := 1.0 / Sum(scores);
    forall i | 0 <= i < |scores| ensures Shares(scores)[i] == scores[i] * c {
    }
    SumScaled(Shares(scores), scores, c);
  }

  lemma {:induction false} SumPrefix(s: seq<real>, i: nat)
    requires i < |s|
    ensures Sum(s[..i + 1]) == Sum(s[..i]) + s[i]
  {
    assert s[..i + 1][..i] == s[..i];
  }

  /** The weight loop of assemble_prediction and contextualize_prediction: every weight but the
      last is a share, the last is what remains of 1. In exact arithmetic it is a share too. */
  method NormalizedWeights(scores: seq<real>) returns (weights: seq<real>)
    requires scores != [] && Sum(scores) > 0.0
    ensures weights == Shares(scores)
    ensures Sum(weights) == 1.0
  {
    var total := Sum(scores);
    var running := 0.0;
    weights := [];
    var index := 0;
    ghost var shares := Shares(scores);
    SharesSumToOne(scores);
    while index < |scores|
      invariant 0 <= index <= |scores|
      invariant weights == shares[..index]
      invariant index < |scores| ==> running == Sum(shares[..index])
    {
      var weight;
      SumPrefix(shares, index);
      if index == |scores| - 1 {
        assert shares[..index + 1] == shares;
        weight := 1.0 - running;
      } else {
        weight := scores[index] / total;
        running := running + weight;
      }
      weights := weights + [weight];
      index := index + 1;
    }
    assert shares[..index] == shares;
  }

  // ------------------------------------------------------------------ influence bounds

  lemma OneMoreWithin(low: real, high: real, n: real, x: real, y: real)
    requires Within(low, high, n, x) && low <= y <= high
    ensures Within(low, high, n + 1.0, x + y)
  {
    assert low * (n + 1.0) == low * n + low && high * (n + 1.0) == high * n + high;
  }

  /** What the others add up to. */
  lemma {:induction false} OthersWithin(s: seq<real>, i: nat, low: real, high: real)
    requires i < |s| && forall k :: 0 <= k < |s| ==> low <= s[k] <= high
    ensures Within(low, high, (|s| - 1) as real, Sum(s) - s[i])
  {
    var n := |s| - 1;
    if i == n {
      SumWithin(s[..n], low, high);
    } else {
      OthersWithin(s[..n], i, low, high);
      OneMoreWithin(low, high, (n - 1) as real, Sum(s[..n]) - s[i], s[n]);
    }
  }

  lemma QuotientBounds(x: real, y: real, low: real, high: real)
    requires y > 0.0 && low * y <= x <= high * y
    ensures low <= x / y <= high
  {
    var q := x / y;
    assert q * y == x;
    CancelFactor(y, low, q);
    CancelFactor(y, q, high);
  }

  lemma ReciprocalTimes(a: real, b: real, y: real)
    requires b > 0.0
    ensures (a / b) * y * b == a * y
  {
    assert (a / b) * b == a;
  }

  ghost predicate Scores(s: seq<real>) {
    |s| >= 1 && forall i :: 0 <= i < |s| ==> 0.5 <= s[i] <= 1.5
  }

  /** With n components every Z8 weight lies in [1/(3n-2), 3/(n+2)]. */
  lemma {:induction false} Z8InfluenceBounds(scores: seq<real>, i: nat)
    requires Scores(scores) && i < |scores|
    ensures Sum(scores) > 0.0
    ensures
      var n := |scores| as real;
      1.0 / (3.0 * n - 2.0) <= Shares(scores)[i] <= 3.0 / (n + 2.0)
  {
    OthersWithin(scores, i, 0.5, 1.5);
    assert (|scores| - 1) as real == |scores| as real - 1.0;
    ShareBounds(scores[i], Sum(scores), |scores| as real);
  }

  lemma ShareBounds(s: real, T: real, n: real)
    requires 0.5 <= s <= 1.5 && n >= 1.0 && 0.5 * (n - 1.0) <= T - s <= 1.5 * (n - 1.0)
    ensures T > 0.0 && 1.0 / (3.0 * n - 2.0) <= s / T <= 3.0 / (n + 2.0)
  {
    ShareProducts(s, T, n - 1.0);
    assert n - 1.0 + 3.0 == n + 2.0 && 3.0 * (n - 1.0) + 1.0 == 3.0 * n - 2.0;
    RatioAtLeast(s, T, 1.0, 3.0 * n - 2.0);
    RatioAtMost(s, T, 3.0, n + 2.0);
  }

  lemma ShareProducts(s: real, T: real, m: real)
    requires 0.5 <= s <= 1.5 && m >= 0.0 && 0.5 * m <= T - s <= 1.5 * m
    ensures s * (m + 3.0) <= 3.0 * T && 1.0 * T <= s * (3.0 * m + 1.0)
  {
    Between(s, m, 0.5, 1.5);
    ShareExpand(s, m);
  }

  lemma ShareExpand(s: real, m: real)
    ensures s * (m + 3.0) == Times(s, m) + 3.0 * s
    ensures s * (3.0 * m + 1.0) == 3.0 * Times(s, m) + s
  {
  }

  lemma RatioAtLeast(s: real, T: real, a: real, b: real)
    requires T > 0.0 && b > 0.0 && a * T <= s * b
    ensures a / b <= s / T
  {
    var q, r := a / b, s / T;
    assert q * b == a && r * T == s;
    assert (r - q) * (b * T) == s * b - a * T by {
      assert r * (b * T) == (r * T) * b;
      assert q * (b * T) == (q * b) * T;
    }
    CancelFactor(b * T, q, r);
  }

  lemma RatioAtMost(s: real, T: real, a: real, b: real)
    requires T > 0.0 && b > 0.0 && s * b <= a * T
    ensures s / T <= a / b
  {
    RatioAtLeast(a, b, s, T);
  }

  lemma {:induction false} WeightStrictlyBetween(scores: seq<real>, i: nat)
    requires Scores(scores) && |scores| >= 2 && i < |scores|
    ensures Sum(scores) > 0.0 && 0.0 < Shares(scores)[i] < 1.0
  {
    Z8InfluenceBounds(scores, i);
    var n := |scores| as real;
    assert n >= 2.0;
    assert 3.0 / (n + 2.0) <= 0.75 && 1.0 / (3.0 * n - 2.0) > 0.0;
  }

  /** Components without evidence share the weight equally. */
  lemma {:induction false} NoEvidenceIsEqual(scores: seq<real>, i: nat)
    requires i < |scores| && forall k :: 0 <= k < |scores| ==> scores[k] == 1.0
    ensures Sum(scores) > 0.0 && Shares(scores)[i] == 1.0 / (|scores| as real)
  {
    SumWithin(scores, 1.0, 1.0);
  }

  function Times(a: real, b: real): real { a * b }

  lemma Between(a: real, b: real, low: real, high: real)
    requires low <= a <= high && b >= 0.0
    ensures low * b <= Times(a, b) <= high * b
  {
    MulLe(low, a, b);
    MulLe(a, high, b);
  }

  function Products(a: seq<real>, b: seq<real>): seq<real>
    requires |a| == |b|
  {
    seq(|a|, i requires 0 <= i < |a| => Times(a[i], b[i]))
  }

  lemma LastProduct(x: seq<real>, w: seq<real>, low: real, high: real) returns (last: real)
    requires |x| == |w| > 0 && low <= x[|x| - 1] <= high && w[|x| - 1] >= 0.0
    ensures Within(low, high, w[|x| - 1], last)
    ensures Sum(Products(x, w)) == Sum(Products(x[..|x| - 1], w[..|x| - 1])) + last
  {
    last := Times(x[|x| - 1], w[|x| - 1]);
    ProductsPrefix(x, w);
    Between(x[|x| - 1], w[|x| - 1], low, high);
  }

  predicate Within(low: real, high: real, weight: real, x: real) { low * weight <= x <= high * weight }

  lemma {:induction false} WeightedSumBounds(x: seq<real>, w: seq<real>, low: real, high: real)
    requires |x| == |w|
    requires forall i :: 0 <= i < |x| ==> low <= x[i] <= high && w[i] >= 0.0
    ensures Within(low, high, Sum(w), Sum(Products(x, w)))
  {
    if x != [] {
      var n := |x| - 1;
      WeightedSumBounds(x[..n], w[..n], low, high);
      var last := LastProduct(x, w, low, high);
      BoundsAdd(low, high, Sum(w[..n]), w[n], Sum(Products(x[..n], w[..n])), last);
    }
  }

  lemma ProductsPrefix(x: seq<real>, w: seq<real>)
    requires |x| == |w| && x != []
    ensures Products(x, w)[..|x| - 1] == Products(x[..|x| - 1], w[..|x| - 1])
    ensures Sum(Products(x, w)) == Sum(Products(x[..|x| - 1], w[..|x| - 1])) + Times(x[|x| - 1], w[|x| - 1])
  {
    var n := |x| - 1;
    forall i | 0 <= i < n ensures Products(x, w)[..n][i] == Products(x[..n], w[..n])[i] {
      assert x[..n][i] == x[i] && w[..n][i] == w[i];
    }
    assert Products(x, w)[..n] == Products(x[..n], w[..n]);
  }

  lemma BoundsAdd(low: real, high: real, a: real, b: real, x: real, y: real)
    requires Within(low, high, a, x) && Within(low, high, b, y)
    ensures Within(low, high, a + b, x + y)
  {
    assert low * (a + b) == low * a + low * b && high * (a + b) == high * a + high * b;
  }

  /** The assembled forecast lies between the lowest and the highest component forecast. */
  lemma {:induction false} AssembledWithinComponents(x: seq<real>, scores: seq<real>, low: real, high: real)
    requires Scores(scores) && |x| == |scores|
    requires forall i :: 0 <= i < |x| ==> low <= x[i] <= high
    ensures Sum(scores) > 0.0
    ensures low <= Sum(Products(x, Shares(scores))) <= high
  {
    Z8InfluenceBounds(scores, 0);
    forall i | 0 <= i < |x| ensures Shares(scores)[i] >= 0.0 {
      Z8InfluenceBounds(scores, i);
    }
    WeightedSumBounds(x, Shares(scores), low, high);
    SharesSumToOne(scores);
    assert low * 1.0 == low && high * 1.0 == high;
  }

  // ------------------------------------------------------------------ the Z9 multiplier

  datatype FeatureQuality = FEATURE_QUALIFIED | FEATURE_DEGRADED | FEATURE_UNAVAILABLE

  function QualityFactor(q: FeatureQuality): real {
    match q
    case FEATURE_QUALIFIED => 1.0
    case FEATURE_DEGRADED => 0.90
    case FEATURE_UNAVAILABLE => 0.75
  }

  /** The worst quality among the features a model depends on; a feature not reported is unavailable. */
  function FeatureFactor(dependencies: seq<string>, quality: map<string, FeatureQuality>): (f: real)
    ensures 0.75 <= f <= 1.0
  {
    if dependencies == [] then 1.0
    else
      var first := if dependencies[0] in quality then QualityFactor(quality[dependencies[0]]) else 0.75;
      MinReal(first, FeatureFactor(dependencies[1..], quality))
  }

  type Regimes = map<string, set<string>>

  const REGIME_KEYS: seq<string> :=
    ["correlation", "derivatives", "direction", "liquidity", "structure", "volatility"]

  function RegimeStep(key: string, preferred: Regimes, adverse: Regimes, current: map<string, string>): (f: real)
    ensures f in {0.90, 1.05, 1.0}
  {
    var value := if key in current then current[key] else "UNAVAILABLE";
    if key in adverse && value in adverse[key] then 0.90
    else if key in preferred && value in preferred[key] then 1.05
    else 1.0
  }

  /** A neutral regime takes no multiplication. */
  function Multiplied(factor: real, step: real): real { if step == 1.0 then factor else Round(Times(factor, step)) }

  lemma {:induction false} OneMoreRegime(preferred: Regimes, adverse: Regimes, current: map<string, string>, i: nat)
    requires i < |REGIME_KEYS|
    ensures RegimeProduct(REGIME_KEYS[..i + 1], preferred, adverse, current)
         == Multiplied(RegimeProduct(REGIME_KEYS[..i], preferred, adverse, current),
                       RegimeStep(REGIME_KEYS[i], preferred, adverse, current))
  {
    assert REGIME_KEYS[..i + 1][..i] == REGIME_KEYS[..i];
  }

  function RegimeProduct(keys: seq<string>, preferred: Regimes, adverse: Regimes, current: map<string, string>): real {
    if keys == [] then 1.0
    else Multiplied(RegimeProduct(keys[..|keys| - 1], preferred, adverse, current),
                    RegimeStep(keys[|keys| - 1], preferred, adverse, current))
  }

  function RegimeFactor(preferred: Regimes, adverse: Regimes, current: map<string, string>): real {
    Clamp(RegimeProduct(REGIME_KEYS, preferred, adverse, current), 0.85, 1.15)
  }

  /** _regime_factor: adverse wins over preferred, key by key. */
  method ComputeRegimeFactor(preferred: Regimes, adverse: Regimes, current: map<string, string>)
    returns (factor: real)
    ensures factor == RegimeFactor(preferred, adverse, current)
  {
    factor := 1.0;
    var i := 0;
    while i < |REGIME_KEYS|
      invariant 0 <= i <= |REGIME_KEYS|
      invariant factor == RegimeProduct(REGIME_KEYS[..i], preferred, adverse, current)
    {
      OneMoreRegime(preferred, adverse, current, i);
      var key := REGIME_KEYS[i];
      var value := if key in current then current[key] else "UNAVAILABLE";
      if key in adverse && value in adverse[key] {
        factor := Round(Times(factor, 0.90));
      } else if key in preferred && value in preferred[key] {
        factor := Round(Times(factor, 1.05));
      }
      i := i + 1;
    }
    assert REGIME_KEYS[..i] == REGIME_KEYS;
    factor := Clamp(factor, 0.85, 1.15);
  }

  const MULTIPLIER_MIN := 0.75
  const MULTIPLIER_MAX := 1.25

  function ReliabilityFactor(reliability: real): real { Round(0.90 + Round(0.10 * Clamp(reliability, 0.0, 1.0))) }

  function FreshnessFactor(freshness: real): real { Round(0.95 + Round(0.05 * Clamp(freshness, 0.0, 1.0))) }

  function DiversityFactor(shared: bool): real { if shared then 0.95 else 1.0 }

  /** A product, rounded after each factor. */
  function RawMultiplier(feature: real, regime: real, reliability: real, freshness: real, shared: bool): real {
    var relevant := Round(Times(feature, regime));
    var reliable := Round(Times(relevant, ReliabilityFactor(reliability)));
    var current := Round(Times(reliable, FreshnessFactor(freshness)));
    Round(Times(current, DiversityFactor(shared)))
  }

  function Multiplier(feature: real, regime: real, reliability: real, freshness: real, shared: bool): (m: real)
    ensures MULTIPLIER_MIN <= m <= MULTIPLIER_MAX
  {
    Clamp(RawMultiplier(feature, regime, reliability, freshness, shared), MULTIPLIER_MIN, MULTIPLIER_MAX)
  }

  lemma FactorsBelowOne(reliability: real, freshness: real)
    ensures 0.0 <= ReliabilityFactor(reliability) <= 1.0 && 0.0 <= FreshnessFactor(freshness) <= 1.0
  {
    var r, f := Clamp(reliability, 0.0, 1.0), Clamp(freshness, 0.0, 1.0);
    RoundWithinHundredths(0.10 * r, 0, 10);
    RoundWithinHundredths(0.90 + Round(0.10 * r), 0, 100);
    RoundWithinHundredths(0.05 * f, 0, 5);
    RoundWithinHundredths(0.95 + Round(0.05 * f), 0, 100);
  }

  lemma ProductBelow(a: real, b: real)
    requires 0.0 <= a <= 1.15 && 0.0 <= b <= 1.0
    ensures 0.0 <= Round(Times(a, b)) <= 1.15
  {
    Between(b, a, 0.0, 1.0);
    assert Times(a, b) == Times(b, a);
    RoundWithinHundredths(Times(a, b), 0, 115);
  }

  /** The upper clamp of the multiplier never cuts: no context can raise a weight factor above 1.15. */
  lemma UpperClampIsIdle(feature: real, regime: real, reliability: real, freshness: real, shared: bool)
    requires 0.75 <= feature <= 1.0 && 0.85 <= regime <= 1.15
    ensures RawMultiplier(feature, regime, reliability, freshness, shared) <= 1.15
    ensures Multiplier(feature, regime, reliability, freshness, shared) <= 1.15
  {
    FactorsBelowOne(reliability, freshness);
    assert Times(feature, regime) == Times(regime, feature);
    ProductBelow(regime, feature);
    var relevant := Round(Times(feature, regime));
    ProductBelow(relevant, ReliabilityFactor(reliability));
    var reliable := Round(Times(relevant, ReliabilityFactor(reliability)));
    ProductBelow(reliable, FreshnessFactor(freshness));
    ProductBelow(Round(Times(reliable, FreshnessFactor(freshness))), DiversityFactor(shared));
  }

  ghost predicate WithinRatio(x: real, b: real, low: real, high: real)
    requires 0.0 < low <= high
  {
    (low / high) * b <= x <= (high / low) * b
  }

  /** Base weights that sum to 1 keep at least low/high and at most high/low of themselves. */
  lemma {:induction false} OverlayBounds(base: seq<real>, multipliers: seq<real>, i: nat, low: real, high: real)
    requires |base| == |multipliers| && i < |base| && 0.0 < low <= high
    requires Sum(base) == 1.0
    requires forall k :: 0 <= k < |base| ==> base[k] > 0.0 && low <= multipliers[k] <= high
    ensures Sum(Products(multipliers, base)) > 0.0
    ensures WithinRatio(Shares(Products(multipliers, base))[i], base[i], low, high)
  {
    TotalWithin(base, multipliers, low, high);
    OverlayShare(base[i], multipliers[i], Sum(Products(multipliers, base)), low, high);
  }

  lemma {:induction false} TotalWithin(base: seq<real>, multipliers: seq<real>, low: real, high: real)
    requires |base| == |multipliers| && Sum(base) == 1.0
    requires forall k :: 0 <= k < |base| ==> base[k] > 0.0 && low <= multipliers[k] <= high
    ensures low <= Sum(Products(multipliers, base)) <= high
  {
    WeightedSumBounds(multipliers, base, low, high);
    assert low * 1.0 == low && high * 1.0 == high;
  }

  lemma OverlayShare(b: real, m: real, T: real, low: real, high: real)
    requires 0.0 < low <= high && b > 0.0 && low <= m <= high && low <= T <= high
    ensures WithinRatio(Times(m, b) / T, b, low, high)
  {
    var below, above := (low / high) * b, (high / low) * b;
    assert (low / high) * high == low && (high / low) * low == high;
    assert below * high == low * b by { assert below * high == ((low / high) * high) * b; }
    assert above * low == high * b by { assert above * low == ((high / low) * low) * b; }
    assert low / high > 0.0 && high / low > 0.0;
    MulLe(T, high, below);
    MulLe(low, T, above);
    var u := Times(m, b);
    Between(m, b, low, high);
    QuotientBounds(u, T, below, above);
  }

  /** Each Z9 weight is within [3/5, 5/3] of its base weight; since no multiplier exceeds 1.15, it
      is even within [15/23, 23/15]. */
  lemma {:induction false} Z9InfluenceBounds(base: seq<real>, multipliers: seq<real>, i: nat)
    requires |base| == |multipliers| && i < |base| && Sum(base) == 1.0
    requires forall k :: 0 <= k < |base| ==> base[k] > 0.0 && MULTIPLIER_MIN <= multipliers[k] <= MULTIPLIER_MAX
    ensures Sum(Products(multipliers, base)) > 0.0
    ensures
      var final := Shares(Products(multipliers, base))[i];
      && 0.6 * base[i] <= final <= (5.0 / 3.0) * base[i]
      && ((forall k :: 0 <= k < |base| ==> multipliers[k] <= 1.15) ==>
            (15.0 / 23.0) * base[i] <= final <= (23.0 / 15.0) * base[i])
  {
    OverlayBounds(base, multipliers, i, 0.75, 1.25);
    assert 0.75 / 1.25 == 0.6 && 1.25 / 0.75 == 5.0 / 3.0;
    if forall k :: 0 <= k < |base| ==> multipliers[k] <= 1.15 {
      OverlayBounds(base, multipliers, i, 0.75, 1.15);
      assert 0.75 / 1.15 == 15.0 / 23.0 && 1.15 / 0.75 == 23.0 / 15.0;
    }
  }
}
