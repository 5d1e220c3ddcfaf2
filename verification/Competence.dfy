/** autonomous_kernel/evaluation/competence.py: point-in-time competence profiles. */
module Competence {
  import opened Prelude
  import opened Sorting
  import opened Evidence

  const SAMPLE_STRENGTH_PRIOR_COUNT := 50.0

  // ------------------------------------------------------------------ means

  function Sum(s: seq<real>): real {
    if s == [] then 0.0 else Sum(s[..|s| - 1]) + s[|s| - 1]
  }

  function Mean(s: seq<real>): real {
    if s == [] then 0.0 else Sum(s) / (|s| as real)
  }

  function Abs(x: real): real { if x < 0.0 then -x else x }

  function Absolutes(s: seq<real>): seq<real> { seq(|s|, i requires 0 <= i < |s| => Abs(s[i])) }

  function Square(x: real): real { x * x }

  function Squares(s: seq<real>): seq<real> { seq(|s|, i requires 0 <= i < |s| => Square(s[i])) }

  function Differences(a: seq<real>, b: seq<real>): seq<real>
    requires |a| == |b|
  {
    seq(|a|, i requires 0 <= i < |a| => a[i] - b[i])
  }

  lemma {:induction false} SumAbsBound(s: seq<real>)
    ensures Abs(Sum(s)) <= Sum(Absolutes(s))
  {
    if s != [] {
      var n := |s| - 1;
      SumAbsBound(s[..n]);
      assert Absolutes(s)[..n] == Absolutes(s[..n]);
    }
  }

  lemma {:induction false} CauchySchwarz(s: seq<real>)
    ensures Sum(s) * Sum(s) <= (|s| as real) * Sum(Squares(s))
  {
    if s != [] {
      var n := |s| - 1;
      var S, Q, a, m := Sum(s[..n]), Sum(Squares(s[..n])), s[n], n as real;
      CauchySchwarz(s[..n]);
      forall i | 0 <= i < n ensures Squares(s)[..n][i] == Squares(s[..n])[i] {
        assert s[..n][i] == s[i];
      }
      assert Squares(s)[..n] == Squares(s[..n]);
      CrossTerm(S, Q, a, m);
      assert Sum(s) == S + a && Sum(Squares(s)) == Q + a * a && |s| as real == m + 1.0;
      assert (S + a) * (S + a) == S * S + 2.0 * (S * a) + a * a;
      assert (m + 1.0) * (Q + a * a) == m * Q + Q + m * (a * a) + a * a;
    }
  }

  /** From S^2 <= m Q: twice S a is at most Q + m a^2. */
  lemma CrossTerm(S: real, Q: real, a: real, m: real)
    requires m >= 0.0 && S * S <= m * Q && (m == 0.0 ==> S == 0.0 && Q == 0.0) && (m > 0.0 ==> m >= 1.0)
    ensures 2.0 * (S * a) <= Q + m * (a * a)
  {
    if m > 0.0 {
      var d := S - m * a;
      assert d * d >= 0.0;
      assert d * d == S * S - 2.0 * (m * (S * a)) + (m * m) * (a * a);
      assert (m * m) * (a * a) == m * (m * (a * a));
      assert m * (2.0 * (S * a)) <= m * (Q + m * (a * a));
      CancelFactor(m, 2.0 * (S * a), Q + m * (a * a));
    } else {
      assert S * a == 0.0;
    }
  }

  lemma CancelFactor(m: real, x: real, y: real)
    requires m > 0.0 && m * x <= m * y
    ensures x <= y
  {
    var d := x - y;
    assert m * d <= 0.0;
  }

  lemma PositiveFactor(x: real, m: real)
    requires m > 0.0 && x * m > 0.0
    ensures x > 0.0
  {
  }

  lemma {:induction false} MeanScaled(s: seq<real>)
    requires s != []
    ensures Mean(s) * (|s| as real) == Sum(s)
  {
  }

  /** The square of the mean is at most the mean of the squares. */
  lemma MeanSquareBound(s: seq<real>)
    requires s != []
    ensures Square(Mean(s)) <= Mean(Squares(s))
  {
    var n := |s| as real;
    var m, q := Mean(s), Mean(Squares(s));
    CauchySchwarz(s);
    MeanScaled(s);
    MeanScaled(Squares(s));
    assert (m * n) * (m * n) <= n * (q * n);
    assert (m * n) * (m * n) == n * (n * (m * m));
    assert n * (q * n) == n * (n * q);
    CancelFactor(n, n * (m * m), n * q);
    CancelFactor(n, m * m, q);
  }

  // ------------------------------------------------------------------ metrics of resolved pairs

  /** A prediction with its resolved outcome. */
  type Sample = s: (Prediction, Outcome) | s.1.verdict.RESOLVED?
    witness (Prediction("", HISTORICAL_REPLAY, RESEARCH_ONLY, Instrument("", "", ""), "", "", QUALIFIED, 0, 0, 1, 1,
                        TARGET_METRIC, Price(1.0, ""), 0.0, 0.0, None, []),
             Outcome("", 0, RESOLVED(0.0, false), ""))

  function ErrorOf(s: Sample): real { s.1.verdict.realizedReturn - s.0.expectedMove }

  function ActualOf(s: Sample): real { if s.1.verdict.actualPositive then 1.0 else 0.0 }

  function DirectionHit(s: Sample): real {
    if (s.0.expectedMove > 0.0) == s.1.verdict.actualPositive then 1.0 else 0.0
  }

  function IntervalHit(s: Sample): real
    requires s.0.interval.Some?
  {
    if s.0.interval.value.low <= s.1.verdict.realizedReturn <= s.0.interval.value.high then 1.0 else 0.0
  }

  function Errors(items: seq<Sample>): seq<real> { seq(|items|, i requires 0 <= i < |items| => ErrorOf(items[i])) }

  function Actuals(items: seq<Sample>): seq<real> { seq(|items|, i requires 0 <= i < |items| => ActualOf(items[i])) }

  function Probabilities(items: seq<Sample>): seq<real> {
    seq(|items|, i requires 0 <= i < |items| => items[i].0.probabilityPositive)
  }

  function DirectionHits(items: seq<Sample>): seq<real> {
    seq(|items|, i requires 0 <= i < |items| => DirectionHit(items[i]))
  }

  function IntervalHits(items: seq<Sample>): seq<real> {
    if items == [] then []
    else IntervalHits(items[..|items| - 1])
         + (if items[|items| - 1].0.interval.Some? then [IntervalHit(items[|items| - 1])] else [])
  }

  function SampleStrength(count: nat): real {
    (count as real) / (count as real + SAMPLE_STRENGTH_PRIOR_COUNT)
  }

  const NO_METRICS := Metrics(None, None, None, None, None, None, None, 0.0)

  /** The metrics of a non-empty sample as one expression over the whole sample. */
  function ProfileMetrics(items: seq<Sample>): Metrics {
    if items == [] then NO_METRICS
    else
      Metrics(
        Some(Mean(Absolutes(Errors(items)))),
        Some(Mean(Squares(Errors(items)))),
        Some(Mean(Errors(items))),
        Some(Mean(DirectionHits(items))),
        Some(Mean(Squares(Differences(Probabilities(items), Actuals(items))))),
        Some(Abs(Mean(Probabilities(items)) - Mean(Actuals(items)))),
        if IntervalHits(items) == [] then None else Some(Mean(IntervalHits(items))),
        SampleStrength(|items|))
  }

  datatype Lists = Lists(errors: seq<real>, absolutes: seq<real>, squares: seq<real>, probabilities: seq<real>,
                         actuals: seq<real>, directionHits: seq<real>, intervalHits: seq<real>)

  function ListsOf(items: seq<Sample>): Lists {
    Lists(Errors(items), Absolutes(Errors(items)), Squares(Errors(items)), Probabilities(items), Actuals(items),
          DirectionHits(items), IntervalHits(items))
  }

  /** What one sample adds to each list. */
  function Extended(l: Lists, x: Sample): Lists {
    Lists(l.errors + [ErrorOf(x)], l.absolutes + [Abs(ErrorOf(x))], l.squares + [Square(ErrorOf(x))],
          l.probabilities + [x.0.probabilityPositive], l.actuals + [ActualOf(x)], l.directionHits + [DirectionHit(x)],
          l.intervalHits + if x.0.interval.Some? then [IntervalHit(x)] else [])
  }

  lemma OneMoreError(errors: seq<real>, e: real)
    ensures Absolutes(errors + [e]) == Absolutes(errors) + [Abs(e)] && Squares(errors + [e]) == Squares(errors) + [Square(e)]
  {
  }

  lemma OneMoreSample(items: seq<Sample>, x: Sample)
    ensures ListsOf(items + [x]) == Extended(ListsOf(items), x)
  {
    var more := items + [x];
    assert more[..|more| - 1] == items;
    assert Errors(more) == Errors(items) + [ErrorOf(x)];
    OneMoreError(Errors(items), ErrorOf(x));
    assert Probabilities(more) == Probabilities(items) + [x.0.probabilityPositive];
    assert Actuals(more) == Actuals(items) + [ActualOf(x)];
    assert DirectionHits(more) == DirectionHits(items) + [DirectionHit(x)];
  }

  /** The body of the loop of _profile_metrics: each list grows by what the sample gives. */
  method AddSample(l: Lists, x: Sample) returns (r: Lists)
    ensures r == Extended(l, x)
  {
    var prediction, verdict := x.0, x.1.verdict;
    var error := verdict.realizedReturn - prediction.expectedMove;
    var predictedPositive := prediction.expectedMove > 0.0;
    r := Lists(l.errors + [error], l.absolutes + [Abs(error)], l.squares + [Square(error)],
               l.probabilities + [prediction.probabilityPositive], l.actuals + [if verdict.actualPositive then 1.0 else 0.0],
               l.directionHits + [if predictedPositive == verdict.actualPositive then 1.0 else 0.0], l.intervalHits);
    if prediction.interval.Some? {
      var low, high := prediction.interval.value.low, prediction.interval.value.high;
      r := r.(intervalHits := l.intervalHits + [if low <= verdict.realizedReturn <= high then 1.0 else 0.0]);
    } else {
      assert l.intervalHits + [] == l.intervalHits;
    }
  }

  /** The loop of _profile_metrics, which grows the lists. */
  method CollectSamples(items: seq<Sample>) returns (l: Lists)
    ensures l == ListsOf(items)
  {
    l := Lists([], [], [], [], [], [], []);
    var i := 0;
    while i < |items|
      invariant 0 <= i <= |items|
      invariant l == ListsOf(items[..i])
    {
      assert items[..i + 1] == items[..i] + [items[i]];
      OneMoreSample(items[..i], items[i]);
      l := AddSample(l, items[i]);
      i := i + 1;
    }
    assert items[..i] == items;
  }

  /** _profile_metrics: one pass that grows the lists, then the means. */
  method ComputeProfileMetrics(items: seq<Sample>) returns (m: Metrics)
    ensures m == ProfileMetrics(items)
  {
    if items == [] {
      return NO_METRICS;
    }
    var l := CollectSamples(items);
    var coverage := if l.intervalHits == [] then None else Some(Mean(l.intervalHits));
    var count := |items| as real;
    m := Metrics(Some(Mean(l.absolutes)), Some(Mean(l.squares)), Some(Mean(l.errors)), Some(Mean(l.directionHits)),
                 Some(Mean(Squares(Differences(l.probabilities, l.actuals)))),
                 Some(Abs(Mean(l.probabilities) - Mean(l.actuals))), coverage,
                 count / (count + SAMPLE_STRENGTH_PRIOR_COUNT));
  }

  lemma {:induction false} SumOfDifferences(a: seq<real>, b: seq<real>)
    requires |a| == |b|
    ensures Sum(Differences(a, b)) == Sum(a) - Sum(b)
  {
    if a != [] {
      var n := |a| - 1;
      SumOfDifferences(a[..n], b[..n]);
      assert Differences(a, b)[..n] == Differences(a[..n], b[..n]);
    }
  }

  lemma MeanOfDifferences(a: seq<real>, b: seq<real>)
    requires |a| == |b| && a != []
    ensures Mean(Differences(a, b)) == Mean(a) - Mean(b)
  {
    SumOfDifferences(a, b);
  }

  lemma {:induction false} SumWithin(s: seq<real>, low: real, high: real)
    requires forall i :: 0 <= i < |s| ==> low <= s[i] <= high
    ensures low * (|s| as real) <= Sum(s) <= high * (|s| as real)
  {
    if s != [] {
      SumWithin(s[..|s| - 1], low, high);
    }
  }

  /** A mean lies between any bounds of its values. */
  lemma MeanWithin(s: seq<real>, low: real, high: real)
    requires s != [] && forall i :: 0 <= i < |s| ==> low <= s[i] <= high
    ensures low <= Mean(s) <= high
  {
    var n := |s| as real;
    SumWithin(s, low, high);
    MeanScaled(s);
    CancelFactor(n, low, Mean(s));
    CancelFactor(n, Mean(s), high);
  }

  lemma {:induction false} MeanMonotone(s: seq<real>, t: seq<real>)
    requires |s| == |t| && s != [] && Sum(s) <= Sum(t)
    ensures Mean(s) <= Mean(t)
  {
    MeanScaled(s);
    MeanScaled(t);
    CancelFactor(|s| as real, Mean(s), Mean(t));
  }

  lemma SquareOfAbs(x: real)
    ensures Square(Abs(x)) == Square(x)
  {
  }

  /** |bias| <= MAE <= root mean square (stated on squares). */
  lemma ErrorInequalities(items: seq<Sample>)
    requires items != []
    ensures
      var m := ProfileMetrics(items);
      && Abs(m.bias.value) <= m.meanAbsoluteError.value
      && Square(m.meanAbsoluteError.value) <= m.meanSquaredError.value
      && Square(m.bias.value) <= m.meanSquaredError.value
  {
    var e := Errors(items);
    SumAbsBound(e);
    MeanOfAbs(e);
    MeanSquareBound(Absolutes(e));
    MeanSquareBound(e);
    forall i | 0 <= i < |e| ensures Squares(Absolutes(e))[i] == Squares(e)[i] {
      SquareOfAbs(e[i]);
    }
    assert Squares(Absolutes(e)) == Squares(e);
  }

  lemma ScaledAbs(n: real, m: real, mean: real, sum: real, total: real)
    requires n > 0.0 && m * n == sum && mean * n == total && Abs(sum) <= total
    ensures Abs(m) <= mean
  {
    CancelFactor(n, m, mean);
    CancelFactor(n, -m, mean);
  }

  lemma {:induction false} MeanOfAbs(e: seq<real>)
    requires e != [] && Abs(Sum(e)) <= Sum(Absolutes(e))
    ensures Abs(Mean(e)) <= Mean(Absolutes(e))
  {
    MeanScaled(e);
    MeanScaled(Absolutes(e));
    ScaledAbs(|e| as real, Mean(e), Mean(Absolutes(e)), Sum(e), Sum(Absolutes(e)));
  }

  lemma SquareAtMostOne(d: real)
    requires -1.0 <= d <= 1.0
    ensures 0.0 <= Square(d) <= 1.0
  {
    if d >= 0.0 {
      assert d * d <= 1.0 * d;
    } else {
      assert (-d) * (-d) <= 1.0 * (-d);
    }
  }

  /** calibration gap squared <= Brier <= 1, and the rates are rates. */
  lemma CalibrationInequalities(items: seq<Sample>)
    requires items != []
    requires forall i :: 0 <= i < |items| ==> 0.0 <= items[i].0.probabilityPositive <= 1.0
    ensures
      var m := ProfileMetrics(items);
      && Square(m.calibrationGap.value) <= m.brierScore.value <= 1.0
      && 0.0 <= m.directionalAccuracy.value <= 1.0
      && 0.0 <= m.calibrationGap.value <= 1.0
      && (m.intervalCoverage.Some? ==> 0.0 <= m.intervalCoverage.value <= 1.0)
  {
    var p, a := Probabilities(items), Actuals(items);
    var d := Differences(p, a);
    MeanSquareBound(d);
    MeanOfDifferences(p, a);
    SquareOfAbs(Mean(p) - Mean(a));
    forall i | 0 <= i < |d| ensures 0.0 <= Squares(d)[i] <= 1.0 {
      SquareAtMostOne(d[i]);
    }
    MeanWithin(Squares(d), 0.0, 1.0);
    MeanWithin(d, -1.0, 1.0);
    MeanWithin(DirectionHits(items), 0.0, 1.0);
    IntervalHitsAreBits(items);
    if IntervalHits(items) != [] {
      MeanWithin(IntervalHits(items), 0.0, 1.0);
    }
  }

  lemma {:induction false} IntervalHitsAreBits(items: seq<Sample>)
    ensures forall i :: 0 <= i < |IntervalHits(items)| ==> 0.0 <= IntervalHits(items)[i] <= 1.0
  {
    if items != [] {
      IntervalHitsAreBits(items[..|items| - 1]);
    }
  }

  /** More resolved evidence always counts for more, and never for everything. */
  lemma SampleStrengthGrows(n: nat, m: nat)
    requires n < m
    ensures 0.0 <= SampleStrength(n) < SampleStrength(m) < 1.0
  {
    var a, b := n as real, m as real;
    var x, y := SampleStrength(n), SampleStrength(m);
    assert x * (a + 50.0) == a && y * (b + 50.0) == b;
    PositiveFactor(1.0 - y, b + 50.0);
    CancelFactor(a + 50.0, 0.0, x);
    assert y * (b + 50.0) * (a + 50.0) == b * (a + 50.0);
    assert x * (a + 50.0) * (b + 50.0) == a * (b + 50.0);
    assert (y - x) * ((a + 50.0) * (b + 50.0)) == 50.0 * (b - a);
    PositiveFactor(y - x, (a + 50.0) * (b + 50.0));
  }
}
