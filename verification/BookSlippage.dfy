/** What the two order-book walks report: the depth walk of market_data.py, and the buy and sell slippage of
    microstructure_features.py, over the generic walk of BookWalk. */
module BookSlippage {
  import opened Prelude
  import opened Sorting
  import opened BookWalk

  datatype Level = Level(price: real, size: real)

  predicate ValidLevels(levels: seq<Level>) { forall l :: l in levels ==> l.price > 0.0 && l.size > 0.0 }

  predicate Cheaper(a: Level, b: Level) { a.price <= b.price }

  predicate Costlier(a: Level, b: Level) { a.price >= b.price }

  /** Buying or selling base: a unit is worth the price. */
  function BaseStep(l: Level): Step { Step(l.price, l.size) }

  /** Spending quote: a unit buys the reciprocal of the price. */
  function QuoteStep(l: Level): Step { Step(if l.price == 0.0 then 0.0 else 1.0 / l.price, l.price * l.size) }

  function BaseSteps(levels: seq<Level>): (r: seq<Step>)
    ensures |r| == |levels|
    ensures forall i :: 0 <= i < |levels| ==> r[i] == BaseStep(levels[i])
  {
    seq(|levels|, i requires 0 <= i < |levels| => BaseStep(levels[i]))
  }

  function QuoteSteps(levels: seq<Level>): (r: seq<Step>)
    ensures |r| == |levels|
    ensures forall i :: 0 <= i < |levels| ==> r[i] == QuoteStep(levels[i])
  {
    seq(|levels|, i requires 0 <= i < |levels| => QuoteStep(levels[i]))
  }

  function Added(a: Filled, b: Filled): Filled { Filled(a.taken + b.taken, a.value + b.value) }

  // ------------------------------------------------------------------ the depth walk

  /** The loop as written: no guard against negative numbers, stopping when nothing remains. */
  function DepthFill(levels: seq<Level>, wanted: real): Filled {
    if levels == [] then NOTHING_FILLED
    else
      var t := MinReal(wanted, levels[0].size);
      Plus(t, levels[0].price, if wanted - t == 0.0 then NOTHING_FILLED else DepthFill(levels[1..], wanted - t))
  }

  datatype DepthReport = DepthReport(filled: real, sufficient: bool, vwap: real, slippage: real)

  function Bps(difference: real, reference: real): real
    requires reference != 0.0
  {
    difference / reference * 10000.0
  }

  function Abs(x: real): real { if x < 0.0 then -x else x }

  function DepthReportOf(levels: seq<Level>, quantity: real, reference: real): DepthReport
    requires reference != 0.0
  {
    var f := DepthFill(levels, quantity);
    if f.taken == 0.0 then DepthReport(0.0, false, 0.0, 0.0)
    else
      var vwap := f.value / f.taken;
      DepthReport(f.taken, quantity - f.taken == 0.0, vwap, Bps(Abs(vwap - reference), reference))
  }

  /** The loop has taken `soFar` from the levels before `i`. */
  ghost predicate DepthSoFar(levels: seq<Level>, wanted: real, soFar: Filled, i: nat)
    requires i <= |levels|
  {
    DepthFill(levels, wanted) == Added(soFar, DepthFill(levels[i..], wanted - soFar.taken))
  }

  lemma {:induction false} DepthOneMore(levels: seq<Level>, wanted: real, soFar: Filled, i: nat, t: real)
    requires i < |levels| && DepthSoFar(levels, wanted, soFar, i) && t == MinReal(wanted - soFar.taken, levels[i].size)
    ensures
      var after := Plus(t, levels[i].price, soFar);
      if wanted - after.taken == 0.0 then DepthFill(levels, wanted) == after else DepthSoFar(levels, wanted, after, i + 1)
  {
    assert levels[i..][0] == levels[i] && levels[i..][1..] == levels[i + 1..];
    assert wanted - soFar.taken - t == wanted - Plus(t, levels[i].price, soFar).taken;
  }

  method FillDepth(levels: seq<Level>, quantity: real) returns (totalQuantity: real, totalNotional: real)
    ensures Filled(totalQuantity, totalNotional) == DepthFill(levels, quantity)
  {
    var remaining := quantity;
    totalQuantity, totalNotional := 0.0, 0.0;
    assert levels[0..] == levels;
    for i := 0 to |levels|
      invariant remaining == quantity - totalQuantity
      invariant DepthSoFar(levels, quantity, Filled(totalQuantity, totalNotional), i)
    {
      var taken := MinReal(remaining, levels[i].size);
      DepthOneMore(levels, quantity, Filled(totalQuantity, totalNotional), i, taken);
      totalQuantity, totalNotional := totalQuantity + taken, totalNotional + taken * levels[i].price;
      remaining := remaining - taken;
      if remaining == 0.0 {
        return;
      }
    }
  }

  method DepthWalk(levels: seq<Level>, quantity: real, reference: real) returns (report: DepthReport)
    requires reference != 0.0
    ensures report == DepthReportOf(levels, quantity, reference)
  {
    var totalQuantity, totalNotional := FillDepth(levels, quantity);
    if totalQuantity == 0.0 {
      return DepthReport(0.0, false, 0.0, 0.0);
    }
    var vwap := totalNotional / totalQuantity;
    return DepthReport(totalQuantity, quantity - totalQuantity == 0.0, vwap, Bps(Abs(vwap - reference), reference));
  }

  lemma {:induction false} DepthIsWalk(levels: seq<Level>, wanted: real)
    requires ValidLevels(levels) && wanted >= 0.0
    ensures DepthFill(levels, wanted) == Walk(BaseSteps(levels), wanted)
  {
    if levels != [] {
      var t := MinReal(wanted, levels[0].size);
      assert BaseSteps(levels)[1..] == BaseSteps(levels[1..]);
      if wanted - t == 0.0 {
        NothingWanted(BaseSteps(levels[1..]), 0.0);
      } else {
        DepthIsWalk(levels[1..], wanted - t);
      }
    }
  }

  function Size(levels: seq<Level>): real { Capacity(BaseSteps(levels)) }

  function QuoteDepth(levels: seq<Level>): real { Capacity(QuoteSteps(levels)) }

  lemma BaseIsPositive(levels: seq<Level>)
    requires ValidLevels(levels)
    ensures Positive(BaseSteps(levels))
  {
    forall i | 0 <= i < |levels| ensures BaseSteps(levels)[i].capacity > 0.0 {
      assert levels[i] in levels;
    }
  }

  /** What the report says is filled is what was asked for or all there is; the depth is called sufficient
      exactly when something was asked for and all of it is there. */
  lemma DepthFillsExactly(levels: seq<Level>, quantity: real, reference: real)
    requires ValidLevels(levels) && quantity >= 0.0 && reference != 0.0
    ensures
      var r := DepthReportOf(levels, quantity, reference);
      && r.filled == MinReal(quantity, Size(levels))
      && (r.sufficient <==> 0.0 < quantity <= Size(levels))
  {
    DepthIsWalk(levels, quantity);
    BaseIsPositive(levels);
    WalkFills(BaseSteps(levels), quantity);
    CapacityIsPositive(BaseSteps(levels));
  }

  // ------------------------------------------------------------------ order of rates

  lemma {:induction false} BaseRises(levels: seq<Level>)
    requires Ordered(levels, Cheaper)
    ensures Rising(BaseSteps(levels))
  {
    if levels != [] {
      assert BaseSteps(levels)[1..] == BaseSteps(levels[1..]);
      BaseRises(levels[1..]);
      forall i | 0 <= i < |levels| - 1 ensures BaseSteps(levels[1..])[i].rate >= levels[0].price {
        assert Cheaper(levels[0], levels[i + 1]);
      }
    }
  }

  lemma {:induction false} BaseFalls(levels: seq<Level>)
    requires Ordered(levels, Costlier)
    ensures Falling(BaseSteps(levels))
  {
    if levels != [] {
      assert Negated(BaseSteps(levels))[1..] == Negated(BaseSteps(levels[1..]));
      BaseFalls(levels[1..]);
      forall i | 0 <= i < |levels| - 1 ensures Negated(BaseSteps(levels[1..]))[i].rate >= -levels[0].price {
        assert Costlier(levels[0], levels[i + 1]);
      }
    }
  }

  lemma ReciprocalFalls(p: real, q: real)
    requires 0.0 < p <= q
    ensures 1.0 / q <= 1.0 / p
  {
    assert (1.0 / p) * p == 1.0 && (1.0 / q) * q == 1.0;
    var x, y := 1.0 / p, 1.0 / q;
    assert y * (q - p) >= 0.0;
    assert (x - y) * p == y * (q - p);
  }

  lemma {:induction false} QuoteFalls(levels: seq<Level>)
    requires ValidLevels(levels) && Ordered(levels, Cheaper)
    ensures Falling(QuoteSteps(levels))
  {
    if levels != [] {
      assert Negated(QuoteSteps(levels))[1..] == Negated(QuoteSteps(levels[1..]));
      QuoteFalls(levels[1..]);
      forall i | 0 <= i < |levels| - 1
        ensures Negated(QuoteSteps(levels[1..]))[i].rate >= Negated(QuoteSteps(levels))[0].rate
      {
        assert Cheaper(levels[0], levels[i + 1]) && levels[0] in levels && levels[i + 1] in levels;
        ReciprocalFalls(levels[0].price, levels[i + 1].price);
      }
    }
  }

  lemma ProductIsPositive(a: real, b: real)
    requires a > 0.0 && b > 0.0
    ensures a * b > 0.0
  {
  }

  lemma QuoteIsPositive(levels: seq<Level>)
    requires ValidLevels(levels)
    ensures Positive(QuoteSteps(levels))
  {
    forall i | 0 <= i < |levels| ensures QuoteSteps(levels)[i].capacity > 0.0 {
      assert levels[i] in levels;
      ProductIsPositive(levels[i].price, levels[i].size);
    }
  }

  // ------------------------------------------------------------------ averages

  lemma Quotients(a: Filled, b: Filled)
    requires a.taken > 0.0 && b.taken > 0.0 && NotAboveAverage(a, b)
    ensures a.value / a.taken <= b.value / b.taken
  {
    var x, y := a.value / a.taken, b.value / b.taken;
    assert x * a.taken == a.value && y * b.taken == b.value;
    CrossDivide(x, y, a.taken, b.taken);
  }

  lemma CrossDivide(x: real, y: real, s: real, t: real)
    requires s > 0.0 && t > 0.0 && (x * s) * t <= (y * t) * s
    ensures x <= y
  {
    ProductIsPositive(s, t);
    assert (x * s) * t == x * (s * t) && (y * t) * s == y * (s * t);
    Cancels(x, y, s * t);
  }

  lemma Cancels(x: real, y: real, k: real)
    requires k > 0.0 && x * k <= y * k
    ensures x <= y
  {
  }

  lemma Below(p: real, value: real, k: real)
    requires k > 0.0 && value - 0.0 >= p * (k - 0.0)
    ensures value / k >= p
  {
    var x := value / k;
    assert x * k == value;
    Cancels(p, x, k);
  }

  lemma AverageFrom(p: real, f: Filled)
    requires f.taken > 0.0 && Dearer(p, NOTHING_FILLED, f)
    ensures f.value / f.taken >= p
  {
    Below(p, f.value, f.taken);
  }

  lemma BpsGrows(a: real, b: real, reference: real)
    requires reference > 0.0 && a <= b
    ensures Bps(a, reference) <= Bps(b, reference)
    ensures a >= 0.0 ==> Bps(a, reference) >= 0.0
  {
    var x, y := a / reference, b / reference;
    assert x * reference == a && y * reference == b;
    Cancels(x, y, reference);
    if a >= 0.0 {
      Cancels(0.0, x, reference);
    }
  }

  /** The average rate lies on the far side of the first level's. */
  lemma {:induction false} WalkAverageFrom(steps: seq<Step>, wanted: real)
    requires steps != [] && Rising(steps) && Positive(steps) && wanted > 0.0
    ensures Walk(steps, wanted).taken > 0.0
    ensures Walk(steps, wanted).value / Walk(steps, wanted).taken >= steps[0].rate
  {
    WalkFills(steps, wanted);
    CapacityIsPositive(steps);
    NothingWanted(steps, 0.0);
    assert RatesFrom(steps, steps[0].rate);
    MoreCosts(steps, 0.0, wanted, steps[0].rate);
    AverageFrom(steps[0].rate, Walk(steps, wanted));
  }

  lemma {:induction false} WalkAveragesRise(steps: seq<Step>, less: real, more: real)
    requires steps != [] && Rising(steps) && Positive(steps) && 0.0 < less <= more
    ensures Walk(steps, less).taken > 0.0 && Walk(steps, more).taken > 0.0
    ensures Walk(steps, less).value / Walk(steps, less).taken <= Walk(steps, more).value / Walk(steps, more).taken
  {
    WalkAverageFrom(steps, less);
    WalkAverageFrom(steps, more);
    AverageRises(steps, less, more);
    Quotients(Walk(steps, less), Walk(steps, more));
  }

  lemma NegatedQuotient(f: Filled)
    requires f.taken != 0.0
    ensures (-f.value) / f.taken == -(f.value / f.taken)
  {
    var x := f.value / f.taken;
    assert (-x) * f.taken == -f.value;
  }

  lemma {:induction false} WalkAverageUpTo(steps: seq<Step>, wanted: real)
    requires steps != [] && Falling(steps) && Positive(steps) && wanted > 0.0
    ensures Walk(steps, wanted).taken > 0.0
    ensures Walk(steps, wanted).value / Walk(steps, wanted).taken <= steps[0].rate
  {
    NegatedWalk(steps, wanted);
    WalkAverageFrom(Negated(steps), wanted);
    NegatedQuotient(Walk(steps, wanted));
  }

  lemma {:induction false} WalkAveragesFall(steps: seq<Step>, less: real, more: real)
    requires steps != [] && Falling(steps) && Positive(steps) && 0.0 < less <= more
    ensures Walk(steps, less).taken > 0.0 && Walk(steps, more).taken > 0.0
    ensures Walk(steps, less).value / Walk(steps, less).taken >= Walk(steps, more).value / Walk(steps, more).taken
  {
    NegatedWalk(steps, less);
    NegatedWalk(steps, more);
    WalkAveragesRise(Negated(steps), less, more);
    NegatedQuotient(Walk(steps, less));
    NegatedQuotient(Walk(steps, more));
  }

  // ------------------------------------------------------------------ depth-walk slippage

  lemma {:induction false} ReportIsWalk(levels: seq<Level>, quantity: real, reference: real)
    requires ValidLevels(levels) && levels != [] && quantity > 0.0 && reference != 0.0
    ensures
      var f, r := Walk(BaseSteps(levels), quantity), DepthReportOf(levels, quantity, reference);
      f == DepthFill(levels, quantity) && f.taken > 0.0 && r.vwap == f.value / f.taken
      && r.slippage == Bps(Abs(r.vwap - reference), reference)
  {
    DepthIsWalk(levels, quantity);
    BaseIsPositive(levels);
    WalkFills(BaseSteps(levels), quantity);
    CapacityIsPositive(BaseSteps(levels));
  }

  /** Buying along rising asks, measured from the best ask: nobody pays less than the best ask, and more
      quantity never has a lower average price or less slippage. */
  lemma BuyDepth(asks: seq<Level>, less: real, more: real)
    requires ValidLevels(asks) && Ordered(asks, Cheaper) && asks != [] && 0.0 < less <= more
    ensures
      var best := asks[0].price;
      best != 0.0 &&
      var a, b := DepthReportOf(asks, less, best), DepthReportOf(asks, more, best);
      best <= a.vwap <= b.vwap && 0.0 <= a.slippage <= b.slippage
  {
    var best, steps := asks[0].price, BaseSteps(asks);
    assert asks[0] in asks;
    ReportIsWalk(asks, less, best);
    ReportIsWalk(asks, more, best);
    BaseIsPositive(asks);
    BaseRises(asks);
    WalkAverageFrom(steps, less);
    WalkAveragesRise(steps, less, more);
    BpsGrows(DepthReportOf(asks, less, best).vwap - best, DepthReportOf(asks, more, best).vwap - best, best);
  }

  /** Selling along falling bids, measured from the best bid, mirrors it. */
  lemma SellDepth(bids: seq<Level>, less: real, more: real)
    requires ValidLevels(bids) && Ordered(bids, Costlier) && bids != [] && 0.0 < less <= more
    ensures
      var best := bids[0].price;
      best != 0.0 &&
      var a, b := DepthReportOf(bids, less, best), DepthReportOf(bids, more, best);
      best >= a.vwap >= b.vwap && 0.0 <= a.slippage <= b.slippage
  {
    var best, steps := bids[0].price, BaseSteps(bids);
    assert bids[0] in bids;
    ReportIsWalk(bids, less, best);
    ReportIsWalk(bids, more, best);
    BaseIsPositive(bids);
    BaseFalls(bids);
    WalkAverageUpTo(steps, less);
    WalkAveragesFall(steps, less, more);
    BpsGrows(best - DepthReportOf(bids, less, best).vwap, best - DepthReportOf(bids, more, best).vwap, best);
  }

  /** No other way to take the same quantity from the levels is better than the walk: cheaper when buying,
      or dearer when selling. */
  lemma {:induction false} DepthIsBest(levels: seq<Level>, quantity: real, y: seq<real>)
    requires ValidLevels(levels) && quantity >= 0.0
    requires Allocation(BaseSteps(levels), y) && Total(y) == MinReal(quantity, Size(levels))
    ensures Ordered(levels, Cheaper) ==> DepthFill(levels, quantity).value <= Cost(BaseSteps(levels), y)
    ensures Ordered(levels, Costlier) ==> DepthFill(levels, quantity).value >= Cost(BaseSteps(levels), y)
  {
    DepthIsWalk(levels, quantity);
    BaseIsPositive(levels);
    WalkFills(BaseSteps(levels), quantity);
    if Ordered(levels, Cheaper) {
      BaseRises(levels);
      WalkIsLeast(BaseSteps(levels), quantity, y);
    }
    if Ordered(levels, Costlier) {
      BaseFalls(levels);
      WalkIsGreatest(BaseSteps(levels), quantity, y);
    }
  }

  // ------------------------------------------------------------------ feature slippage

  function BuySlippageOf(asks: seq<Level>, midpoint: real, notional: real): Option<real>
    requires midpoint != 0.0
  {
    var f := Walk(QuoteSteps(Sorted(asks, Cheaper)), notional);
    if notional - f.taken > 0.0 || f.value <= 0.0 then None
    else Some(Bps(f.taken / f.value - midpoint, midpoint))
  }

  function SellSlippageOf(bids: seq<Level>, midpoint: real, notional: real): Option<real>
    requires midpoint != 0.0
  {
    var target := notional / midpoint;
    var f := Walk(BaseSteps(Sorted(bids, Costlier)), target);
    if target - f.taken > 0.0 || f.taken <= 0.0 then None
    else Some(Bps(midpoint - f.value / f.taken, midpoint))
  }

  lemma DivideIsTimes(a: real, b: real)
    requires b != 0.0
    ensures a / b == a * (1.0 / b)
  {
    assert (1.0 / b) * b == 1.0;
    assert a * (1.0 / b) * b == a;
  }

  /** The loop has taken `soFar` from the steps before `i`. */
  ghost predicate SoFar(steps: seq<Step>, wanted: real, soFar: Filled, i: nat)
    requires i <= |steps|
  {
    Walk(steps, wanted) == Added(soFar, Walk(steps[i..], wanted - soFar.taken))
  }

  lemma OneMore(steps: seq<Step>, wanted: real, soFar: Filled, i: nat, t: real, worth: real)
    requires i < |steps| && SoFar(steps, wanted, soFar, i)
    requires Filled(t, worth) == Plus(Taken(wanted - soFar.taken, steps[i].capacity), steps[i].rate, NOTHING_FILLED)
    ensures SoFar(steps, wanted, Filled(soFar.taken + t, soFar.value + worth), i + 1)
  {
    assert steps[i..][0] == steps[i] && steps[i..][1..] == steps[i + 1..];
    assert wanted - soFar.taken - t == wanted - (soFar.taken + t);
  }

  lemma {:induction false} NoMore(steps: seq<Step>, wanted: real, soFar: Filled, i: nat)
    requires i <= |steps| && SoFar(steps, wanted, soFar, i) && (wanted - soFar.taken <= 0.0 || i == |steps|)
    ensures Walk(steps, wanted) == soFar
  {
    if i < |steps| {
      NothingWanted(steps[i..], wanted - soFar.taken);
    }
  }

  /** What the loop takes at one level, and the base it gets for it. */
  method SpendAt(l: Level, remaining: real) returns (spent: real, acquired: real)
    ensures Filled(spent, acquired) == Plus(Taken(remaining, QuoteStep(l).capacity), QuoteStep(l).rate, NOTHING_FILLED)
  {
    var take := MinReal(remaining, l.price * l.size);
    if take <= 0.0 {
      return 0.0, 0.0;
    }
    DivideIsTimes(take, l.price);
    return take, take / l.price;
  }

  method SpendQuote(ordered: seq<Level>, notional: real) returns (spent: real, acquired: real)
    ensures Filled(spent, acquired) == Walk(QuoteSteps(ordered), notional)
  {
    var remaining := notional;
    spent, acquired := 0.0, 0.0;
    ghost var steps := QuoteSteps(ordered);
    assert steps[0..] == steps;
    for i := 0 to |ordered|
      invariant remaining == notional - spent
      invariant SoFar(steps, notional, Filled(spent, acquired), i)
    {
      var take, base := SpendAt(ordered[i], remaining);
      OneMore(steps, notional, Filled(spent, acquired), i, take, base);
      acquired, spent := acquired + base, spent + take;
      remaining := remaining - take;
      if remaining <= 0.0 {
        NoMore(steps, notional, Filled(spent, acquired), i + 1);
        return;
      }
    }
    NoMore(steps, notional, Filled(spent, acquired), |ordered|);
  }

  method BuySlippage(asks: seq<Level>, midpoint: real, notional: real) returns (slippage: Option<real>)
    requires midpoint != 0.0
    ensures slippage == BuySlippageOf(asks, midpoint, notional)
  {
    var spent, acquired := SpendQuote(Sorted(asks, Cheaper), notional);
    if notional - spent > 0.0 || acquired <= 0.0 {
      return None;
    }
    var vwap := spent / acquired;
    return Some(Bps(vwap - midpoint, midpoint));
  }

  method SellAt(l: Level, remaining: real) returns (sold: real, received: real)
    ensures Filled(sold, received) == Plus(Taken(remaining, l.size), l.price, NOTHING_FILLED)
  {
    var take := MinReal(remaining, l.size);
    if take <= 0.0 {
      return 0.0, 0.0;
    }
    return take, take * l.price;
  }

  method SellBase(ordered: seq<Level>, target: real) returns (sold: real, received: real)
    ensures Filled(sold, received) == Walk(BaseSteps(ordered), target)
  {
    var remaining := target;
    sold, received := 0.0, 0.0;
    ghost var steps := BaseSteps(ordered);
    assert steps[0..] == steps;
    for i := 0 to |ordered|
      invariant remaining == target - sold
      invariant SoFar(steps, target, Filled(sold, received), i)
    {
      var take, gain := SellAt(ordered[i], remaining);
      OneMore(steps, target, Filled(sold, received), i, take, gain);
      sold, received := sold + take, received + gain;
      remaining := remaining - take;
      if remaining <= 0.0 {
        NoMore(steps, target, Filled(sold, received), i + 1);
        return;
      }
    }
    NoMore(steps, target, Filled(sold, received), |ordered|);
  }

  method SellSlippage(bids: seq<Level>, midpoint: real, notional: real) returns (slippage: Option<real>)
    requires midpoint != 0.0
    ensures slippage == SellSlippageOf(bids, midpoint, notional)
  {
    var target := notional / midpoint;
    var sold, received := SellBase(Sorted(bids, Costlier), target);
    if target - sold > 0.0 || sold <= 0.0 {
      return None;
    }
    var vwap := received / sold;
    return Some(Bps(midpoint - vwap, midpoint));
  }

  // ------------------------------------------------------------------ what the slippage means

  lemma CheaperIsTotal()
    ensures TotalPreorder(Cheaper) && TotalPreorder(Costlier)
  {
  }

  lemma {:induction false} SortedIsValid(levels: seq<Level>, le: (Level, Level) -> bool)
    requires ValidLevels(levels)
    ensures ValidLevels(Sorted(levels, le))
  {
    SortedMembers(levels, le);
  }

  function Sizes(levels: seq<Level>, stepOf: Level -> Step): real {
    if levels == [] then 0.0 else stepOf(levels[0]).capacity + Sizes(levels[1..], stepOf)
  }

  lemma {:induction false} SizesOfSteps(levels: seq<Level>)
    ensures Sizes(levels, BaseStep) == Size(levels) && Sizes(levels, QuoteStep) == QuoteDepth(levels)
  {
    if levels != [] {
      assert BaseSteps(levels)[1..] == BaseSteps(levels[1..]) && QuoteSteps(levels)[1..] == QuoteSteps(levels[1..]);
      SizesOfSteps(levels[1..]);
    }
  }

  lemma {:induction false} InsertedSizes(x: Level, s: seq<Level>, le: (Level, Level) -> bool, stepOf: Level -> Step)
    ensures Sizes(Inserted(x, s, le), stepOf) == stepOf(x).capacity + Sizes(s, stepOf)
  {
    var inserted := Inserted(x, s, le);
    if s != [] && !le(x, s[0]) {
      InsertedSizes(x, s[1..], le, stepOf);
      assert inserted[1..] == Inserted(x, s[1..], le);
    } else {
      assert inserted[1..] == s;
    }
  }

  lemma {:induction false} SortedSizes(s: seq<Level>, le: (Level, Level) -> bool, stepOf: Level -> Step)
    ensures Sizes(Sorted(s, le), stepOf) == Sizes(s, stepOf)
  {
    if s != [] {
      SortedSizes(s[1..], le, stepOf);
      InsertedSizes(s[0], Sorted(s[1..], le), le, stepOf);
    }
  }

  lemma WorthAtLevel(t: real, rate: real, rest: Filled)
    requires t >= 0.0 && rate > 0.0 && (rest.taken > 0.0 ==> rest.value > 0.0) && rest.taken >= 0.0 && rest.value >= 0.0
    ensures Plus(t, rate, rest).taken > 0.0 ==> Plus(t, rate, rest).value > 0.0
    ensures Plus(t, rate, rest).taken >= 0.0 && Plus(t, rate, rest).value >= 0.0
  {
    if t > 0.0 {
      ProductIsPositive(t, rate);
    }
  }

  lemma {:induction false} WorthSomething(steps: seq<Step>, wanted: real)
    requires forall i :: 0 <= i < |steps| ==> steps[i].rate > 0.0
    ensures
      var f := Walk(steps, wanted);
      f.taken >= 0.0 && f.value >= 0.0 && (f.taken > 0.0 ==> f.value > 0.0)
  {
    if steps != [] {
      var t := Taken(wanted, steps[0].capacity);
      WorthSomething(steps[1..], wanted - t);
      WorthAtLevel(t, steps[0].rate, Walk(steps[1..], wanted - t));
    }
  }

  lemma ReciprocalIsPositive(p: real)
    requires p > 0.0
    ensures 1.0 / p > 0.0
  {
    assert (1.0 / p) * p == 1.0;
  }

  lemma QuoteRates(levels: seq<Level>)
    requires ValidLevels(levels)
    ensures forall i :: 0 <= i < |levels| ==> QuoteSteps(levels)[i].rate > 0.0
  {
    forall i | 0 <= i < |levels| ensures QuoteSteps(levels)[i].rate > 0.0 {
      assert levels[i] in levels;
      ReciprocalIsPositive(levels[i].price);
    }
  }

  /** Everything the two walks need to know of the sorted asks. */
  lemma {:induction false} SortedAsks(asks: seq<Level>)
    requires ValidLevels(asks)
    ensures
      var s := Sorted(asks, Cheaper);
      && ValidLevels(s) && Ordered(s, Cheaper) && |s| == |asks|
      && Positive(QuoteSteps(s)) && Falling(QuoteSteps(s)) && Capacity(QuoteSteps(s)) == QuoteDepth(asks)
  {
    var s := Sorted(asks, Cheaper);
    CheaperIsTotal();
    SortedIsValid(asks, Cheaper);
    SortedOrdered(asks, Cheaper);
    SortedPermutes(asks, Cheaper);
    QuoteIsPositive(s);
    QuoteFalls(s);
    SortedSizes(asks, Cheaper, QuoteStep);
    SizesOfSteps(asks);
    SizesOfSteps(s);
  }

  lemma {:induction false} SortedBids(bids: seq<Level>)
    requires ValidLevels(bids)
    ensures
      var s := Sorted(bids, Costlier);
      && ValidLevels(s) && Ordered(s, Costlier) && |s| == |bids|
      && Positive(BaseSteps(s)) && Falling(BaseSteps(s)) && Capacity(BaseSteps(s)) == Size(bids)
  {
    var s := Sorted(bids, Costlier);
    CheaperIsTotal();
    SortedIsValid(bids, Costlier);
    SortedOrdered(bids, Costlier);
    SortedPermutes(bids, Costlier);
    BaseIsPositive(s);
    BaseFalls(s);
    SortedSizes(bids, Costlier, BaseStep);
    SizesOfSteps(bids);
    SizesOfSteps(s);
  }

  /** Buying reports a slippage exactly when something is spent and the whole book is worth that much. */
  lemma BuySlippageExactly(asks: seq<Level>, midpoint: real, notional: real)
    requires ValidLevels(asks) && midpoint != 0.0
    ensures BuySlippageOf(asks, midpoint, notional).Some? <==> 0.0 < notional <= QuoteDepth(asks)
  {
    var steps := QuoteSteps(Sorted(asks, Cheaper));
    SortedAsks(asks);
    QuoteRates(Sorted(asks, Cheaper));
    WorthSomething(steps, notional);
    if notional <= 0.0 {
      NothingWanted(steps, notional);
    } else {
      WalkFills(steps, notional);
    }
  }

  lemma SellSlippageExactly(bids: seq<Level>, midpoint: real, notional: real)
    requires ValidLevels(bids) && midpoint != 0.0
    ensures SellSlippageOf(bids, midpoint, notional).Some? <==> 0.0 < notional / midpoint <= Size(bids)
  {
    var steps, target := BaseSteps(Sorted(bids, Costlier)), notional / midpoint;
    SortedBids(bids);
    if target <= 0.0 {
      NothingWanted(steps, target);
    } else {
      WalkFills(steps, target);
    }
  }

  /** Turning averages over: base per quote falls, so quote per base rises. */
  lemma Inverts(x: real, s: real, t: real)
    requires s > 0.0 && t > 0.0 && x > 0.0
    ensures t / s <= 1.0 / x ==> s / t >= x
    ensures t / s >= 1.0 / x ==> s / t <= x
  {
    var a, b := t / s, s / t;
    assert a * s == t && b * t == s && (1.0 / x) * x == 1.0;
    assert a * b == 1.0 by {
      assert (a * b) * t == a * (b * t);
    }
    InvertsOnce(a, b, 1.0 / x, x);
  }

  lemma InvertsOnce(a: real, b: real, c: real, x: real)
    requires b > 0.0 && x > 0.0 && a * b == 1.0 && c * x == 1.0
    ensures a <= c ==> b >= x
    ensures a >= c ==> b <= x
  {
    assert (c - a) * b * x == b - x by {
      assert (c - a) * b * x == (c * x) * b - (a * b) * x;
    }
    ProductIsPositive(b, x);
    assert (c - a) * b * x == (c - a) * (b * x);
  }

  lemma Turned(a: Filled, b: Filled)
    requires a.value > 0.0 && b.value > 0.0 && NotAboveAverage(b, a)
    ensures a.taken / a.value <= b.taken / b.value
  {
    var x, y := a.taken / a.value, b.taken / b.value;
    assert x * a.value == a.taken && y * b.value == b.taken;
    CrossDivide(x, y, a.value, b.value);
  }

  /** Spending more never has less slippage, and when no ask is below the midpoint slippage is never
      negative. */
  lemma BuySlippageGrows(asks: seq<Level>, midpoint: real, less: real, more: real)
    requires ValidLevels(asks) && midpoint > 0.0 && 0.0 < less <= more <= QuoteDepth(asks)
    ensures BuySlippageOf(asks, midpoint, less).Some? && BuySlippageOf(asks, midpoint, more).Some?
    ensures BuySlippageOf(asks, midpoint, less).value <= BuySlippageOf(asks, midpoint, more).value
    ensures (forall l :: l in asks ==> midpoint <= l.price) ==> BuySlippageOf(asks, midpoint, less).value >= 0.0
  {
    var ordered := Sorted(asks, Cheaper);
    var steps := QuoteSteps(ordered);
    SortedAsks(asks);
    BuySlippageExactly(asks, midpoint, less);
    BuySlippageExactly(asks, midpoint, more);
    var a, b := Walk(steps, less), Walk(steps, more);
    AverageFalls(steps, less, more);
    Turned(a, b);
    BpsGrows(a.taken / a.value - midpoint, b.taken / b.value - midpoint, midpoint);
    if forall l :: l in asks ==> midpoint <= l.price {
      SortedMembers(asks, Cheaper);
      assert ordered != [] && ordered[0] in asks;
      WalkAverageUpTo(steps, less);
      Inverts(ordered[0].price, a.taken, a.value);
    }
  }

  lemma MoreBase(less: real, more: real, midpoint: real)
    requires midpoint > 0.0 && less <= more
    ensures less / midpoint <= more / midpoint
    ensures less > 0.0 ==> less / midpoint > 0.0
  {
    assert (less / midpoint) * midpoint == less && (more / midpoint) * midpoint == more;
    Cancels(less / midpoint, more / midpoint, midpoint);
  }

  /** Selling mirrors it. */
  lemma SellSlippageGrows(bids: seq<Level>, midpoint: real, less: real, more: real)
    requires ValidLevels(bids) && midpoint > 0.0 && 0.0 < less <= more && more / midpoint <= Size(bids)
    ensures SellSlippageOf(bids, midpoint, less).Some? && SellSlippageOf(bids, midpoint, more).Some?
    ensures SellSlippageOf(bids, midpoint, less).value <= SellSlippageOf(bids, midpoint, more).value
    ensures (forall l :: l in bids ==> l.price <= midpoint) ==> SellSlippageOf(bids, midpoint, less).value >= 0.0
  {
    var ordered := Sorted(bids, Costlier);
    var steps := BaseSteps(ordered);
    SortedBids(bids);
    MoreBase(less, more, midpoint);
    SellSlippageExactly(bids, midpoint, less);
    SellSlippageExactly(bids, midpoint, more);
    CapacityIsPositive(steps);
    var a, b := Walk(steps, less / midpoint), Walk(steps, more / midpoint);
    WalkAveragesFall(steps, less / midpoint, more / midpoint);
    BpsGrows(midpoint - a.value / a.taken, midpoint - b.value / b.taken, midpoint);
    SortedMembers(bids, Costlier);
    assert ordered[0] in ordered;
    WalkAverageUpTo(steps, less / midpoint);
  }

  // ------------------------------------------------------------------ nobody does better

  /** The quote spent at each level by an allocation of base. */
  function Spent(levels: seq<Level>, y: seq<real>): (z: seq<real>)
    requires |y| == |levels|
    ensures |z| == |y|
  {
    if y == [] then [] else [y[0] * levels[0].price] + Spent(levels[1..], y[1..])
  }

  lemma SpentAtLevel(y: real, l: Level, spent: real)
    requires l.price > 0.0 && 0.0 <= y <= l.size && spent == y * l.price
    ensures 0.0 <= spent <= QuoteStep(l).capacity && Buys(QuoteStep(l), spent, y)
  {
    var k := 1.0 / l.price;
    assert (l.size - y) * l.price >= 0.0;
    assert l.price * k == 1.0;
    assert spent * k == y * (l.price * k);
  }

  lemma {:induction false} SpentAllocates(levels: seq<Level>, y: seq<real>)
    requires ValidLevels(levels) && Allocation(BaseSteps(levels), y)
    ensures Allocation(QuoteSteps(levels), Spent(levels, y))
  {
    if levels != [] {
      var rest := Spent(levels[1..], y[1..]);
      assert levels[0] in levels;
      SpentAtLevel(y[0], levels[0], y[0] * levels[0].price);
      assert Allocation(BaseSteps(levels[1..]), y[1..]);
      SpentAllocates(levels[1..], y[1..]);
      forall i | 0 <= i < |rest| ensures 0.0 <= rest[i] <= QuoteSteps(levels)[i + 1].capacity {
        assert QuoteSteps(levels[1..])[i] == QuoteSteps(levels)[i + 1];
      }
    }
  }

  lemma {:induction false} CostStep(steps: seq<Step>, y: seq<real>)
    requires |y| == |steps| > 0
    ensures Cost(steps, y) == y[0] * steps[0].rate + Cost(steps[1..], y[1..])
  {
  }

  lemma {:induction false} SpentIsCost(levels: seq<Level>, y: seq<real>)
    requires |y| == |levels|
    ensures Total(Spent(levels, y)) == Cost(BaseSteps(levels), y)
  {
    if levels != [] {
      SpentIsCost(levels[1..], y[1..]);
      CostStep(BaseSteps(levels), y);
      assert BaseSteps(levels)[1..] == BaseSteps(levels[1..]);
      assert Spent(levels, y)[1..] == Spent(levels[1..], y[1..]);
    }
  }

  /** Spending z on a step buys y. */
  predicate Buys(s: Step, z: real, y: real) { z * s.rate == y }

  lemma {:induction false} BuysTotal(steps: seq<Step>, z: seq<real>, y: seq<real>)
    requires |z| == |steps| == |y| && forall i :: 0 <= i < |y| ==> Buys(steps[i], z[i], y[i])
    ensures Cost(steps, z) == Total(y)
  {
    if steps != [] {
      assert Buys(steps[0], z[0], y[0]);
      forall i | 0 <= i < |y| - 1 ensures Buys(steps[1..][i], z[1..][i], y[1..][i]) {
        assert Buys(steps[i + 1], z[i + 1], y[i + 1]);
      }
      BuysTotal(steps[1..], z[1..], y[1..]);
    }
  }

  lemma {:induction false} SpentBuys(levels: seq<Level>, y: seq<real>, i: nat)
    requires ValidLevels(levels) && |y| == |levels| && i < |y|
    requires forall k :: 0 <= k < |y| ==> 0.0 <= y[k] <= levels[k].size
    ensures Buys(QuoteStep(levels[i]), Spent(levels, y)[i], y[i])
  {
    if i == 0 {
      assert levels[0] in levels;
      SpentAtLevel(y[0], levels[0], Spent(levels, y)[0]);
    } else {
      assert levels[1..][i - 1] == levels[i] && y[1..][i - 1] == y[i];
      SpentBuys(levels[1..], y[1..], i - 1);
    }
  }

  /** No way to spend the same notional over the asks buys more base than the walk. */
  lemma {:induction false} BuyAcquiresMost(asks: seq<Level>, notional: real, y: seq<real>)
    requires ValidLevels(asks) && 0.0 <= notional <= QuoteDepth(asks)
    requires Allocation(BaseSteps(Sorted(asks, Cheaper)), y) && Cost(BaseSteps(Sorted(asks, Cheaper)), y) == notional
    ensures Total(y) <= Walk(QuoteSteps(Sorted(asks, Cheaper)), notional).value
  {
    var ordered := Sorted(asks, Cheaper);
    SortedAsks(asks);
    SpentAllocates(ordered, y);
    SpentIsCost(ordered, y);
    forall i | 0 <= i < |y| ensures Buys(QuoteSteps(ordered)[i], Spent(ordered, y)[i], y[i]) {
      assert forall k :: 0 <= k < |y| ==> BaseSteps(ordered)[k] == BaseStep(ordered[k]);
      SpentBuys(ordered, y, i);
    }
    BuysTotal(QuoteSteps(ordered), Spent(ordered, y), y);
    WalkFills(QuoteSteps(ordered), notional);
    WalkIsGreatest(QuoteSteps(ordered), notional, Spent(ordered, y));
  }

  /** No way to sell the same base to the bids brings in more quote than the walk. */
  lemma {:induction false} SellReceivesMost(bids: seq<Level>, target: real, y: seq<real>)
    requires ValidLevels(bids) && 0.0 <= target <= Size(bids)
    requires Allocation(BaseSteps(Sorted(bids, Costlier)), y) && Total(y) == target
    ensures Cost(BaseSteps(Sorted(bids, Costlier)), y) <= Walk(BaseSteps(Sorted(bids, Costlier)), target).value
  {
    SortedBids(bids);
    WalkFills(BaseSteps(Sorted(bids, Costlier)), target);
    WalkIsGreatest(BaseSteps(Sorted(bids, Costlier)), target, y);
  }
}
