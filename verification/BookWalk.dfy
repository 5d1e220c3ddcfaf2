/** Walking the levels of an order book: `_depth_walk` of market_data.py and the buy and sell slippage of
    microstructure_features.py, in exact arithmetic. */
module BookWalk {
  import opened Prelude
  import opened Sorting

  /** One level as the walk sees it: what a unit taken there is worth, and how many units there are. */
  datatype Step = Step(rate: real, capacity: real)

  datatype Filled = Filled(taken: real, value: real)

  const NOTHING_FILLED := Filled(0.0, 0.0)

  function Taken(wanted: real, capacity: real): real { MaxReal(0.0, MinReal(wanted, capacity)) }

  function Plus(t: real, rate: real, rest: Filled): Filled { Filled(t + rest.taken, t * rate + rest.value) }

  /** Take as much as possible at every level until nothing more is wanted. */
  function Walk(steps: seq<Step>, wanted: real): Filled {
    if steps == [] then NOTHING_FILLED
    else
      var t := Taken(wanted, steps[0].capacity);
      Plus(t, steps[0].rate, Walk(steps[1..], wanted - t))
  }

  function Capacity(steps: seq<Step>): real {
    if steps == [] then 0.0 else steps[0].capacity + Capacity(steps[1..])
  }

  predicate Positive(steps: seq<Step>) { forall i :: 0 <= i < |steps| ==> steps[i].capacity > 0.0 }

  predicate RatesFrom(steps: seq<Step>, p: real) { forall i :: 0 <= i < |steps| ==> steps[i].rate >= p }

  /** Rates do not fall along the walk. */
  predicate Rising(steps: seq<Step>) {
    steps == [] || (RatesFrom(steps[1..], steps[0].rate) && Rising(steps[1..]))
  }

  lemma {:induction false} NothingWanted(steps: seq<Step>, wanted: real)
    requires wanted <= 0.0
    ensures Walk(steps, wanted) == NOTHING_FILLED
  {
    if steps != [] {
      NothingWanted(steps[1..], wanted);
    }
  }

  lemma {:induction false} CapacityIsPositive(steps: seq<Step>)
    requires Positive(steps)
    ensures Capacity(steps) >= 0.0 && (steps != [] ==> Capacity(steps) > 0.0)
  {
    if steps != [] {
      CapacityIsPositive(steps[1..]);
    }
  }

  /** The walk fills what is wanted or all there is, whichever is less. */
  lemma {:induction false} WalkFills(steps: seq<Step>, wanted: real)
    requires Positive(steps) && wanted >= 0.0
    ensures Walk(steps, wanted).taken == MinReal(wanted, Capacity(steps))
  {
    CapacityIsPositive(steps);
    if steps != [] {
      CapacityIsPositive(steps[1..]);
      WalkFills(steps[1..], wanted - Taken(wanted, steps[0].capacity));
    }
  }

  lemma {:induction false} WalkOfAll(steps: seq<Step>, wanted: real)
    requires Positive(steps) && wanted >= Capacity(steps)
    ensures Walk(steps, wanted) == Walk(steps, Capacity(steps))
  {
    if steps != [] {
      var c0 := steps[0].capacity;
      CapacityIsPositive(steps[1..]);
      assert Taken(wanted, c0) == c0 == Taken(Capacity(steps), c0);
      assert Capacity(steps) - c0 == Capacity(steps[1..]);
      WalkOfAll(steps[1..], wanted - c0);
    }
  }

  lemma {:induction false} WalkOfTaken(steps: seq<Step>, wanted: real)
    requires Positive(steps) && wanted >= 0.0
    ensures Walk(steps, Walk(steps, wanted).taken) == Walk(steps, wanted)
  {
    WalkFills(steps, wanted);
    if wanted >= Capacity(steps) {
      WalkOfAll(steps, wanted);
    }
  }

  // ------------------------------------------------------------------ optimality

  predicate Allocation(steps: seq<Step>, y: seq<real>) {
    |y| == |steps| && forall i :: 0 <= i < |y| ==> 0.0 <= y[i] <= steps[i].capacity
  }

  function Total(y: seq<real>): real { if y == [] then 0.0 else y[0] + Total(y[1..]) }

  function Cost(steps: seq<Step>, y: seq<real>): real
    requires |y| == |steps|
  {
    if y == [] then 0.0 else y[0] * steps[0].rate + Cost(steps[1..], y[1..])
  }

  predicate AtLeast(cost: real, p: real, extra: real, value: real) { cost >= p * extra + value }

  lemma Exchange(p: real, p0: real, y0: real, g0: real, extra: real, cost: real, rest: Filled)
    requires p <= p0 && extra >= 0.0 && AtLeast(cost, p0, extra - y0 + g0, rest.value)
    ensures AtLeast(y0 * p0 + cost, p, extra, Plus(g0, p0, rest).value)
  {
    assert p0 * (extra - y0 + g0) == p0 * extra - y0 * p0 + g0 * p0;
    assert (p0 - p) * extra >= 0.0;
  }

  /** Whatever an allocation takes beyond what is wanted costs at least the lowest rate, and what is wanted
      costs at least what the walk pays. */
  lemma {:induction false} NoCheaper(steps: seq<Step>, y: seq<real>, wanted: real, p: real)
    requires Rising(steps) && RatesFrom(steps, p) && Allocation(steps, y) && 0.0 <= wanted <= Total(y)
    ensures AtLeast(Cost(steps, y), p, Total(y) - wanted, Walk(steps, wanted).value)
  {
    if steps == [] {
      assert Total(y) - wanted == 0.0;
    } else {
      var g0, rest, z := Taken(wanted, steps[0].capacity), steps[1..], y[1..];
      assert Allocation(rest, z);
      AllocationTotal(rest, z);
      NoCheaper(rest, z, wanted - g0, steps[0].rate);
      assert Total(z) - (wanted - g0) == (Total(y) - wanted) - y[0] + g0;
      Exchange(p, steps[0].rate, y[0], g0, Total(y) - wanted, Cost(rest, z), Walk(rest, wanted - g0));
    }
  }

  lemma {:induction false} AllocationTotal(steps: seq<Step>, y: seq<real>)
    requires Allocation(steps, y)
    ensures 0.0 <= Total(y) <= Capacity(steps)
  {
    if steps != [] {
      assert Allocation(steps[1..], y[1..]);
      AllocationTotal(steps[1..], y[1..]);
    }
  }

  /** Along rising rates no allocation of the quantity the walk takes is worth less. */
  lemma {:induction false} WalkIsLeast(steps: seq<Step>, wanted: real, y: seq<real>)
    requires Rising(steps) && Positive(steps) && wanted >= 0.0
    requires Allocation(steps, y) && Total(y) == Walk(steps, wanted).taken
    ensures Walk(steps, wanted).value <= Cost(steps, y)
  {
    AllocationTotal(steps, y);
    WalkOfTaken(steps, wanted);
    if steps != [] {
      NoCheaper(steps, y, Total(y), steps[0].rate);
      assert Total(y) - Total(y) == 0.0;
    }
  }

  function Negated(steps: seq<Step>): seq<Step> {
    seq(|steps|, i requires 0 <= i < |steps| => Step(-steps[i].rate, steps[i].capacity))
  }

  predicate Falling(steps: seq<Step>) { Rising(Negated(steps)) }

  lemma {:induction false} NegatedWalk(steps: seq<Step>, wanted: real)
    ensures Walk(Negated(steps), wanted) == Filled(Walk(steps, wanted).taken, -Walk(steps, wanted).value)
  {
    if steps != [] {
      assert Negated(steps)[1..] == Negated(steps[1..]);
      NegatedWalk(steps[1..], wanted - Taken(wanted, steps[0].capacity));
    }
  }

  lemma {:induction false} NegatedCost(steps: seq<Step>, y: seq<real>)
    requires |y| == |steps|
    ensures Cost(Negated(steps), y) == -Cost(steps, y)
  {
    if steps != [] {
      assert Negated(steps)[1..] == Negated(steps[1..]);
      NegatedCost(steps[1..], y[1..]);
    }
  }

  /** Along falling rates no allocation of the quantity the walk takes is worth more. */
  lemma {:induction false} WalkIsGreatest(steps: seq<Step>, wanted: real, y: seq<real>)
    requires Falling(steps) && Positive(steps) && wanted >= 0.0
    requires Allocation(steps, y) && Total(y) == Walk(steps, wanted).taken
    ensures Walk(steps, wanted).value >= Cost(steps, y)
  {
    NegatedWalk(steps, wanted);
    NegatedCost(steps, y);
    WalkIsLeast(Negated(steps), wanted, y);
  }

  // ------------------------------------------------------------------ the average

  predicate Dearer(p: real, less: Filled, more: Filled) {
    less.taken <= more.taken && more.value - less.value >= p * (more.taken - less.taken)
  }

  lemma DearerAtLevel(p: real, p0: real, t: real, u: real, less: Filled, more: Filled)
    requires t <= u && p <= p0 && Dearer(p, less, more)
    ensures Dearer(p, Plus(t, p0, less), Plus(u, p0, more))
  {
    assert (u - t) * (p0 - p) >= 0.0;
    assert u * p0 - t * p0 == (u - t) * (p0 - p) + (u - t) * p;
    assert p * ((u + more.taken) - (t + less.taken)) == (u - t) * p + p * (more.taken - less.taken);
  }

  /** What a larger walk takes on top is worth at least the lowest rate. */
  lemma {:induction false} MoreCosts(steps: seq<Step>, less: real, more: real, p: real)
    requires RatesFrom(steps, p) && Positive(steps) && less <= more
    ensures Dearer(p, Walk(steps, less), Walk(steps, more))
  {
    if steps != [] {
      var t, u := Taken(less, steps[0].capacity), Taken(more, steps[0].capacity);
      MoreCosts(steps[1..], less - t, more - u, p);
      DearerAtLevel(p, steps[0].rate, t, u, Walk(steps[1..], less - t), Walk(steps[1..], more - u));
    }
  }

  /** The average rate of `less` is not above that of `more`, cross-multiplied. */
  predicate NotAboveAverage(less: Filled, more: Filled) { less.value * more.taken <= more.value * less.taken }

  lemma SharedFirstLevel(p0: real, c0: real, less: Filled, more: Filled)
    requires c0 >= 0.0 && Dearer(p0, less, more) && NotAboveAverage(less, more)
    ensures NotAboveAverage(Plus(c0, p0, less), Plus(c0, p0, more))
  {
    assert c0 * (more.value - less.value - p0 * (more.taken - less.taken)) >= 0.0;
    assert (c0 * p0 + more.value) * (c0 + less.taken) - (c0 * p0 + less.value) * (c0 + more.taken)
      == c0 * (more.value - less.value - p0 * (more.taken - less.taken)) + (more.value * less.taken - less.value * more.taken);
  }

  lemma FirstLevelOnly(w: real, p0: real, more: Filled)
    requires w >= 0.0 && Dearer(p0, NOTHING_FILLED, more)
    ensures NotAboveAverage(Plus(w, p0, NOTHING_FILLED), more)
  {
    assert w * (more.value - p0 * more.taken) >= 0.0;
  }

  /** Along rising rates the average rate does not fall with the quantity. */
  lemma {:induction false} AverageRises(steps: seq<Step>, less: real, more: real)
    requires Rising(steps) && Positive(steps) && 0.0 <= less <= more
    ensures NotAboveAverage(Walk(steps, less), Walk(steps, more))
  {
    if steps != [] {
      var p0, c0, rest := steps[0].rate, steps[0].capacity, steps[1..];
      if less <= c0 {
        NothingWanted(rest, less - Taken(less, c0));
        NothingWanted(steps, 0.0);
        assert RatesFrom(steps, p0);
        MoreCosts(steps, 0.0, more, p0);
        FirstLevelOnly(less, p0, Walk(steps, more));
      } else {
        MoreCosts(rest, less - c0, more - c0, p0);
        AverageRises(rest, less - c0, more - c0);
        SharedFirstLevel(p0, c0, Walk(rest, less - c0), Walk(rest, more - c0));
      }
    }
  }

  lemma {:induction false} AverageFalls(steps: seq<Step>, less: real, more: real)
    requires Falling(steps) && Positive(steps) && 0.0 <= less <= more
    ensures NotAboveAverage(Walk(steps, more), Walk(steps, less))
  {
    NegatedWalk(steps, less);
    NegatedWalk(steps, more);
    AverageRises(Negated(steps), less, more);
    NegatedAverage(Walk(steps, less), Walk(steps, more));
  }

  lemma NegatedAverage(less: Filled, more: Filled)
    requires NotAboveAverage(less.(value := -less.value), more.(value := -more.value))
    ensures NotAboveAverage(more, less)
  {
    assert (-less.value) * more.taken == -(less.value * more.taken);
    assert (-more.value) * less.taken == -(more.value * less.taken);
  }
}
