/** Decimal arithmetic at the precision the program runs with: 28 significant digits, ties to even
    (roundTiesToEven, section 4.3.1 of IEEE 754-2008). The exponent range is unbounded. */
module DecimalRounding {

  const PRECISION := 28

  /** 10^27: one more than this many parts separate a value from its last place. */
  const PARTS := 1000000000000000000000000000.0

  /** 10 to the power e. */
  function TenTo(e: int): (p: real)
    ensures p > 0.0
    decreases if e < 0 then -e else e
  {
    if e == 0 then 1.0 else if e > 0 then 10.0 * TenTo(e - 1) else TenTo(e + 1) / 10.0
  }

  lemma TenToStep(e: int)
    ensures TenTo(e + 1) == 10.0 * TenTo(e)
  {
  }

  lemma TenToNine(e: int)
    ensures TenTo(e + 9) == 1000000000.0 * TenTo(e)
  {
    TenToStep(e); TenToStep(e + 1); TenToStep(e + 2); TenToStep(e + 3); TenToStep(e + 4);
    TenToStep(e + 5); TenToStep(e + 6); TenToStep(e + 7); TenToStep(e + 8);
  }

  lemma TenToParts(e: int)
    ensures TenTo(e + PRECISION - 1) == PARTS * TenTo(e)
  {
    TenToNine(e); TenToNine(e + 9); TenToNine(e + 18);
  }

  lemma {:induction false} TenToGrows(a: int, b: int)
    requires a <= b
    ensures TenTo(a) <= TenTo(b)
    decreases b - a
  {
    if a < b {
      TenToGrows(a, b - 1);
      TenToStep(b - 1);
    }
  }

  // ------------------------------------------------------------------ the exponent

  lemma FloorShrinks(x: real)
    requires x >= 10.0
    ensures 0 <= (x / 10.0).Floor < x.Floor
  {
  }

  lemma InverseAboveOne(z: real)
    requires 0.0 < z < 1.0
    ensures 1.0 / z > 1.0
  {
    var y := 1.0 / z;
    assert y * z == 1.0 && y > 0.0;
    assert y * (1.0 - z) > 0.0;
  }

  lemma InverseShrinks(x: real)
    requires 0.0 < x && x * 10.0 < 1.0
    ensures 0 <= (1.0 / (x * 10.0)).Floor < (1.0 / x).Floor
  {
    var y := 1.0 / (x * 10.0);
    assert y * (x * 10.0) == 1.0;
    assert 1.0 / x == 10.0 * y by { assert (10.0 * y) * x == 1.0; }
    InverseAboveOne(x * 10.0);
  }

  /** The adjusted exponent: the e with 10^e <= x < 10^(e + 1). */
  function Exponent(x: real): (e: int)
    requires x > 0.0
    ensures TenTo(e) <= x < TenTo(e + 1)
    decreases x < 1.0, if x < 1.0 then (1.0 / x).Floor else x.Floor
  {
    if x >= 10.0 then
      FloorShrinks(x);
      var e := Exponent(x / 10.0);
      TenToStep(e); TenToStep(e + 1);
      e + 1
    else if x < 1.0 then
      if x * 10.0 < 1.0 then InverseShrinks(x); (var e := Exponent(x * 10.0); TenToStep(e - 1); TenToStep(e); e - 1)
      else (var e := Exponent(x * 10.0); TenToStep(e - 1); TenToStep(e); e - 1)
    else 0
  }

  lemma ExponentIs(x: real, e: int)
    requires TenTo(e) <= x < TenTo(e + 1)
    ensures x > 0.0 && Exponent(x) == e
  {
    if Exponent(x) < e {
      TenToGrows(Exponent(x) + 1, e);
    } else if e < Exponent(x) {
      TenToGrows(e + 1, Exponent(x));
    }
  }

  // ------------------------------------------------------------------ rounding to a unit

  function HalfEven(y: real): int {
    var below := y.Floor;
    var rest := y - below as real;
    if rest < 0.5 then below
    else if rest > 0.5 then below + 1
    else if below % 2 == 0 then below
    else below + 1
  }

  function ToUnit(x: real, q: real): real
    requires q > 0.0
  {
    HalfEven(x / q) as real * q
  }

  lemma ScaledGap(h: real, y: real, q: real)
    requires q > 0.0 && -0.5 <= h - y <= 0.5
    ensures -(0.5 * q) <= h * q - y * q <= 0.5 * q
  {
    assert h * q - y * q == (h - y) * q;
    assert (h - y) * q <= 0.5 * q && (h - y) * q >= -0.5 * q;
  }

  lemma QuotientTimes(x: real, q: real)
    requires q > 0.0
    ensures (x / q) * q == x
  {
  }

  lemma NearGiven(x: real, y: real, q: real, h: real)
    requires q > 0.0 && y * q == x && -0.5 <= h - y <= 0.5
    ensures x - 0.5 * q <= h * q <= x + 0.5 * q
  {
    ScaledGap(h, y, q);
  }

  lemma ToUnitIsNear(x: real, q: real)
    requires q > 0.0
    ensures x - 0.5 * q <= ToUnit(x, q) <= x + 0.5 * q
  {
    QuotientTimes(x, q);
    NearGiven(x, x / q, q, HalfEven(x / q) as real);
  }

  lemma QuotientIs(y: real, q: real)
    requires q > 0.0
    ensures (y * q) / q == y
  {
  }

  lemma ToUnitKeeps(x: real, k: int, q: real)
    requires q > 0.0 && x == k as real * q
    ensures ToUnit(x, q) == x
  {
    QuotientIs(k as real, q);
    assert HalfEven(k as real) == k;
  }

  // ------------------------------------------------------------------ rounding to 28 digits

  /** The unit in the last of the 28 places of x. */
  function Quantum(x: real): (q: real)
    requires x > 0.0
    ensures q > 0.0
  {
    TenTo(Exponent(x) - (PRECISION - 1))
  }

  /** The value a Decimal operation returns for the exact result x. */
  function Round(x: real): real
    decreases x < 0.0
  {
    if x == 0.0 then 0.0
    else if x < 0.0 then -Round(-x)
    else ToUnit(x, Quantum(x))
  }

  /** Rounding moves a positive value by at most half a unit in its last place: half its 10^-27th part. */
  lemma {:induction false} RoundingError(x: real)
    requires x > 0.0
    ensures x - 0.5 * Quantum(x) <= Round(x) <= x + 0.5 * Quantum(x)
    ensures Quantum(x) <= x / PARTS
    ensures x - 0.5 * (x / PARTS) <= Round(x) <= x + 0.5 * (x / PARTS)
  {
    ToUnitIsNear(x, Quantum(x));
    TenToParts(Exponent(x) - (PRECISION - 1));
  }

  /** The same in round figures. */
  lemma {:induction false} RoundingNear(x: real)
    requires x > 0.0
    ensures x - x / PARTS <= Round(x) <= x + x / PARTS
  {
    RoundingError(x);
  }

  /** A whole number of units 10^u. */
  ghost predicate Multiple(x: real, u: int) {
    exists k: int :: x == Units(k, u)
  }

  function Units(k: int, u: int): real { k as real * TenTo(u) }

  lemma {:induction false} UnitsAreMultiple(x: real, k: int, u: int)
    requires x == k as real * TenTo(u)
    ensures Multiple(x, u)
  {
    assert x == Units(k, u);
  }

  lemma {:induction false} ToUnitIsMultiple(x: real, u: int)
    requires TenTo(u) > 0.0
    ensures Multiple(ToUnit(x, TenTo(u)), u)
  {
    UnitsAreMultiple(ToUnit(x, TenTo(u)), HalfEven(x / TenTo(u)), u);
  }

  lemma {:induction false} RoundedIsMultiple(x: real)
    requires x > 0.0
    ensures Multiple(Round(x), Exponent(x) - (PRECISION - 1))
  {
    ToUnitIsMultiple(x, Exponent(x) - (PRECISION - 1));
  }

  lemma TenUnits(k: int, u: int)
    ensures Units(k, u + 1) == Units(10 * k, u)
  {
    TenToStep(u);
    assert (10 * k) as real == 10.0 * k as real;
  }

  /** A multiple of a unit is a multiple of every smaller one. */
  lemma {:induction false} MultipleOfSmaller(x: real, u: int, v: int)
    requires Multiple(x, u) && v <= u
    ensures Multiple(x, v)
    decreases u - v
  {
    if v < u {
      var k: int :| x == Units(k, u);
      TenUnits(k, u - 1);
      MultipleOfSmaller(x, u - 1, v);
    }
  }

  /** A multiple of its own quantum, or of a larger unit, is kept as it is. */
  lemma {:induction false} RepresentableIsKept(x: real, u: int)
    requires x > 0.0 && Multiple(x, u) && Exponent(x) - (PRECISION - 1) <= u
    ensures Round(x) == x
  {
    var v := Exponent(x) - (PRECISION - 1);
    MultipleOfSmaller(x, u, v);
    var k: int :| x == Units(k, v);
    KeptAtQuantum(x, k);
  }

  lemma {:induction false} UnitsAreKept(k: int, u: int)
    requires TenTo(u) > 0.0
    ensures ToUnit(Units(k, u), TenTo(u)) == Units(k, u)
  {
    ToUnitKeeps(Units(k, u), k, TenTo(u));
  }

  lemma {:induction false} KeptAtQuantum(x: real, k: int)
    requires x > 0.0 && x == Units(k, Exponent(x) - (PRECISION - 1))
    ensures Round(x) == x
  {
    assert TenTo(Exponent(x) - (PRECISION - 1)) == Quantum(x) > 0.0;
    UnitsAreKept(k, Exponent(x) - (PRECISION - 1));
  }

  lemma OneIsKept()
    ensures Round(1.0) == 1.0
  {
    TenToStep(0);
    ExponentIs(1.0, 0);
    assert 1.0 == Units(1, 0);
    RepresentableIsKept(1.0, 0);
  }

  // ------------------------------------------------------------------ order

  lemma HalfEvenGrows(a: real, b: real)
    requires a <= b
    ensures HalfEven(a) <= HalfEven(b)
  {
  }

  lemma QuotientGrows(x: real, y: real, q: real)
    requires x <= y && q > 0.0
    ensures x / q <= y / q
  {
    var a, b := x / q, y / q;
    assert a * q == x && b * q == y;
  }

  lemma ToUnitGrows(x: real, y: real, q: real)
    requires x <= y && q > 0.0
    ensures ToUnit(x, q) <= ToUnit(y, q)
  {
    QuotientGrows(x, y, q);
    HalfEvenGrows(x / q, y / q);
    var a, b := HalfEven(x / q) as real, HalfEven(y / q) as real;
    assert (b - a) * q >= 0.0;
  }

  lemma {:induction false} PowerIsMultiple(e: int, u: int)
    requires u <= e
    ensures Multiple(TenTo(e), u)
  {
    assert TenTo(e) == Units(1, e);
    MultipleOfSmaller(TenTo(e), e, u);
  }

  lemma {:induction false} PowerIsKept(e: int, u: int)
    requires u <= e
    ensures ToUnit(TenTo(e), TenTo(u)) == TenTo(e)
  {
    PowerIsMultiple(e, u);
    var k: int :| TenTo(e) == Units(k, u);
    UnitsAreKept(k, u);
  }

  /** Rounding stays in the decade. */
  lemma {:induction false} RoundInDecade(x: real)
    requires x > 0.0
    ensures TenTo(Exponent(x)) <= Round(x) <= TenTo(Exponent(x) + 1)
  {
    var e := Exponent(x);
    PowerIsKept(e, e - (PRECISION - 1));
    PowerIsKept(e + 1, e - (PRECISION - 1));
    ToUnitGrows(TenTo(e), x, Quantum(x));
    ToUnitGrows(x, TenTo(e + 1), Quantum(x));
  }

  lemma {:induction false} RoundGrowsPositive(x: real, y: real)
    requires 0.0 < x <= y
    ensures Round(x) <= Round(y)
  {
    if Exponent(x) == Exponent(y) {
      ToUnitGrows(x, y, Quantum(x));
    } else {
      if Exponent(y) < Exponent(x) {
        TenToGrows(Exponent(y) + 1, Exponent(x));
        assert false;
      }
      RoundInDecade(x);
      RoundInDecade(y);
      TenToGrows(Exponent(x) + 1, Exponent(y));
    }
  }

  lemma {:induction false} RoundSigns(x: real)
    ensures Round(-x) == -Round(x)
    ensures x > 0.0 ==> Round(x) > 0.0
    ensures x < 0.0 ==> Round(x) < 0.0
  {
    if x > 0.0 {
      RoundInDecade(x);
    } else if x < 0.0 {
      RoundInDecade(-x);
    }
  }

  /** Rounding keeps order, for values of any sign. */
  lemma {:induction false} RoundGrows(x: real, y: real)
    requires x <= y
    ensures Round(x) <= Round(y)
  {
    RoundSigns(x);
    RoundSigns(y);
    if 0.0 < x {
      RoundGrowsPositive(x, y);
    } else if y < 0.0 {
      RoundGrowsPositive(-y, -x);
    }
  }

  predicate IsRounded(x: real) { Round(x) == x }

  /** Rounding never leaves a range with rounded ends. */
  lemma {:induction false} RoundWithin(x: real, low: real, high: real)
    requires low <= x <= high && IsRounded(low) && IsRounded(high)
    ensures low <= Round(x) <= high
  {
    RoundGrows(low, x);
    RoundGrows(x, high);
  }

  lemma {:induction false} RoundAgainPositive(x: real)
    requires x > 0.0
    ensures IsRounded(Round(x))
  {
    var e := Exponent(x);
    RoundInDecade(x);
    if Round(x) < TenTo(e + 1) {
      ExponentIs(Round(x), e);
      RoundedIsMultiple(x);
      RepresentableIsKept(Round(x), e - (PRECISION - 1));
    } else {
      TenToStep(e + 1);
      ExponentIs(Round(x), e + 1);
      assert Round(x) == Units(1, e + 1);
      RepresentableIsKept(Round(x), e + 1);
    }
  }

  /** Rounding a rounded value changes nothing. */
  lemma {:induction false} RoundAgain(x: real)
    ensures IsRounded(Round(x))
  {
    RoundSigns(x);
    if x > 0.0 {
      RoundAgainPositive(x);
    } else if x < 0.0 {
      RoundAgainPositive(-x);
      RoundSigns(Round(-x));
    }
  }

  /** Hundredths up to 10 have few digits. */
  lemma {:induction false} HundredthsAreKept(k: int, x: real)
    requires -1000 <= k <= 1000 && x == k as real / 100.0
    ensures IsRounded(x)
  {
    RoundSigns(x);
    if k > 0 {
      PositiveHundredths(k, x);
    } else if k < 0 {
      PositiveHundredths(-k, -x);
    }
  }

  lemma {:induction false} PositiveHundredths(k: int, x: real)
    requires 0 < k <= 1000 && x == k as real / 100.0
    ensures IsRounded(x)
  {
    TenToStep(-1);
    TenToStep(-2);
    assert TenTo(-2) == 0.01 && x == Units(k, -2);
    TenToStep(0);
    TenToStep(1);
    if Exponent(x) > 1 {
      TenToGrows(2, Exponent(x));
      assert false;
    }
    RepresentableIsKept(x, -2);
  }

  /** Rounding never leaves a range whose ends are hundredths. */
  lemma {:induction false} RoundWithinHundredths(x: real, low: int, high: int)
    requires -1000 <= low <= high <= 1000 && low as real / 100.0 <= x <= high as real / 100.0
    ensures low as real / 100.0 <= Round(x) <= high as real / 100.0
  {
    HundredthsAreKept(low, low as real / 100.0);
    HundredthsAreKept(high, high as real / 100.0);
    RoundWithin(x, low as real / 100.0, high as real / 100.0);
  }
}
