/** Amounts of goods in the units of the factory, and the rates at which it works. */
module Rates {
  import opened SaturatedMath

  const MAX_SINT32: nat := 0x7FFF_FFFF
  const MIN_SINT32: int := -0x8000_0000
  // DEFAULT_PRODUCTION_FACTOR_BITS + precision_bits
  const UNIT: nat := 0x4_0000
  // WORK_BITS
  const FULL_RATE: nat := 0x1_0000
  const MINIMUM_RATE: nat := 5 * FULL_RATE / 100
  const RAMPDOWN_MULTIPLYER := 2

  function Min(a: int, b: int): int { if a < b then a else b }

  function Clamp(a: int): int {
    if a < MIN_SINT32 then MIN_SINT32 else if a > MAX_SINT32 then MAX_SINT32 else a
  }

  /** What is left of a number in 32 bits. */
  function Narrow(a: int): int { (a - MIN_SINT32) % 0x1_0000_0000 + MIN_SINT32 }

  /** What the top bit makes of a number without a sign. */
  lemma Signed(x: nat)
    ensures var r := x % 0x1_0000_0000; Narrow(x) == if r <= MAX_SINT32 then r else r - 0x1_0000_0000
  {
  }

  lemma NarrowSmall(a: int)
    requires MIN_SINT32 - 0x1_0000_0000 <= a <= MAX_SINT32 + 0x1_0000_0000
    ensures Narrow(a) == if a < MIN_SINT32 then a + 0x1_0000_0000 else if a > MAX_SINT32 then a - 0x1_0000_0000 else a
  {
  }

  lemma NarrowBack(a: int, b: int)
    requires MIN_SINT32 <= a <= MAX_SINT32
    ensures Narrow(Narrow(a - b) + b) == a
  {
  }

  function Saturate(a: nat): nat {
    if a > MAX_SINT32 then MAX_SINT32 else a
  }

  /** Full rate up to the minimum, none from the maximum on, and less and less between. */
  function WorkRateRamp(amount: int, minimum: int, maximum: int): nat {
    if minimum >= maximum || minimum >= amount then FULL_RATE
    else if amount < maximum then
      var rate := (maximum - amount) * FULL_RATE / (maximum - minimum);
      if rate < MINIMUM_RATE then MINIMUM_RATE else rate
    else 0
  }

  lemma RateBounds(amount: int, minimum: int, maximum: int)
    ensures WorkRateRamp(amount, minimum, maximum) <= FULL_RATE
    ensures amount < maximum ==> WorkRateRamp(amount, minimum, maximum) >= MINIMUM_RATE
    ensures WorkRateRamp(amount, minimum, maximum) == 0 <==> minimum < maximum <= amount
  {
    if minimum < maximum && minimum < amount < maximum {
      var a, d: nat := maximum - amount, maximum - minimum;
      RoundedDown(a * FULL_RATE, d);
      Scale(a, d, FULL_RATE);
      if a * FULL_RATE / d > FULL_RATE {
        Scale(FULL_RATE + 1, a * FULL_RATE / d, d);
      }
    }
  }

  /** Between, the rate is the part of the way that is left to the maximum, rounded down, but not
      below the least rate. */
  lemma RateIsPart(amount: int, minimum: int, maximum: int)
    requires minimum < amount < maximum
    ensures var rate, left, way := WorkRateRamp(amount, minimum, maximum), maximum - amount, maximum - minimum;
      left * FULL_RATE < (rate + 1) * way && (rate > MINIMUM_RATE ==> rate * way <= left * FULL_RATE)
  {
    var a, d: nat := maximum - amount, maximum - minimum;
    RoundedDown(a * FULL_RATE, d);
    var q := a * FULL_RATE / d;
    assert (q + 1) * d == q * d + d;
    if q < MINIMUM_RATE { Scale(q + 1, MINIMUM_RATE + 1, d); }
  }

  /** The more there is, the slower the work. */
  lemma RateFalls(a: int, b: int, minimum: int, maximum: int)
    requires a <= b
    ensures WorkRateRamp(a, minimum, maximum) >= WorkRateRamp(b, minimum, maximum)
  {
    RateBounds(a, minimum, maximum);
    RateBounds(b, minimum, maximum);
    if minimum < a && b < maximum {
      var d: nat := maximum - minimum;
      var p: nat, q: nat := (maximum - a) * FULL_RATE, (maximum - b) * FULL_RATE;
      DivRises(q, p, d);
    }
  }

  lemma RoundedDown(n: nat, d: nat)
    requires d > 0
    ensures n / d * d <= n < n / d * d + d
  {
    Remains(n, d);
  }

  /** Production at a rate, rounded up. */
  function ScaledProduction(prod: nat, rate: nat): nat {
    MulDiv(prod, rate, FULL_RATE, MAX_SINT32, true)
  }

  lemma ScaledBounds(prod: nat, rate: nat)
    requires prod <= MAX_SINT32
    ensures rate <= FULL_RATE ==> ScaledProduction(prod, rate) <= prod
    ensures prod > 0 && rate > 0 ==> ScaledProduction(prod, rate) > 0
    ensures prod == 0 || rate == 0 ==> ScaledProduction(prod, rate) == 0
    ensures rate == FULL_RATE ==> ScaledProduction(prod, rate) == prod
  {
    var n := prod * rate;
    if prod > 0 && rate > 0 { Scale(1, prod, rate); }
    if rate <= FULL_RATE { Scale(rate, FULL_RATE, prod); }
    Bounds(n, prod, rate);
  }

  lemma Bounds(n: nat, prod: nat, rate: nat)
    requires n == prod * rate == rate * prod && prod <= MAX_SINT32
    requires rate <= FULL_RATE ==> n <= FULL_RATE * prod
    requires rate == FULL_RATE ==> n == FULL_RATE * prod
    ensures rate <= FULL_RATE ==> MulDiv(prod, rate, FULL_RATE, MAX_SINT32, true) <= prod
    ensures n > 0 ==> MulDiv(prod, rate, FULL_RATE, MAX_SINT32, true) > 0
    ensures n == 0 ==> MulDiv(prod, rate, FULL_RATE, MAX_SINT32, true) == 0
    ensures rate == FULL_RATE ==> MulDiv(prod, rate, FULL_RATE, MAX_SINT32, true) == prod
  {
  }

  /** Whole units of a good in the units of the factory, rounded up. */
  function RoundedUp(n: nat, d: nat): nat
    requires d > 0
  {
    (n + (d - 1)) / d
  }

  function FromUnits(units: nat, factor: nat): nat
    requires factor > 0
  {
    RoundedUp(units * UNIT, factor)
  }

  function ToUnits(amount: nat, factor: nat): nat {
    amount * factor / UNIT
  }

  /** The least amount that makes up this many units. */
  lemma FromUnitsIsLeast(units: nat, factor: nat, amount: nat)
    requires factor > 0
    ensures FromUnits(units, factor) <= amount <==> units * UNIT <= amount * factor
  {
    var n := units * UNIT;
    var up := FromUnits(units, factor);
    RoundedDown(n + (factor - 1), factor);
    if up <= amount {
      Scale(up, amount, factor);
    } else {
      Scale(amount + 1, up, factor);
      OneMore(amount, factor);
    }
  }

  /** Converting a rounded-down amount back, rounded up, gives at most what there was. */
  lemma BackAndForth(amount: nat, factor: nat, units: nat)
    requires factor > 0 && units <= ToUnits(amount, factor)
    ensures FromUnits(units, factor) <= amount
  {
    RoundedDown(amount * factor, UNIT);
    Scale(units, ToUnits(amount, factor), UNIT);
    FromUnitsIsLeast(units, factor, amount);
  }

  /** Whole units come back as they were, if the product is not worth more than a unit each. */
  lemma ForthAndBack(units: nat, factor: nat)
    requires 0 < factor <= UNIT
    ensures ToUnits(FromUnits(units, factor), factor) == units
  {
    var up := FromUnits(units, factor);
    RoundedDown(units * UNIT + (factor - 1), factor);
    DividesOnce(up * factor, UNIT, units, up * factor - units * UNIT);
  }
}
