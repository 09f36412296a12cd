/** The base production of a factory. What does not make up a whole unit is carried over. */
module Production {
  import opened SaturatedMath

  const MAX_SINT32 := 0x7FFF_FFFF
  // 1 << (PRODUCTION_DELTA_T_BITS + 2 * DEFAULT_PRODUCTION_FACTOR_BITS - precision_bits)
  const D: nat := 0x1_0000

  function Saturate(n: nat): nat {
    if n > MAX_SINT32 then MAX_SINT32 else n
  }

  /** One step at a rate for some time. */
  datatype Slice = Slice(rate: nat, time: nat)

  /** What is produced and what is carried over. */
  datatype Yield = Yield(prod: nat, remainder: nat)

  function Produce(s: Slice, remainder: nat): Yield {
    var r := s.rate % D * (s.time % D) % D + remainder;
    Yield(Saturate(MulDiv(s.rate, s.time, D, MAX_SINT32, false) + r / D), r % D)
  }

  method BaseProduction(prodbase: nat, boost: nat, deltaT: nat, mengeRemainder: nat) returns (prod: nat, remainder: nat)
    requires prodbase * boost <= MAX_UINT64 && deltaT < 0x1_0000_0000 && mengeRemainder < D
    ensures Yield(prod, remainder) == Produce(Slice(prodbase * boost, deltaT), mengeRemainder)
  {
    var mask := D - 1;
    var baseBoost := prodbase * boost;
    var r := baseBoost % (mask + 1) * (deltaT % (mask + 1)) % (mask + 1) + mengeRemainder;
    var p := SaturatedMulDiv(baseBoost as uint64, deltaT as uint64, D as uint64, MAX_SINT32 as uint64, false);
    prod := Saturate(p as nat + r / D);
    remainder := r % D;
  }

  /** The step produces less than can be counted. */
  predicate Unsaturated(s: Slice, remainder: nat) {
    s.rate * s.time + remainder < (MAX_SINT32 + 1) * D
  }

  lemma Expand(p: nat, c: nat, q: nat, e: nat, d: nat)
    ensures (p * d + c) * (q * d + e) == (p * (q * d + e) + c * q) * d + c * e
  {
    var b := q * d + e;
    assert (p * d + c) * b == p * d * b + c * b;
    assert p * d * b == p * b * d;
    assert c * b == c * (q * d) + c * e;
    assert c * (q * d) == c * q * d;
    assert (p * b + c * q) * d == p * b * d + c * q * d;
  }

  lemma ModOfSum(n: nat, d: nat, h: nat, r: nat)
    requires d > 0 && n == h * d + r
    ensures n % d == r % d
  {
    Remains(r, d);
    assert (h + r / d) * d == h * d + r / d * d;
    DividesOnce(n, d, h + r / d, r % d);
  }

  lemma ProductMod(a: nat, b: nat)
    ensures a % D * (b % D) % D == a * b % D
  {
    ProductModulo(a, b, D);
  }

  lemma ProductModulo(a: nat, b: nat, d: nat)
    requires d > 0
    ensures a % d * (b % d) % d == a * b % d
  {
    var p, q, c, e := a / d, b / d, a % d, b % d;
    Expand(p, c, q, e, d);
    assert a == p * d + c && b == q * d + e;
    ModOfSum(a * b, d, p * b + c * q, c * e);
  }

  /** A step accounts for everything: what it produces, what it carries over and what was
      carried over before. */
  lemma NothingLost(s: Slice, remainder: nat)
    requires remainder < D
    ensures Produce(s, remainder).remainder < D
    ensures Unsaturated(s, remainder) <==>
      Produce(s, remainder).prod * D + Produce(s, remainder).remainder == s.rate * s.time + remainder
  {
    var n := s.rate * s.time;
    ProductMod(s.rate, s.time);
    Remains(n, D);
    var r := n % D + remainder;
    Remains(r, D);
    if Unsaturated(s, remainder) {
      assert n / D <= MAX_SINT32;
    }
  }

  function Sum(slices: seq<Slice>): nat {
    if slices == [] then 0 else Sum(slices[..|slices| - 1]) + slices[|slices| - 1].rate * slices[|slices| - 1].time
  }

  /** All the steps one after the other. */
  function Run(slices: seq<Slice>, remainder: nat): Yield {
    if slices == [] then Yield(0, remainder) else
      var before := Run(slices[..|slices| - 1], remainder);
      var last := Produce(slices[|slices| - 1], before.remainder);
      Yield(before.prod + last.prod, last.remainder)
  }

  /** No step of the run is saturated. */
  predicate AllUnsaturated(slices: seq<Slice>, remainder: nat) {
    slices == [] ||
      (AllUnsaturated(slices[..|slices| - 1], remainder)
       && Unsaturated(slices[|slices| - 1], Run(slices[..|slices| - 1], remainder).remainder))
  }

  /** However a run is sliced, its total is that of the whole. */
  lemma {:induction false} RunTotal(slices: seq<Slice>, remainder: nat)
    requires remainder < D && AllUnsaturated(slices, remainder)
    ensures Run(slices, remainder).remainder < D
    ensures Run(slices, remainder).prod * D + Run(slices, remainder).remainder == Sum(slices) + remainder
  {
    if slices != [] {
      RunTotal(slices[..|slices| - 1], remainder);
      NothingLost(slices[|slices| - 1], Run(slices[..|slices| - 1], remainder).remainder);
    }
  }

  /** Two ways to slice the same work give the same production, and carry over the same. */
  lemma {:induction false} SameHoweverSliced(a: seq<Slice>, b: seq<Slice>, remainder: nat)
    requires remainder < D && AllUnsaturated(a, remainder) && AllUnsaturated(b, remainder) && Sum(a) == Sum(b)
    ensures Run(a, remainder) == Run(b, remainder)
  {
    RunTotal(a, remainder);
    RunTotal(b, remainder);
    Unique(Run(a, remainder).prod, Run(a, remainder).remainder, Run(b, remainder).prod, Run(b, remainder).remainder, D);
  }

  /** In particular, at one rate only the total time counts. */
  function Times(slices: seq<Slice>): nat {
    if slices == [] then 0 else Times(slices[..|slices| - 1]) + slices[|slices| - 1].time
  }

  lemma {:induction false} SumAtRate(slices: seq<Slice>, rate: nat)
    requires forall s :: s in slices ==> s.rate == rate
    ensures Sum(slices) == rate * Times(slices)
  {
    if slices != [] {
      SumAtRate(slices[..|slices| - 1], rate);
      var t := slices[|slices| - 1].time;
      assert slices[|slices| - 1] in slices;
      assert rate * (Times(slices[..|slices| - 1]) + t) == rate * Times(slices[..|slices| - 1]) + rate * t;
    }
  }
}
