/** Products and quotients of 64-bit numbers that never wrap around. */
module SaturatedMath {

  const MAX_UINT64 := 0xFFFF_FFFF_FFFF_FFFF

  /** Operations of this type are checked to stay in its range. */
  newtype uint64 = x: int | 0 <= x <= MAX_UINT64

  /** a * b / d rounded down or up, but at most the limit. */
  function MulDiv(a: nat, b: nat, d: nat, limit: nat, roundUp: bool): nat {
    if d == 0 then limit else Capped(a * b / d, a * b % d, limit, roundUp)
  }

  /** A quotient with a remainder, rounded and capped. */
  function Capped(q: nat, r: nat, limit: nat, roundUp: bool): nat {
    var n := if roundUp && r != 0 then q + 1 else q;
    if n > limit then limit else n
  }

  function Pow2(n: nat): (p: nat)
    ensures p > 0
  {
    if n == 0 then 1 else 2 * Pow2(n - 1)
  }

  /** q is the quotient and r the remainder of n divided by d. */
  ghost predicate Divides(n: nat, d: nat, q: nat, r: nat) {
    d > 0 && n == q * d + r && r < d
  }

  lemma DividesOnce(n: nat, d: nat, q: nat, r: nat)
    requires Divides(n, d, q, r)
    ensures n / d == q && n % d == r
  {
    Unique(n / d, n % d, q, r, d);
  }

  lemma Unique(p: nat, s: nat, q: nat, r: nat, d: nat)
    requires d > 0 && s < d && r < d && p * d + s == q * d + r
    ensures p == q && r == s
  {
    OneMore(p, d);
    OneMore(q, d);
    if p > q {
      Scale(q + 1, p, d);
    } else if q > p {
      Scale(p + 1, q, d);
    }
  }

  lemma OneMore(q: nat, d: nat)
    ensures (q + 1) * d == q * d + d
  {
  }

  lemma Scale(a: nat, b: nat, d: nat)
    requires a <= b
    ensures a * d <= b * d
  {
    assert b * d == a * d + (b - a) * d;
  }

  lemma Distribute(x: nat, y: nat, z: nat)
    ensures (x + y) * z == x * z + y * z
  {
  }

  lemma Regroup(x: nat, y: nat, z: nat)
    ensures x * y * z == x * z * y
  {
  }

  /** Quotients are in the order of what is divided. */
  lemma DivRises(a: nat, b: nat, d: nat)
    requires d > 0 && a <= b
    ensures a / d <= b / d
  {
    Remains(a, d);
    Remains(b, d);
    InOrder(a, a / d, a % d, b, b / d, b % d, d);
  }

  lemma InOrder(a: nat, p: nat, r: nat, b: nat, q: nat, s: nat, d: nat)
    requires Divides(a, d, p, r) && Divides(b, d, q, s) && a <= b
    ensures p <= q
  {
    OneMore(q, d);
    if p > q { Scale(q + 1, p, d); }
  }

  /** The whole and the fractional part of a / d multiply with b one by one. */
  lemma SplitProduct(a: nat, b: nat, d: nat, q: nat, r: nat)
    requires d > 0 && Divides(a % d * b, d, q, r)
    ensures a * b / d == a / d * b + q && a * b % d == r
  {
    Remains(a, d);
    SplitParts(a, b, d, a / d, a % d, q, r);
    DividesOnce(a * b, d, a / d * b + q, r);
  }

  lemma SplitParts(a: nat, b: nat, d: nat, w: nat, f: nat, q: nat, r: nat)
    requires Divides(a, d, w, f) && Divides(f * b, d, q, r)
    ensures Divides(a * b, d, w * b + q, r)
  {
    Distribute(w * d, f, b);
    Regroup(w, d, b);
    Distribute(w * b, q, d);
  }

  lemma WholeBeyond(a: nat, b: nat, d: nat, limit: nat, roundUp: bool)
    requires d > 0 && b > 0 && a / d > limit / b
    ensures MulDiv(a, b, d, limit, roundUp) == limit
  {
    var w, f := a / d, a % d;
    Scale(limit / b + 1, w, b);
    assert (limit / b + 1) * b == limit / b * b + b;
    assert limit == limit / b * b + limit % b;
    Remains(f * b, d);
    SplitProduct(a, b, d, f * b / d, f * b % d);
  }

  lemma Remains(n: nat, d: nat)
    requires d > 0
    ensures Divides(n, d, n / d, n % d)
  {
  }

  /** A partial product over the leading bits of b is no larger than the whole. */
  lemma PartBelow(f: nat, part: nat, b: nat, d: nat, q: nat)
    requires d > 0 && part <= b && q * d <= f * part
    ensures f * b / d >= q
  {
    Scale(part, b, f);
    assert part * f == f * part && b * f == f * b;
    Remains(f * b, d);
    OneMore(f * b / d, d);
    if f * b / d < q {
      Scale(f * b / d + 1, q, d);
    }
  }

  lemma PartBeyond(a: nat, b: nat, d: nat, limit: nat, roundUp: bool, part: nat, q: nat)
    requires d > 0 && part <= b && AtMost(q, d, a % d * part) && a / d * b + q > limit
    ensures MulDiv(a, b, d, limit, roundUp) == limit
  {
    PartBelow(a % d, part, b, d, q);
    Remains(a % d * b, d);
    SplitProduct(a, b, d, a % d * b / d, a % d * b % d);
  }

  /** The leading bits of b, one bit more. */
  lemma NextBit(b: nat, p: nat, part: nat, low: nat)
    requires p > 0 && Divides(b, 2 * p, part, low)
    ensures var bit := b / p % 2; (bit == 1 <==> low >= p) && Divides(b, p, 2 * part + bit, low - bit * p)
  {
    var bit := if low >= p then 1 else 0;
    assert part * (2 * p) == 2 * part * p;
    assert (2 * part + bit) * p == 2 * part * p + bit * p;
    DividesOnce(b, p, 2 * part + bit, low - bit * p);
  }

  /** Doubling a quotient with its remainder, and adding a number below the divisor. */
  lemma Doubled(n: nat, d: nat, q: nat, r: nat)
    requires Divides(n, d, q, r)
    ensures if r >= d - r then Divides(2 * n, d, 2 * q + 1, r - (d - r)) else Divides(2 * n, d, 2 * q, 2 * r)
  {
    OneMore(2 * q, d);
  }

  lemma Increased(n: nat, d: nat, q: nat, r: nat, f: nat)
    requires Divides(n, d, q, r) && f < d
    ensures if r >= d - f then Divides(n + f, d, q + 1, r - (d - f)) else Divides(n + f, d, q, r + f)
  {
    OneMore(q, d);
  }

  /** q times d is at most n. */
  ghost predicate AtMost(q: nat, d: nat, n: nat) {
    q * d <= n
  }

  /** Doubles the quotient with its remainder; `over` if it leaves its range. */
  method Double(divisor: uint64, room: uint64, quotient0: uint64, remainder0: uint64, ghost n: nat)
      returns (over: bool, quotient: uint64, remainder: uint64, ghost q: nat)
    requires Divides(n, divisor as nat, quotient0 as nat, remainder0 as nat) && quotient0 <= room
    ensures if over then q > room as nat && AtMost(q, divisor as nat, 2 * n)
            else Divides(2 * n, divisor as nat, quotient as nat, remainder as nat) && quotient <= room
  {
    quotient, remainder := quotient0, remainder0;
    Doubled(n, divisor as nat, quotient as nat, remainder as nat);
    TwiceAtMost(n, divisor as nat, quotient as nat, remainder as nat);
    if quotient > room / 2 {
      return true, quotient, remainder, 2 * (quotient as nat);
    }
    quotient := quotient * 2;
    if remainder >= divisor - remainder {
      remainder := remainder - (divisor - remainder);
      if quotient == room {
        return true, quotient, remainder, quotient as nat + 1;
      }
      quotient := quotient + 1;
    } else {
      remainder := remainder * 2;
    }
    over, q := false, 0;
  }

  lemma TwiceAtMost(n: nat, d: nat, q: nat, r: nat)
    requires Divides(n, d, q, r)
    ensures AtMost(2 * q, d, 2 * n) && (r >= d - r ==> AtMost(2 * q + 1, d, 2 * n))
  {
    assert 2 * q * d == 2 * (q * d);
    OneMore(2 * q, d);
  }

  /** Adds the fraction to the quotient with its remainder. */
  method AddFraction(fraction: uint64, divisor: uint64, room: uint64, quotient0: uint64, remainder0: uint64,
                     ghost n: nat)
      returns (over: bool, quotient: uint64, remainder: uint64, ghost q: nat)
    requires Divides(n, divisor as nat, quotient0 as nat, remainder0 as nat) && quotient0 <= room && fraction < divisor
    ensures if over then q > room as nat && AtMost(q, divisor as nat, n + fraction as nat)
            else Divides(n + fraction as nat, divisor as nat, quotient as nat, remainder as nat) && quotient <= room
  {
    quotient, remainder := quotient0, remainder0;
    Increased(n, divisor as nat, quotient as nat, remainder as nat, fraction as nat);
    if remainder >= divisor - fraction {
      remainder := remainder - (divisor - fraction);
      if quotient == room {
        return true, quotient, remainder, quotient as nat + 1;
      }
      quotient := quotient + 1;
    } else {
      remainder := remainder + fraction;
    }
    over, q := false, 0;
  }

  lemma NextPart(f: nat, part: nat)
    ensures f * (2 * part) == 2 * (f * part) && f * (2 * part + 1) == 2 * (f * part) + f
  {
  }

  /** Computes a * b / divisor without ever needing more than 64 bits. */
  method SaturatedMulDiv(a: uint64, b: uint64, divisor: uint64, limit: uint64, roundUp: bool) returns (result: uint64)
    ensures result as nat == MulDiv(a as nat, b as nat, divisor as nat, limit as nat, roundUp)
  {
    ghost var A, B, D, L := a as nat, b as nat, divisor as nat, limit as nat;
    if divisor == 0 {
      return limit;
    }
    var over, whole, base := WholePart(a, b, divisor, limit, roundUp);
    if over {
      return limit;
    }
    var fraction := a % divisor;
    var quotient, remainder;
    ghost var part, q;
    over, quotient, remainder, part, q := MulFraction(fraction, b, divisor, limit - base);
    if over {
      PartBeyond(A, B, D, L, roundUp, part, q);
      return limit;
    }
    MulDivParts(A, B, D, L, roundUp, whole as nat, quotient as nat, remainder as nat);
    result := Sum(base, quotient, remainder, limit, roundUp);
  }

  /** The whole part of a / divisor times b, unless that exceeds the limit already. */
  method WholePart(a: uint64, b: uint64, divisor: uint64, limit: uint64, ghost roundUp: bool)
      returns (over: bool, whole: uint64, base: uint64)
    requires divisor > 0
    ensures over ==> MulDiv(a as nat, b as nat, divisor as nat, limit as nat, roundUp) == limit as nat
    ensures !over ==> whole == a / divisor && base as nat == whole as nat * b as nat <= limit as nat
  {
    whole, base := a / divisor, 0;
    if b != 0 && whole > limit / b {
      WholeBeyond(a as nat, b as nat, divisor as nat, limit as nat, roundUp);
      return true, whole, base;
    }
    WholeFits(whole as nat, b as nat, limit as nat);
    base := whole * b;
    over := false;
  }

  lemma MulDivParts(a: nat, b: nat, d: nat, limit: nat, roundUp: bool, w: nat, q: nat, r: nat)
    requires d > 0 && w == a / d && Divides(a % d * b, d, q, r)
    ensures MulDiv(a, b, d, limit, roundUp) == Capped(w * b + q, r, limit, roundUp)
  {
    SplitProduct(a, b, d, q, r);
  }

  method Sum(base: uint64, quotient: uint64, remainder: uint64, limit: uint64, roundUp: bool) returns (result: uint64)
    requires base <= limit
    ensures result as nat == Capped(base as nat + quotient as nat, remainder as nat, limit as nat, roundUp)
  {
    if quotient > limit - base {
      return limit;
    }
    result := base + quotient;
    if roundUp && remainder != 0 && result < limit {
      result := result + 1;
    }
  }

  lemma ProductFits(f: nat, b: nat)
    requires f == 0 || b <= MAX_UINT64 / f
    ensures f * b <= MAX_UINT64
  {
    if f != 0 { WholeFits(b, f, MAX_UINT64); }
    assert f * b == b * f;
  }

  lemma WholeFits(whole: nat, b: nat, limit: nat)
    requires b != 0 ==> whole <= limit / b
    ensures whole * b <= limit
  {
    if b != 0 {
      Scale(whole, limit / b, b);
      Remains(limit, b);
    }
  }

  /** The product with a proper fraction; `over` once the quotient is known to exceed `room`. */
  method MulFraction(fraction: uint64, b: uint64, divisor: uint64, room: uint64)
      returns (over: bool, quotient: uint64, remainder: uint64, ghost part: nat, ghost q: nat)
    requires fraction < divisor
    ensures if over then part <= b as nat && AtMost(q, divisor as nat, fraction as nat * part) && q > room as nat
            else Divides(fraction as nat * b as nat, divisor as nat, quotient as nat, remainder as nat)
  {
    part, q := 0, 0;
    if fraction == 0 || b <= 0xFFFF_FFFF_FFFF_FFFF / fraction {
      ProductFits(fraction as nat, b as nat);
      var product := fraction * b;
      quotient, remainder := product / divisor, product % divisor;
      Remains(product as nat, divisor as nat);
      over := false;
      return;
    }
    over, quotient, remainder, part, q := LongMultiplication(fraction, b, divisor, room);
  }

  /** The leading bits of b have been multiplied. */
  ghost predicate Multiplied(f: nat, b: nat, d: nat, quotient: nat, remainder: nat, p: nat, part: nat, low: nat) {
    Divides(b, p, part, low) && Divides(f * part, d, quotient, remainder)
  }

  /** Bit by bit, with a quotient and a remainder at every bit. */
  method LongMultiplication(fraction: uint64, b: uint64, divisor: uint64, room: uint64)
      returns (over: bool, quotient: uint64, remainder: uint64, ghost part: nat, ghost q: nat)
    requires fraction < divisor
    ensures if over then part <= b as nat && AtMost(q, divisor as nat, fraction as nat * part) && q > room as nat
            else Divides(fraction as nat * b as nat, divisor as nat, quotient as nat, remainder as nat)
  {
    quotient, remainder, part, q := 0, 0, 0, 0;
    ghost var low := b as nat;
    Pow64();
    var bit := 64;
    while bit > 0
      invariant 0 <= bit <= 64 && quotient <= room
      invariant Multiplied(fraction as nat, b as nat, divisor as nat, quotient as nat, remainder as nat, Pow2(bit),
              part, low)
    {
      bit := bit - 1;
      over, quotient, remainder, part, low, q :=
        OneBit(fraction, b, divisor, room, quotient, remainder, Pow2(bit), part, low);
      if over {
        return;
      }
    }
    over := false;
  }

  method OneBit(fraction: uint64, b: uint64, divisor: uint64, room: uint64, quotient0: uint64, remainder0: uint64,
                p: nat, ghost part0: nat, ghost low0: nat)
      returns (over: bool, quotient: uint64, remainder: uint64, ghost part: nat, ghost low: nat, ghost q: nat)
    requires fraction < divisor && quotient0 <= room && p > 0
    requires Multiplied(fraction as nat, b as nat, divisor as nat, quotient0 as nat, remainder0 as nat, 2 * p, part0,
            low0)
    ensures if over then part <= b as nat && AtMost(q, divisor as nat, fraction as nat * part) && q > room as nat
            else
              && quotient <= room
              && Multiplied(fraction as nat, b as nat, divisor as nat, quotient as nat, remainder as nat, p, part, low)
  {
    NextBit(b as nat, p, part0, low0);
    NextPart(fraction as nat, part0);
    var one := b as nat / p % 2 == 1;
    part, low := 2 * part0 + (if one then 1 else 0), if one then low0 - p else low0;
    PartIsSmall(b as nat, p, part, low);
    over, quotient, remainder, q := Double(divisor, room, quotient0, remainder0, fraction as nat * part0);
    if !over && one {
      over, quotient, remainder, q :=
        AddFraction(fraction, divisor, room, quotient, remainder, fraction as nat * (2 * part0));
    }
  }

  lemma PartIsSmall(b: nat, p: nat, part: nat, low: nat)
    requires p > 0 && Divides(b, p, part, low)
    ensures part <= b
  {
    Scale(1, p, part);
    assert p * part == part * p;
  }

  lemma Pow16()
    ensures Pow2(16) == 0x1_0000
  {
    assert Pow2(4) == 16;
    PowSum(4, 4);
    PowSum(8, 8);
  }

  lemma Pow64()
    ensures Pow2(64) == MAX_UINT64 + 1
  {
    Pow16();
    PowSum(16, 16);
    PowSum(32, 32);
  }

  lemma {:induction false} PowSum(m: nat, n: nat)
    ensures Pow2(m + n) == Pow2(m) * Pow2(n)
  {
    if m > 0 {
      PowSum(m - 1, n);
      assert 2 * Pow2(m - 1) * Pow2(n) == 2 * (Pow2(m - 1) * Pow2(n));
    }
  }
}
