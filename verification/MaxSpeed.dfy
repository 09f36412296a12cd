/** The highest speed that the power of a convoy is enough for, found by halving. */
module MaxSpeed {
  import opened SaturatedMath
  import opened Rates

  /** The power that it takes to keep up a speed. No quotient is negative here. */
  function Drag(speed: nat, friction: nat, weight: nat): nat {
    speed * (friction * speed / 3125 + 1) / 2048 + weight * 64 / 1000
  }

  /** The power that is left at a speed, in 32 bits. */
  function ResPower(speed: nat, power: int, friction: nat, weight: nat): int {
    Narrow(power - Narrow(Drag(speed, friction, weight)))
  }

  /** The power that is really left fits into 32 bits. */
  predicate Exact(speed: nat, power: int, friction: nat, weight: nat) {
    Drag(speed, friction, weight) <= MAX_SINT32 && MIN_SINT32 <= power - Drag(speed, friction, weight) <= MAX_SINT32
  }

  lemma ProductRises(a: nat, b: nat, c: nat, d: nat)
    requires a <= b && c <= d
    ensures a * c <= b * d
  {
    Scale(a, b, c);
    Scale(c, d, b);
    assert b * c == c * b && b * d == d * b;
  }

  /** The faster, the more power it takes. */
  lemma DragRises(s: nat, t: nat, friction: nat, weight: nat)
    requires s <= t
    ensures Drag(s, friction, weight) <= Drag(t, friction, weight)
  {
    ProductRises(friction, friction, s, t);
    DivRises(friction * s, friction * t, 3125);
    ProductRises(s, t, friction * s / 3125 + 1, friction * t / 3125 + 1);
    DivRises(s * (friction * s / 3125 + 1), t * (friction * t / 3125 + 1), 2048);
  }

  /** What is left is what it should be at every speed up to one at which the numbers fit, and
      falls with the speed. */
  lemma ResPowerFalls(s: nat, t: nat, power: int, friction: nat, weight: nat)
    requires s <= t && power <= MAX_SINT32 && Exact(t, power, friction, weight)
    ensures ResPower(s, power, friction, weight) == power - Drag(s, friction, weight)
    ensures ResPower(s, power, friction, weight) >= ResPower(t, power, friction, weight)
  {
    DragRises(s, t, friction, weight);
    NarrowExact(power, Drag(s, friction, weight));
    NarrowExact(power, Drag(t, friction, weight));
  }

  lemma NarrowExact(power: int, drag: nat)
    requires drag <= MAX_SINT32 && MIN_SINT32 <= power - drag <= MAX_SINT32
    ensures Narrow(power - Narrow(drag)) == power - drag
  {
  }

  /** The limit if there is power enough for it; otherwise, if there is any to move with, a
      speed that leaves power while another, higher by `tol` or by one, leaves none. If the
      numbers fit at the limit, then no speed higher by that much can be kept up. */
  method CalcMaxSpeed(totalPower: nat, weight: nat, limit: nat, tol: nat) returns (speed: nat)
    ensures var power := Narrow(totalPower);
      ResPower(limit, power, weight, weight) >= 0 ==> speed == limit
    ensures var power := Narrow(totalPower);
      ResPower(limit, power, weight, weight) < 0 && ResPower(1, power, weight, weight) <= 0 ==> speed == 1
    ensures var power := Narrow(totalPower);
      ResPower(limit, power, weight, weight) < 0 < ResPower(1, power, weight, weight) && limit > 0 ==>
        && 1 <= speed < limit && ResPower(speed, power, weight, weight) > 0
        && exists s :: speed < s <= speed + Step(tol) && s <= limit && ResPower(s, power, weight, weight) <= 0
    ensures var power := Narrow(totalPower);
      Exact(limit, power, weight, weight) ==>
        && (speed == limit || forall s: nat :: s >= speed + Step(tol) ==> power - Drag(s, weight, weight) <= 0)
        && (speed == 1 || power - Drag(speed, weight, weight) >= 0)
  {
    var power := Narrow(totalPower);
    var sr := limit;
    var pr := ResPower(sr, power, weight, weight);
    if pr >= 0 {
      Bracketed(limit, limit, limit, tol, power, weight);
      return sr;
    }
    var sl: nat := 1;
    var pl := ResPower(sl, power, weight, weight);
    if pl <= 0 {
      Bracketed(1, if limit == 0 then 0 else 1, limit, tol, power, weight);
      return 1;
    }
    while sr - sl > tol
      invariant limit > 0 ==> 1 <= sl < sr <= limit
      invariant limit == 0 ==> sl == 1 && sr == limit
      invariant pl == ResPower(sl, power, weight, weight) > 0 && pr == ResPower(sr, power, weight, weight) <= 0
      decreases sr - sl
    {
      var sm := (sl + sr) / 2;
      if sm == sl {
        break;
      }
      var pm := ResPower(sm, power, weight, weight);
      SignOfProduct(pl, pm);
      if pl * pm <= 0 {
        pr, sr := pm, sm;
      } else {
        pl, sl := pm, sm;
      }
    }
    Bracketed(sl, sr, limit, tol, power, weight);
    return sl;
  }

  /** How much more than the speed found is too much. */
  function Step(tol: nat): nat { if tol > 1 then tol else 1 }

  lemma Bracketed(speed: nat, sr: nat, limit: nat, tol: nat, power: int, weight: nat)
    requires power <= MAX_SINT32 && sr <= limit && sr <= speed + Step(tol) && (speed <= limit || speed == 1)
    requires speed == limit || ResPower(sr, power, weight, weight) <= 0
    requires speed == 1 || ResPower(speed, power, weight, weight) >= 0
    ensures Exact(limit, power, weight, weight) ==>
      && (speed == limit || forall s: nat :: s >= speed + Step(tol) ==> power - Drag(s, weight, weight) <= 0)
      && (speed == 1 || power - Drag(speed, weight, weight) >= 0)
  {
    if Exact(limit, power, weight, weight) {
      if speed <= limit {
        ResPowerFalls(speed, limit, power, weight, weight);
      }
      ResPowerFalls(sr, limit, power, weight, weight);
      forall s: nat | speed != limit && s >= speed + Step(tol)
        ensures power - Drag(s, weight, weight) <= 0
      {
        DragRises(sr, s, weight, weight);
      }
    }
  }

  /** Exactly under this condition a speed that passes the test can be kept up: the power is
      enough, or what is missing is, up to whole multiples of 2^32, no more than 2^31. */
  predicate TestIsRight(speed: nat, power: int, friction: nat, weight: nat) {
    var drag := Drag(speed, friction, weight);
    drag <= power || (drag - power - 1) % 0x1_0000_0000 <= MAX_SINT32
  }

  lemma PassedIsKeptUp(speed: nat, power: int, friction: nat, weight: nat)
    requires MIN_SINT32 <= power <= MAX_SINT32
    ensures (ResPower(speed, power, friction, weight) >= 0 ==> power >= Drag(speed, friction, weight)) <==>
              TestIsRight(speed, power, friction, weight)
  {
    NarrowTwice(power, Drag(speed, friction, weight));
    MissingPower(power, Drag(speed, friction, weight));
  }

  lemma NarrowTwice(power: int, drag: nat)
    ensures Narrow(power - Narrow(drag)) == Narrow(power - drag)
  {
  }

  lemma MissingPower(power: int, drag: nat)
    requires MIN_SINT32 <= power <= MAX_SINT32
    ensures (Narrow(power - drag) >= 0 ==> power >= drag) <==>
              drag <= power || (drag - power - 1) % 0x1_0000_0000 <= MAX_SINT32
  {
    if drag > power {
      var missing := drag - power - 1;
      assert (power - drag - MIN_SINT32) == MAX_SINT32 - missing;
    }
  }

  /** A convoy of 3200 tonnes takes so much power at this speed that the number wraps round:
      without any power it passes for one that can keep it up. */
  method TooFast() returns (speed: nat)
    ensures speed == 65536 && Drag(speed, 3200000, 3200000) > 0 && !TestIsRight(speed, 0, 3200000, 3200000)
  {
    HugeDrag();
    speed := CalcMaxSpeed(0, 3200000, 65536, 6);
  }

  lemma HugeDrag()
    ensures Drag(65536, 3200000, 3200000) == 2147688480 && Narrow(0) == 0 && ResPower(65536, 0, 3200000, 3200000) >= 0
  {
    assert 3200000 * 65536 / 3125 == 67108864;
    assert 65536 * 67108865 / 2048 == 2147483680;
    assert Narrow(2147688480) == -2147278816;
  }

  lemma SignOfProduct(a: int, b: int)
    requires a > 0
    ensures a * b <= 0 <==> b <= 0
  {
  }
}
