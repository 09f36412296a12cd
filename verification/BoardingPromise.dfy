/** Whether a convoy that went aboard is put ashore where it wants to go. */
module BoardingPromise {

  /** One entry of a schedule. */
  datatype Entry = Entry(pos: nat, passStop: bool, noLoad: bool, noUnload: bool, unloadAll: bool)

  type Halt = nat
  const NO_HALT: Halt := 0

  /** The halt that a convoy may stop at, at a position; it depends on owner and waytype. */
  type Halts = nat -> Halt

  type Schedule = s: seq<Entry> | |s| > 0 witness [Entry(0, false, false, false, false)]

  /** The entry that is i entries after `cur`, going round at the end. */
  function Ahead(s: Schedule, cur: nat, i: nat): (k: nat)
    requires cur < |s| && i <= |s|
    ensures k < |s|
  {
    if cur + i < |s| then cur + i else cur + i - |s|
  }

  lemma GoesRound(s: Schedule, cur: nat, i: nat)
    requires cur < |s| && i <= |s|
    ensures Ahead(s, cur, i) == (cur + i) % |s|
  {
    var n := |s|;
    if cur + i < n {
      SmallMod(cur + i, n);
    } else {
      SmallMod(cur + i - n, n);
      assert (cur + i - n + n) % n == (cur + i - n) % n;
    }
  }

  lemma SmallMod(a: nat, n: nat)
    requires a < n
    ensures a % n == a
  {
  }

  function HaltAt(s: Schedule, h: Halts, cur: nat, i: nat): Halt
    requires cur < |s| && i <= |s|
  {
    h(s[Ahead(s, cur, i)].pos)
  }

  /** The next scheduled stop. */
  method GetShippingTargetHalt(s: Schedule, h: Halts, cur: nat) returns (dest: Halt, ghost d: nat)
    requires cur < |s|
    ensures dest != NO_HALT ==> 1 <= d < |s| && HaltAt(s, h, cur, d) == dest && forall i :: 1 <= i < d ==>
              HaltAt(s, h, cur, i) == NO_HALT
    ensures dest == NO_HALT ==> forall i :: 1 <= i < |s| ==> HaltAt(s, h, cur, i) == NO_HALT
  {
    d := 0;
    if |s| < 2 {
      return NO_HALT, d;
    }
    var i := 1;
    while i < |s|
      invariant 1 <= i <= |s| && forall j :: 1 <= j < i ==> HaltAt(s, h, cur, j) == NO_HALT
    {
      GoesRound(s, cur, i);
      dest := h(s[(cur + i) % |s|].pos);
      if dest != NO_HALT {
        d := i;
        return;
      }
      i := i + 1;
    }
    return NO_HALT, d;
  }

  /** Boarding moves the schedule on to the first entry at `dest`; a schedule that does not
      call there stays where it is. */
  method AdvanceTo(s: Schedule, h: Halts, start: nat, dest: Halt) returns (cur: nat, ghost d: nat)
    requires start < |s|
    ensures cur < |s| && 1 <= d <= |s| && cur == Ahead(s, start, d)
    ensures forall i :: 1 <= i < d ==> HaltAt(s, h, start, i) != dest
    ensures if exists i :: 1 <= i <= |s| && HaltAt(s, h, start, i) == dest then h(s[cur].pos) == dest else cur == start
  {
    cur := start;
    d := 0;
    for n := 0 to |s|
      invariant n < |s| && cur < |s| && cur == Ahead(s, start, n) && d == n
      invariant forall i :: 1 <= i <= n ==> HaltAt(s, h, start, i) != dest
    {
      GoesRound(s, cur, 1);
      cur := (cur + 1) % |s|;
      d := n + 1;
      assert cur == Ahead(s, start, d);
      assert HaltAt(s, h, start, d) == h(s[cur].pos);
      if h(s[cur].pos) == dest {
        break;
      }
      if cur == start {
        break;
      }
    }
  }

  /** After boarding, the convoy's current entry lies at the halt it was promised, and is the
      very next stop of its schedule. */
  method BoardFor(s: Schedule, h: Halts, start: nat) returns (dest: Halt, cur: nat)
    requires start < |s|
    ensures dest != NO_HALT ==> cur < |s| && h(s[cur].pos) == dest
    ensures dest == NO_HALT ==> cur == start
    ensures dest != NO_HALT ==> exists d :: 1 <= d < |s| && cur == Ahead(s, start, d) && forall i :: 1 <= i < d ==>
              HaltAt(s, h, start, i) == NO_HALT
  {
    ghost var d, e;
    dest, d := GetShippingTargetHalt(s, h, start);
    cur := start;
    if dest != NO_HALT {
      cur, e := AdvanceTo(s, h, start, dest);
      assert e < d ==> HaltAt(s, h, start, e) == NO_HALT;
      assert HaltAt(s, h, start, e) == h(s[cur].pos);
    }
  }

  /** The carrier stops there. */
  predicate StopsAt(s: Schedule, h: Halts, cur: nat, i: nat)
    requires cur < |s| && i <= |s|
  {
    !s[Ahead(s, cur, i)].passStop && HaltAt(s, h, cur, i) != NO_HALT
  }

  predicate DeliversAt(s: Schedule, h: Halts, cur: nat, i: nat, dest: Halt)
    requires cur < |s| && i <= |s|
  {
    StopsAt(s, h, cur, i) && HaltAt(s, h, cur, i) == dest && !s[Ahead(s, cur, i)].noUnload
  }

  /** The trip ends there for whoever boards at the current stop. */
  predicate EndsAt(s: Schedule, h: Halts, cur: nat, i: nat)
    requires cur < |s| && i <= |s|
  {
    && StopsAt(s, h, cur, i)
    && ((!s[Ahead(s, cur, i)].noLoad && HaltAt(s, h, cur, i) == HaltAt(s, h, cur, 0)) || s[Ahead(s, cur, i)].unloadAll)
  }

  /** The d-th entry from here is the first that delivers, and the trip does not end before. */
  ghost predicate DeliversFirst(s: Schedule, h: Halts, cur: nat, d: nat, dest: Halt)
    requires cur < |s|
  {
    && 1 <= d < |s| && DeliversAt(s, h, cur, d, dest)
    && forall i :: 1 <= i < d ==> !DeliversAt(s, h, cur, i, dest) && !EndsAt(s, h, cur, i)
  }

  ghost predicate CanDeliver(s: Schedule, h: Halts, cur: nat, dest: Halt)
    requires cur < |s|
  {
    exists d :: DeliversFirst(s, h, cur, d, dest)
  }

  method CanDeliverShippedTo(s: Schedule, h: Halts, cur: nat, dest: Halt) returns (b: bool)
    requires cur < |s|
    ensures b <==> CanDeliver(s, h, cur, dest)
  {
    if dest == NO_HALT {
      return false;
    }
    var currentHalt := h(s[cur].pos);
    var i := 1;
    while i < |s|
      invariant 1 <= i <= |s|
      invariant forall j :: 1 <= j < i ==> !DeliversAt(s, h, cur, j, dest) && !EndsAt(s, h, cur, j)
    {
      GoesRound(s, cur, i);
      var e := s[(cur + i) % |s|];
      if !e.passStop && h(e.pos) != NO_HALT {
        if h(e.pos) == dest && !e.noUnload {
          assert DeliversFirst(s, h, cur, i, dest);
          return true;
        }
        if !e.noLoad && h(e.pos) == currentHalt {
          assert EndsAt(s, h, cur, i);
          return false;
        }
        if e.unloadAll {
          assert EndsAt(s, h, cur, i);
          return false;
        }
      }
      i := i + 1;
    }
    return false;
  }

  /** What the call at an entry means to a convoy aboard. */
  datatype Outcome = Lands | RidesOn | Rescued

  ghost function CallAt(s: Schedule, h: Halts, cur: nat, dest: Halt): Outcome
    requires cur < |s|
  {
    if !s[cur].noUnload && dest != NO_HALT && h(s[cur].pos) == dest then Lands
    else if !s[cur].unloadAll && CanDeliver(s, h, cur, dest) then RidesOn
    else Rescued
  }

  /** How the ride of a convoy that went aboard at `cur` ends within n entries, and where. */
  datatype Ride = Ride(outcome: Outcome, entry: nat)

  ghost function RideFrom(s: Schedule, h: Halts, cur: nat, dest: Halt, n: nat): Ride
    requires cur < |s|
    decreases n
  {
    if n == 0 then Ride(RidesOn, cur) else
      var next := (cur + 1) % |s|;
      if s[next].passStop || h(s[next].pos) == NO_HALT || CallAt(s, h, next, dest) == RidesOn
      then RideFrom(s, h, next, dest, n - 1)
      else Ride(CallAt(s, h, next, dest), next)
  }

  /** Between boarding and the d-th entry, no stop is at a halt of an earlier stop and takes
      load again. */
  ghost predicate NoReturn(s: Schedule, h: Halts, cur: nat, d: nat)
    requires cur < |s| && d <= |s|
  {
    forall i, j :: 1 <= i < j < d && StopsAt(s, h, cur, i) && StopsAt(s, h, cur, j)
            && HaltAt(s, h, cur, i) == HaltAt(s, h, cur, j)
      ==> s[Ahead(s, cur, j)].noLoad
  }

  /** The i-th stop is called at again before the d-th entry. */
  ghost predicate ComesBack(s: Schedule, h: Halts, cur: nat, i: nat, d: nat)
    requires cur < |s| && i <= d <= |s|
  {
    exists j :: i < j < d && StopsAt(s, h, cur, j) && HaltAt(s, h, cur, j) == HaltAt(s, h, cur, i)
            && !s[Ahead(s, cur, j)].noLoad
  }

  lemma SameAhead(s: Schedule, h: Halts, cur: nat, i: nat, j: nat, dest: Halt)
    requires cur < |s| && i + j <= |s|
    ensures Ahead(s, Ahead(s, cur, i), j) == Ahead(s, cur, i + j)
    ensures var c := Ahead(s, cur, i);
      StopsAt(s, h, c, j) == StopsAt(s, h, cur, i + j) && HaltAt(s, h, c, j) == HaltAt(s, h, cur, i + j)
      && DeliversAt(s, h, c, j, dest) == DeliversAt(s, h, cur, i + j, dest)
  {
  }

  /** Asked again at an intermediate stop, the carrier still delivers unless it comes back to
      that very stop first. */
  lemma AskedAgain(s: Schedule, h: Halts, cur: nat, d: nat, dest: Halt, i: nat)
    requires cur < |s| && DeliversFirst(s, h, cur, d, dest) && 1 <= i < d && StopsAt(s, h, cur, i)
    ensures CanDeliver(s, h, Ahead(s, cur, i), dest) <==> !ComesBack(s, h, cur, i, d)
  {
    var c := Ahead(s, cur, i);
    SameAhead(s, h, cur, i, d - i, dest);
    SameAhead(s, h, cur, i, 0, dest);
    forall j: nat | j < d - i
      ensures DeliversAt(s, h, c, j, dest) ==> j == 0
      ensures j >= 1 ==>
                (EndsAt(s, h, c, j) <==>
                 && StopsAt(s, h, cur, i + j) && HaltAt(s, h, cur, i + j) == HaltAt(s, h, cur, i)
                 && !s[Ahead(s, cur, i + j)].noLoad)
    {
      SameAhead(s, h, cur, i, j, dest);
      assert i + j < d;
      assert !DeliversAt(s, h, cur, i + j, dest) && !EndsAt(s, h, cur, i + j);
    }
    if !ComesBack(s, h, cur, i, d) {
      assert DeliversFirst(s, h, c, d - i, dest);
    } else {
      var j :| i < j < d && StopsAt(s, h, cur, j) && HaltAt(s, h, cur, j) == HaltAt(s, h, cur, i)
              && !s[Ahead(s, cur, j)].noLoad;
      assert EndsAt(s, h, c, j - i);
      forall e: nat | DeliversFirst(s, h, c, e, dest)
        ensures false
      {
      }
    }
  }

  /** No stop between the k-th and the d-th entry is called at again. */
  ghost predicate Undisturbed(s: Schedule, h: Halts, cur: nat, k: nat, d: nat)
    requires cur < |s| && d <= |s|
  {
    forall i :: k < i < d && StopsAt(s, h, cur, i) ==> !ComesBack(s, h, cur, i, d)
  }

  /** What the call at the k-th entry means before the delivering one. */
  lemma CallBefore(s: Schedule, h: Halts, cur: nat, d: nat, dest: Halt, k: nat)
    requires cur < |s| && dest != NO_HALT && DeliversFirst(s, h, cur, d, dest) && 1 <= k < d && StopsAt(s, h, cur, k)
    ensures CallAt(s, h, Ahead(s, cur, k), dest) == if ComesBack(s, h, cur, k, d) then Rescued else RidesOn
  {
    AskedAgain(s, h, cur, d, dest, k);
    assert !DeliversAt(s, h, cur, k, dest) && !EndsAt(s, h, cur, k);
  }

  /** Riding on from the k-th entry. */
  lemma {:induction false} RideOn(s: Schedule, h: Halts, cur: nat, d: nat, dest: Halt, k: nat)
    requires cur < |s| && dest != NO_HALT && DeliversFirst(s, h, cur, d, dest) && k < d
    ensures var r := RideFrom(s, h, Ahead(s, cur, k), dest, d - k);
      if Undisturbed(s, h, cur, k, d) then r == Ride(Lands, Ahead(s, cur, d)) else r.outcome == Rescued
    decreases d - k
  {
    var c, n := Ahead(s, cur, k), k + 1;
    var next := Ahead(s, cur, n);
    GoesRound(s, c, 1);
    if n < d {
      RideOn(s, h, cur, d, dest, n);
      if StopsAt(s, h, cur, n) {
        CallBefore(s, h, cur, d, dest, n);
      }
      assert Undisturbed(s, h, cur, k, d) <==>
        Undisturbed(s, h, cur, n, d) && (StopsAt(s, h, cur, n) ==> !ComesBack(s, h, cur, n, d));
    } else {
      assert DeliversAt(s, h, cur, d, dest) && CallAt(s, h, next, dest) == Lands;
    }
  }

  /** The boarding promise. A convoy is taken aboard when the trip delivers it. It then stays
      aboard at every stop before the delivering one and landing is attempted there, exactly
      when the carrier does not come back to a stop it made before. */
  lemma {:induction false} PromiseKept(s: Schedule, h: Halts, cur: nat, d: nat, dest: Halt)
    requires cur < |s| && dest != NO_HALT && DeliversFirst(s, h, cur, d, dest)
    ensures RideFrom(s, h, cur, dest, d) == Ride(Lands, Ahead(s, cur, d)) <==> NoReturn(s, h, cur, d)
    ensures RideFrom(s, h, cur, dest, d).outcome == Rescued <==> !NoReturn(s, h, cur, d)
  {
    RideOn(s, h, cur, d, dest, 0);
    assert Ahead(s, cur, 0) == cur;
    if exists i :: 0 < i < d && StopsAt(s, h, cur, i) && ComesBack(s, h, cur, i, d) {
      var i :| 0 < i < d && StopsAt(s, h, cur, i) && ComesBack(s, h, cur, i, d);
      assert !NoReturn(s, h, cur, d);
    } else {
      forall i, j | 1 <= i < j < d && StopsAt(s, h, cur, i) && StopsAt(s, h, cur, j)
              && HaltAt(s, h, cur, i) == HaltAt(s, h, cur, j)
        ensures s[Ahead(s, cur, j)].noLoad
      {
        assert !ComesBack(s, h, cur, i, d);
      }
    }
  }

  /** A carrier that calls at no halt twice before the delivering stop keeps its promise. */
  lemma {:induction false} NoHaltTwice(s: Schedule, h: Halts, cur: nat, d: nat, dest: Halt)
    requires cur < |s| && dest != NO_HALT && DeliversFirst(s, h, cur, d, dest)
    requires forall i, j :: 1 <= i < j < d && StopsAt(s, h, cur, i) && StopsAt(s, h, cur, j) ==>
              HaltAt(s, h, cur, i) != HaltAt(s, h, cur, j)
    ensures RideFrom(s, h, cur, dest, d) == Ride(Lands, Ahead(s, cur, d))
  {
    PromiseKept(s, h, cur, d, dest);
  }

  /** On S - A - B - A - D the convoy for D is taken aboard at S and rescued at the first A. */
  lemma PromiseBroken()
    ensures var s := [1, 2, 3, 2, 4];
      var e: Schedule := seq(5, i requires 0 <= i < 5 => Entry(s[i], false, false, false, false));
      var h := (p: nat) => p;
      CanDeliver(e, h, 0, 4) && RideFrom(e, h, 0, 4, 4).outcome == Rescued
  {
    var s := [1, 2, 3, 2, 4];
    var e: Schedule := seq(5, i requires 0 <= i < 5 => Entry(s[i], false, false, false, false));
    var h := (p: nat) => p;
    assert DeliversFirst(e, h, 0, 4, 4);
    PromiseKept(e, h, 0, 4, 4);
    assert StopsAt(e, h, 0, 1) && StopsAt(e, h, 0, 3) && HaltAt(e, h, 0, 1) == HaltAt(e, h, 0, 3);
  }
}
