/** Chains are joined, cut and turned round while the rest of the fleet stays as it is. */
module Coupling {
  import opened Vehicles
  import opened Convois

  /** The table with every convoy of `cs` in state `s`. */
  function AllIn(t: Table, cs: seq<Handle>, s: State): Table {
    map c | c in t :: if c in cs then t[c].(state := s) else t[c]
  }

  /** The links and flags that both ways of coupling set. */
  function Joined(t: Table, a: Handle, b: Handle): Table
    requires a in t && b in t
  {
    var t1 := t[a := t[a].(coupling := b, fahr := WithLast(t[a].fahr, false))];
    t1[b := t1[b].(parent := a, fahr := WithLeading(t1[b].fahr, false))]
  }

  /** The states that coupling sets: at a stop those of the whole rear chain and of a front
      convoy that is no child itself, on the way only that of the rear head. */
  function Announced(t: Table, a: Handle, B: seq<Handle>, running: bool): Table
    requires |B| > 0 && a in t && B[0] in t
  {
    if running then t[B[0] := t[B[0]].(state := Coupled)] else
      var t1 := AllIn(t, B, CoupledLoading);
      if t1[a].state.IsCoupled() then t1 else t1[a := t1[a].(state := Loading)]
  }

  function CoupledWith(t: Table, a: Handle, B: seq<Handle>, running: bool): Table
    requires |B| > 0 && a in t && B[0] in t
  {
    Joined(Announced(t, a, B, running), a, B[0])
  }

  /** The table after `a` has let go of its child, if it has one. */
  function Cut(t: Table, a: Handle): Table
    requires a in t
  {
    if t[a].coupling !in t then t else
      var b := t[a].coupling;
      var t1 := t[b := t[b].(state := if t[a].state.IsLoading() then Loading else Routing1,
                             fahr := WithLeading(t[b].fahr, true))];
      var t2 := t1[a := t1[a].(fahr := WithLast(t1[a].fahr, true))];
      var t3 := t2[b := t2[b].(parent := UNBOUND)];
      t3[a := t3[a].(coupling := UNBOUND)]
  }

  lemma KeepsIds(f: seq<Vehicle>, b: bool)
    ensures Ids(WithLast(f, b)) == Ids(f) == Ids(WithLeading(f, b))
  {
  }

  /** Coupling joins the links, states and flags of two chains into those of one. */
  lemma JoinedOnMap(t: Table, A: seq<Handle>, B: seq<Handle>, running: bool)
    requires OnMap(t, A) && OnMap(t, B) && Apart(A, B)
    requires Last(A) in t && B[0] in t
    ensures OnMap(CoupledWith(t, Last(A), B, running), A + B)
  {
    var u := CoupledWith(t, Last(A), B, running);
    forall i | 0 <= i < |A + B|
      ensures OnMapAt(u, A + B, i)
    {
      if i < |A| {
        assert OnMapAt(t, A, i);
        if i == |A| - 1 { LastFlags(t[A[i]].fahr, i == 0, true, false); }
      } else {
        assert OnMapAt(t, B, i - |A|);
        if i == |A| { LeadingFlags(t[B[0]].fahr, true, |B| == 1, false); }
      }
    }
  }

  /** At a stop, every convoy of the rear chain loads as a child, and the front convoy loads unless
      it is a child itself; on the way, the rear head becomes a child. No other state changes. */
  ghost predicate CouplingStates(t: Table, u: Table, a: Handle, B: seq<Handle>, running: bool) {
    |B| > 0 && u.Keys == t.Keys && forall x :: x in t ==>
      u[x].state ==
        if running then (if x == B[0] then Coupled else t[x].state)
        else if x == a then (if t[x].state.IsCoupled() then t[x].state else Loading)
        else if x in B then CoupledLoading
        else t[x].state
  }

  lemma StatesCoupled(t: Table, a: Handle, B: seq<Handle>, running: bool)
    requires |B| > 0 && a in t && B[0] in t && a !in B
    ensures CouplingStates(t, CoupledWith(t, a, B, running), a, B, running)
  {
  }

  lemma AnnouncedElsewhere(t: Table, a: Handle, B: seq<Handle>, running: bool)
    requires |B| > 0 && a in t && B[0] in t
    ensures LoadsKept(t, Announced(t, a, B, running))
    ensures forall x :: x in t && x != a && x !in B ==> Announced(t, a, B, running)[x] == t[x]
  {
  }

  lemma JoinedElsewhere(t: Table, a: Handle, B: seq<Handle>, running: bool)
    requires |B| > 0 && a in t && B[0] in t
    ensures LoadsKept(t, CoupledWith(t, a, B, running))
    ensures forall x :: x in t && x != a && x !in B ==> CoupledWith(t, a, B, running)[x] == t[x]
  {
    var b, t1 := B[0], Announced(t, a, B, running);
    AnnouncedElsewhere(t, a, B, running);
    KeepsIds(t1[a].fahr, false);
    var t2 := t1[a := t1[a].(coupling := b, fahr := WithLast(t1[a].fahr, false))];
    KeepsIds(t2[b].fahr, false);
  }

  /** Uncoupling leaves two chains, each with links, states and flags of its own. */
  lemma CutOnMap(t: Table, A: seq<Handle>, B: seq<Handle>)
    requires OnMap(t, A + B) && |A| > 0 && |B| > 0 && Last(A) in t && UNBOUND !in t
    ensures OnMap(Cut(t, Last(A)), A) && OnMap(Cut(t, Last(A)), B)
    ensures t[Last(A)].coupling == B[0] && B[0] in t && Last(A) != B[0]
  {
    var u, cs, k := Cut(t, Last(A)), A + B, |A| - 1;
    assert OnMapAt(t, cs, k) && OnMapAt(t, cs, k + 1);
    forall i | 0 <= i < |A|
      ensures OnMapAt(u, A, i)
    {
      assert OnMapAt(t, cs, i) && cs[i] == A[i];
      if i == k { LastFlags(t[cs[k]].fahr, k == 0, false, true); }
    }
    forall i | 0 <= i < |B|
      ensures OnMapAt(u, B, i)
    {
      assert OnMapAt(t, cs, |A| + i) && cs[|A| + i] == B[i];
      if i == 0 { LeadingFlags(t[B[0]].fahr, false, |B| == 1, true); }
    }
    assert forall i :: 0 <= i < |A| ==> cs[i] == A[i];
    assert forall i :: 0 <= i < |B| ==> cs[|A| + i] == B[i];
  }

  lemma CutElsewhere(t: Table, a: Handle)
    requires a in t && t[a].coupling != a
    ensures LoadsKept(t, Cut(t, a))
    ensures forall x :: x in t && x != a && x != t[a].coupling ==> Cut(t, a)[x] == t[x]
  {
    KeepsIds(t[a].fahr, true);
    if t[a].coupling in t { KeepsIds(t[t[a].coupling].fahr, true); }
  }

  /** The chains after the chain A + B was cut in two. */
  ghost function Split(m: Chains, A: seq<Handle>, B: seq<Handle>): Chains {
    Filed(Filed(m, A), B)
  }

  lemma DistinctParts(A: seq<Handle>, B: seq<Handle>)
    requires Distinct(A + B)
    ensures Distinct(A) && Distinct(B) && forall x :: x in A ==> x !in B
  {
    assert forall i :: 0 <= i < |A| ==> A[i] == (A + B)[i];
    assert forall i :: 0 <= i < |B| ==> B[i] == (A + B)[|A| + i];
    forall x | x in A
      ensures x !in B
    {
      var i :| 0 <= i < |A| && A[i] == x;
      assert (A + B)[i] == x;
      assert forall j :: 0 <= j < |B| ==> B[j] == (A + B)[|A| + j];
    }
  }

  lemma WholesApart(t: Table, m: Chains, A: seq<Handle>, B: seq<Handle>)
    requires Whole(t, m, A) && Whole(t, m, B) && A != B
    ensures Apart(A, B) && forall x :: x in A ==> x !in B
  {
    forall x | x in A
      ensures x !in B
    {
      assert m[x] == A;
    }
    assert forall i :: 0 <= i < |A| ==> A[i] in A;
    assert forall j :: 0 <= j < |B| ==> B[j] in B;
  }

  /** Coupling keeps the whole fleet in order. */
  lemma FleetJoined(t: Table, m: Chains, A: seq<Handle>, B: seq<Handle>, running: bool)
    requires Fleet(t, m) && Whole(t, m, A) && Whole(t, m, B) && A != B && Last(A) in t && B[0] in t
    ensures var u, m' := CoupledWith(t, Last(A), B, running), Filed(m, A + B);
      Fleet(u, m') && Whole(u, m', A + B) && LoadsKept(t, u) && ElseKept(t, m, u, m', A + B)
  {
    WholesApart(t, m, A, B);
    JoinedOnMap(t, A, B, running);
    JoinedElsewhere(t, Last(A), B, running);
    MergeFleet(t, m, A, B, CoupledWith(t, Last(A), B, running), Filed(m, A + B));
  }

  lemma MergeFleet(t: Table, m: Chains, A: seq<Handle>, B: seq<Handle>, u: Table, m': Chains)
    requires Fleet(t, m) && Whole(t, m, A) && Whole(t, m, B) && LoadsKept(t, u) && OnMap(u, A + B)
    requires m' == Filed(m, A + B) && forall x :: x in t && x !in A + B ==> u[x] == t[x]
    ensures Fleet(u, m') && Whole(u, m', A + B) && ElseKept(t, m, u, m', A + B)
  {
    LoadsHold(t, u);
    forall x | x in m
      ensures Sound(u, m', x)
    {
      if x in A {
        Moved(t, m, u, m', A, A + B, x);
      } else if x in B {
        Moved(t, m, u, m', B, A + B, x);
      } else {
        RestSound(t, m, u, m', A + B, x);
      }
    }
  }

  /** Uncoupling keeps the whole fleet in order. */
  lemma FleetCut(t: Table, m: Chains, A: seq<Handle>, B: seq<Handle>)
    requires Fleet(t, m) && |A| > 0 && |B| > 0 && Whole(t, m, A + B) && Last(A) in t
    ensures var u, m' := Cut(t, Last(A)), Split(m, A, B);
      Fleet(u, m') && Whole(u, m', A) && Whole(u, m', B) && LoadsKept(t, u) && ElseKept(t, m, u, m', A + B)
  {
    CutOnMap(t, A, B);
    CutElsewhere(t, Last(A));
    DistinctParts(A, B);
    SplitFleet(t, m, A, B, Cut(t, Last(A)), Split(m, A, B));
  }

  lemma SplitFleet(t: Table, m: Chains, A: seq<Handle>, B: seq<Handle>, u: Table, m': Chains)
    requires Fleet(t, m) && Whole(t, m, A + B) && LoadsKept(t, u) && OnMap(u, A) && OnMap(u, B)
    requires m' == Split(m, A, B) && forall x :: x in A ==> x !in B
    requires forall x :: x in t && x !in A + B ==> u[x] == t[x]
    ensures Fleet(u, m') && Whole(u, m', A) && Whole(u, m', B) && ElseKept(t, m, u, m', A + B)
  {
    LoadsHold(t, u);
    assert Whole(u, m', A) && Whole(u, m', B) && ElseKept(t, m, u, m', A + B);
    forall x | x in m
      ensures Sound(u, m', x)
    {
      if x in A {
        Moved(t, m, u, m', A + B, A, x);
      } else if x in B {
        Moved(t, m, u, m', A + B, B, x);
      } else {
        RestSound(t, m, u, m', A + B, x);
      }
    }
  }

  /** Following the links to the children from the head passes exactly these convoys. */
  ghost predicate Walk(t: Table, cs: seq<Handle>) {
    forall i {:trigger WalkAt(t, cs, i)} :: 0 <= i < |cs| ==> WalkAt(t, cs, i)
  }

  ghost predicate WalkAt(t: Table, cs: seq<Handle>, i: int)
    requires 0 <= i < |cs|
  {
    cs[i] in t && if i + 1 < |cs| then t[cs[i]].coupling == cs[i + 1] else t[cs[i]].coupling !in t
  }

  lemma ChainWalk(t: Table, cs: seq<Handle>)
    requires OnMap(t, cs)
    ensures Walk(t, cs)
  {
    forall i | 0 <= i < |cs|
      ensures WalkAt(t, cs, i)
    {
      assert OnMapAt(t, cs, i);
    }
  }

  /** Swaps the vehicles pairwise until the two ends meet. */
  method SwapEnds(f: seq<Vehicle>) returns (g: seq<Vehicle>)
    requires |f| > 0
    ensures g == Reversed(f)
  {
    g := f;
    ghost var r := Reversed(f);
    var a, b := 0, |f| - 1;
    while a < b
      invariant 0 <= a <= b + 1 <= |f| == |g| && b == |f| - 1 - a
      invariant forall j :: a <= j <= b ==> g[j] == f[j]
      invariant forall j :: 0 <= j < a ==> g[j] == r[j]
      invariant forall j :: b < j < |f| ==> g[j] == r[j]
    {
      var front, back := g[a], g[b];
      assert back == r[a] && front == r[b];
      g := g[a := back];
      g := g[b := front];
      a, b := a + 1, b - 1;
    }
  }

  /** The convoys of the game, each reached through its handle. */
  class Welt {
    var cnv: Table
    ghost var chainOf: Chains

    ghost predicate Valid()
      reads this
    {
      Fleet(cnv, chainOf)
    }

    method SetState(c: Handle, s: State)
      requires c in cnv
      modifies this`cnv
      ensures cnv == old(cnv)[c := old(cnv)[c].(state := s)]
    {
      cnv := cnv[c := cnv[c].(state := s)];
    }

    method SetLinksAndFlags(self: Handle, coupled: Handle)
      requires self in cnv && coupled in cnv && self != coupled
      modifies this`cnv
      ensures cnv == Joined(old(cnv), self, coupled)
    {
      cnv := cnv[self := cnv[self].(coupling := coupled)];
      cnv := cnv[coupled := cnv[coupled].(parent := self)];
      cnv := cnv[coupled := cnv[coupled].(fahr := WithLeading(cnv[coupled].fahr, false))];
      cnv := cnv[self := cnv[self].(fahr := WithLast(cnv[self].fahr, false))];
    }

    /** Joins the chain led by `coupled` behind `self` while both stand at a stop. */
    method CoupleConvoi(self: Handle, coupled: Handle, ghost B: seq<Handle>)
      requires self in cnv && self != coupled && |B| > 0 && B[0] == coupled && Walk(cnv, B)
      modifies this`cnv
      ensures old(coupled in cnv) && cnv == CoupledWith(old(cnv), self, B, false)
    {
      assert WalkAt(cnv, B, 0);
      var c := coupled;
      ghost var i := 0;
      while c in cnv
        invariant 0 <= i <= |B| && (if i < |B| then c == B[i] else c !in cnv)
        invariant cnv == AllIn(old(cnv), B[..i], CoupledLoading)
        decreases |B| - i
      {
        assert WalkAt(old(cnv), B, i);
        SetState(c, CoupledLoading);
        c := cnv[c].coupling;
        assert B[..i + 1] == B[..i] + [B[i]];
        i := i + 1;
      }
      assert i < |B| ==> WalkAt(old(cnv), B, i);
      assert B[..i] == B;
      if !cnv[self].state.IsCoupled() {
        SetState(self, Loading);
      }
      SetLinksAndFlags(self, coupled);
    }

    /** Joins the chain led by `coupled` behind `self` while it is on its way. */
    method CoupleConvoiDuringRunning(self: Handle, coupled: Handle, ghost B: seq<Handle>)
      requires self in cnv && coupled in cnv && self != coupled && |B| > 0 && B[0] == coupled
      modifies this`cnv
      ensures cnv == CoupledWith(old(cnv), self, B, true)
    {
      SetState(coupled, Coupled);
      SetLinksAndFlags(self, coupled);
    }

    /** Cuts the chain behind `self`; the result leads the part cut off. */
    method UncoupleConvoi(self: Handle) returns (ret: Handle)
      requires self in cnv
      modifies this`cnv
      ensures cnv == Cut(old(cnv), self)
      ensures ret == if old(cnv)[self].coupling in old(cnv) then old(cnv)[self].coupling else UNBOUND
    {
      if cnv[self].coupling !in cnv {
        return UNBOUND;
      }
      ret := cnv[self].coupling;
      SetState(ret, if cnv[self].state.IsLoading() then Loading else Routing1);
      cnv := cnv[ret := cnv[ret].(fahr := WithLeading(cnv[ret].fahr, true))];
      cnv := cnv[self := cnv[self].(fahr := WithLast(cnv[self].fahr, true))];
      cnv := cnv[ret := cnv[ret].(parent := UNBOUND)];
      cnv := cnv[self := cnv[self].(coupling := UNBOUND)];
    }

    /** Turns a convoy round: the vehicles in opposite order, and the flags at the new ends
        if the convoy has an end of its chain there. */
    method ReverseVehicles(c: Handle)
      requires c in cnv && |cnv[c].fahr| > 0
      modifies this`cnv
      ensures cnv == old(cnv)[c := old(cnv)[c].(reversed := !old(cnv)[c].reversed,
                fahr := Turned(old(cnv)[c].fahr, !old(cnv)[c].state.IsCoupled(), old(cnv)[c].coupling !in old(cnv)))]
    {
      var f := WithLast(WithLeading(cnv[c].fahr, false), false);
      f := SwapEnds(f);
      if !cnv[c].state.IsCoupled() {
        f := WithLeading(f, true);
      }
      if cnv[c].coupling !in cnv {
        f := WithLast(f, true);
      }
      cnv := cnv[c := cnv[c].(fahr := f, reversed := !cnv[c].reversed)];
    }

    /** A convoy that reaches a stop where it has to turn. */
    method ReverseVehiclesAtHalt(c: Handle, ghost cs: seq<Handle>, ghost k: nat)
      requires Valid() && Whole(cnv, chainOf, cs) && k < |cs| && cs[k] == c
      modifies this`cnv
      ensures c in old(cnv) && cnv == TurnedOver(old(cnv), c)
      ensures Valid() && Whole(cnv, chainOf, cs) && HoldsKept(old(cnv), cnv)
      ensures ElseKept(old(cnv), chainOf, cnv, chainOf, cs)
    {
      assert OnMapAt(cnv, cs, k);
      FleetTurned(cnv, chainOf, cs, k);
      ReverseVehicles(c);
      cnv := cnv[c := cnv[c].(reversingNeeded := false)];
    }

    method FindMostChild(self: Handle, ghost cs: seq<Handle>, ghost k: nat) returns (c: Handle)
      requires Walk(cnv, cs) && k < |cs| && cs[k] == self
      ensures c == Last(cs)
    {
      c := self;
      ghost var i := k;
      while cnv[c].coupling in cnv
        invariant k <= i < |cs| && c == cs[i] && WalkAt(cnv, cs, i)
        invariant i + 1 < |cs| ==> WalkAt(cnv, cs, i + 1)
        decreases |cs| - i
      {
        c := cnv[c].coupling;
        i := i + 1;
      }
    }

    method GetMostParent(self: Handle, ghost cs: seq<Handle>, ghost k: nat) returns (c: Handle)
      requires OnMap(cnv, cs) && k < |cs| && cs[k] == self
      ensures c == cs[0]
    {
      c := self;
      ghost var i := k;
      while cnv[c].parent in cnv
        invariant 0 <= i <= k && c == cs[i] && OnMapAt(cnv, cs, i)
        invariant i > 0 ==> OnMapAt(cnv, cs, i - 1)
        decreases i
      {
        c := cnv[c].parent;
        i := i - 1;
      }
    }

    /** Coupling two chains of the fleet, at a stop or on the way. */
    method Couple(a: Handle, b: Handle, running: bool, ghost A: seq<Handle>, ghost B: seq<Handle>)
      requires Valid() && Whole(cnv, chainOf, A) && Whole(cnv, chainOf, B) && A != B
      requires a == Last(A) && b == B[0]
      modifies this
      ensures Valid() && Whole(cnv, chainOf, A + B) && LoadsKept(old(cnv), cnv)
      ensures a in old(cnv) && b in old(cnv) && cnv == CoupledWith(old(cnv), a, B, running)
      ensures CouplingStates(old(cnv), cnv, a, B, running)
      ensures ElseKept(old(cnv), old(chainOf), cnv, chainOf, A + B)
    {
      assert OnMapAt(cnv, A, |A| - 1) && OnMapAt(cnv, B, 0);
      FleetJoined(cnv, chainOf, A, B, running);
      WholesApart(cnv, chainOf, A, B);
      ChainWalk(cnv, B);
      if running {
        CoupleConvoiDuringRunning(a, b, B);
      } else {
        CoupleConvoi(a, b, B);
      }
      chainOf := Filed(chainOf, A + B);
      StatesCoupled(old(cnv), a, B, running);
    }

    /** Uncoupling the convoys A of a chain from the convoys B they pull. */
    method Uncouple(self: Handle, ghost A: seq<Handle>, ghost B: seq<Handle>) returns (ret: Handle)
      requires Valid() && |A| > 0 && self == Last(A) && |B| > 0 && Whole(cnv, chainOf, A + B)
      modifies this
      ensures Valid() && Whole(cnv, chainOf, A) && Whole(cnv, chainOf, B) && LoadsKept(old(cnv), cnv)
      ensures self in old(cnv) && cnv == Cut(old(cnv), self) && ret == B[0]
      ensures forall x :: x in old(cnv) && x != ret ==> cnv[x].state == old(cnv)[x].state
      ensures ret in cnv && cnv[ret].state == if old(cnv)[self].state.IsLoading() then Loading else Routing1
      ensures ElseKept(old(cnv), old(chainOf), cnv, chainOf, A + B)
    {
      assert OnMapAt(cnv, A + B, |A| - 1);
      FleetCut(cnv, chainOf, A, B);
      CutOnMap(cnv, A, B);
      ret := UncoupleConvoi(self);
      chainOf := Split(chainOf, A, B);
    }

    /** Turns the order of the convoys round: the tail becomes the head. The order of the
        vehicles within each convoy stays. */
    method ReverseConvoyCoupling(self: Handle, ghost cs: seq<Handle>)
      requires Valid() && Whole(cnv, chainOf, cs) && self == cs[0]
      modifies this
      ensures Valid() && Whole(cnv, chainOf, Reversed(cs)) && TurnedRound(old(cnv), cnv, cs)
      ensures ElseKept(old(cnv), old(chainOf), cnv, chainOf, cs)
      decreases |cs|
    {
      assert OnMapAt(cnv, cs, 0) && (|cs| > 1 ==> OnMapAt(cnv, cs, 1));
      var np := cnv[self].coupling;
      if np !in cnv {
        assert Reversed(cs) == cs;
        return;
      }
      ghost var t, rest := cnv, cs[1..];
      ReversedSplit(cs);
      var _ := Uncouple(self, [self], rest);
      ghost var t1, m1 := cnv, chainOf;
      if HasChild(cnv, np, rest) {
        ReverseConvoyCoupling(np, rest);
      } else {
        OneTurned(t1, rest);
      }
      FrontKept(t, t1, m1, cnv, chainOf, self, rest);
      ghost var t2 := cnv;
      var running := !cnv[self].state.IsLoading();
      Couple(np, self, running, Reversed(rest), [self]);
      ReversedMembers(cs);
      TurnedTogether(t, t2, cnv, self, rest, cs, running);
    }
  }

  /** The table after the convoy c has turned its vehicles round. */
  function TurnedOver(t: Table, c: Handle): Table
    requires c in t
  {
    t[c := t[c].(reversed := !t[c].reversed, reversingNeeded := false,
                 fahr := Turned(t[c].fahr, !t[c].state.IsCoupled(), t[c].coupling !in t))]
  }

  /** A convoy that turns round keeps its vehicles in the order that `reversed` tells, and the
      ends of its chain where they are. */
  lemma FleetTurned(t: Table, m: Chains, cs: seq<Handle>, k: nat)
    requires Fleet(t, m) && Whole(t, m, cs) && k < |cs| && cs[k] in t
    ensures var u := TurnedOver(t, cs[k]);
      Fleet(u, m) && Whole(u, m, cs) && HoldsKept(t, u) && ElseKept(t, m, u, m, cs)
  {
    var c, u := cs[k], TurnedOver(t, cs[k]);
    assert OnMapAt(t, cs, k) && Sound(t, m, c) && c in cs;
    OnMapTurned(t, cs, k);
    TurnedInOrder(t[c], u[c]);
    forall x | x in m
      ensures Sound(u, m, x)
    {
      if x in cs {
        TurnedSound(t, m, u, cs, c, x);
      } else {
        RestSound(t, m, u, m, cs, x);
      }
    }
  }

  lemma OnMapTurned(t: Table, cs: seq<Handle>, k: nat)
    requires OnMap(t, cs) && k < |cs| && cs[k] in t
    ensures var u := TurnedOver(t, cs[k]);
      OnMap(u, cs) && Ids(u[cs[k]].fahr) == Reversed(Ids(t[cs[k]].fahr))
  {
    var c, u := cs[k], TurnedOver(t, cs[k]);
    assert OnMapAt(t, cs, k) && (k + 1 < |cs| ==> OnMapAt(t, cs, k + 1));
    assert t[c].state.IsCoupled() == (k != 0) && (t[c].coupling !in t) == (k == |cs| - 1);
    TurnedFlags(t[c].fahr, k == 0, k == |cs| - 1);
    assert u[c].fahr == Turned(t[c].fahr, k == 0, k == |cs| - 1);
    forall i | 0 <= i < |cs|
      ensures OnMapAt(u, cs, i)
    {
      assert OnMapAt(t, cs, i) && (i != k ==> cs[i] != c);
    }
  }

  lemma TurnedInOrder(c: Convoi, d: Convoi)
    requires InOrder(c) && d.reversed == !c.reversed && d.build == c.build && Ids(d.fahr) == Reversed(Ids(c.fahr))
    ensures InOrder(d)
  {
    ReversedTwice(c.build.base);
  }

  lemma TurnedSound(t: Table, m: Chains, u: Table, cs: seq<Handle>, c: Handle, x: Handle)
    requires Fleet(t, m) && Whole(t, m, cs) && OnMap(u, cs) && c in cs && x in cs && x in t && x in m
    requires c in t && HoldsKept(t, u) && InOrder(u[c]) && (x == c || u[x] == t[x])
    ensures Sound(u, m, x)
  {
    assert Sound(t, m, x);
    NotAboard(t, cs, x);
    NotAboard(u, cs, x);
    assert forall y {:trigger t[y]} :: y in t ==> SameHold(t[y], u[y]);
  }

  function TurnedState(head: bool, loading: bool): State {
    if loading then (if head then Loading else CoupledLoading) else (if head then Routing1 else Coupled)
  }

  ghost predicate TurnedAt(t: Table, cs: seq<Handle>, i: int, loading: bool)
    requires 0 <= i < |cs|
  {
    cs[i] in t && t[cs[i]].state == TurnedState(i == |cs| - 1, loading)
  }

  /** The chain `cs` was turned round: at a stop the new head loads and the others load as
      children, on the way the new head looks for its route. A single convoy is left alone. */
  ghost predicate TurnedRound(t: Table, t': Table, cs: seq<Handle>) {
    && |cs| > 0 && cs[0] in t && LoadsKept(t, t')
    && (|cs| == 1 ==> t' == t)
    && (|cs| > 1 ==> forall i {:trigger TurnedAt(t', cs, i, t[cs[0]].state.IsLoading())} ::
          0 <= i < |cs| ==> TurnedAt(t', cs, i, t[cs[0]].state.IsLoading()))
  }

  /** Whether the head of a chain pulls another convoy. */
  predicate HasChild(t: Table, a: Handle, ghost cs: seq<Handle>)
    requires OnMap(t, cs) && cs[0] == a && a in t
    ensures HasChild(t, a, cs) <==> |cs| > 1
  {
    assert OnMapAt(t, cs, 0) && (|cs| > 1 ==> OnMapAt(t, cs, 1));
    t[a].coupling in t
  }

  lemma OneTurned(t: Table, cs: seq<Handle>)
    requires |cs| == 1 && cs[0] in t
    ensures TurnedRound(t, t, cs) && Reversed(cs) == cs
  {
  }

  lemma ReversedSplit<T>(s: seq<T>)
    requires |s| > 0
    ensures Reversed(s) == Reversed(s[1..]) + [s[0]] && s == [s[0]] + s[1..]
    ensures |s| > 1 ==> Last(Reversed(s[1..])) == s[1]
  {
  }

  lemma ReversedMembers<T>(s: seq<T>)
    ensures forall x :: x in Reversed(s) <==> x in s
  {
    forall x | x in s
      ensures x in Reversed(s)
    {
      var i :| 0 <= i < |s| && s[i] == x;
      assert Reversed(s)[|s| - 1 - i] == x;
    }
  }

  /** Turning the rear part round leaves the front convoy alone. */
  lemma FrontKept(t: Table, t1: Table, m1: Chains, t2: Table, m2: Chains, a: Handle, rest: seq<Handle>)
    requires a in t && t1 == Cut(t, a) && Whole(t1, m1, [a]) && Whole(t1, m1, rest)
    requires TurnedRound(t1, t2, rest) && ElseKept(t1, m1, t2, m2, rest) && Distinct([a] + rest)
    requires t[a].coupling != a
    ensures Whole(t2, m2, [a]) && t2[a].state == t[a].state && a !in rest
  {
    DistinctParts([a], rest);
    assert a in [a];
    GoodKept(t1, t2, [a]);
  }

  /** Joining the turned rear part and the front convoy turns the whole chain round. */
  lemma TurnedTogether(t: Table, t2: Table, u: Table, a: Handle, rest: seq<Handle>, cs: seq<Handle>, running: bool)
    requires |rest| > 0 && cs == [a] + rest && a in t && a !in rest && t[a].coupling == rest[0]
    requires TurnedRound(Cut(t, a), t2, rest) && LoadsKept(t, Cut(t, a)) && LoadsKept(t2, u)
    requires a in t2 && rest[0] in t2 && u == CoupledWith(t2, rest[0], [a], running)
    requires running == !t[a].state.IsLoading()
    ensures TurnedRound(t, u, cs)
  {
    LoadsKeptTwice(t, Cut(t, a), t2);
    LoadsKeptTwice(t, t2, u);
    forall i | 0 <= i < |cs|
      ensures TurnedAt(u, cs, i, t[a].state.IsLoading())
    {
      if i > 0 { TurnedJoinState(t, t2, a, rest, i - 1, running); }
    }
  }

  lemma TurnedJoinState(t: Table, t2: Table, a: Handle, rest: seq<Handle>, i: nat, running: bool)
    requires i < |rest| && a in t && TurnedRound(Cut(t, a), t2, rest) && a !in rest && t[a].coupling == rest[0]
    requires running == !t[a].state.IsLoading() && a in t2 && rest[0] in t2 && t2.Keys == t.Keys
    ensures TurnedAt(CoupledWith(t2, rest[0], [a], running), rest, i, t[a].state.IsLoading())
  {
    var u := Cut(t, a);
    if |rest| > 1 {
      assert TurnedAt(t2, rest, i, u[rest[0]].state.IsLoading());
    }
  }
}
