/** How convoys aboard get off: put ashore, rescued into a depot, or lost. */
module Landing {
  import opened Vehicles
  import opened Convois
  import opened Coupling
  import opened Depots
  import opened Journeys
  import opened Shipping
  import opened Orphans
  import opened Deck
  import opened Carriers

  const MAX_DISEMBARK_VEHICLES := 250
  const MAX_OBJECTS_ON_TILE := 254

  /** The number of vehicles of a chain. */
  ghost function Count(t: Table, cs: seq<Handle>): nat {
    if cs == [] then 0
    else Count(t, cs[..|cs| - 1]) + if Last(cs) in t then |t[Last(cs)].fahr| else 0
  }

  /** What setting the part B of a chain to another state amounts to once it was cut off. */
  lemma CutBySteps(t: Table, self: Handle, A: seq<Handle>, B: seq<Handle>, u: Table)
    requires Aboard(t, A + B) && |A| > 0 && |B| > 0 && self in t && self !in A + B && UNBOUND !in t
    requires Last(A) in t && B[0] in t && u == AllIn(Cut(t, Last(A)), B, Shipped) && Last(A) != B[0]
    ensures B[0] in u && self in u
    ensures var v := u[B[0] := u[B[0]].(carrier := self)];
      v[self := v[self].(shipped := v[self].shipped + [B[0]])] == SplitAboard(t, self, Last(A), B[0])
  {
    var a, b, cs := Last(A), B[0], A + B;
    assert AboardAt(t, cs, |A| - 1) && cs[|A| - 1] == a && cs[|A|] == b;
    assert AboardAt(t, cs, |A|) && a in cs && b in cs;
    AboardShipped(t, cs);
    forall x | x in B
      ensures x in t && t[x].state == Shipped && x !in A
    {
      assert x in cs;
      DistinctParts(A, B);
    }
    assert a in A;
  }

  lemma CutWalk(t: Table, A: seq<Handle>, B: seq<Handle>)
    requires Aboard(t, A + B) && |A| > 0 && |B| > 0 && UNBOUND !in t
    ensures Last(A) in t && B[0] in t && Last(A) != B[0] && t[Last(A)].coupling == B[0]
    ensures t[B[0]].parent == Last(A) && Walk(Cut(t, Last(A)), B)
  {
    var a, b, cs := Last(A), B[0], A + B;
    assert AboardAt(t, cs, |A| - 1) && cs[|A| - 1] == a && cs[|A|] == b && AboardAt(t, cs, |A|);
    DistinctParts(A, B);
    assert a in A;
    forall i | 0 <= i < |B|
      ensures WalkAt(Cut(t, a), B, i)
    {
      assert AboardAt(t, cs, |A| + i) && cs[|A| + i] == B[i] && B[i] in B;
      assert i + 1 < |B| ==> cs[|A| + i + 1] == B[i + 1];
    }
  }

  /** Cuts a chain aboard `self` behind p; both parts stay aboard. */
  method CutAboard(w: Welt, self: Handle, p: Handle, ghost A: seq<Handle>, ghost B: seq<Handle>)
    requires Aboard(w.cnv, A + B) && |A| > 0 && |B| > 0 && p == Last(A) && UNBOUND !in w.cnv
    requires self in w.cnv && self !in A + B
    modifies w`cnv
    ensures w.cnv == SplitAboard(old(w.cnv), self, p, B[0])
  {
    ghost var t := w.cnv;
    CutWalk(t, A, B);
    var rest := w.UncoupleConvoi(p);
    ghost var u := w.cnv;
    var r := rest;
    ghost var i := 0;
    assert WalkAt(u, B, 0);
    while r in w.cnv
      invariant 0 <= i <= |B| && w.cnv == AllIn(u, B[..i], Shipped)
      invariant if i < |B| then r == B[i] && r in w.cnv else r !in w.cnv
      decreases |B| - i
    {
      assert WalkAt(u, B, i) && (i + 1 < |B| ==> WalkAt(u, B, i + 1));
      w.SetState(r, Shipped);
      r := w.cnv[r].coupling;
      assert B[..i + 1] == B[..i] + [B[i]];
      i := i + 1;
    }
    assert B[..i] == B;
    CutBySteps(t, self, A, B, w.cnv);
    w.cnv := w.cnv[rest := w.cnv[rest].(carrier := self)];
    w.cnv := w.cnv[self := w.cnv[self].(shipped := w.cnv[self].shipped + [rest])];
  }

  datatype Result = Done | Wait | Invalid

  /** The chain aboard was cut behind A, unless B is empty. */
  ghost predicate CutOff(t: Table, m: Chains, u: Table, m': Chains, self: Handle, A: seq<Handle>, B: seq<Handle>) {
    && |A| > 0
    && (if B == [] then u == t && m' == m else u == SplitAboard(t, self, Last(A), B[0]) && m' == Split(m, A, B))
  }

  /** Cutting a chain aboard conserves every load. */
  lemma {:induction false} CutKeepsLoad(t: Table, m: Chains, u: Table, m': Chains, self: Handle, A: seq<Handle>,
                                        B: seq<Handle>, L: nat)
    requires Fleet(t, m) && AboardWhole(t, m, A + B) && CutOff(t, m, u, m', self, A, B) && Stowed(t, m, L)
    requires A[0] in t && t[A[0]].carrier == self && self in t && self !in A + B
    ensures self in u && forall g :: DeckLoad(u, m', u[self].shipped, g) == DeckLoad(t, m, t[self].shipped, g)
  {
    if B != [] {
      SplitParted(t, m, A, B);
      assert A[0] in A + B && (A + B)[|A|] == B[0] && B[0] in A + B && (A + B)[0] == A[0];
      AboardMember(t, m, A + B, B[0]);
      assert UniformAt(t, m, A[0]) && m[A[0]] == A + B;
      forall g
        ensures DeckLoad(u, m', u[self].shipped, g) == DeckLoad(t, m, t[self].shipped, g)
      {
        SplitDeck(t, m, u, m', self, A, B, g);
      }
    }
  }

  /** What getting the chain `cs` off `self` leaves alone: all the others, and of the carrier
      all but its list, where whoever stands before the head of `cs` stays put. */
  ghost predicate Elsewhere(t: Table, m: Chains, u: Table, m': Chains, self: Handle, cs: seq<Handle>) {
    && u.Keys <= t.Keys && m'.Keys <= m.Keys && |cs| > 0 && self in t && self in u && self !in cs
    && (forall x :: x in t && x in m && x !in cs ==> x in u && x in m' && m'[x] == m[x] && (x != self ==> u[x] == t[x]))
    && u[self] == t[self].(shipped := u[self].shipped)
    && SamePrefix(t[self].shipped, u[self].shipped, cs[0])
  }

  ghost predicate SamePrefix(s: seq<Handle>, r: seq<Handle>, c: Handle) {
    forall i {:trigger s[..i]} :: 0 <= i <= |s| && c !in s[..i] ==> i <= |r| && r[..i] == s[..i]
  }

  lemma {:induction false} PrefixWithout(s: seq<Handle>, c: Handle)
    ensures SamePrefix(s, Without(s, c), c)
  {
    forall i | 0 <= i <= |s| && c !in s[..i]
      ensures i <= |Without(s, c)| && Without(s, c)[..i] == s[..i]
    {
      if i > 0 {
        assert s == [s[0]] + s[1..] && s[..i] == [s[0]] + s[1..][..i - 1];
        PrefixWithout(s[1..], c);
      }
    }
  }

  lemma ElsewhereTwice(t: Table, m: Chains, u: Table, m': Chains, v: Table, m'': Chains, self: Handle, A: seq<Handle>,
                       cs: seq<Handle>)
    requires Elsewhere(t, m, u, m', self, cs) && Elsewhere(u, m', v, m'', self, A)
    requires A[0] == cs[0] && forall x :: x in A ==> x in cs
    ensures Elsewhere(t, m, v, m'', self, cs)
  {
    var s, r, q := t[self].shipped, u[self].shipped, v[self].shipped;
    forall i | 0 <= i <= |s| && cs[0] !in s[..i]
      ensures i <= |q| && q[..i] == s[..i]
    {
      assert r[..i] == s[..i];
    }
  }

  lemma ElsewhereCut(t: Table, m: Chains, u: Table, m': Chains, self: Handle, A: seq<Handle>, B: seq<Handle>)
    requires CutOff(t, m, u, m', self, A, B) && self in t && self !in A + B && m.Keys == t.Keys
    ensures Elsewhere(t, m, u, m', self, A + B)
  {
    if B != [] {
      assert B[0] in B && Last(A) in A;
      assert forall x :: x in A || x in B ==> x in A + B;
    }
  }

  lemma ElsewhereReleased(t: Table, m: Chains, u: Table, self: Handle, cs: seq<Handle>)
    requires Released(t, u, cs) && self in t && self !in cs && t[cs[0]].carrier == self && m.Keys == t.Keys
    ensures Elsewhere(t, m, u, m, self, cs)
  {
    PrefixWithout(t[self].shipped, cs[0]);
  }

  /** Getting a chain off a carrier touches nobody but who is aboard it. */
  lemma ElsewhereOthers(t: Table, m: Chains, u: Table, m': Chains, self: Handle, cs: seq<Handle>)
    requires Elsewhere(t, m, u, m', self, cs) && AboardWhole(t, m, cs) && t.Keys == m.Keys
    requires cs[0] in t && t[cs[0]].carrier == self
    ensures OthersKept(t, m, u, m', [self])
  {
    AboardShipped(t, cs);
    forall x | x in t
      ensures UntouchedAt(t, m, u, m', [self], x)
    {
      assert self in [self];
      if x in cs { assert AboardOf(t, m, [self], x); }
    }
  }

  lemma FrontAboard(t: Table, m: Chains, u: Table, m': Chains, self: Handle, A: seq<Handle>, B: seq<Handle>)
    requires Fleet(t, m) && AboardWhole(t, m, A + B) && CutOff(t, m, u, m', self, A, B)
    requires A[0] in t && t[A[0]].carrier == self && self in t && self !in A + B
    ensures AboardWhole(u, m', A) && A[0] in u && u[A[0]].carrier == self
  {
    assert A + [] == A && (A + B)[0] == A[0];
    if B != [] {
      SplitParted(t, m, A, B);
      SplitAboardParts(t, self, A, B);
      assert forall x :: x in A ==> x in A + B;
      SecondHead(t, m, A, B);
    }
  }

  /** The chain `rest` is aboard `self`. */
  ghost predicate RestAboard(u: Table, m': Chains, rest: seq<Handle>, self: Handle) {
    |rest| > 0 ==> rest[0] in u && u[rest[0]].carrier == self
                    && forall y :: y in rest ==> y in u && y in m' && m'[y] == rest
  }

  /** The chain A was put ashore: the head loads and the children with it, everything else about
      them is as before. */
  ghost predicate AshoreAll(t: Table, u: Table, A: seq<Handle>) {
    forall y :: y in A ==>
      && y in t && y in u && u[y].carrier == UNBOUND && u[y].state == (if y == A[0] then Loading else CoupledLoading)
      && u[y].build == t[y].build && u[y].reversed == t[y].reversed && Ids(u[y].fahr) == Ids(t[y].fahr)
  }

  lemma BackAboard(t: Table, m: Chains, u: Table, m': Chains, self: Handle, A: seq<Handle>, B: seq<Handle>)
    requires Fleet(t, m) && AboardWhole(t, m, A + B) && CutOff(t, m, u, m', self, A, B)
    requires self in t && self !in A + B
    ensures RestAboard(u, m', B, self) && forall y :: y in A ==> y in t && y in u && SameShape(t[y], u[y])
  {
    assert A + [] == A;
    forall y | y in A
      ensures y in t && y in u && SameShape(t[y], u[y])
    {
      assert y in A + B;
      KeepsIds(t[y].fahr, true);
    }
    if B != [] {
      SplitParted(t, m, A, B);
      SecondHead(t, m, A, B);
      assert forall x :: x in B ==> x in A + B;
    }
  }

  ghost predicate SameShape(c: Convoi, d: Convoi) {
    c.build == d.build && c.reversed == d.reversed && Ids(c.fahr) == Ids(d.fahr)
  }

  lemma LandedAll(t: Table, A: seq<Handle>)
    requires |A| > 0 && forall y :: y in A ==> y in t
    ensures AshoreAll(t, Landed(t, A), A)
  {
    forall y | y in A
      ensures y in t && Ids(Landed(t, A)[y].fahr) == Ids(t[y].fahr)
    {
    }
  }

  lemma RestStays(t: Table, m: Chains, u: Table, m': Chains, self: Handle, A: seq<Handle>, B: seq<Handle>)
    requires Elsewhere(t, m, u, m', self, A) && RestAboard(t, m, B, self) && self !in B
    requires t.Keys == m.Keys && forall y :: y in B ==> y !in A
    ensures RestAboard(u, m', B, self)
  {
    if |B| > 0 { assert B[0] in B; }
  }

  lemma FleetCutOff(t: Table, m: Chains, u: Table, m': Chains, self: Handle, A: seq<Handle>, B: seq<Handle>, L: nat)
    requires Fleet(t, m) && AboardWhole(t, m, A + B) && CutOff(t, m, u, m', self, A, B) && Stowed(t, m, L)
    requires A[0] in t && t[A[0]].carrier == self && self in t && self !in A + B
    ensures Fleet(u, m') && Stowed(u, m', L)
  {
    assert (A + B)[0] == A[0];
    if B != [] {
      SplitParted(t, m, A, B);
      FleetSplitAboard(t, m, u, m', self, A, B);
      StowedSplit(t, m, u, m', self, A, B, L);
    }
  }

  /** What happens to one chain aboard takes nobody else his carrier. */
  lemma StillAlighted(t: Table, m: Chains, u: Table, m': Chains, self: Handle, cs: seq<Handle>)
    requires Fleet(t, m) && Elsewhere(t, m, u, m', self, cs) && AboardWhole(t, m, cs) && u.Keys == m'.Keys
    requires t[self].shipped != []
    requires forall x {:trigger OrphanAt(t, m, u, m', x)} :: x in cs && x in u ==> OrphanAt(t, m, u, m', x)
    ensures Alighted(t, m, u, m')
  {
    AboardShipped(t, cs);
    assert Sound(t, m, self);
    forall x | x in u && x !in cs
      ensures OrphanAt(t, m, u, m', x)
    {
      assert Sound(t, m, x);
      if x != self && t[x].state.Shipped? {
        HeadAboard(t, m, x);
        assert m[x][0] in m[x] && m[m[x][0]] == m[x];
      }
    }
  }

  /** Both parts of a chain that was cut aboard have heads that know their carrier. */
  lemma CutOrphan(t: Table, m: Chains, self: Handle, A: seq<Handle>, B: seq<Handle>, x: Handle)
    requires AboardWhole(t, m, A + B) && |A| > 0 && |B| > 0 && Last(A) != B[0] && (x in A || x in B)
    requires A[0] in t && A[0] != B[0] && t[A[0]].carrier == self != UNBOUND && B[0] in t && self !in A + B
    ensures var u, m' := SplitAboard(t, self, Last(A), B[0]), Split(m, A, B);
      x in u && x in m' && OrphanAt(t, m, u, m', x)
  {
    DistinctParts(A, B);
    assert forall y :: y in A || y in B ==> y in A + B;
    assert A[0] in A && B[0] in B;
  }

  lemma CutOrphans(t: Table, m: Chains, self: Handle, A: seq<Handle>, B: seq<Handle>)
    requires AboardWhole(t, m, A + B) && |A| > 0 && |B| > 0 && Last(A) != B[0]
    requires A[0] in t && A[0] != B[0] && t[A[0]].carrier == self != UNBOUND && B[0] in t && self !in A + B
    ensures var u, m' := SplitAboard(t, self, Last(A), B[0]), Split(m, A, B);
      u.Keys == t.Keys && m'.Keys == m.Keys && forall x {:trigger OrphanAt(t, m, u, m', x)} :: x in A + B && x in u ==>
              x in m' && OrphanAt(t, m, u, m', x)
  {
    var u, m' := SplitAboard(t, self, Last(A), B[0]), Split(m, A, B);
    forall x | x in A + B && x in u
      ensures x in m' && OrphanAt(t, m, u, m', x)
    {
      CutOrphan(t, m, self, A, B, x);
    }
  }

  lemma CutAlighted(t: Table, m: Chains, u: Table, m': Chains, self: Handle, A: seq<Handle>, B: seq<Handle>)
    requires Fleet(t, m) && AboardWhole(t, m, A + B) && CutOff(t, m, u, m', self, A, B)
    requires A[0] in t && t[A[0]].carrier == self && self in t && self !in A + B
    ensures Alighted(t, m, u, m') && u.Keys == t.Keys
  {
    NobodyAlighted(t, m);
    if B != [] {
      SecondHead(t, m, A, B);
      assert (A + B)[0] == A[0];
      assert Sound(t, m, A[0]) && A[0] in t[self].shipped;
      CutOrphans(t, m, self, A, B);
      ElsewhereCut(t, m, u, m', self, A, B);
      StillAlighted(t, m, u, m', self, A + B);
    }
  }

  /** Walks the chain while its vehicles fit on one tile and cuts off the rest; nothing is
      cut when not even the first convoy fits. */
  method CutToFit(w: Welt, self: Handle, c: Handle, ghost cs: seq<Handle>)
      returns (ok: bool, count: nat, ghost A: seq<Handle>, ghost B: seq<Handle>)
    requires Aboard(w.cnv, cs) && cs[0] == c && self in w.cnv && self !in cs && UNBOUND !in w.cnv
    modifies w
    ensures c in old(w.cnv) && (ok <==> |old(w.cnv)[c].fahr| <= MAX_DISEMBARK_VEHICLES)
    ensures ok ==> cs == A + B && CutOff(old(w.cnv), old(w.chainOf), w.cnv, w.chainOf, self, A, B)
    ensures ok ==> count == Count(old(w.cnv), A) <= MAX_DISEMBARK_VEHICLES
    ensures ok && B != [] ==> Count(old(w.cnv), A + [B[0]]) > MAX_DISEMBARK_VEHICLES
    ensures !ok ==> w.cnv == old(w.cnv) && w.chainOf == old(w.chainOf)
  {
    ghost var t := w.cnv;
    A, B := [], cs;
    count := 0;
    var k := c;
    ghost var i := 0;
    assert AboardAt(t, cs, 0);
    while k in w.cnv
      invariant 0 <= i <= |cs| && w.cnv == t && w.chainOf == old(w.chainOf) && A == cs[..i] && B == cs[i..]
      invariant if i < |cs| then k == cs[i] && AboardAt(t, cs, i) else k !in t
      invariant count == Count(t, A) <= MAX_DISEMBARK_VEHICLES && (i > 0 ==> |t[c].fahr| <= MAX_DISEMBARK_VEHICLES)
      decreases |cs| - i
    {
      assert (A + [k])[..i] == A && cs[..i + 1] == A + [k];
      assert i + 1 < |cs| ==> AboardAt(t, cs, i + 1);
      if count + |w.cnv[k].fahr| > MAX_DISEMBARK_VEHICLES {
        if k == c {
          return false, count, A, B;
        }
        assert A + B == cs;
        CutAboard(w, self, w.cnv[k].parent, A, B);
        w.chainOf := Split(w.chainOf, A, B);
        return true, count, A, B;
      }
      count := count + |w.cnv[k].fahr|;
      k := w.cnv[k].coupling;
      i := i + 1;
      A, B := cs[..i], cs[i..];
    }
    assert A + B == cs;
    return true, count, A, B;
  }

  /** No vehicle of the chain leads and none is last. */
  function Plain(t: Table, cs: seq<Handle>): Table {
    map x | x in t :: if x in cs then t[x].(fahr := Placed(t[x].fahr, false, false)) else t[x]
  }

  /** Puts the vehicles of every convoy of the chain on the tile. */
  method EnterTile(w: Welt, c: Handle, ghost cs: seq<Handle>)
    requires Walk(w.cnv, cs) && |cs| > 0 && cs[0] == c && Distinct(cs)
    modifies w`cnv
    ensures w.cnv == Plain(old(w.cnv), cs)
  {
    ghost var t := w.cnv;
    var k := c;
    ghost var i := 0;
    assert WalkAt(t, cs, 0);
    while k in w.cnv
      invariant 0 <= i <= |cs| && w.cnv == Plain(t, cs[..i])
      invariant if i < |cs| then k == cs[i] && WalkAt(t, cs, i) else k !in w.cnv
      decreases |cs| - i
    {
      assert i + 1 < |cs| ==> WalkAt(t, cs, i + 1);
      assert cs[..i + 1] == cs[..i] + [k] && k !in cs[..i];
      w.cnv := w.cnv[k := w.cnv[k].(fahr := Placed(w.cnv[k].fahr, false, false))];
      k := w.cnv[k].coupling;
      i := i + 1;
    }
    assert cs[..i] == cs;
  }

  function Arrived(t1: Table, c: Handle, e: Handle, rest: seq<Handle>): Table
    requires c in t1 && e in t1
  {
    var t2 := t1[c := t1[c].(fahr := WithLeading(t1[c].fahr, true))];
    var t3 := t2[e := t2[e].(fahr := WithLast(t2[e].fahr, true))];
    AllIn(t3[c := t3[c].(state := Loading)], rest, CoupledLoading)
  }

  /** The steps of putting a chain ashore. */
  function Ashore(t: Table, c: Handle, e: Handle, cs: seq<Handle>, rest: seq<Handle>): Table
    requires c in t && e in t
  {
    Arrived(Plain(Cleared(t, c), cs), c, e, rest)
  }

  lemma AshoreAt(t: Table, c: Handle, e: Handle, rest: seq<Handle>, x: Handle)
    requires x in t && c in t && t[c].carrier !in [c] + rest && |t[x].fahr| > 0 && Distinct([c] + rest)
    requires e == Last([c] + rest) && e in t && t[x].carrier == (if x == c then t[c].carrier else UNBOUND)
    requires x in [c] + rest
    ensures Ashore(t, c, e, [c] + rest, rest)[x] == Landed(t, [c] + rest)[x]
  {
    DistinctParts([c], rest);
    assert c in [c] && c !in rest;
    var f := t[x].fahr;
    var g := Placed(f, false, false);
    assert WithLast(WithLeading(g, true), true) == Placed(f, true, true);
    assert WithLeading(g, true) == Placed(f, true, false);
    assert WithLast(g, true) == Placed(f, false, true);
  }

  lemma AshoreElse(t: Table, c: Handle, e: Handle, rest: seq<Handle>, x: Handle)
    requires x in t && c in t && e in t && x !in [c] + rest && e in [c] + rest && c in [c] + rest
    ensures Ashore(t, c, e, [c] + rest, rest)[x] == Landed(t, [c] + rest)[x]
  {
    assert x !in rest;
  }

  lemma AshoreBySteps(t: Table, m: Chains, c: Handle, e: Handle, rest: seq<Handle>)
    requires Fleet(t, m) && AboardWhole(t, m, [c] + rest) && c in t && t[c].carrier != UNBOUND
    requires e == Last([c] + rest) && e in t
    ensures Ashore(t, c, e, [c] + rest, rest) == Landed(t, [c] + rest)
  {
    var cs := [c] + rest;
    var v, u := Ashore(t, c, e, cs, rest), Landed(t, cs);
    assert cs[0] == c && c in cs && e in cs;
    AboardMember(t, m, cs, c);
    forall x | x in t
      ensures v[x] == u[x]
    {
      if x in cs {
        AboardMember(t, m, cs, x);
        AshoreAt(t, c, e, rest, x);
      } else {
        AshoreElse(t, c, e, rest, x);
      }
    }
    assert v.Keys == u.Keys;
  }

  /** Sets the flags at the two ends of the chain and lets its convoys arrive. */
  method Arrive(w: Welt, c: Handle, ghost rest: seq<Handle>)
    requires Walk(w.cnv, [c] + rest) && c in w.cnv && Distinct([c] + rest)
    modifies w`cnv
    ensures Last([c] + rest) in old(w.cnv) && c in Plain(old(w.cnv), [c] + rest)
    ensures w.cnv == Arrived(Plain(old(w.cnv), [c] + rest), c, Last([c] + rest), rest)
  {
    ghost var t, cs := w.cnv, [c] + rest;
    EnterTile(w, c, cs);
    ghost var t1 := w.cnv;
    StillWalk(t, t1, cs);
    w.cnv := w.cnv[c := w.cnv[c].(fahr := WithLeading(w.cnv[c].fahr, true))];
    StillWalk(t1, w.cnv, cs);
    var e := w.FindMostChild(c, cs, 0);
    assert WalkAt(t, cs, |cs| - 1);
    w.cnv := w.cnv[e := w.cnv[e].(fahr := WithLast(w.cnv[e].fahr, true))];
    w.SetState(c, Loading);
    StillWalk(t1, w.cnv, cs);
    RestWalk(w.cnv, c, rest);
    SetChildren(w, w.cnv[c].coupling, CoupledLoading, rest);
  }

  /** The chain led by c leaves its carrier and stands loading at the halt. */
  method PutAshore(w: Welt, self: Handle, c: Handle, ghost cs: seq<Handle>)
    requires w.Valid() && AboardWhole(w.cnv, w.chainOf, cs) && cs[0] == c && c in w.cnv && self in w.cnv
    requires w.cnv[c].carrier == self != UNBOUND
    modifies w`cnv
    ensures w.cnv == Landed(old(w.cnv), cs)
  {
    ghost var t, rest := w.cnv, cs[1..];
    assert cs == [c] + rest;
    assert c in cs && AboardAt(t, cs, |cs| - 1);
    AboardMember(t, w.chainOf, cs, c);
    w.cnv := w.cnv[self := w.cnv[self].(shipped := Without(w.cnv[self].shipped, c))];
    w.cnv := w.cnv[c := w.cnv[c].(carrier := UNBOUND)];
    AboardWalk(t, w.cnv, cs);
    AshoreBySteps(t, w.chainOf, c, Last(cs), rest);
    Arrive(w, c, rest);
  }

  lemma AboardWalk(t: Table, u: Table, cs: seq<Handle>)
    requires Aboard(t, cs) && u.Keys == t.Keys && forall x :: x in t ==> u[x].coupling == t[x].coupling
    ensures Walk(u, cs)
  {
    forall i | 0 <= i < |cs|
      ensures WalkAt(u, cs, i)
    {
      assert AboardAt(t, cs, i);
    }
  }

  /** Puts the chain led by c ashore on the tile its schedule names: as much of it as a tile
      can hold at all, and all of that or nothing. `tileOk` tells whether that tile belongs to
      the halt, `top` how many objects are on it already. */
  method DisembarkConvoy(w: Welt, self: Handle, c: Handle, tileOk: bool, top: nat, ghost L: nat)
      returns (r: Result, ghost A: seq<Handle>, ghost B: seq<Handle>)
    requires w.Valid() && Stowed(w.cnv, w.chainOf, L) && self in w.cnv && c in w.cnv[self].shipped
    modifies w
    ensures w.Valid() && Stowed(w.cnv, w.chainOf, L) && c in old(w.cnv) && c in old(w.chainOf)
    ensures r == Invalid <==> !tileOk || |old(w.cnv)[c].fahr| > MAX_DISEMBARK_VEHICLES
    ensures r == Invalid ==> w.cnv == old(w.cnv) && w.chainOf == old(w.chainOf)
    ensures r != Invalid ==>
              |A| > 0 && A[0] == c && old(w.chainOf)[c] == A + B && c in w.cnv && c in w.chainOf && w.chainOf[c] == A
    ensures r != Invalid ==> Count(old(w.cnv), A) <= MAX_DISEMBARK_VEHICLES
    ensures r != Invalid && B != [] ==> Count(old(w.cnv), A + [B[0]]) > MAX_DISEMBARK_VEHICLES
    ensures r == Done ==> top + Count(old(w.cnv), A) <= MAX_OBJECTS_ON_TILE && Whole(w.cnv, w.chainOf, A)
    ensures r == Done ==> w.cnv[c].state == Loading && w.cnv[c].carrier == UNBOUND && AshoreAll(old(w.cnv), w.cnv, A)
    ensures r != Invalid ==> RestAboard(w.cnv, w.chainOf, B, self)
    ensures r == Wait ==> top + Count(old(w.cnv), A) > MAX_OBJECTS_ON_TILE && AboardWhole(w.cnv, w.chainOf, A)
    ensures r == Wait ==> CutOff(old(w.cnv), old(w.chainOf), w.cnv, w.chainOf, self, A, B) && w.cnv[c].carrier == self
    ensures Elsewhere(old(w.cnv), old(w.chainOf), w.cnv, w.chainOf, self, old(w.chainOf)[c])
    ensures Alighted(old(w.cnv), old(w.chainOf), w.cnv, w.chainOf) && w.cnv.Keys == old(w.cnv).Keys
  {
    ghost var t, m := w.cnv, w.chainOf;
    ListedWalk(t, m, self, c);
    NobodyAlighted(t, m);
    ghost var cs := m[c];
    NothingElsewhere(t, m, self, cs);
    A, B := [], [];
    if !tileOk {
      return Invalid, A, B;
    }
    var ok, count;
    ok, count, A, B := CutToFit(w, self, c, cs);
    if !ok {
      return Invalid, A, B;
    }
    ghost var t1 := w.cnv;
    FrontAboard(t, m, t1, w.chainOf, self, A, B);
    FleetCutOff(t, m, t1, w.chainOf, self, A, B, L);
    ElsewhereCut(t, m, t1, w.chainOf, self, A, B);
    CutAlighted(t, m, t1, w.chainOf, self, A, B);
    BackAboard(t, m, t1, w.chainOf, self, A, B);
    DistinctParts(A, B);
    assert forall y :: y in B ==> y in A + B;
    if top + count > MAX_OBJECTS_ON_TILE {
      return Wait, A, B;
    }
    PutAshore(w, self, c, A);
    LandedFleet(t1, w.chainOf, w.cnv, self, A, L);
    ElsewhereTwice(t, m, t1, w.chainOf, w.cnv, w.chainOf, self, A, A + B);
    AlightedTwice(t, m, t1, w.chainOf, w.cnv, w.chainOf);
    RestStays(t1, w.chainOf, w.cnv, w.chainOf, self, A, B);
    LandedAll(t1, A);
    return Done, A, B;
  }

  lemma NothingElsewhere(t: Table, m: Chains, self: Handle, cs: seq<Handle>)
    requires self in t && self !in cs && |cs| > 0
    ensures t.Keys == m.Keys ==> Elsewhere(t, m, t, m, self, cs)
  {
  }

  lemma LandedFleet(t: Table, m: Chains, u: Table, self: Handle, A: seq<Handle>, L: nat)
    requires Fleet(t, m) && AboardWhole(t, m, A) && A[0] in t && Stowed(t, m, L) && u == Landed(t, A)
    requires self in t && self !in A && t[A[0]].carrier == self
    ensures Fleet(u, m) && Whole(u, m, A) && Stowed(u, m, L) && Elsewhere(t, m, u, m, self, A)
    ensures A[0] in u && u[A[0]].state == Loading && u[A[0]].carrier == UNBOUND
    ensures Alighted(t, m, u, m)
  {
    FleetLanded(t, m, A);
    LandedOnMap(t, m, A);
    StowedReleased(t, m, u, A, L);
    ElsewhereReleased(t, m, u, self, A);
    assert A[0] in A && Sound(t, m, A[0]) && A[0] in t[self].shipped;
    AboardShipped(t, A);
    forall x | x in A && x in u
      ensures OrphanAt(t, m, u, m, x)
    {
      NotAboard(u, A, x);
    }
    StillAlighted(t, m, u, m, self, A);
  }
}
