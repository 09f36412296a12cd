/** How a carrier takes convoys aboard. */
module Carriers {
  import opened Vehicles
  import opened Convois
  import opened Coupling
  import opened Depots
  import opened Shipping
  import opened Deck

  method GetShippingLength(w: Welt, c: Handle, ghost cs: seq<Handle>) returns (len: nat)
    requires Walk(w.cnv, cs) && |cs| > 0 && cs[0] == c
    ensures len == Length(w.cnv, cs)
  {
    len := 0;
    var k := c;
    ghost var i := 0;
    assert WalkAt(w.cnv, cs, 0);
    while k in w.cnv
      invariant 0 <= i <= |cs| && len == Length(w.cnv, cs[..i])
      invariant if i < |cs| then k == cs[i] && WalkAt(w.cnv, cs, i) else k !in w.cnv
      decreases |cs| - i
    {
      assert cs[..i + 1][..i] == cs[..i];
      assert i + 1 < |cs| ==> WalkAt(w.cnv, cs, i + 1);
      len := len + w.cnv[k].build.length;
      k := w.cnv[k].coupling;
      i := i + 1;
    }
    assert cs[..i] == cs;
  }

  lemma ListedWalk(t: Table, m: Chains, k: Handle, x: Handle)
    requires Fleet(t, m) && k in t && x in t[k].shipped
    ensures x in t && x in m && |m[x]| > 0 && m[x][0] == x && Walk(t, m[x]) && AboardWhole(t, m, m[x])
    ensures |t[x].fahr| > 0 && t[x].carrier == k && k !in m[x]
  {
    assert Sound(t, m, k) && Sound(t, m, x);
    var cs := m[x];
    assert OnMap(t, cs) ==> OnMapAt(t, cs, 0);
    assert InDepot(t, cs) ==> InDepotAt(t, cs, 0);
    forall i | 0 <= i < |cs|
      ensures WalkAt(t, cs, i)
    {
      assert AboardAt(t, cs, i);
    }
    AboardMember(t, m, cs, x);
  }

  method GetShippingLoadForGoods(w: Welt, self: Handle, g: nat) returns (load: nat)
    requires w.Valid() && self in w.cnv
    ensures load == DeckLoad(w.cnv, w.chainOf, w.cnv[self].shipped, g)
  {
    load := 0;
    var list, i := w.cnv[self].shipped, 0;
    while i < |list|
      invariant 0 <= i <= |list| && load == DeckLoad(w.cnv, w.chainOf, list[..i], g)
    {
      var c := list[i];
      ListedWalk(w.cnv, w.chainOf, self, c);
      assert list[..i + 1] == list[..i] + [c];
      LoadAdded(w.cnv, w.chainOf, list[..i], c, g);
      if w.cnv[c].build.good == g {
        var len := GetShippingLength(w, c, w.chainOf[c]);
        load := load + len;
      }
      i := i + 1;
    }
    assert list[..i] == list;
  }

  /** Convoys of this waytype, aircraft among them, are never carried. */
  const NO_GOOD := 0

  /** When a convoy may take another aboard: both stand on the map, the one to be carried
      leads its chain, nobody in that chain carries anything or is the carrier itself, and
      there is any space left for its waytype. */
  ghost predicate CanBeShipped(t: Table, m: Chains, self: Handle, c: Handle)
    requires self in t
  {
    && c in t && c in m && c != self && |t[c].fahr| > 0 && |t[self].fahr| > 0
    && !t[self].state.Shipped? && !t[self].state.Initial? && !t[self].state.SelfDestruct?
    && t[c].state.Drives() && !t[c].state.SelfDestruct? && t[c].carrier !in t
    && (forall x :: x in m[c] ==> x in t && x != self && t[x].shipped == [])
    && c !in t[self].shipped && t[c].build.good != NO_GOOD
    && DeckLoad(t, m, t[self].shipped, t[c].build.good) < Capacity(t[self], t[c].build.good)
  }

  lemma GoodWalk(t: Table, m: Chains, c: Handle)
    requires Fleet(t, m) && c in t
    ensures c in m && Walk(t, m[c]) && c in m[c] && m[c][0] in t
    ensures t[c].state.Drives() ==> Whole(t, m, m[c]) && m[c][0] == c
    ensures forall x :: x in m[c] ==> x in t && x in m && m[x] == m[c]
  {
    assert Sound(t, m, c);
    var cs := m[c];
    forall i | 0 <= i < |cs|
      ensures WalkAt(t, cs, i)
      ensures t[c].state.Drives() && cs[i] == c ==> i == 0 && OnMap(t, cs)
    {
      assert OnMap(t, cs) ==> OnMapAt(t, cs, i);
      assert InDepot(t, cs) ==> InDepotAt(t, cs, i);
      assert Aboard(t, cs) ==> AboardAt(t, cs, i);
    }
    var i :| 0 <= i < |cs| && cs[i] == c;
    assert WalkAt(t, cs, 0);
  }

  /** Whether anybody from the k-th convoy of a chain on is `self` or carries something. */
  method AnyoneCarries(w: Welt, self: Handle, c: Handle, ghost cs: seq<Handle>, ghost k: nat) returns (b: bool)
    requires Walk(w.cnv, cs) && k < |cs| && cs[k] == c
    ensures b <==> exists i :: k <= i < |cs| && cs[i] in w.cnv && (cs[i] == self || w.cnv[cs[i]].shipped != [])
  {
    var x := c;
    ghost var i := k;
    assert WalkAt(w.cnv, cs, i);
    while x in w.cnv
      invariant k <= i <= |cs| && (if i < |cs| then x == cs[i] && WalkAt(w.cnv, cs, i) else x !in w.cnv)
      invariant forall j :: k <= j < i ==> cs[j] != self && cs[j] in w.cnv && w.cnv[cs[j]].shipped == []
      decreases |cs| - i
    {
      if x == self || w.cnv[x].shipped != [] {
        return true;
      }
      assert i + 1 < |cs| ==> WalkAt(w.cnv, cs, i + 1);
      x := w.cnv[x].coupling;
      i := i + 1;
    }
    return false;
  }

  method CanShip(w: Welt, self: Handle, c: Handle, ghost k: nat) returns (b: bool)
    requires w.Valid() && self in w.cnv
    requires c in w.cnv && c in w.chainOf ==> k < |w.chainOf[c]| && w.chainOf[c][k] == c
    ensures b <==> CanBeShipped(w.cnv, w.chainOf, self, c)
  {
    if c !in w.cnv || c == self || |w.cnv[c].fahr| == 0 || |w.cnv[self].fahr| == 0 {
      return false;
    }
    if w.cnv[self].state.Shipped? || w.cnv[self].state.Initial? || w.cnv[self].state.SelfDestruct? {
      return false;
    }
    if w.cnv[c].state.IsCoupled() || w.cnv[c].state.Shipped? || w.cnv[c].carrier in w.cnv {
      return false;
    }
    GoodWalk(w.cnv, w.chainOf, c);
    ghost var cs := w.chainOf[c];
    var carries := AnyoneCarries(w, self, c, cs, k);
    if carries {
      return false;
    }
    if w.cnv[c].state.Initial? || w.cnv[c].state.SelfDestruct? || c in w.cnv[self].shipped {
      return false;
    }
    assert k == 0 && forall x :: x in cs ==> x != self && w.cnv[x].shipped == [];
    if w.cnv[c].build.good == NO_GOOD {
      return false;
    }
    var cap := Capacity(w.cnv[self], w.cnv[c].build.good);
    if cap == 0 {
      return false;
    }
    var load := GetShippingLoadForGoods(w, self, w.cnv[c].build.good);
    return load < cap;
  }

  /** Takes every convoy of the chain off the map. */
  method Withdraw(w: Welt, c: Handle, ghost cs: seq<Handle>)
    requires Walk(w.cnv, cs) && |cs| > 0 && cs[0] == c && Distinct(cs)
    modifies w`cnv
    ensures w.cnv == Shut(old(w.cnv), cs)
  {
    ghost var t := w.cnv;
    var k := c;
    ghost var i := 0;
    assert WalkAt(t, cs, 0);
    while k in w.cnv
      invariant 0 <= i <= |cs| && w.cnv == Shut(t, cs[..i])
      invariant if i < |cs| then k == cs[i] && WalkAt(t, cs, i) else k !in w.cnv
      decreases |cs| - i
    {
      assert i + 1 < |cs| ==> WalkAt(t, cs, i + 1);
      assert cs[..i + 1] == cs[..i] + [k];
      assert k !in cs[..i];
      w.cnv := w.cnv[k := w.cnv[k].(fahr := Withdrawn(w.cnv[k].fahr))];
      w.SetState(k, Shipped);
      k := w.cnv[k].coupling;
      i := i + 1;
    }
    assert cs[..i] == cs;
  }

  function Shut(t: Table, cs: seq<Handle>): Table {
    map x | x in t :: if x in cs then t[x].(state := Shipped, fahr := Withdrawn(t[x].fahr)) else t[x]
  }

  lemma BoardedBySteps(t: Table, self: Handle, c: Handle, cs: seq<Handle>)
    requires self in t && c in t && |cs| > 0 && cs[0] == c && self !in cs
    ensures var t1 := Shut(t, cs);
      c in t1 && self in t1 && var t2 := t1[c := t1[c].(carrier := self)];
      t2[self := t2[self].(shipped := t2[self].shipped + [c])] == Boarded(t, self, c, cs)
  {
    assert c in cs;
  }

  /** Takes the chain led by c aboard, if it may board and there is a stop to bring it to. */
  method BoardCarrier(w: Welt, self: Handle, c: Handle, destBound: bool, ghost k: nat, ghost L: nat) returns (ok: bool)
    requires w.Valid() && self in w.cnv && Stowed(w.cnv, w.chainOf, L)
    requires c in w.cnv && c in w.chainOf ==>
      k < |w.chainOf[c]| && w.chainOf[c][k] == c && Length(w.cnv, w.chainOf[c]) <= L
    modifies w`cnv
    ensures w.Valid() && Stowed(w.cnv, w.chainOf, L)
    ensures ok <==> destBound && CanBeShipped(old(w.cnv), w.chainOf, self, c)
    ensures ok ==> w.cnv == Boarded(old(w.cnv), self, c, w.chainOf[c]) && AboardWhole(w.cnv, w.chainOf, w.chainOf[c])
    ensures !ok ==> w.cnv == old(w.cnv)
  {
    if !destBound {
      return false;
    }
    var may := CanShip(w, self, c, k);
    if !may {
      return false;
    }
    ghost var t, m := w.cnv, w.chainOf;
    ghost var cs := m[c];
    GoodWalk(t, m, c);
    assert forall i :: 0 <= i < |cs| ==> cs[i] in cs;
    FleetBoarded(t, m, self, c, cs);
    StowedBoarded(t, m, self, c, cs, L);
    BoardedBySteps(t, self, c, cs);
    Withdraw(w, c, cs);
    w.cnv := w.cnv[c := w.cnv[c].(carrier := self)];
    w.cnv := w.cnv[self := w.cnv[self].(shipped := w.cnv[self].shipped + [c])];
    return true;
  }

  /** Boarding never makes room for another convoy that could not board before. */
  lemma StillNoRoom(t: Table, m: Chains, u: Table, self: Handle, c: Handle, x: Handle)
    requires Fleet(t, m) && self in t && CanBeShipped(t, m, self, c) && u == Boarded(t, self, c, m[c])
    requires CanBeShipped(u, m, self, x)
    ensures x != c && CanBeShipped(t, m, self, x)
  {
    GoodWalk(t, m, c);
    var g, list := u[x].build.good, t[self].shipped;
    LoadAdded(u, m, list, c, g);
    forall y | y in list
      ensures Taken(u, m, y, g) == Taken(t, m, y, g)
    {
      if y in m { EachKept(t, m, u, y, g); }
    }
    LoadKept(t, m, u, m, list, g);
    assert c in m[c];
  }

  /** Nothing but boarding `self` has happened. */
  ghost predicate OnlyBoarded(t: Table, u: Table, self: Handle) {
    && u.Keys == t.Keys && self in t && (forall x :: x in t ==> u[x].build == t[x].build)
    && forall x :: x in t[self].shipped ==> x in u[self].shipped
  }

  lemma {:induction false} BuildsKept(t: Table, u: Table, self: Handle, cs: seq<Handle>)
    requires OnlyBoarded(t, u, self) && forall x :: x in cs ==> x in t
    ensures Length(u, cs) == Length(t, cs)
  {
    LengthKept(t, u, cs);
  }

  /** The chain of x is no longer than L. */
  ghost predicate Handy(t: Table, m: Chains, x: Handle, L: nat)
    requires x in m
  {
    Length(t, m[x]) <= L
  }

  /** Whoever could not board before cannot board now. */
  ghost predicate NoMoreRoom(t: Table, u: Table, m: Chains, self: Handle) {
    self in t && self in u && forall x :: CanBeShipped(u, m, self, x) ==> CanBeShipped(t, m, self, x)
  }

  /** Offers a lift to one convoy. */
  method Offer(w: Welt, self: Handle, c: Handle, ghost L: nat)
    requires w.Valid() && self in w.cnv && Stowed(w.cnv, w.chainOf, L)
    requires c in w.cnv && c in w.chainOf ==> Handy(w.cnv, w.chainOf, c, L)
    modifies w`cnv
    ensures w.Valid() && Stowed(w.cnv, w.chainOf, L) && OnlyBoarded(old(w.cnv), w.cnv, self)
    ensures forall x :: x in w.cnv[self].shipped ==> x in old(w.cnv[self].shipped) || x == c
    ensures NoMoreRoom(old(w.cnv), w.cnv, w.chainOf, self) && !CanBeShipped(w.cnv, w.chainOf, self, c)
    ensures w.cnv == if CanBeShipped(old(w.cnv), w.chainOf, self, c)
                     then Boarded(old(w.cnv), self, c, w.chainOf[c]) else old(w.cnv)
  {
    ghost var t, m, k := w.cnv, w.chainOf, 0;
    if c in w.cnv {
      GoodWalk(t, m, c);
      k :| 0 <= k < |m[c]| && m[c][k] == c;
    }
    var ok := BoardCarrier(w, self, c, true, k, L);
    if ok {
      GoodWalk(t, m, c);
      assert c in m[c];
      forall x | CanBeShipped(w.cnv, m, self, x)
        ensures CanBeShipped(t, m, self, x)
      {
        StillNoRoom(t, m, w.cnv, self, c, x);
      }
    }
  }

  /** Those who ask board one after the other, as long as there is any space left. */
  ghost function InTurn(t: Table, m: Chains, self: Handle, candidates: seq<Handle>, asks: Handle -> bool): (u: Table)
    requires self in t
    ensures self in u
  {
    if candidates == [] then t
    else
      var c, u := candidates[|candidates| - 1], InTurn(t, m, self, candidates[..|candidates| - 1], asks);
      if asks(c) && CanBeShipped(u, m, self, c) then Boarded(u, self, c, m[c]) else u
  }

  lemma {:induction false} InTurnNext(t: Table, m: Chains, self: Handle, candidates: seq<Handle>, asks: Handle -> bool,
                                      i: nat)
    requires self in t && i < |candidates|
    ensures var c, u := candidates[i], InTurn(t, m, self, candidates[..i], asks);
      InTurn(t, m, self, candidates[..i + 1], asks)
        == if asks(c) && CanBeShipped(u, m, self, c) then Boarded(u, self, c, m[c]) else u
  {
    assert candidates[..i + 1][..i] == candidates[..i];
  }

  /** The first n candidates have been offered a lift. */
  ghost predicate Offered(t: Table, u: Table, m: Chains, self: Handle, candidates: seq<Handle>, asks: Handle -> bool,
                          n: int) {
    && OnlyBoarded(t, u, self) && self in u && 0 <= n <= |candidates|
    && (forall x :: x in u[self].shipped ==> x in t[self].shipped || (x in candidates && asks(x)))
    && (forall j {:trigger candidates[j]} :: 0 <= j < n && asks(candidates[j]) ==>
            !CanBeShipped(u, m, self, candidates[j]))
  }

  lemma OfferedStep(t: Table, u: Table, v: Table, m: Chains, self: Handle, candidates: seq<Handle>,
                    asks: Handle -> bool, n: nat)
    requires Offered(t, u, m, self, candidates, asks, n) && n < |candidates| && OnlyBoarded(u, v, self)
    requires forall x :: x in v[self].shipped ==> x in u[self].shipped || (x == candidates[n] && asks(x))
    requires NoMoreRoom(u, v, m, self) && (asks(candidates[n]) ==> !CanBeShipped(v, m, self, candidates[n]))
    ensures Offered(t, v, m, self, candidates, asks, n + 1)
  {
    forall j | 0 <= j < n + 1 && asks(candidates[j])
      ensures !CanBeShipped(v, m, self, candidates[j])
    {
      assert j < n ==> !CanBeShipped(u, m, self, candidates[j]);
    }
  }

  lemma StillHandy(t: Table, m: Chains, u: Table, self: Handle, x: Handle, L: nat)
    requires Fleet(t, m) && OnlyBoarded(t, u, self) && x in m && Handy(t, m, x, L)
    ensures Handy(u, m, x, L)
  {
    assert Sound(t, m, x);
    BuildsKept(t, u, self, m[x]);
  }

  /** Offers a lift to the convoys that wait at the halt, one after the other. `asks` tells
      whether a convoy has been waiting for a carrier and this trip delivers it. In the end
      nobody who asked is left behind who could still board. */
  method TakeAboard(w: Welt, self: Handle, candidates: seq<Handle>, asks: Handle -> bool, ghost L: nat)
    requires w.Valid() && self in w.cnv && Stowed(w.cnv, w.chainOf, L)
    requires forall x {:trigger Handy(w.cnv, w.chainOf, x, L)} :: x in w.chainOf ==> Handy(w.cnv, w.chainOf, x, L)
    modifies w`cnv
    ensures w.Valid() && Stowed(w.cnv, w.chainOf, L)
    ensures Offered(old(w.cnv), w.cnv, w.chainOf, self, candidates, asks, |candidates|)
    ensures w.cnv == InTurn(old(w.cnv), w.chainOf, self, candidates, asks)
  {
    ghost var t := w.cnv;
    var i := 0;
    while i < |candidates|
      invariant w.Valid() && Stowed(w.cnv, w.chainOf, L)
      invariant Offered(t, w.cnv, w.chainOf, self, candidates, asks, i)
      invariant w.cnv == InTurn(t, w.chainOf, self, candidates[..i], asks)
    {
      if asks(candidates[i]) {
        OfferNext(w, self, candidates, asks, i, t, L);
      } else {
        OfferedStep(t, w.cnv, w.cnv, w.chainOf, self, candidates, asks, i);
        InTurnNext(t, w.chainOf, self, candidates, asks, i);
      }
      i := i + 1;
    }
    assert candidates[..|candidates|] == candidates;
  }

  /** The next one who asks. */
  method OfferNext(w: Welt, self: Handle, candidates: seq<Handle>, asks: Handle -> bool, i: nat, ghost t: Table,
                   ghost L: nat)
    requires w.Valid() && self in w.cnv && Stowed(w.cnv, w.chainOf, L) && Fleet(t, w.chainOf)
    requires Offered(t, w.cnv, w.chainOf, self, candidates, asks, i) && i < |candidates| && asks(candidates[i])
    requires w.cnv == InTurn(t, w.chainOf, self, candidates[..i], asks)
    requires forall x {:trigger Handy(t, w.chainOf, x, L)} :: x in w.chainOf ==> Handy(t, w.chainOf, x, L)
    modifies w`cnv
    ensures w.Valid() && Stowed(w.cnv, w.chainOf, L)
    ensures Offered(t, w.cnv, w.chainOf, self, candidates, asks, i + 1)
    ensures w.cnv == InTurn(t, w.chainOf, self, candidates[..i + 1], asks)
  {
    ghost var u, m := w.cnv, w.chainOf;
    var c := candidates[i];
    if c in w.cnv {
      assert Sound(u, m, c);
      assert Handy(t, m, c, L);
      StillHandy(t, m, u, self, c, L);
    }
    Offer(w, self, c, L);
    OfferedStep(t, u, w.cnv, m, self, candidates, asks, i);
    InTurnNext(t, m, self, candidates, asks, i);
  }
}
