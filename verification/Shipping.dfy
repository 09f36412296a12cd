/** Convoys that ride aboard other convoys: boarding, landing, rescue and loss. */
module Shipping {
  import opened Vehicles
  import opened Convois
  import opened Coupling
  import opened Depots

  /** The vehicles of a convoy that was taken off the map. */
  function Withdrawn(f: seq<Vehicle>): seq<Vehicle> {
    seq(|f|, j requires 0 <= j < |f| => f[j].(last := true))
  }

  /** The chain `cs` went aboard `self`; only its head c knows of the carrier. */
  function Boarded(t: Table, self: Handle, c: Handle, cs: seq<Handle>): Table {
    map x | x in t ::
      if x == self then t[x].(shipped := t[x].shipped + [c])
      else if x in cs then t[x].(state := Shipped, fahr := Withdrawn(t[x].fahr),
                                 carrier := if x == c then self else t[x].carrier)
      else t[x]
  }

  /** A convoy on the map is aboard nothing. */
  lemma OnMapFree(t: Table, m: Chains, cs: seq<Handle>, x: Handle)
    requires Fleet(t, m) && Whole(t, m, cs) && x in cs
    ensures x in t && t[x].carrier == UNBOUND && !t[x].state.Shipped? && !t[x].state.Initial?
    ensures forall k :: k in t ==> x !in t[k].shipped
  {
    NotAboard(t, cs, x);
    assert Sound(t, m, x);
    forall k | k in t
      ensures x !in t[k].shipped
    {
      assert Sound(t, m, k);
    }
  }

  lemma BoardedMember(t: Table, m: Chains, self: Handle, c: Handle, cs: seq<Handle>, i: nat)
    requires Fleet(t, m) && Whole(t, m, cs) && cs[0] == c && self in t && self !in cs && i < |cs|
    requires cs[i] in t && t[cs[i]].shipped == []
    ensures AboardAt(Boarded(t, self, c, cs), cs, i) && InOrder(Boarded(t, self, c, cs)[cs[i]])
    ensures cs[i] in m && CargoOf(Boarded(t, self, c, cs), m, cs[i])
  {
    var u, x := Boarded(t, self, c, cs), cs[i];
    assert OnMapAt(t, cs, i) && x in cs && Sound(t, m, x);
    OnMapFree(t, m, cs, x);
    assert Ids(u[x].fahr) == Ids(t[x].fahr);
    assert (t[self].shipped + [c])[|t[self].shipped|] == c;
  }

  lemma BoardedAboard(t: Table, m: Chains, self: Handle, c: Handle, cs: seq<Handle>)
    requires Fleet(t, m) && Whole(t, m, cs) && cs[0] == c && self in t && self !in cs
    requires forall i :: 0 <= i < |cs| ==> cs[i] in t && t[cs[i]].shipped == []
    ensures Aboard(Boarded(t, self, c, cs), cs)
  {
    forall i | 0 <= i < |cs|
      ensures AboardAt(Boarded(t, self, c, cs), cs, i)
    {
      BoardedMember(t, m, self, c, cs, i);
    }
  }

  /** Boarding leaves everybody else's chain and cargo in order, the carrier's included. */
  lemma BoardedOther(t: Table, m: Chains, self: Handle, c: Handle, cs: seq<Handle>, x: Handle)
    requires Fleet(t, m) && Whole(t, m, cs) && cs[0] == c && self in t && self !in cs && x in t && x !in cs
    requires !t[self].state.Shipped? && !t[self].state.Initial?
    ensures x in m && Sound(Boarded(t, self, c, cs), m, x)
  {
    var u := Boarded(t, self, c, cs);
    assert Sound(t, m, x) && c in cs;
    OnMapFree(t, m, cs, c);
    forall i | 0 <= i < |m[x]|
      ensures SameStand(t[m[x][i]], u[m[x][i]])
    {
      assert m[x][i] in m[x] && m[m[x][i]] == m[x];
    }
    GoodKept(t, u, m[x]);
    BoardedCargo(t, m, self, c, cs, x);
  }

  lemma BoardedCargo(t: Table, m: Chains, self: Handle, c: Handle, cs: seq<Handle>, x: Handle)
    requires Fleet(t, m) && Whole(t, m, cs) && cs[0] == c && self in t && self !in cs && x in t && x !in cs
    requires !t[self].state.Shipped? && !t[self].state.Initial?
    ensures CargoOf(Boarded(t, self, c, cs), m, x)
  {
    assert Sound(t, m, x) && c in cs;
    OnMapFree(t, m, cs, c);
    forall y | y in t[x].shipped
      ensures y !in cs
    {
      if y in cs { OnMapFree(t, m, cs, y); }
    }
  }

  lemma FleetBoarded(t: Table, m: Chains, self: Handle, c: Handle, cs: seq<Handle>)
    requires Fleet(t, m) && Whole(t, m, cs) && cs[0] == c && self in t && self !in cs
    requires forall i :: 0 <= i < |cs| ==> cs[i] in t && t[cs[i]].shipped == []
    requires !t[self].state.Shipped? && !t[self].state.Initial?
    ensures Fleet(Boarded(t, self, c, cs), m) && Aboard(Boarded(t, self, c, cs), cs)
  {
    var u := Boarded(t, self, c, cs);
    BoardedAboard(t, m, self, c, cs);
    forall x | x in m
      ensures Sound(u, m, x)
    {
      if x in cs {
        var i :| 0 <= i < |cs| && cs[i] == x;
        BoardedMember(t, m, self, c, cs, i);
      } else {
        BoardedOther(t, m, self, c, cs, x);
      }
    }
  }

  /** The convoys of `cs` form a chain aboard, and belong to no other. */
  ghost predicate AboardWhole(t: Table, m: Chains, cs: seq<Handle>) {
    Aboard(t, cs) && forall x :: x in cs ==> x in t && x in m && m[x] == cs
  }

  /** A convoy aboard carries nothing, and only the head of its chain knows of the carrier. */
  lemma AboardMember(t: Table, m: Chains, cs: seq<Handle>, x: Handle)
    requires Fleet(t, m) && AboardWhole(t, m, cs) && x in cs
    ensures x in t && t[x].state.Shipped? && t[x].shipped == [] && |t[x].fahr| > 0 && InOrder(t[x])
    ensures x != cs[0] ==> t[x].carrier == UNBOUND
    ensures t[x].carrier != UNBOUND ==> t[x].carrier in t && t[x].carrier !in cs && x in t[t[x].carrier].shipped
  {
    AboardShipped(t, cs);
    assert Sound(t, m, x);
    if t[x].carrier != UNBOUND {
      assert Sound(t, m, t[x].carrier);
    }
  }

  lemma AboardShipped(t: Table, cs: seq<Handle>)
    requires Aboard(t, cs)
    ensures forall x :: x in cs ==> x in t && t[x].state.Shipped? && |t[x].fahr| > 0
  {
    forall x | x in cs
      ensures x in t && t[x].state.Shipped? && |t[x].fahr| > 0
    {
      var i :| 0 <= i < |cs| && cs[i] == x;
      assert AboardAt(t, cs, i);
    }
  }

  /** The chain `cs` has left its carrier, if it had one, and carries nothing. */
  ghost predicate Released(t: Table, u: Table, cs: seq<Handle>) {
    && u.Keys == t.Keys && |cs| > 0 && cs[0] in t
    && (forall x :: x in t && x !in cs ==>
          u[x] == if x == t[cs[0]].carrier then t[x].(shipped := Without(t[x].shipped, cs[0])) else t[x])
    && (forall x :: x in t && x in cs ==> u[x].carrier == UNBOUND && u[x].shipped == [] && InOrder(u[x]))
  }

  lemma ReleasedCargo(t: Table, m: Chains, u: Table, cs: seq<Handle>, x: Handle)
    requires Fleet(t, m) && AboardWhole(t, m, cs) && Released(t, u, cs) && x in t && x !in cs
    ensures CargoOf(u, m, x)
  {
    var c, k := cs[0], t[cs[0]].carrier;
    assert Sound(t, m, x) && c in cs;
    WithoutMembers(t[x].shipped, c);
    assert x != k ==> c !in t[x].shipped;
    forall y | y in t[x].shipped && y != c
      ensures y !in cs
    {
      if y in cs { AboardMember(t, m, cs, y); }
    }
    var l := t[x].carrier;
    if l != UNBOUND {
      assert Sound(t, m, l);
      if l in cs { AboardMember(t, m, cs, l); }
      WithoutMembers(t[l].shipped, c);
    }
  }

  lemma ReleasedSound(t: Table, m: Chains, u: Table, cs: seq<Handle>, x: Handle)
    requires Fleet(t, m) && AboardWhole(t, m, cs) && Released(t, u, cs) && x in t && x !in cs
    ensures x in m && Sound(u, m, x)
  {
    assert Sound(t, m, x);
    forall i | 0 <= i < |m[x]|
      ensures SameStand(t[m[x][i]], u[m[x][i]])
    {
      assert m[x][i] in m[x] && m[m[x][i]] == m[x];
    }
    GoodKept(t, u, m[x]);
    ReleasedCargo(t, m, u, cs, x);
  }

  /** Whether it lands or is filed in a depot: a chain that leaves its carrier leaves the
      fleet in order. */
  lemma FleetReleased(t: Table, m: Chains, u: Table, cs: seq<Handle>)
    requires Fleet(t, m) && AboardWhole(t, m, cs) && Released(t, u, cs) && Good(u, cs)
    ensures Fleet(u, m)
  {
    forall x | x in m
      ensures Sound(u, m, x)
    {
      if x in cs {
        assert Sound(t, m, x);
      } else {
        ReleasedSound(t, m, u, cs, x);
      }
    }
  }

  /** The vehicles of a convoy that was put on its tile. */
  function Placed(f: seq<Vehicle>, lead: bool, end: bool): seq<Vehicle> {
    seq(|f|, j requires 0 <= j < |f| => Vehicle(f[j].id, lead && j == 0, end && j == |f| - 1))
  }

  /** The chain `cs` was put ashore and stands loading at the halt. */
  function Landed(t: Table, cs: seq<Handle>): Table
    requires |cs| > 0 && cs[0] in t
  {
    map x | x in t ::
      if x in cs then
        t[x].(state := if x == cs[0] then Loading else CoupledLoading, carrier := UNBOUND,
              fahr := Placed(t[x].fahr, x == cs[0], x == Last(cs)))
      else if x == t[cs[0]].carrier then t[x].(shipped := Without(t[x].shipped, cs[0]))
      else t[x]
  }

  lemma LandedOnMap(t: Table, m: Chains, cs: seq<Handle>)
    requires Fleet(t, m) && AboardWhole(t, m, cs) && cs[0] in t
    ensures OnMap(Landed(t, cs), cs) && Released(t, Landed(t, cs), cs)
  {
    var u := Landed(t, cs);
    forall i | 0 <= i < |cs|
      ensures OnMapAt(u, cs, i)
    {
      assert AboardAt(t, cs, i);
    }
    forall x | x in t && x in cs
      ensures u[x].carrier == UNBOUND && u[x].shipped == [] && InOrder(u[x])
    {
      AboardMember(t, m, cs, x);
      assert Ids(u[x].fahr) == Ids(t[x].fahr);
    }
  }

  lemma FleetLanded(t: Table, m: Chains, cs: seq<Handle>)
    requires Fleet(t, m) && AboardWhole(t, m, cs) && cs[0] in t
    ensures Fleet(Landed(t, cs), m) && Whole(Landed(t, cs), m, cs)
  {
    LandedOnMap(t, m, cs);
    FleetReleased(t, m, Landed(t, cs), cs);
  }

  /** The chain A + B aboard `self` was cut in two, and both parts stay aboard. */
  function SplitAboard(t: Table, self: Handle, a: Handle, b: Handle): Table {
    map x | x in t ::
      if x == self then t[x].(shipped := t[x].shipped + [b])
      else if x == a then t[x].(coupling := UNBOUND, fahr := WithLast(t[x].fahr, true))
      else if x == b then t[x].(parent := UNBOUND, fahr := WithLeading(t[x].fahr, true), carrier := self)
      else t[x]
  }

  lemma SplitAboardParts(t: Table, self: Handle, A: seq<Handle>, B: seq<Handle>)
    requires Aboard(t, A + B) && |A| > 0 && |B| > 0 && self !in A + B && UNBOUND !in t
    ensures Aboard(SplitAboard(t, self, Last(A), B[0]), A) && Aboard(SplitAboard(t, self, Last(A), B[0]), B)
  {
    var u, cs := SplitAboard(t, self, Last(A), B[0]), A + B;
    assert forall i :: 0 <= i < |A| ==> cs[i] == A[i];
    assert forall i :: 0 <= i < |B| ==> cs[|A| + i] == B[i];
    forall i | 0 <= i < |A|
      ensures AboardAt(u, A, i)
    {
      assert AboardAt(t, cs, i) && cs[i] in cs;
    }
    forall i | 0 <= i < |B|
      ensures AboardAt(u, B, i)
    {
      assert AboardAt(t, cs, |A| + i) && cs[|A| + i] in cs;
    }
  }

  /** m' differs from m in that A and B are now chains of their own. */
  ghost predicate Parted(m: Chains, m': Chains, A: seq<Handle>, B: seq<Handle>) {
    && ElseRegrouped(m, m', A + B)
    && (forall x :: x in A ==> x in m && x !in B && m'[x] == A) && (forall x :: x in B ==> x in m && m'[x] == B)
  }

  lemma SplitParted(t: Table, m: Chains, A: seq<Handle>, B: seq<Handle>)
    requires AboardWhole(t, m, A + B)
    ensures Parted(m, Split(m, A, B), A, B)
  {
    DistinctParts(A, B);
    forall x | x in A || x in B
      ensures x in m
    {
      assert x in A + B;
    }
  }

  /** A convoy of a chain that was cut aboard. */
  lemma SplitAboardMember(t: Table, m: Chains, u: Table, m': Chains, self: Handle, A: seq<Handle>, B: seq<Handle>,
                          x: Handle)
    requires Fleet(t, m) && AboardWhole(t, m, A + B) && |A| > 0 && |B| > 0 && self in t && self !in A + B
    requires t[(A + B)[0]].carrier == self && (x in A || x in B)
    requires u == SplitAboard(t, self, Last(A), B[0]) && Parted(m, m', A, B)
    ensures x in t && x in m && x in m' && Sound(u, m', x)
  {
    SplitAboardParts(t, self, A, B);
    assert x in A + B && (A + B)[0] == A[0];
    AboardMember(t, m, A + B, x);
    assert Sound(t, m, x) && Sound(t, m, self);
    KeepsIds(t[x].fahr, true);
    assert x in B ==> x != A[0];
    assert u[self].shipped[|t[self].shipped|] == B[0];
  }

  lemma SplitAboardOther(t: Table, m: Chains, u: Table, m': Chains, self: Handle, A: seq<Handle>, B: seq<Handle>,
                         x: Handle)
    requires Fleet(t, m) && AboardWhole(t, m, A + B) && |A| > 0 && |B| > 0 && self in t && self !in A + B
    requires t[(A + B)[0]].carrier == self && x in m && x !in A + B
    requires u == SplitAboard(t, self, Last(A), B[0]) && ElseRegrouped(m, m', A + B)
    ensures Sound(u, m', x)
  {
    SecondHead(t, m, A, B);
    SplitHolds(t, self, Last(A), B[0]);
    SplitAboardElse(t, m, u, m', self, A + B, x);
    SplitAboardCargo(t, m, u, m', self, A + B, B[0], x);
  }

  /** Only the convoys of `cs` changed their chains. */
  ghost predicate ElseRegrouped(m: Chains, m': Chains, cs: seq<Handle>) {
    m'.Keys == m.Keys && forall x :: x in m && x !in cs ==> m'[x] == m[x]
  }

  lemma SplitAboardElse(t: Table, m: Chains, u: Table, m': Chains, self: Handle, cs: seq<Handle>, x: Handle)
    requires Fleet(t, m) && AboardWhole(t, m, cs) && x in m && x !in cs && ElseRegrouped(m, m', cs)
    requires u.Keys == t.Keys && forall y :: y in t && y !in cs ==> SameStand(t[y], u[y]) && u[y].build == t[y].build
    ensures Belongs(m', x) && Good(u, m'[x]) && InOrder(u[x])
  {
    assert Sound(t, m, x);
    forall i | 0 <= i < |m[x]|
      ensures SameStand(t[m[x][i]], u[m[x][i]]) && m[x][i] !in cs && m'[m[x][i]] == m[m[x][i]]
    {
      assert m[x][i] in m[x] && m[m[x][i]] == m[x];
    }
    GoodKept(t, u, m[x]);
  }

  lemma SplitHolds(t: Table, self: Handle, a: Handle, b: Handle)
    requires self != a && self != b && a != b
    ensures forall y :: y in t ==> SplitAboard(t, self, a, b)[y].carrier == if y == b then self else t[y].carrier
    ensures forall y :: y in t ==>
              SplitAboard(t, self, a, b)[y].shipped == if y == self then t[y].shipped + [b] else t[y].shipped
    ensures forall y :: y in t ==> SplitAboard(t, self, a, b)[y].state == t[y].state
  {
  }

  lemma SecondHead(t: Table, m: Chains, A: seq<Handle>, B: seq<Handle>)
    requires Fleet(t, m) && AboardWhole(t, m, A + B) && |A| > 0 && |B| > 0
    ensures B[0] in A + B && B[0] != (A + B)[0] && Last(A) in A + B && Last(A) != B[0]
    ensures B[0] in t && t[B[0]].carrier == UNBOUND
  {
    assert (A + B)[|A|] == B[0] && (A + B)[|A| - 1] == Last(A);
    AboardMember(t, m, A + B, B[0]);
  }

  lemma SplitAboardCargo(t: Table, m: Chains, u: Table, m': Chains, self: Handle, cs: seq<Handle>, b: Handle, x: Handle)
    requires Fleet(t, m) && AboardWhole(t, m, cs) && self in t && self !in cs && cs[0] in t && t[cs[0]].carrier == self
    requires b in cs && b in t && t[b].carrier == UNBOUND && x in m && x !in cs && x in m' && m'[x] == m[x]
    requires u.Keys == t.Keys && u[x].state == t[x].state
    requires forall y :: y in t ==> u[y].carrier == if y == b then self else t[y].carrier
    requires forall y :: y in t ==> u[y].shipped == if y == self then t[y].shipped + [b] else t[y].shipped
    ensures CargoOf(u, m', x)
  {
    assert cs[0] in cs;
    AboardMember(t, m, cs, cs[0]);
    assert Sound(t, m, self) && Sound(t, m, x);
    CargoAdded(t, m, u, m', self, b, x);
  }

  /** Cargo stays in order when b, so far aboard nothing, is listed by self. */
  lemma CargoAdded(t: Table, m: Chains, u: Table, m': Chains, self: Handle, b: Handle, x: Handle)
    requires x in t && x in m && x in m' && m'[x] == m[x] && x != b && CargoOf(t, m, x) && u.Keys == t.Keys
    requires forall y :: y in t ==> u[y].carrier == (if y == b then self else t[y].carrier)
    requires forall y :: y in t ==> u[y].shipped == (if y == self then t[y].shipped + [b] else t[y].shipped)
    requires u[x].state == t[x].state && b in t && t[b].carrier == UNBOUND && b !in t[x].shipped
    requires x == self ==> x != UNBOUND && !t[x].state.Shipped? && !t[x].state.Initial?
    ensures CargoOf(u, m', x)
  {
    assert forall y :: y in t[x].shipped ==> y in u[x].shipped && u[y].carrier == x;
  }

  lemma SplitAboardEach(t: Table, m: Chains, u: Table, m': Chains, self: Handle, A: seq<Handle>, B: seq<Handle>,
                        x: Handle)
    requires Fleet(t, m) && AboardWhole(t, m, A + B) && |A| > 0 && |B| > 0 && self in t && self !in A + B
    requires t[(A + B)[0]].carrier == self
    requires u == SplitAboard(t, self, Last(A), B[0]) && Parted(m, m', A, B)
    requires x in m && x in u && x in m'
    ensures Sound(u, m', x)
  {
    if x in A || x in B {
      SplitAboardMember(t, m, u, m', self, A, B, x);
    } else {
      SplitAboardOther(t, m, u, m', self, A, B, x);
    }
  }

  /** Cutting a chain aboard keeps the whole fleet in order. */
  lemma FleetSplitAboard(t: Table, m: Chains, u: Table, m': Chains, self: Handle, A: seq<Handle>, B: seq<Handle>)
    requires Fleet(t, m) && AboardWhole(t, m, A + B) && |A| > 0 && |B| > 0 && self in t && self !in A + B
    requires t[(A + B)[0]].carrier == self
    requires u == SplitAboard(t, self, Last(A), B[0]) && Parted(m, m', A, B)
    ensures Fleet(u, m')
  {
    forall x | x in m
      ensures Sound(u, m', x)
    {
      SplitAboardEach(t, m, u, m', self, A, B, x);
    }
  }

  /** The head c of a chain aboard was destroyed: whoever it pulled is left without a carrier. */
  function Lost(t: Table, c: Handle): Table
    requires c in t
  {
    var k := t[c].carrier;
    (if k in t then t[k := t[k].(shipped := Without(t[k].shipped, c))] else t) - {c}
  }

  /** The chains without c, whose children `rest` are now on their own. */
  ghost predicate Orphaned(m: Chains, m': Chains, c: Handle, rest: seq<Handle>) {
    && m'.Keys == m.Keys - {c}
    && forall x :: x in m' ==> m'[x] == if x in rest then rest else m[x]
  }

  lemma LostRest(t: Table, c: Handle, rest: seq<Handle>)
    requires Aboard(t, [c] + rest) && c in t && |rest| > 0
    ensures Aboard(Lost(t, c), rest) && c !in rest
  {
    var u, cs := Lost(t, c), [c] + rest;
    DistinctParts([c], rest);
    assert c in [c];
    forall i | 0 <= i < |rest|
      ensures AboardAt(u, rest, i)
    {
      assert AboardAt(t, cs, i + 1) && cs[i + 1] == rest[i] && rest[i] in rest;
      assert i + 1 < |rest| ==> cs[i + 2] == rest[i + 1] && rest[i + 1] in rest;
    }
  }

  lemma OrphanSound(t: Table, m: Chains, u: Table, m': Chains, c: Handle, rest: seq<Handle>, x: Handle)
    requires Fleet(t, m) && AboardWhole(t, m, [c] + rest) && c in t && x in rest
    requires u == Lost(t, c) && Orphaned(m, m', c, rest)
    ensures x in t && x in u && x in m' && Sound(u, m', x) && u[x].carrier == UNBOUND
  {
    var cs := [c] + rest;
    LostRest(t, c, rest);
    forall y | y in rest
      ensures y in m' && y in t
    {
      assert y in cs;
    }
    assert x in cs && cs[0] == c;
    AboardMember(t, m, cs, x);
    assert c in cs;
    AboardMember(t, m, cs, c);
    assert u[x] == t[x];
  }

  lemma LostOther(t: Table, m: Chains, u: Table, m': Chains, c: Handle, rest: seq<Handle>, x: Handle)
    requires Fleet(t, m) && AboardWhole(t, m, [c] + rest) && c in t && x in t && x != c && x !in rest
    requires u == Lost(t, c) && Orphaned(m, m', c, rest)
    ensures x in u && x in m' && Sound(u, m', x)
  {
    var cs := [c] + rest;
    assert Sound(t, m, x) && c in cs && x !in cs;
    AboardMember(t, m, cs, c);
    forall i | 0 <= i < |m[x]|
      ensures m[x][i] in u && SameStand(t[m[x][i]], u[m[x][i]]) && m[x][i] !in cs && m'[m[x][i]] == m[x]
    {
      var y := m[x][i];
      assert y in m[x] && m[y] == m[x];
      assert forall z :: z in rest ==> z in cs;
    }
    GoodKept(t, u, m[x]);
    assert m'[x] == m[x];
    LostCargo(t, m, u, m', c, cs, x);
  }

  lemma LostCargo(t: Table, m: Chains, u: Table, m': Chains, c: Handle, cs: seq<Handle>, x: Handle)
    requires Fleet(t, m) && AboardWhole(t, m, cs) && cs[0] == c && c in t && x in t && x !in cs
    requires u == Lost(t, c) && x in m && x in m' && m'[x] == m[x]
    ensures CargoOf(u, m', x)
  {
    assert Sound(t, m, x) && c in cs;
    AboardMember(t, m, cs, c);
    WithoutMembers(t[x].shipped, c);
    assert x != t[c].carrier ==> c !in t[x].shipped;
    var l := t[x].carrier;
    if l != UNBOUND {
      assert Sound(t, m, l);
      WithoutMembers(t[l].shipped, c);
    }
  }

  /** The fleet stays in order when a convoy aboard is lost. */
  lemma FleetLost(t: Table, m: Chains, u: Table, m': Chains, c: Handle, rest: seq<Handle>)
    requires Fleet(t, m) && AboardWhole(t, m, [c] + rest) && c in t
    requires u == Lost(t, c) && Orphaned(m, m', c, rest)
    ensures Fleet(u, m') && (|rest| > 0 ==> AboardWhole(u, m', rest))
  {
    forall x | x in m'
      ensures Sound(u, m', x)
    {
      if x in rest {
        OrphanSound(t, m, u, m', c, rest, x);
      } else {
        LostOther(t, m, u, m', c, rest, x);
      }
    }
    if |rest| > 0 {
      LostRest(t, c, rest);
      forall x | x in rest
        ensures x in u && x in m' && m'[x] == rest
      {
        OrphanSound(t, m, u, m', c, rest, x);
      }
    }
  }

  /** The convoy c is no longer aboard its carrier. */
  function Cleared(t: Table, c: Handle): Table
    requires c in t
  {
    var k := t[c].carrier;
    var t1 := if k in t then t[k := t[k].(shipped := Without(t[k].shipped, c))] else t;
    t1[c := t1[c].(carrier := UNBOUND)]
  }

  function Routed(t: Table, c: Handle): Table
    requires c in t
  {
    t[c := t[c].(state := Routing1)]
  }

  lemma ReadyAboard(t: Table, m: Chains, cs: seq<Handle>, u: Table)
    requires Fleet(t, m) && AboardWhole(t, m, cs) && cs[0] in t
    requires u == Routed(t, cs[0]) || u == Routed(Cleared(t, cs[0]), cs[0])
    ensures Filing(u, u, cs, 0)
  {
    assert cs[0] in cs;
    AboardMember(t, m, cs, cs[0]);
    forall i | 0 <= i < |cs|
      ensures WalkAt(u, cs, i) && |u[cs[i]].fahr| > 0 && WaitsAt(u, u, cs, i, 0)
    {
      assert AboardAt(t, cs, i) && cs[i] in cs;
      assert i > 0 ==> cs[i - 1] in t;
    }
  }

  lemma FiledMember(t: Table, m: Chains, t1: Table, u: Table, cs: seq<Handle>, i: nat)
    requires Fleet(t, m) && AboardWhole(t, m, cs) && Filing(t1, u, cs, |cs|) && i < |cs| && cs[i] in t
    requires t1.Keys == t.Keys && t1[cs[i]] == t[cs[i]].(state := t1[cs[i]].state, carrier := t1[cs[i]].carrier)
    ensures InDepotAt(u, cs, i) && u[cs[i]].shipped == [] && InOrder(u[cs[i]])
    ensures u[cs[i]].carrier == t1[cs[i]].carrier
  {
    assert cs[i] in cs && FiledAt(t1, u, cs, i);
    AboardMember(t, m, cs, cs[i]);
    ReversedTwice(t[cs[i]].build.base);
  }

  /** A filed chain whose head was aboard has left its carrier for good. */
  lemma FiledReleased(t: Table, u: Table, cs: seq<Handle>)
    requires |cs| > 0 && cs[0] in t && u.Keys == t.Keys && forall i :: 0 <= i < |cs| ==> cs[i] in t
    requires forall i :: 0 <= i < |cs| ==> u[cs[i]].carrier == UNBOUND && u[cs[i]].shipped == [] && InOrder(u[cs[i]])
    requires forall x :: x in t && x !in cs ==>
      u[x] == if x == t[cs[0]].carrier then t[x].(shipped := Without(t[x].shipped, cs[0])) else t[x]
    ensures Released(t, u, cs)
  {
    forall x | x in t && x in cs
      ensures u[x].carrier == UNBOUND && u[x].shipped == [] && InOrder(u[x])
    {
      var i :| 0 <= i < |cs| && cs[i] == x;
    }
  }

  /** A chain aboard that was filed in a depot after it was taken off the carrier's list. */
  lemma FiledCleared(t: Table, m: Chains, u: Table, cs: seq<Handle>)
    requires Fleet(t, m) && AboardWhole(t, m, cs) && cs[0] in t
    requires Filing(Routed(Cleared(t, cs[0]), cs[0]), u, cs, |cs|)
    ensures Released(t, u, cs) && InDepot(u, cs)
  {
    var t1 := Routed(Cleared(t, cs[0]), cs[0]);
    assert cs[0] in cs;
    AboardMember(t, m, cs, cs[0]);
    FiledInDepot(t1, u, cs);
    forall i | 0 <= i < |cs|
      ensures cs[i] in t && u[cs[i]].carrier == UNBOUND && u[cs[i]].shipped == [] && InOrder(u[cs[i]])
    {
      assert cs[i] in cs;
      AboardMember(t, m, cs, cs[i]);
      FiledMember(t, m, t1, u, cs, i);
    }
    FiledReleased(t, u, cs);
  }

  /** A chain aboard that was filed in a depot and then taken off the carrier's list. */
  lemma ClearedFiled(t: Table, m: Chains, u1: Table, cs: seq<Handle>)
    requires Fleet(t, m) && AboardWhole(t, m, cs) && cs[0] in t && Filing(Routed(t, cs[0]), u1, cs, |cs|)
    ensures cs[0] in u1 && u1[cs[0]].carrier == t[cs[0]].carrier
    ensures Released(t, Cleared(u1, cs[0]), cs) && InDepot(Cleared(u1, cs[0]), cs)
  {
    var t1, u := Routed(t, cs[0]), Cleared(u1, cs[0]);
    assert cs[0] in cs;
    AboardMember(t, m, cs, cs[0]);
    FiledMember(t, m, t1, u1, cs, 0);
    FiledInDepot(t1, u1, cs);
    forall i | 0 <= i < |cs|
      ensures cs[i] in t && u[cs[i]].carrier == UNBOUND && u[cs[i]].shipped == [] && InOrder(u[cs[i]])
      ensures SameStand(u1[cs[i]], u[cs[i]])
    {
      assert cs[i] in cs;
      AboardMember(t, m, cs, cs[i]);
      FiledMember(t, m, t1, u1, cs, i);
    }
    GoodKept(u1, u, cs);
    FiledReleased(t, u, cs);
  }
}
