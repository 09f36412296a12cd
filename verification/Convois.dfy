/** Convoys as records in a handle table, and the chains they form. */
module Convois {
  import opened Vehicles

  /** The states of a convoy that the coupling, depot and shipping code tells apart. */
  datatype State =
    | Initial | EditSchedule | Routing1 | NoRoute | Driving | Loading
    | Coupled | CoupledLoading | Suspension | SuspensionLoading | SelfDestruct | Shipped
  {
    predicate IsLoading() { Loading? || CoupledLoading? || SuspensionLoading? }
    predicate IsCoupled() { Coupled? || CoupledLoading? }
    predicate Drives() { !IsCoupled() && !Initial? && !Shipped? }
  }

  /** An index into the handle table; it is bound while the table has an entry for it. */
  type Handle = nat
  const UNBOUND: Handle := 0

  /** What stays the same for as long as a convoy exists. */
  datatype Build = Build(
    base: seq<nat>,        // the vehicles in the order they were put together
    length: nat,           // in vehicle units
    good: nat,             // the dummy shipping good of my waytype
    deck: map<nat, nat>)   // the space I offer, per dummy shipping good

  datatype Convoi = Convoi(
    state: State,
    coupling: Handle,      // the convoy I pull
    parent: Handle,        // the convoy that pulls me
    fahr: seq<Vehicle>,
    reversed: bool,
    reversingNeeded: bool,
    carrier: Handle,       // the convoy I am aboard
    shipped: seq<Handle>,  // the convoys I carry
    build: Build)

  type Table = map<Handle, Convoi>

  function Last<T>(s: seq<T>): T
    requires |s| > 0
  {
    s[|s| - 1]
  }

  ghost predicate Distinct<T>(s: seq<T>) {
    forall i, j :: 0 <= i < j < |s| ==> s[i] != s[j]
  }

  ghost predicate Apart<T>(s: seq<T>, t: seq<T>) {
    forall i, j :: 0 <= i < |s| && 0 <= j < |t| ==> s[i] != t[j]
  }

  /** The links of the i-th convoy of a chain, head first. A link to a handle that is not
      bound is no link. */
  ghost predicate LinkedAt(t: Table, cs: seq<Handle>, i: int)
    requires 0 <= i < |cs|
  {
    && cs[i] in t
    && (if i > 0 then t[cs[i]].parent == cs[i - 1] else t[cs[i]].parent !in t)
    && (if i + 1 < |cs| then t[cs[i]].coupling == cs[i + 1] else t[cs[i]].coupling !in t)
  }

  /** A chain on the map: every convoy but the head is in a coupled state, and of all the
      vehicles only the very first is leading and only the very last is last. */
  ghost predicate OnMapAt(t: Table, cs: seq<Handle>, i: int)
    requires 0 <= i < |cs|
  {
    && LinkedAt(t, cs, i)
    && (if i > 0 then t[cs[i]].state.IsCoupled() else t[cs[i]].state.Drives())
    && Flags(t[cs[i]].fahr, i == 0, i == |cs| - 1)
  }

  /** A chain filed in a depot: only the links to the children are kept. */
  ghost predicate InDepotAt(t: Table, cs: seq<Handle>, i: int)
    requires 0 <= i < |cs|
  {
    && cs[i] in t && t[cs[i]].parent !in t
    && (if i + 1 < |cs| then t[cs[i]].coupling == cs[i + 1] else t[cs[i]].coupling !in t)
    && t[cs[i]].state.Initial? && |t[cs[i]].fahr| > 0 && !t[cs[i]].reversed
  }

  /** A chain aboard another convoy. */
  ghost predicate AboardAt(t: Table, cs: seq<Handle>, i: int)
    requires 0 <= i < |cs|
  {
    LinkedAt(t, cs, i) && t[cs[i]].state.Shipped? && |t[cs[i]].fahr| > 0
  }

  ghost predicate OnMap(t: Table, cs: seq<Handle>) {
    |cs| > 0 && Distinct(cs) && forall i {:trigger OnMapAt(t, cs, i)} :: 0 <= i < |cs| ==> OnMapAt(t, cs, i)
  }

  ghost predicate InDepot(t: Table, cs: seq<Handle>) {
    |cs| > 0 && Distinct(cs) && forall i {:trigger InDepotAt(t, cs, i)} :: 0 <= i < |cs| ==> InDepotAt(t, cs, i)
  }

  ghost predicate Aboard(t: Table, cs: seq<Handle>) {
    |cs| > 0 && Distinct(cs) && forall i {:trigger AboardAt(t, cs, i)} :: 0 <= i < |cs| ==> AboardAt(t, cs, i)
  }

  ghost predicate Good(t: Table, cs: seq<Handle>) {
    OnMap(t, cs) || InDepot(t, cs) || Aboard(t, cs)
  }

  /** The vehicles stand in base order exactly when the convoy is not reversed. */
  ghost predicate InOrder(c: Convoi) {
    && |c.build.base| > 0
    && Ids(c.fahr) == if c.reversed then Reversed(c.build.base) else c.build.base
  }

  type Chains = map<Handle, seq<Handle>>

  /** x is in one chain only, which belongs to all its convoys alike. */
  ghost predicate Belongs(m: Chains, x: Handle)
    requires x in m
  {
    x in m[x] && forall y :: y in m[x] ==> y in m && m[y] == m[x]
  }

  /** Every convoy of `cs` now belongs to the chain `cs`. */
  ghost function Filed(m: Chains, cs: seq<Handle>): Chains {
    map x | x in m :: if x in cs then cs else m[x]
  }

  /** Whoever is aboard is the head of a chain that its carrier lists, a carrier lists only
      what it carries and lists it once, and no carrier is itself aboard or in a depot. */
  ghost predicate CargoOf(t: Table, m: Chains, x: Handle)
    requires x in t
  {
    && (t[x].carrier != UNBOUND ==>
          && t[x].state.Shipped? && x in m && |m[x]| > 0 && m[x][0] == x
          && t[x].carrier in t && x in t[t[x].carrier].shipped)
    && (forall c :: c in t[x].shipped ==> c in t && t[c].carrier == x)
    && Distinct(t[x].shipped)
    && (t[x].shipped != [] ==> !t[x].state.Shipped? && !t[x].state.Initial?)
  }

  ghost predicate Sound(t: Table, m: Chains, x: Handle)
    requires x in t && x in m
  {
    Belongs(m, x) && Good(t, m[x]) && InOrder(t[x]) && CargoOf(t, m, x)
  }

  /** The whole fleet: every convoy is in one chain, every chain is as it should be, and so
      is everything aboard. */
  ghost predicate Fleet(t: Table, m: Chains) {
    && UNBOUND !in t && m.Keys == t.Keys
    && forall x {:trigger Sound(t, m, x)} :: x in m ==> Sound(t, m, x)
  }

  /** The convoys of `cs` form a chain on the map, and belong to no other. */
  ghost predicate Whole(t: Table, m: Chains, cs: seq<Handle>) {
    OnMap(t, cs) && forall x :: x in cs ==> x in t && x in m && m[x] == cs
  }

  /** All but the convoys of `cs` is as it was. */
  ghost predicate ElseKept(t: Table, m: Chains, t': Table, m': Chains, cs: seq<Handle>) {
    && t'.Keys == t.Keys && m'.Keys == m.Keys
    && forall x :: x in t && x in m && x !in cs ==> t'[x] == t[x] && m'[x] == m[x]
  }

  /** What coupling and uncoupling leave alone. */
  ghost predicate SameLoad(c: Convoi, d: Convoi) {
    && c.reversed == d.reversed && c.reversingNeeded == d.reversingNeeded
    && c.carrier == d.carrier && c.shipped == d.shipped && c.build == d.build
    && Ids(c.fahr) == Ids(d.fahr)
  }

  /** Only states, links and flags may have changed. */
  ghost predicate LoadsKept(t: Table, t': Table) {
    t'.Keys == t.Keys && forall x {:trigger SameLoad(t[x], t'[x])} :: x in t ==> SameLoad(t[x], t'[x])
  }

  /** Nobody boarded, landed or was rebuilt. */
  ghost predicate HoldsKept(t: Table, t': Table) {
    t'.Keys == t.Keys && forall x {:trigger SameHold(t[x], t'[x])} :: x in t ==> SameHold(t[x], t'[x])
  }

  ghost predicate SameHold(c: Convoi, d: Convoi) {
    c.carrier == d.carrier && c.shipped == d.shipped && c.build == d.build
  }

  lemma LoadsHold(t: Table, t': Table)
    requires LoadsKept(t, t')
    ensures HoldsKept(t, t')
  {
    forall x | x in t
      ensures SameHold(t[x], t'[x])
    {
      assert SameLoad(t[x], t'[x]);
    }
  }

  lemma LoadsKeptTwice(t: Table, t1: Table, t2: Table)
    requires LoadsKept(t, t1) && LoadsKept(t1, t2)
    ensures LoadsKept(t, t2)
  {
    forall x | x in t
      ensures SameLoad(t[x], t2[x])
    {
      assert SameLoad(t[x], t1[x]) && SameLoad(t1[x], t2[x]);
    }
  }

  /** What makes a chain good. */
  ghost predicate SameStand(c: Convoi, d: Convoi) {
    && c.state == d.state && c.coupling == d.coupling && c.parent == d.parent
    && c.fahr == d.fahr && c.reversed == d.reversed
  }

  /** A chain that stands as it stood is as good as it was. */
  lemma GoodKept(t: Table, t': Table, cs: seq<Handle>)
    requires t'.Keys <= t.Keys && forall i :: 0 <= i < |cs| ==> cs[i] in t' && SameStand(t[cs[i]], t'[cs[i]])
    ensures OnMap(t, cs) ==> OnMap(t', cs)
    ensures InDepot(t, cs) ==> InDepot(t', cs)
    ensures Aboard(t, cs) ==> Aboard(t', cs)
  {
    forall i | 0 <= i < |cs|
      ensures OnMapAt(t, cs, i) ==> OnMapAt(t', cs, i)
      ensures InDepotAt(t, cs, i) ==> InDepotAt(t', cs, i)
      ensures AboardAt(t, cs, i) ==> AboardAt(t', cs, i)
    {
    }
  }

  /** A convoy outside the touched chains stays in its chain, which stays good. */
  lemma ChainUntouched(t: Table, m: Chains, t': Table, m': Chains, cs: seq<Handle>, x: Handle)
    requires x in t && x in m && x !in cs && Belongs(m, x) && m.Keys == t.Keys
    requires ElseKept(t, m, t', m', cs)
    requires forall y :: y in cs && y in m ==> forall z :: z in m[y] ==> z in cs
    ensures Belongs(m', x) && (Good(t, m[x]) ==> Good(t', m'[x])) && t'[x] == t[x] && m'[x] == m[x]
  {
    forall i | 0 <= i < |m[x]|
      ensures m[x][i] in m && m[x][i] !in cs
    {
      assert m[x][i] in m[x] && m[m[x][i]] == m[x];
    }
    GoodKept(t, t', m[x]);
  }

  lemma CargoKept(t: Table, m: Chains, t': Table, m': Chains, x: Handle)
    requires x in t && x in m && CargoOf(t, m, x) && HoldsKept(t, t')
    requires t'[x] == t[x] && x in m' && m'[x] == m[x]
    ensures CargoOf(t', m', x)
  {
    assert forall y {:trigger t[y]} :: y in t ==> SameHold(t[y], t'[y]);
  }

  lemma NotAboard(t: Table, cs: seq<Handle>, x: Handle)
    requires OnMap(t, cs) && x in cs
    ensures x in t && !t[x].state.Shipped? && !t[x].state.Initial?
  {
    var i :| 0 <= i < |cs| && cs[i] == x;
    assert OnMapAt(t, cs, i);
  }

  /** A convoy that changes from one whole chain on the map to another stays sound. */
  lemma Moved(t: Table, m: Chains, t': Table, m': Chains, A: seq<Handle>, B: seq<Handle>, x: Handle)
    requires Fleet(t, m) && LoadsKept(t, t') && Whole(t, m, A) && Whole(t', m', B) && x in A && x in B
    ensures x in m && x in t' && x in m' && Sound(t', m', x)
  {
    assert Sound(t, m, x);
    NotAboard(t, A, x);
    NotAboard(t', B, x);
    assert forall y {:trigger t[y]} :: y in t ==> SameLoad(t[y], t'[y]);
  }

  /** Whatever happened within whole chains, the rest of the fleet is as sound as it was. */
  lemma RestSound(t: Table, m: Chains, t': Table, m': Chains, cs: seq<Handle>, x: Handle)
    requires Fleet(t, m) && HoldsKept(t, t') && ElseKept(t, m, t', m', cs) && x in m && x !in cs
    requires forall y :: y in cs && y in m ==> forall z :: z in m[y] ==> z in cs
    ensures Sound(t', m', x)
  {
    assert Sound(t, m, x);
    ChainUntouched(t, m, t', m', cs, x);
    CargoKept(t, m, t', m', x);
  }

  /** A convoy on the map is in a whole chain on the map, and is its head exactly when it
      drives itself; a filed one is in a filed chain. */
  lemma ChainOf(t: Table, m: Chains, x: Handle) returns (k: nat)
    requires Fleet(t, m) && x in t
    ensures x in m && k < |m[x]| && m[x][k] == x && forall y :: y in m[x] ==> y in m && m[y] == m[x]
    ensures !t[x].state.Shipped? && !t[x].state.Initial? ==> Whole(t, m, m[x]) && (t[x].state.Drives() <==> k == 0)
    ensures t[x].state.Initial? ==> InDepot(t, m[x])
  {
    assert Sound(t, m, x);
    var cs := m[x];
    k :| 0 <= k < |cs| && cs[k] == x;
    assert InDepot(t, cs) ==> InDepotAt(t, cs, k);
    assert Aboard(t, cs) ==> AboardAt(t, cs, k);
    assert OnMap(t, cs) ==> OnMapAt(t, cs, k);
    if OnMap(t, cs) {
      forall y | y in cs
        ensures y in t
      {
        NotAboard(t, cs, y);
      }
    }
  }
}
