/** What becomes of the convoys aboard when their carrier calls at a halt or vanishes. */
module Rescue {
  import opened Vehicles
  import opened Convois
  import opened Coupling
  import opened Depots
  import opened Shipping
  import opened Orphans
  import opened Deck
  import opened Carriers
  import opened Landing

  /** Files the chain away in the nearest depot, if there is one for it. */
  method TeleportToNearestDepot(w: Welt, dep: Depot, c: Handle, found: bool, ghost cs: seq<Handle>) returns (ok: bool)
    requires c in w.cnv && |cs| > 0 && cs[0] == c && Filing(Routed(w.cnv, c), Routed(w.cnv, c), cs, 0)
    modifies w`cnv, dep
    ensures ok == found
    ensures !ok ==> w.cnv == old(w.cnv) && dep.convois == old(dep.convois)
    ensures ok ==> Filing(Routed(old(w.cnv), c), w.cnv, cs, |cs|) && dep.convois == AddedAll(old(dep.convois), cs)
  {
    if !found {
      return false;
    }
    w.SetState(c, Routing1);
    BetreteDepot(w, dep, c, cs);
    return true;
  }

  lemma FiledFleet(t: Table, m: Chains, u: Table, cs: seq<Handle>, L: nat)
    requires Fleet(t, m) && AboardWhole(t, m, cs) && Released(t, u, cs) && InDepot(u, cs) && Stowed(t, m, L)
    requires forall x :: x in t ==> u[x].build == t[x].build
    ensures Fleet(u, m) && Stowed(u, m, L)
  {
    FleetReleased(t, m, u, cs);
    StowedReleased(t, m, u, cs, L);
  }

  lemma FiledAlighted(t: Table, m: Chains, u: Table, self: Handle, cs: seq<Handle>)
    requires Fleet(t, m) && AboardWhole(t, m, cs) && InDepot(u, cs) && Fleet(u, m)
    requires Elsewhere(t, m, u, m, self, cs) && t[self].shipped != []
    ensures Alighted(t, m, u, m) && u.Keys == t.Keys
  {
    AboardShipped(t, cs);
    forall x | x in cs
      ensures x in u && OrphanAt(t, m, u, m, x)
    {
      var i :| 0 <= i < |cs| && cs[i] == x;
      assert InDepotAt(u, cs, i);
    }
    StillAlighted(t, m, u, m, self, cs);
  }

  lemma FiledCarriers(t: Table, m: Chains, u: Table, self: Handle, cs: seq<Handle>)
    requires Fleet(t, m) && Fleet(u, m) && InDepot(u, cs) && Elsewhere(t, m, u, m, self, cs)
    ensures CarriersKept(t, u)
  {
    forall x | x in cs && x in u
      ensures u[x].carrier == UNBOUND
    {
      var i :| 0 <= i < |cs| && cs[i] == x;
      assert Sound(u, m, x) && InDepotAt(u, cs, i);
    }
  }

  lemma FilingBuilds(t: Table, u: Table, cs: seq<Handle>)
    requires Filing(t, u, cs, |cs|)
    ensures forall x :: x in t ==> u[x].build == t[x].build
  {
    forall x | x in t
      ensures u[x].build == t[x].build
    {
      if x in cs {
        var i :| 0 <= i < |cs| && cs[i] == x;
        assert FiledAt(t, u, cs, i);
      }
    }
  }

  /** Filing a chain that was aboard, and then taking it off its carrier's list. */
  lemma FiledAshore(t: Table, m: Chains, u: Table, v: Table, self: Handle, c: Handle, cs: seq<Handle>, L: nat)
    requires Fleet(t, m) && AboardWhole(t, m, cs) && |cs| > 0 && cs[0] == c && c in t && Stowed(t, m, L)
    requires self in t && self !in cs && t[c].carrier == self && Filing(Routed(t, c), u, cs, |cs|)
    requires c in u && v == Cleared(u, c)
    ensures Fleet(v, m) && Stowed(v, m, L) && InDepot(v, cs) && Elsewhere(t, m, v, m, self, cs)
    ensures c in v && v[c].state == Initial && Alighted(t, m, v, m) && v.Keys == t.Keys
  {
    FilingBuilds(Routed(t, c), u, cs);
    ClearedFiled(t, m, u, cs);
    FiledFleet(t, m, v, cs, L);
    ElsewhereReleased(t, m, v, self, cs);
    assert InDepotAt(v, cs, 0);
    IsListed(t, m, self, c);
    FiledAlighted(t, m, v, self, cs);
  }

  /** Getting a chain off its carrier touches nobody on the map or in a depot. */
  lemma ElsewhereMapKept(t: Table, m: Chains, u: Table, m': Chains, self: Handle, cs: seq<Handle>)
    requires Fleet(t, m) && AboardWhole(t, m, cs) && Elsewhere(t, m, u, m', self, cs) && t[self].shipped != []
    ensures MapKept(t, m, u, m')
  {
    AboardShipped(t, cs);
    forall x | x in t
      ensures StaysAt(t, m, u, m', x)
    {
      assert x in cs ==> t[x].state.Shipped?;
    }
  }

  lemma IsListed(t: Table, m: Chains, self: Handle, c: Handle)
    requires Fleet(t, m) && c in t && self in t && t[c].carrier == self
    ensures c in t[self].shipped
  {
    assert Sound(t, m, c) && Sound(t, m, self);
  }

  /** A depot's list stays right when a chain from aboard is filed. */
  lemma {:induction false} FiledListed(t: Table, m: Chains, u: Table, self: Handle, cs: seq<Handle>, list: seq<Handle>)
    requires Fleet(t, m) && AboardWhole(t, m, cs) && Elsewhere(t, m, u, m, self, cs) && t[self].shipped != []
    requires InDepot(u, cs)
    ensures MapKept(t, m, u, m) && (Lists(t, m, list) ==> Lists(u, m, AddedAll(list, cs)))
  {
    ElsewhereMapKept(t, m, u, m, self, cs);
    if Lists(t, m, list) {
      ListsKept(t, m, u, m, list);
      ListsAdded(u, m, list, cs);
    }
  }

  lemma StillListed(t: Table, u: Table, self: Handle, c: Handle, cs: seq<Handle>)
    requires |cs| > 0 && cs[0] == c && c in t && t[c].carrier == self && Filing(Routed(t, c), u, cs, |cs|)
    ensures c in u && u[c].carrier == self
  {
    assert FiledAt(Routed(t, c), u, cs, 0);
  }

  /** Sends a chain from aboard `self` to a depot. */
  method SendToDepot(w: Welt, dep: Depot, self: Handle, c: Handle, found: bool, ghost L: nat) returns (ok: bool)
    requires w.Valid() && Stowed(w.cnv, w.chainOf, L) && self in w.cnv && c in w.cnv[self].shipped
    modifies w`cnv, dep
    ensures w.Valid() && Stowed(w.cnv, w.chainOf, L) && c in w.chainOf && ok == found
    ensures !ok ==> w.cnv == old(w.cnv) && dep.convois == old(dep.convois)
    ensures ok ==> c in w.cnv && InDepot(w.cnv, w.chainOf[c]) && w.cnv[c].state == Initial && w.chainOf[c][0] == c
    ensures ok ==> dep.convois == AddedAll(old(dep.convois), w.chainOf[c]) && old(dep.convois) <= dep.convois
    ensures ok ==> forall x :: x in dep.convois <==> x in old(dep.convois) || x in w.chainOf[c]
    ensures ok ==> Elsewhere(old(w.cnv), w.chainOf, w.cnv, w.chainOf, self, w.chainOf[c])
    ensures Alighted(old(w.cnv), w.chainOf, w.cnv, w.chainOf) && w.cnv.Keys == old(w.cnv).Keys
    ensures MapKept(old(w.cnv), old(w.chainOf), w.cnv, w.chainOf)
    ensures Lists(old(w.cnv), old(w.chainOf), old(dep.convois)) ==> Lists(w.cnv, w.chainOf, dep.convois)
  {
    ghost var t, m := w.cnv, w.chainOf;
    ListedWalk(t, m, self, c);
    ghost var cs := m[c];
    ReadyAboard(t, m, cs, Routed(t, c));
    ok := TeleportToNearestDepot(w, dep, c, found, cs);
    if !ok {
      NobodyAlighted(t, m);
      return;
    }
    ghost var u := w.cnv;
    StillListed(t, u, self, c, cs);
    FiledAshore(t, m, u, Cleared(u, c), self, c, cs, L);
    AddedMembers(old(dep.convois), cs);
    FiledListed(t, m, Cleared(u, c), self, cs, old(dep.convois));
    w.cnv := w.cnv[self := w.cnv[self].(shipped := Without(w.cnv[self].shipped, c))];
    w.cnv := w.cnv[c := w.cnv[c].(carrier := UNBOUND)];
  }

  ghost function Bereft(m: Chains, c: Handle, rest: seq<Handle>): Chains {
    (map x | x in m :: if x in rest then rest else m[x]) - {c}
  }

  lemma LostFleet(t: Table, m: Chains, u: Table, m': Chains, self: Handle, c: Handle, rest: seq<Handle>, L: nat)
    requires Fleet(t, m) && AboardWhole(t, m, [c] + rest) && c in t && Stowed(t, m, L)
    requires u == Lost(t, c) && m' == Bereft(m, c, rest) && self in t && t[c].carrier == self && self !in [c] + rest
    ensures Fleet(u, m') && Stowed(u, m', L) && Elsewhere(t, m, u, m', self, [c] + rest)
    ensures |rest| > 0 ==> AboardWhole(u, m', rest)
  {
    FleetLost(t, m, u, m', c, rest);
    StowedLost(t, m, u, m', c, rest, L);
    PrefixWithout(t[self].shipped, c);
    assert forall x :: x in rest ==> x in [c] + rest;
    assert c in [c] + rest;
  }

  /** Losing a convoy takes its children, and only them, their carrier. */
  lemma LostAlighted(t: Table, m: Chains, u: Table, m': Chains, self: Handle, c: Handle, rest: seq<Handle>)
    requires Fleet(t, m) && AboardWhole(t, m, [c] + rest) && c in t && Fleet(u, m')
    requires u == Lost(t, c) && m' == Bereft(m, c, rest) && self in t && t[c].carrier == self
    requires Elsewhere(t, m, u, m', self, [c] + rest)
    ensures Alighted(t, m, u, m')
  {
    var cs := [c] + rest;
    assert c in cs;
    IsListed(t, m, self, c);
    AboardShipped(t, cs);
    forall x | x in cs && x in u
      ensures OrphanAt(t, m, u, m', x)
    {
      assert x in rest && m[x] == cs;
      assert forall y :: y in rest ==> y in cs;
    }
    StillAlighted(t, m, u, m', self, cs);
  }

  lemma LostCared(t: Table, m: Chains, u: Table, m': Chains, self: Handle, c: Handle, rest: seq<Handle>)
    requires Fleet(t, m) && AboardWhole(t, m, [c] + rest) && c in t && Cared(t, m) && Fleet(u, m')
    requires u == Lost(t, c) && m' == Bereft(m, c, rest) && self in t && t[c].carrier == self
    requires Elsewhere(t, m, u, m', self, [c] + rest)
    ensures Cared(u, m') <==> rest == []
  {
    if |rest| > 0 {
      OrphanSound(t, m, u, m', c, rest, rest[0]);
      LostRest(t, c, rest);
      AboardShipped(u, rest);
      assert rest[0] in rest && !CaredAt(u, m', rest[0]);
    } else {
      LostAlighted(t, m, u, m', self, c, rest);
      assert c in [c] + rest;
      LoneLost(t, m, u, m', c);
    }
  }

  lemma LoneLost(t: Table, m: Chains, u: Table, m': Chains, c: Handle)
    requires Fleet(t, m) && Alighted(t, m, u, m') && Cared(t, m) && c in m && m[c] == [c]
    requires u.Keys == t.Keys - {c}
    ensures Cared(u, m')
  {
    forall x | x in u
      ensures CaredAt(u, m', x)
    {
      assert OrphanAt(t, m, u, m', x) && CaredAt(t, m, x) && Sound(t, m, x);
    }
  }

  /** A carrier with a chain of two convoys aboard. */
  function CarriedPair(): Table {
    map[
      1 := Convoi(Loading, UNBOUND, UNBOUND, [Vehicle(1, true, true)], false, false, UNBOUND, [2],
              Build([1], 1, 0, map[0 := 2])),
      2 := Convoi(Shipped, 3, UNBOUND, [Vehicle(2, true, true)], false, false, 1, [], Build([2], 1, 0, map[])),
      3 := Convoi(Shipped, UNBOUND, 2, [Vehicle(3, true, true)], false, false, UNBOUND, [], Build([3], 1, 0, map[]))
    ]
  }

  function PairChains(): Chains { map[1 := [1], 2 := [2, 3], 3 := [2, 3]] }

  lemma PairInOrder()
    ensures Fleet(CarriedPair(), PairChains()) && AboardWhole(CarriedPair(), PairChains(), [2, 3])
    ensures forall x :: x in CarriedPair() ==> CaredAt(CarriedPair(), PairChains(), x)
  {
    var t, m := CarriedPair(), PairChains();
    assert OnMapAt(t, [1], 0) && AboardAt(t, [2, 3], 0) && AboardAt(t, [2, 3], 1);
    assert forall x :: x in [2, 3] ==> x == 2 || x == 3;
    assert Sound(t, m, 1) && Sound(t, m, 2) && Sound(t, m, 3);
  }

  /** When the head of that chain is lost, the other convoy is aboard nothing. */
  lemma OrphanLeft()
    ensures var t, m := CarriedPair(), PairChains();
      var u, m' := Lost(t, 2), Bereft(m, 2, [3]);
      Fleet(t, m) && Cared(t, m) && Fleet(u, m') && 3 in u && 3 in m' && !CaredAt(u, m', 3)
  {
    var t, m, u, m' := CarriedPair(), PairChains(), Lost(CarriedPair(), 2), Bereft(PairChains(), 2, [3]);
    PairInOrder();
    assert [2] + [3] == [2, 3] && 3 in [3];
    FleetLost(t, m, u, m', 2, [3]);
    OrphanSound(t, m, u, m', 2, [3], 3);
    assert u[3] == t[3] && m'[3] == [3];
  }

  function Gone(t: Table, c: Handle): Table {
    t - {c}
  }

  lemma GoneIsLost(t: Table, c: Handle)
    requires c in t
    ensures Gone(Cleared(t, c), c) == Lost(t, c)
  {
  }

  /** The head of a chain aboard ceases to exist; its children stay aboard nothing. */
  method GiveUp(w: Welt, self: Handle, c: Handle, ghost L: nat)
    requires w.Valid() && Stowed(w.cnv, w.chainOf, L) && self in w.cnv && c in w.cnv[self].shipped
    modifies w
    ensures w.Valid() && Stowed(w.cnv, w.chainOf, L) && c in old(w.chainOf)
    ensures w.cnv.Keys == old(w.cnv.Keys) - {c}
    ensures |old(w.chainOf)[c]| > 1 ==> AboardWhole(w.cnv, w.chainOf, old(w.chainOf)[c][1..])
    ensures RestLeft(w.cnv, w.chainOf, old(w.chainOf)[c])
    ensures Cared(old(w.cnv), old(w.chainOf)) ==> (Cared(w.cnv, w.chainOf) <==> |old(w.chainOf)[c]| == 1)
    ensures Alighted(old(w.cnv), old(w.chainOf), w.cnv, w.chainOf)
    ensures Elsewhere(old(w.cnv), old(w.chainOf), w.cnv, w.chainOf, self, old(w.chainOf)[c])
    ensures MapKept(old(w.cnv), old(w.chainOf), w.cnv, w.chainOf)
  {
    ghost var t, m := w.cnv, w.chainOf;
    ListedWalk(t, m, self, c);
    ghost var rest := m[c][1..];
    assert m[c] == [c] + rest;
    GoneIsLost(t, c);
    w.cnv := w.cnv[self := w.cnv[self].(shipped := Without(w.cnv[self].shipped, c))];
    w.cnv := w.cnv[c := w.cnv[c].(carrier := UNBOUND)];
    w.cnv := Gone(w.cnv, c);
    w.chainOf := Bereft(m, c, rest);
    LostFleet(t, m, w.cnv, w.chainOf, self, c, rest, L);
    LostAlighted(t, m, w.cnv, w.chainOf, self, c, rest);
    if Cared(t, m) { LostCared(t, m, w.cnv, w.chainOf, self, c, rest); }
    RestIsLeft(t, m, w.cnv, w.chainOf, c, rest);
    ElsewhereMapKept(t, m, w.cnv, w.chainOf, self, m[c]);
  }

  /** What the carrier finds at the halt, for each convoy aboard. */
  datatype Call = Call(
    canUnload: bool,               // its schedule allows to unload here
    unloadAll: bool,               // its schedule or its player has everything unloaded here
    destHere: Handle -> bool,      // this is the halt the convoy wants
    delivers: Handle -> bool,      // the trip goes on to the halt the convoy wants
    tileOk: Handle -> bool,        // the tile the convoy's schedule names belongs to this halt
    top: Handle -> nat,            // how many objects are on that tile
    depot: Handle -> bool)         // there is a depot for it
  {
    predicate Rides(c: Handle) {
      !(canUnload && destHere(c)) && !unloadAll && delivers(c)
    }
  }

  /** Whether c can be put ashore here at all, now or later. */
  predicate Landable(t: Table, call: Call, c: Handle)
    requires c in t
  {
    call.canUnload && call.tileOk(c) && |t[c].fahr| <= MAX_DISEMBARK_VEHICLES
  }

  /** Where c is once it was put ashore or has to wait for room on its tile: as much of its chain
      as a tile can hold goes with it, the rest stays aboard. */
  ghost predicate GotOff(t: Table, u: Table, m': Chains, cs: seq<Handle>, self: Handle, call: Call, c: Handle)
    requires c in m'
  {
    var A := m'[c];
    && c in u && A <= cs && Count(t, A) <= MAX_DISEMBARK_VEHICLES && |A| > 0 && A[0] == c
    && (|A| < |cs| ==> Count(t, cs[..|A| + 1]) > MAX_DISEMBARK_VEHICLES)
    && RestAboard(u, m', cs[|A|..], self)
    && if call.top(c) + Count(t, A) <= MAX_OBJECTS_ON_TILE then u[c].state == Loading && AshoreAll(t, u, A)
       else u[c].state == Shipped && u[c].carrier == self
  }

  /** Whoever the lost head of the chain pulled is a chain aboard nothing. */
  ghost predicate RestLeft(u: Table, m': Chains, cs: seq<Handle>) {
    |cs| > 0 && forall y :: y in cs[1..] ==>
      y in u && u[y].state.Shipped? && u[y].carrier == UNBOUND && y in m' && m'[y] == cs[1..]
  }

  lemma RestIsLeft(t: Table, m: Chains, u: Table, m': Chains, c: Handle, rest: seq<Handle>)
    requires Fleet(t, m) && AboardWhole(t, m, [c] + rest) && c in t && u == Lost(t, c) && m' == Bereft(m, c, rest)
    ensures RestLeft(u, m', [c] + rest)
  {
    AboardShipped(t, [c] + rest);
    assert ([c] + rest)[1..] == rest;
    forall y | y in rest
      ensures y in u && u[y].state.Shipped? && u[y].carrier == UNBOUND && y in m' && m'[y] == rest
    {
      OrphanSound(t, m, u, m', c, rest, y);
      assert y in [c] + rest && u[y].state == t[y].state;
    }
  }

  /** The depot's list only grows at its end, and whoever is new on it was not in a depot before. */
  ghost predicate ListGrown(t: Table, list: seq<Handle>, now: seq<Handle>) {
    && list <= now
    && forall x :: x in now && x !in list ==> x in t && !t[x].state.Initial?
  }

  lemma ListGrownTwice(t: Table, m: Chains, u: Table, m': Chains, list: seq<Handle>, next: seq<Handle>,
                       now: seq<Handle>)
    requires MapKept(t, m, u, m') && ListGrown(t, list, next) && ListGrown(u, next, now)
    ensures ListGrown(t, list, now)
  {
    forall x | x in now && x !in next
      ensures x in t && !t[x].state.Initial?
    {
      assert x in t ==> StaysAt(t, m, u, m', x);
    }
  }

  lemma {:induction false} ListGrownAll(t: Table, list: seq<Handle>, cs: seq<Handle>)
    requires forall x :: x in cs ==> x in t && !t[x].state.Initial?
    ensures ListGrown(t, list, AddedAll(list, cs))
  {
    AddedMembers(list, cs);
  }

  /** Where c is after the call: if it has to get off and can, it is loading at the halt or
      waits for room on its tile; if it cannot, it is in a depot, or lost if there is none. */
  ghost predicate Served(t: Table, m: Chains, u: Table, m': Chains, filed: seq<Handle>, self: Handle, call: Call,
                         c: Handle)
    requires c in t && c in m
  {
    var lands := Landable(t, call, c) && (call.destHere(c) || !call.depot(c));
    && (c in u ==> c in m' && |m'[c]| > 0 && m'[c][0] == c)
    && (call.Rides(c) ==> c in u && u[c] == t[c] && m'[c] == m[c])
    && (!call.Rides(c) && lands ==> c in u && c in m' && GotOff(t, u, m', m[c], self, call, c))
    && (!call.Rides(c) && !lands && call.depot(c) ==> c in u && u[c].state == Initial && c in filed && m'[c] == m[c])
    && (!call.Rides(c) && !lands && !call.depot(c) ==> c !in u && RestLeft(u, m', m[c]))
  }

  method TryToLand(w: Welt, self: Handle, c: Handle, call: Call, ghost L: nat) returns (ok: bool)
    requires w.Valid() && Stowed(w.cnv, w.chainOf, L) && self in w.cnv && c in w.cnv[self].shipped
    modifies w
    ensures w.Valid() && Stowed(w.cnv, w.chainOf, L) && c in old(w.cnv) && c in old(w.chainOf)
    ensures ok <==> call.tileOk(c) && |old(w.cnv)[c].fahr| <= MAX_DISEMBARK_VEHICLES
    ensures !ok ==> w.cnv == old(w.cnv) && w.chainOf == old(w.chainOf)
    ensures ok ==> c in w.chainOf && GotOff(old(w.cnv), w.cnv, w.chainOf, old(w.chainOf)[c], self, call, c)
    ensures Elsewhere(old(w.cnv), old(w.chainOf), w.cnv, w.chainOf, self, old(w.chainOf)[c])
    ensures Alighted(old(w.cnv), old(w.chainOf), w.cnv, w.chainOf) && w.cnv.Keys == old(w.cnv).Keys
    ensures MapKept(old(w.cnv), old(w.chainOf), w.cnv, w.chainOf)
  {
    var r;
    ghost var t, m, A, B := w.cnv, w.chainOf, [], [];
    ListedWalk(t, m, self, c);
    r, A, B := DisembarkConvoy(w, self, c, call.tileOk(c), call.top(c), L);
    ElsewhereMapKept(t, m, w.cnv, w.chainOf, self, m[c]);
    if r != Invalid {
      AtPrefix(w.cnv, w.chainOf, A, B);
    }
    return r != Invalid;
  }

  lemma KeptLists(t: Table, m: Chains, u: Table, m': Chains, list: seq<Handle>)
    requires MapKept(t, m, u, m')
    ensures Lists(t, m, list) ==> Lists(u, m', list)
  {
    if Lists(t, m, list) { ListsKept(t, m, u, m', list); }
  }

  lemma NothingMoved(t: Table, m: Chains)
    requires t.Keys == m.Keys
    ensures MapKept(t, m, t, m)
  {
  }

  lemma AtPrefix(t: Table, m: Chains, A: seq<Handle>, B: seq<Handle>)
    requires |A| > 0
    ensures A <= A + B && (A + B)[|A|..] == B && (|B| > 0 ==> (A + B)[..|A| + 1] == A + [B[0]])
    ensures AboardWhole(t, m, A) ==> A[0] in t && t[A[0]].state == Shipped
  {
    if AboardWhole(t, m, A) { AboardShipped(t, A); assert A[0] in A; }
  }

  /** Deals with a convoy that has to get off here but could not be put ashore as it wanted. */
  method RescueOne(w: Welt, dep: Depot, self: Handle, c: Handle, call: Call, ghost L: nat)
    requires w.Valid() && Stowed(w.cnv, w.chainOf, L) && self in w.cnv && c in w.cnv[self].shipped
    requires c in w.cnv && !call.Rides(c) && !(Landable(w.cnv, call, c) && call.destHere(c))
    modifies w, dep
    ensures w.Valid() && Stowed(w.cnv, w.chainOf, L) && c in old(w.chainOf)
    ensures Served(old(w.cnv), old(w.chainOf), w.cnv, w.chainOf, dep.convois, self, call, c)
    ensures Elsewhere(old(w.cnv), old(w.chainOf), w.cnv, w.chainOf, self, old(w.chainOf)[c])
    ensures ListGrown(old(w.cnv), old(dep.convois), dep.convois)
    ensures Alighted(old(w.cnv), old(w.chainOf), w.cnv, w.chainOf)
    ensures forall x :: x in old(w.cnv) && x != c ==> x in w.cnv
    ensures MapKept(old(w.cnv), old(w.chainOf), w.cnv, w.chainOf)
    ensures Lists(old(w.cnv), old(w.chainOf), old(dep.convois)) ==> Lists(w.cnv, w.chainOf, dep.convois)
  {
    ghost var t, m := w.cnv, w.chainOf;
    ListedWalk(t, m, self, c);
    AboardShipped(t, m[c]);
    var filed := SendToDepot(w, dep, self, c, call.depot(c), L);
    if filed {
      assert c in w.chainOf[c];
      return;
    }
    if call.canUnload {
      var ok := TryToLand(w, self, c, call, L);
      if ok {
        KeptLists(t, m, w.cnv, w.chainOf, dep.convois);
        return;
      }
    }
    GiveUp(w, self, c, L);
    KeptLists(t, m, w.cnv, w.chainOf, dep.convois);
  }

  /** Deals with one convoy aboard. */
  method ServeOne(w: Welt, dep: Depot, self: Handle, c: Handle, call: Call, ghost L: nat)
    requires w.Valid() && Stowed(w.cnv, w.chainOf, L) && self in w.cnv && c in w.cnv[self].shipped
    modifies w, dep
    ensures w.Valid() && Stowed(w.cnv, w.chainOf, L) && c in old(w.cnv) && c in old(w.chainOf)
    ensures Served(old(w.cnv), old(w.chainOf), w.cnv, w.chainOf, dep.convois, self, call, c)
    ensures Elsewhere(old(w.cnv), old(w.chainOf), w.cnv, w.chainOf, self, old(w.chainOf)[c])
    ensures ListGrown(old(w.cnv), old(dep.convois), dep.convois)
    ensures Alighted(old(w.cnv), old(w.chainOf), w.cnv, w.chainOf)
    ensures forall x :: x in old(w.cnv) && x != c ==> x in w.cnv
    ensures MapKept(old(w.cnv), old(w.chainOf), w.cnv, w.chainOf)
    ensures Lists(old(w.cnv), old(w.chainOf), old(dep.convois)) ==> Lists(w.cnv, w.chainOf, dep.convois)
  {
    ghost var t, m := w.cnv, w.chainOf;
    ListedWalk(t, m, self, c);
    NothingElsewhere(t, m, self, m[c]);
    NothingMoved(t, m);
    NobodyAlighted(t, m);
    var noLandingTile := false;
    if call.canUnload && call.destHere(c) {
      var ok := TryToLand(w, self, c, call, L);
      if ok {
        KeptLists(t, m, w.cnv, w.chainOf, dep.convois);
        return;
      }
      noLandingTile := true;
    }
    if !noLandingTile && !call.unloadAll && call.delivers(c) {
      return;
    }
    RescueOne(w, dep, self, c, call, L);
  }

  lemma {:induction false} CountKept(t: Table, u: Table, cs: seq<Handle>)
    requires forall x :: x in cs ==> x in t && x in u && u[x] == t[x]
    ensures Count(u, cs) == Count(t, cs)
  {
    if cs != [] {
      CountKept(t, u, cs[..|cs| - 1]);
      assert Last(cs) in cs;
    }
  }

  /** x and its chain are as they were. */
  ghost predicate Pending(t: Table, m: Chains, u: Table, m': Chains, x: Handle)
    requires x in m
  {
    && x in u && x in m' && m'[x] == m[x] && x in m[x] && |m[x]| > 0 && m[x][0] == x
    && forall y :: y in m[x] ==> y in t && y in u && u[y] == t[y]
  }

  lemma ServedFrom(t: Table, m: Chains, u: Table, m': Chains, v: Table, m'': Chains, filed: seq<Handle>, self: Handle,
                   call: Call, x: Handle)
    requires x in t && x in m && Pending(t, m, u, m', x) && Served(u, m', v, m'', filed, self, call, x)
    ensures Served(t, m, v, m'', filed, self, call, x)
  {
    if x in m'' && m''[x] <= m[x] {
      CountKept(t, u, m''[x]);
      if |m''[x]| < |m[x]| { CountKept(t, u, m[x][..|m''[x]| + 1]); }
      assert forall y :: y in m''[x] ==> y in m[x];
    }
  }

  lemma PendingKept(t: Table, m: Chains, u: Table, m': Chains, v: Table, m'': Chains, self: Handle, c: Handle,
                    x: Handle)
    requires x in m && Pending(t, m, u, m', x) && Fleet(u, m') && c in m' && x != c
    requires |m'[c]| > 0 && m'[c][0] == c && Elsewhere(u, m', v, m'', self, m'[c]) && self !in m[x]
    ensures Pending(t, m, v, m'', x)
  {
    assert Sound(u, m', c) && Sound(u, m', x);
    forall y | y in m[x]
      ensures y in v && v[y] == t[y]
    {
      assert y in m'[x] && m'[y] == m'[x];
    }
  }

  /** Whoever was dealt with stays where it is while the next convoy is dealt with. */
  lemma ServedKept(t: Table, m: Chains, u: Table, m': Chains, v: Table, m'': Chains, filed: seq<Handle>,
                   filed': seq<Handle>, self: Handle, call: Call, c: Handle, x: Handle)
    requires x in t && x in m && Served(t, m, u, m', filed, self, call, x) && Fleet(u, m') && c in m' && x != c
    requires x != self && self !in m[x] && c !in m[x] && t.Keys == m.Keys
    requires |m'[c]| > 0 && m'[c][0] == c && Elsewhere(u, m', v, m'', self, m'[c])
    requires forall y :: y in filed ==> y in filed'
    ensures Served(t, m, v, m'', filed', self, call, x)
  {
    if x in u {
      assert Sound(u, m', c) && Sound(u, m', x);
      if !call.Rides(x) && Landable(t, call, x) && (call.destHere(x) || !call.depot(x)) {
        GotOffKept(t, u, m', v, m'', m[x], self, call, c, x);
      }
    } else {
      RestLeftKept(u, m', v, m'', m[x], self, c);
    }
  }

  lemma RestLeftKept(u: Table, m': Chains, v: Table, m'': Chains, cs: seq<Handle>, self: Handle, c: Handle)
    requires RestLeft(u, m', cs) && Fleet(u, m') && c in m' && c !in cs && self !in cs
    requires |m'[c]| > 0 && m'[c][0] == c && Elsewhere(u, m', v, m'', self, m'[c])
    ensures RestLeft(v, m'', cs)
  {
    assert Sound(u, m', c);
    forall y | y in cs[1..]
      ensures y in cs && y !in m'[c] && y != self
    {
    }
  }

  lemma GotOffKept(t: Table, u: Table, m': Chains, v: Table, m'': Chains, cs: seq<Handle>, self: Handle, call: Call,
                   c: Handle, x: Handle)
    requires Fleet(u, m') && c in m' && x in m' && x != c && x != self && self !in cs && c !in cs
    requires |m'[c]| > 0 && m'[c][0] == c && Elsewhere(u, m', v, m'', self, m'[c])
    requires GotOff(t, u, m', cs, self, call, x)
    ensures x in m'' && GotOff(t, v, m'', cs, self, call, x)
  {
    var A := m'[x];
    var rest := cs[|A|..];
    assert Sound(u, m', c) && Sound(u, m', x);
    forall y | y in A
      ensures y in cs && y !in m'[c] && y != self
    {
    }
    forall y | y in rest
      ensures y in cs && (y in u && y in m' && m'[y] == rest ==> y !in m'[c])
    {
    }
    RestStays(u, m', v, m'', self, m'[c], rest);
  }

  /** Everything aboard from the n-th convoy of the list on was dealt with, nothing before it
      was touched. */
  ghost predicate Serving(t: Table, m: Chains, u: Table, m': Chains, filed: seq<Handle>, self: Handle, call: Call,
                          list: seq<Handle>, n: int) {
    && 0 <= n <= |list| && self in u && n <= |u[self].shipped| && u[self].shipped[..n] == list[..n]
    && (forall j {:trigger list[j]} :: 0 <= j < |list| ==>
            list[j] in t && list[j] in m && list[j] != self && self !in m[list[j]])
    && (forall j {:trigger list[j]} :: 0 <= j < n ==> Pending(t, m, u, m', list[j]))
    && (forall j {:trigger list[j]} :: n <= j < |list| ==> Served(t, m, u, m', filed, self, call, list[j]))
  }

  /** No convoy of the list is in the chain of another. */
  ghost predicate HeadsApart(m: Chains, list: seq<Handle>) {
    forall i, j :: 0 <= i < |list| && 0 <= j < |list| && i != j ==> list[j] in m && list[i] !in m[list[j]]
  }

  lemma ServingStep(t: Table, m: Chains, u: Table, m': Chains, v: Table, m'': Chains, filed: seq<Handle>,
                    filed': seq<Handle>, self: Handle, call: Call, list: seq<Handle>, n: nat)
    requires Serving(t, m, u, m', filed, self, call, list, n + 1) && n < |list| && Distinct(list) && Fleet(u, m')
    requires HeadsApart(m, list) && t.Keys == m.Keys
    requires list[n] in m' && list[n] in u && |m'[list[n]]| > 0 && m'[list[n]][0] == list[n]
    requires Served(u, m', v, m'', filed', self, call, list[n]) && Elsewhere(u, m', v, m'', self, m'[list[n]])
    requires forall y :: y in filed ==> y in filed'
    ensures Serving(t, m, v, m'', filed', self, call, list, n)
  {
    var c := list[n];
    assert u[self].shipped[..n] == u[self].shipped[..n + 1][..n] == list[..n];
    assert c !in u[self].shipped[..n];
    assert v[self].shipped[..n] == list[..n];
    ServedFrom(t, m, u, m', v, m'', filed', self, call, c);
    forall j | 0 <= j < n
      ensures Pending(t, m, v, m'', list[j])
    {
      PendingKept(t, m, u, m', v, m'', self, c, list[j]);
    }
    forall j | n <= j < |list|
      ensures Served(t, m, v, m'', filed', self, call, list[j])
    {
      if j != n { ServedKept(t, m, u, m', v, m'', filed, filed', self, call, c, list[j]); }
    }
  }

  lemma ServingFirst(t: Table, m: Chains, filed: seq<Handle>, self: Handle, call: Call)
    requires Fleet(t, m) && self in t
    ensures Serving(t, m, t, m, filed, self, call, t[self].shipped, |t[self].shipped|) && Distinct(t[self].shipped)
    ensures HeadsApart(m, t[self].shipped)
  {
    assert Sound(t, m, self);
    var list := t[self].shipped;
    assert list[..|list|] == list;
    forall j | 0 <= j < |list|
      ensures list[j] in t && list[j] in m && list[j] != self && self !in m[list[j]] && Pending(t, m, t, m, list[j])
    {
      ListedWalk(t, m, self, list[j]);
      assert Sound(t, m, list[j]);
    }
    forall i, j | 0 <= i < |list| && 0 <= j < |list| && i != j
      ensures list[j] in m && list[i] !in m[list[j]]
    {
      ListedWalk(t, m, self, list[j]);
      ListedWalk(t, m, self, list[i]);
      assert Sound(t, m, list[j]);
    }
  }

  ghost predicate AllServed(t: Table, m: Chains, u: Table, m': Chains, filed: seq<Handle>, self: Handle, call: Call)
    requires self in t
  {
    forall c :: c in t[self].shipped ==> c in t && c in m && Served(t, m, u, m', filed, self, call, c)
  }

  /** Every chain aboard that is longer than one convoy has a depot to go to. */
  ghost predicate Saveable(t: Table, m: Chains, self: Handle, depot: Handle -> bool)
    requires self in t
  {
    forall c :: c in t[self].shipped && c in m ==> depot(c) || |m[c]| == 1
  }

  /** Only convoys of the list were lost. */
  ghost predicate OnlyListedLost(t: Table, u: Table, list: seq<Handle>) {
    forall x :: x in t && x !in u ==> x in list
  }

  lemma ListedHeads(t: Table, m: Chains, u: Table, self: Handle)
    requires Fleet(t, m) && self in t && OnlyListedLost(t, u, t[self].shipped)
    ensures OnlyHeadsLost(t, m, u)
  {
    forall x | x in t && x !in u
      ensures x in m && t[x].state.Shipped? && |m[x]| > 0 && m[x][0] == x
    {
      assert Sound(t, m, self) && Sound(t, m, x);
    }
  }

  /** Nobody loses his carrier as long as nobody is lost who pulls others. */
  lemma SaveableCared(t: Table, m: Chains, u: Table, m': Chains, self: Handle, depot: Handle -> bool)
    requires Fleet(t, m) && self in t && Alighted(t, m, u, m') && OnlyListedLost(t, u, t[self].shipped)
    requires Saveable(t, m, self, depot) && forall x :: x in t && x !in u ==> !depot(x)
    ensures Cared(t, m) ==> Cared(u, m')
  {
    if Cared(t, m) {
      forall x | x in u
        ensures CaredAt(u, m', x)
      {
        assert OrphanAt(t, m, u, m', x) && CaredAt(t, m, x) && Sound(t, m, x);
      }
    }
  }

  /** What getting convoys off `self` does, whichever way: nobody is lost but heads on its list,
      nobody loses his carrier but those they pulled, and nobody else notices. */
  ghost predicate Unloaded(t: Table, m: Chains, u: Table, m': Chains, self: Handle, list: seq<Handle>) {
    && Alighted(t, m, u, m') && OnlyListedLost(t, u, list) && MapKept(t, m, u, m') && OthersKept(t, m, u, m', [self])
  }

  lemma UnloadedFirst(t: Table, m: Chains, self: Handle, list: seq<Handle>)
    requires t.Keys == m.Keys
    ensures Unloaded(t, m, t, m, self, list)
  {
    NothingMoved(t, m);
    NobodyAlighted(t, m);
    OthersKeptFirst(t, m, [self]);
  }

  /** One convoy of the list more. */
  lemma UnloadedNext(t: Table, m: Chains, u: Table, m': Chains, v: Table, m'': Chains, self: Handle, c: Handle,
                     list: seq<Handle>)
    requires Fleet(t, m) && Unloaded(t, m, u, m', self, list) && Fleet(u, m') && c in list
    requires self in t && t[self].shipped != [] && self in u && c in u[self].shipped && c in m'
    requires Elsewhere(u, m', v, m'', self, m'[c]) && Alighted(u, m', v, m'') && MapKept(u, m', v, m'')
    requires forall x :: x in u && x != c ==> x in v
    ensures Unloaded(t, m, v, m'', self, list)
  {
    ListedWalk(u, m', self, c);
    ElsewhereOthers(u, m', v, m'', self, m'[c]);
    assert Sound(t, m, self);
    OthersKeptTwice(t, m, u, m', v, m'', [self]);
    MapKeptTwice(t, m, u, m', v, m'');
    AlightedTwice(t, m, u, m', v, m'');
  }

  /** Deals with the i-th convoy of the list, after those behind it. */
  method ServeNext(w: Welt, dep: Depot, self: Handle, call: Call, i: nat, ghost t: Table, ghost m: Chains,
                   ghost list: seq<Handle>, ghost L: nat)
    requires w.Valid() && Stowed(w.cnv, w.chainOf, L) && Distinct(list) && i < |list| && HeadsApart(m, list)
    requires Fleet(t, m) && self in t && t[self].shipped == list
    requires Serving(t, m, w.cnv, w.chainOf, dep.convois, self, call, list, i + 1)
    requires Unloaded(t, m, w.cnv, w.chainOf, self, list)
    modifies w, dep
    ensures w.Valid() && Stowed(w.cnv, w.chainOf, L)
    ensures Serving(t, m, w.cnv, w.chainOf, dep.convois, self, call, list, i)
    ensures Unloaded(t, m, w.cnv, w.chainOf, self, list)
    ensures Lists(old(w.cnv), old(w.chainOf), old(dep.convois)) ==> Lists(w.cnv, w.chainOf, dep.convois)
    ensures ListGrown(old(w.cnv), old(dep.convois), dep.convois)
  {
    assert w.cnv[self].shipped[..i + 1][i] == list[i];
    var c := w.cnv[self].shipped[i];
    ghost var u, m', filed := w.cnv, w.chainOf, dep.convois;
    assert Pending(t, m, u, m', list[i]);
    ServeOne(w, dep, self, c, call, L);
    ServingStep(t, m, u, m', w.cnv, w.chainOf, filed, dep.convois, self, call, list, i);
    UnloadedNext(t, m, u, m', w.cnv, w.chainOf, self, c, list);
  }

  /** The first half of a call at a halt: everybody who has to get off gets off if that is
      possible at all, everybody else rides on. Nobody is lost but heads of chains aboard, and
      nobody but those they pulled is left aboard nothing. */
  method PutAllAshore(w: Welt, dep: Depot, self: Handle, call: Call, ghost L: nat)
    requires w.Valid() && Stowed(w.cnv, w.chainOf, L) && self in w.cnv
    modifies w, dep
    ensures w.Valid() && Stowed(w.cnv, w.chainOf, L) && self in w.cnv
    ensures AllServed(old(w.cnv), old(w.chainOf), w.cnv, w.chainOf, dep.convois, self, call)
    ensures Unloaded(old(w.cnv), old(w.chainOf), w.cnv, w.chainOf, self, old(w.cnv)[self].shipped)
    ensures Cared(old(w.cnv), old(w.chainOf)) && Saveable(old(w.cnv), old(w.chainOf), self, call.depot) ==>
              Cared(w.cnv, w.chainOf)
    ensures Lists(old(w.cnv), old(w.chainOf), old(dep.convois)) ==> Lists(w.cnv, w.chainOf, dep.convois)
    ensures ListGrown(old(w.cnv), old(dep.convois), dep.convois)
  {
    ghost var t, m, list := w.cnv, w.chainOf, w.cnv[self].shipped;
    ghost var listed, filed := Lists(t, m, dep.convois), dep.convois;
    UnloadedFirst(t, m, self, list);
    ServingFirst(t, m, dep.convois, self, call);
    var i := |w.cnv[self].shipped|;
    while i > 0
      invariant w.Valid() && Stowed(w.cnv, w.chainOf, L)
      invariant Serving(t, m, w.cnv, w.chainOf, dep.convois, self, call, list, i)
      invariant Unloaded(t, m, w.cnv, w.chainOf, self, list)
      invariant (listed ==> Lists(w.cnv, w.chainOf, dep.convois)) && ListGrown(t, filed, dep.convois)
    {
      i := i - 1;
      ghost var u, m', next := w.cnv, w.chainOf, dep.convois;
      ServeNext(w, dep, self, call, i, t, m, list, L);
      ListGrownTwice(t, m, u, m', filed, next, dep.convois);
    }
    ServedHome(t, m, w.cnv, w.chainOf, dep.convois, self, call, list);
    if Saveable(t, m, self, call.depot) { SaveableCared(t, m, w.cnv, w.chainOf, self, call.depot); }
  }

  /** Whoever was lost at the call had no depot. */
  lemma ServedHome(t: Table, m: Chains, u: Table, m': Chains, filed: seq<Handle>, self: Handle, call: Call,
                   list: seq<Handle>)
    requires Serving(t, m, u, m', filed, self, call, list, 0) && OnlyListedLost(t, u, list)
    ensures forall x :: x in t && x !in u ==> !call.depot(x)
  {
    forall x | x in t && x !in u
      ensures !call.depot(x)
    {
      var j :| 0 <= j < |list| && list[j] == x;
      assert Served(t, m, u, m', filed, self, call, list[j]);
    }
  }

  /** Taking a chain off its carrier's list, and then filing it. */
  lemma {:induction false} FiledForced(t: Table, m: Chains, v: Table, self: Handle, c: Handle, cs: seq<Handle>, L: nat)
    requires Fleet(t, m) && AboardWhole(t, m, cs) && |cs| > 0 && cs[0] == c && c in t && Stowed(t, m, L)
    requires self in t && self !in cs && t[c].carrier == self && Filing(Routed(Cleared(t, c), c), v, cs, |cs|)
    ensures Fleet(v, m) && Stowed(v, m, L) && InDepot(v, cs) && Elsewhere(t, m, v, m, self, cs)
    ensures c in v && v[c].state == Initial && v[self].shipped == Without(t[self].shipped, c)
    ensures Alighted(t, m, v, m) && v.Keys == t.Keys && CarriersKept(t, v)
  {
    FilingBuilds(Routed(Cleared(t, c), c), v, cs);
    FiledCleared(t, m, v, cs);
    FiledFleet(t, m, v, cs, L);
    ElsewhereReleased(t, m, v, self, cs);
    assert InDepotAt(v, cs, 0);
    IsListed(t, m, self, c);
    FiledAlighted(t, m, v, self, cs);
    FiledCarriers(t, m, v, self, cs);
  }

  /** Where a convoy is after its carrier had to get rid of it. */
  ghost predicate Forced(m: Chains, u: Table, m': Chains, filed: seq<Handle>, depot: Handle -> bool, c: Handle)
    requires c in m
  {
    if depot(c) then
      c in u && c in m' && u[c].state == Initial && c in filed && |m[c]| > 0 && m[c][0] == c && m'[c] == m[c]
    else c !in u && RestLeft(u, m', m[c])
  }

  /** The convoy at the front of the list, already taken off it, goes to a depot or is lost. */
  method FileOrLose(w: Welt, dep: Depot, self: Handle, c: Handle, found: bool, ghost t: Table, ghost cs: seq<Handle>,
                    ghost L: nat)
    requires Fleet(t, w.chainOf) && Stowed(t, w.chainOf, L) && AboardWhole(t, w.chainOf, cs) && |cs| > 0 && cs[0] == c
    requires c in t && self in t && self !in cs && t[c].carrier == self && w.cnv == Cleared(t, c)
    requires t[self].shipped != []
    modifies w, dep
    ensures w.Valid() && Stowed(w.cnv, w.chainOf, L) && Elsewhere(t, old(w.chainOf), w.cnv, w.chainOf, self, cs)
    ensures c in old(w.chainOf) && Forced(old(w.chainOf), w.cnv, w.chainOf, dep.convois, _ => found, c) && self in w.cnv
    ensures w.cnv[self].shipped == Without(t[self].shipped, c)
    ensures ListGrown(t, old(dep.convois), dep.convois)
    ensures Alighted(t, old(w.chainOf), w.cnv, w.chainOf) && CarriersKept(t, w.cnv)
    ensures forall x :: x in t && x != c ==> x in w.cnv
    ensures MapKept(t, old(w.chainOf), w.cnv, w.chainOf)
    ensures Lists(t, old(w.chainOf), old(dep.convois)) ==> Lists(w.cnv, w.chainOf, dep.convois)
  {
    ghost var m := w.chainOf;
    assert c in cs;
    ReadyAboard(t, m, cs, Routed(Cleared(t, c), c));
    var ok := TeleportToNearestDepot(w, dep, c, found, cs);
    if ok {
      FiledForced(t, m, w.cnv, self, c, cs, L);
      AddedMembers(old(dep.convois), cs);
      AboardShipped(t, cs);
      FiledListed(t, m, w.cnv, self, cs, old(dep.convois));
      assert c in cs;
      return;
    }
    GoneIsLost(t, c);
    w.cnv := Gone(w.cnv, c);
    w.chainOf := Bereft(m, c, cs[1..]);
    LostForced(t, m, w.cnv, w.chainOf, self, c, cs, dep.convois, L);
  }

  /** All that follows when there is no depot for it. */
  lemma LostForced(t: Table, m: Chains, u: Table, m': Chains, self: Handle, c: Handle, cs: seq<Handle>,
                   list: seq<Handle>, L: nat)
    requires Fleet(t, m) && AboardWhole(t, m, cs) && |cs| > 0 && cs[0] == c && c in t && Stowed(t, m, L)
    requires u == Lost(t, c) && m' == Bereft(m, c, cs[1..]) && self in t && t[c].carrier == self && self !in cs
    requires t[self].shipped != []
    ensures Fleet(u, m') && Stowed(u, m', L) && Elsewhere(t, m, u, m', self, cs)
    ensures Alighted(t, m, u, m') && CarriersKept(t, u)
    ensures MapKept(t, m, u, m') && (Lists(t, m, list) ==> Lists(u, m', list))
    ensures c !in u && RestLeft(u, m', cs)
  {
    var rest := cs[1..];
    assert cs == [c] + rest;
    LostFleet(t, m, u, m', self, c, rest, L);
    RestIsLeft(t, m, u, m', c, rest);
    LostAlighted(t, m, u, m', self, c, rest);
    ElsewhereMapKept(t, m, u, m', self, cs);
    KeptLists(t, m, u, m', list);
  }

  /** Gets the first convoy of the list off, into a depot if there is one for it. */
  method ForceFirst(w: Welt, dep: Depot, self: Handle, depot: Handle -> bool, ghost L: nat) returns (c: Handle)
    requires w.Valid() && Stowed(w.cnv, w.chainOf, L) && self in w.cnv && w.cnv[self].shipped != []
    modifies w, dep
    ensures w.Valid() && Stowed(w.cnv, w.chainOf, L) && self in w.cnv
    ensures c == old(w.cnv)[self].shipped[0] && c in old(w.cnv) && c in old(w.chainOf) && |old(w.chainOf)[c]| > 0
    ensures old(w.chainOf)[c][0] == c
    ensures Elsewhere(old(w.cnv), old(w.chainOf), w.cnv, w.chainOf, self, old(w.chainOf)[c])
    ensures Forced(old(w.chainOf), w.cnv, w.chainOf, dep.convois, depot, c)
    ensures ListGrown(old(w.cnv), old(dep.convois), dep.convois)
    ensures w.cnv[self].shipped == old(w.cnv)[self].shipped[1..]
    ensures Alighted(old(w.cnv), old(w.chainOf), w.cnv, w.chainOf) && CarriersKept(old(w.cnv), w.cnv)
    ensures forall x :: x in old(w.cnv) && x != c ==> x in w.cnv
    ensures MapKept(old(w.cnv), old(w.chainOf), w.cnv, w.chainOf)
    ensures Lists(old(w.cnv), old(w.chainOf), old(dep.convois)) ==> Lists(w.cnv, w.chainOf, dep.convois)
  {
    ghost var t := w.cnv;
    c := w.cnv[self].shipped[0];
    ListedWalk(t, w.chainOf, self, c);
    w.cnv := w.cnv[self := w.cnv[self].(shipped := w.cnv[self].shipped[1..])];
    w.cnv := w.cnv[c := w.cnv[c].(carrier := UNBOUND)];
    assert w.cnv == Cleared(t, c);
    FileOrLose(w, dep, self, c, depot(c), t, w.chainOf[c], L);
  }

  lemma ForcedKept(m0: Chains, t: Table, m: Chains, u: Table, m': Chains, filed: seq<Handle>, filed': seq<Handle>,
                   self: Handle, depot: Handle -> bool, c: Handle, x: Handle)
    requires x in m0 && Forced(m0, t, m, filed, depot, x) && Fleet(t, m) && c in m && x != c && x != self
    requires c !in m0[x] && self !in m0[x]
    requires |m[c]| > 0 && m[c][0] == c && Elsewhere(t, m, u, m', self, m[c])
    requires forall y :: y in filed ==> y in filed'
    ensures Forced(m0, u, m', filed', depot, x)
  {
    if x in t {
      assert Sound(t, m, c) && Sound(t, m, x);
    } else {
      RestLeftKept(t, m, u, m', m0[x], self, c);
    }
  }

  /** The first n convoys of the list are off, the others are as they were. */
  ghost predicate Forcing(t: Table, m: Chains, u: Table, m': Chains, filed: seq<Handle>, self: Handle,
                          depot: Handle -> bool, list: seq<Handle>, n: int) {
    && 0 <= n <= |list| && self in u && u[self].shipped == list[n..]
    && (forall j {:trigger list[j]} :: 0 <= j < |list| ==>
            list[j] in t && list[j] in m && list[j] != self && self !in m[list[j]])
    && (forall j {:trigger list[j]} :: 0 <= j < n ==> Forced(m, u, m', filed, depot, list[j]))
    && (forall j {:trigger list[j]} :: n <= j < |list| ==> Pending(t, m, u, m', list[j]))
  }

  lemma ForcingStep(t: Table, m: Chains, u: Table, m': Chains, v: Table, m'': Chains, filed: seq<Handle>,
                    filed': seq<Handle>, self: Handle, depot: Handle -> bool, list: seq<Handle>, n: nat)
    requires Forcing(t, m, u, m', filed, self, depot, list, n) && n < |list| && Distinct(list) && Fleet(u, m')
    requires HeadsApart(m, list)
    requires list[n] in m' && |m'[list[n]]| > 0 && m'[list[n]][0] == list[n]
    requires Elsewhere(u, m', v, m'', self, m'[list[n]])
    requires Forced(m', v, m'', filed', depot, list[n]) && v[self].shipped == u[self].shipped[1..]
    requires forall y :: y in filed ==> y in filed'
    ensures Forcing(t, m, v, m'', filed', self, depot, list, n + 1)
  {
    var c, k := list[n], n + 1;
    assert Pending(t, m, u, m', c);
    forall j | 0 <= j < n
      ensures Forced(m, v, m'', filed', depot, list[j])
    {
      ForcedKept(m, u, m', v, m'', filed, filed', self, depot, c, list[j]);
    }
    forall j | k <= j < |list|
      ensures Pending(t, m, v, m'', list[j])
    {
      PendingKept(t, m, u, m', v, m'', self, c, list[j]);
    }
  }

  /** Whoever was lost had no depot. */
  lemma ForcedHome(t: Table, m: Chains, u: Table, m': Chains, filed: seq<Handle>, self: Handle, depot: Handle -> bool,
                   list: seq<Handle>)
    requires Forcing(t, m, u, m', filed, self, depot, list, |list|) && OnlyListedLost(t, u, list)
    ensures forall x :: x in t && x !in u ==> !depot(x)
  {
    forall x | x in t && x !in u
      ensures !depot(x)
    {
      var j :| 0 <= j < |list| && list[j] == x;
      assert Forced(m, u, m', filed, depot, list[j]);
    }
  }

  /** Gets the n-th convoy of the list off. */
  method ForceNext(w: Welt, dep: Depot, self: Handle, depot: Handle -> bool, ghost n: nat, ghost t: Table,
                   ghost m: Chains, ghost list: seq<Handle>, ghost L: nat)
    requires w.Valid() && Stowed(w.cnv, w.chainOf, L) && Distinct(list) && n < |list| && HeadsApart(m, list)
    requires Fleet(t, m) && self in t && t[self].shipped == list
    requires Forcing(t, m, w.cnv, w.chainOf, dep.convois, self, depot, list, n)
    requires Unloaded(t, m, w.cnv, w.chainOf, self, list) && CarriersKept(t, w.cnv)
    modifies w, dep
    ensures w.Valid() && Stowed(w.cnv, w.chainOf, L)
    ensures Forcing(t, m, w.cnv, w.chainOf, dep.convois, self, depot, list, n + 1)
    ensures Unloaded(t, m, w.cnv, w.chainOf, self, list) && CarriersKept(t, w.cnv)
    ensures Lists(old(w.cnv), old(w.chainOf), old(dep.convois)) ==> Lists(w.cnv, w.chainOf, dep.convois)
    ensures ListGrown(old(w.cnv), old(dep.convois), dep.convois)
  {
    ghost var u, m', filed := w.cnv, w.chainOf, dep.convois;
    assert list[n..][0] == list[n] && Pending(t, m, u, m', list[n]);
    var c := ForceFirst(w, dep, self, depot, L);
    ForcingStep(t, m, u, m', w.cnv, w.chainOf, filed, dep.convois, self, depot, list, n);
    UnloadedNext(t, m, u, m', w.cnv, w.chainOf, self, c, list);
  }

  /** A carrier that vanishes gets rid of everything aboard, one after the other. */
  method DisembarkAllForced(w: Welt, dep: Depot, self: Handle, depot: Handle -> bool, ghost L: nat)
    requires w.Valid() && Stowed(w.cnv, w.chainOf, L) && self in w.cnv
    modifies w, dep
    ensures w.Valid() && Stowed(w.cnv, w.chainOf, L) && self in w.cnv && w.cnv[self].shipped == []
    ensures forall c :: c in old(w.cnv)[self].shipped ==>
              c in old(w.chainOf) && Forced(old(w.chainOf), w.cnv, w.chainOf, dep.convois, depot, c)
    ensures Unloaded(old(w.cnv), old(w.chainOf), w.cnv, w.chainOf, self, old(w.cnv)[self].shipped)
    ensures CarriersKept(old(w.cnv), w.cnv)
    ensures Cared(old(w.cnv), old(w.chainOf)) && Saveable(old(w.cnv), old(w.chainOf), self, depot) ==>
              Cared(w.cnv, w.chainOf)
    ensures Lists(old(w.cnv), old(w.chainOf), old(dep.convois)) ==> Lists(w.cnv, w.chainOf, dep.convois)
    ensures ListGrown(old(w.cnv), old(dep.convois), dep.convois)
  {
    ghost var t, m, list, n := w.cnv, w.chainOf, w.cnv[self].shipped, 0;
    ghost var listed, filed := Lists(t, m, dep.convois), dep.convois;
    UnloadedFirst(t, m, self, list);
    ServingFirst(t, m, dep.convois, self, Call(true, true, depot, depot, depot, _ => 0, depot));
    ForcingFirst(t, m, dep.convois, self, depot, list);
    while w.cnv[self].shipped != []
      invariant w.Valid() && Stowed(w.cnv, w.chainOf, L)
      invariant Forcing(t, m, w.cnv, w.chainOf, dep.convois, self, depot, list, n)
      invariant Unloaded(t, m, w.cnv, w.chainOf, self, list) && CarriersKept(t, w.cnv)
      invariant (listed ==> Lists(w.cnv, w.chainOf, dep.convois)) && ListGrown(t, filed, dep.convois)
      decreases |list| - n
    {
      ghost var u, m', next := w.cnv, w.chainOf, dep.convois;
      ForceNext(w, dep, self, depot, n, t, m, list, L);
      ListGrownTwice(t, m, u, m', filed, next, dep.convois);
      n := n + 1;
    }
    ForcedHome(t, m, w.cnv, w.chainOf, dep.convois, self, depot, list);
    if Saveable(t, m, self, depot) { SaveableCared(t, m, w.cnv, w.chainOf, self, depot); }
  }

  lemma ForcingFirst(t: Table, m: Chains, filed: seq<Handle>, self: Handle, depot: Handle -> bool, list: seq<Handle>)
    requires self in t && list == t[self].shipped
    requires Serving(t, m, t, m, filed, self, Call(true, true, depot, depot, depot, _ => 0, depot), list, |list|)
    ensures Forcing(t, m, t, m, filed, self, depot, list, 0)
  {
    assert list[0..] == list;
  }

  lemma OrphanMapKept(t: Table, m: Chains, u: Table, m': Chains, cs: seq<Handle>)
    requires Fleet(t, m) && AboardWhole(t, m, cs)
    requires u.Keys <= t.Keys && forall x :: x in t && x !in cs ==> x in u && x in m' && u[x] == t[x] && m'[x] == m[x]
    ensures MapKept(t, m, u, m') && OthersKept(t, m, u, m', cs)
  {
    AboardShipped(t, cs);
    forall x | x in t
      ensures StaysAt(t, m, u, m', x)
    {
      assert x in cs ==> t[x].state.Shipped?;
    }
  }

  /** The repair of a chain aboard nothing touches nobody else aboard. */
  lemma OrphanAlighted(t: Table, m: Chains, u: Table, m': Chains, cs: seq<Handle>)
    requires Fleet(t, m) && AboardWhole(t, m, cs) && cs[0] in t && t[cs[0]].carrier == UNBOUND && u.Keys == m'.Keys
    requires u.Keys <= t.Keys
    requires forall x :: x in t && x !in cs ==>
              x in u && x in m' && m'[x] == m[x] && u[x].state == t[x].state && u[x].carrier == t[x].carrier
    requires forall x :: x in cs && x in u ==> forall y :: y in m'[x] ==> y in cs
    ensures Alighted(t, m, u, m')
  {
    AboardShipped(t, cs);
    forall x | x in u
      ensures OrphanAt(t, m, u, m', x)
    {
      assert Sound(t, m, x);
      if x in cs {
        assert !CaredAt(t, m, x);
      } else if t[x].state.Shipped? {
        HeadAboard(t, m, x);
        assert m[x][0] in m[x] && m[m[x][0]] == m[x];
      }
    }
  }

  lemma OrphanFiled(t: Table, m: Chains, u: Table, c: Handle, cs: seq<Handle>, L: nat)
    requires Fleet(t, m) && AboardWhole(t, m, cs) && |cs| > 0 && cs[0] == c && c in t && t[c].carrier == UNBOUND
    requires Stowed(t, m, L) && Filing(Routed(t, c), u, cs, |cs|)
    ensures Fleet(u, m) && Stowed(u, m, L) && InDepot(u, cs) && u.Keys == t.Keys
    ensures forall x :: x in t && x !in cs ==> u[x] == t[x]
  {
    assert Cleared(t, c) == t;
    FiledCleared(t, m, u, cs);
    FilingBuilds(Routed(t, c), u, cs);
    FiledFleet(t, m, u, cs, L);
  }

  /** All that follows when there is a depot for a chain aboard nothing. */
  lemma {:induction false} OrphanFiledWell(t: Table, m: Chains, u: Table, c: Handle, cs: seq<Handle>, list: seq<Handle>,
                                         L: nat)
    requires Fleet(t, m) && AboardWhole(t, m, cs) && |cs| > 0 && cs[0] == c && c in t && t[c].carrier == UNBOUND
    requires Stowed(t, m, L) && Filing(Routed(t, c), u, cs, |cs|)
    ensures Fleet(u, m) && Stowed(u, m, L) && InDepot(u, cs) && u.Keys == t.Keys
    ensures Alighted(t, m, u, m) && OthersKept(t, m, u, m, cs) && MapKept(t, m, u, m)
    ensures ListGrown(t, list, AddedAll(list, cs)) && forall x :: x in cs ==> x in AddedAll(list, cs)
    ensures Lists(t, m, list) ==> Lists(u, m, AddedAll(list, cs))
  {
    OrphanFiled(t, m, u, c, cs, L);
    OrphanMapKept(t, m, u, m, cs);
    OrphanAlighted(t, m, u, m, cs);
    AboardShipped(t, cs);
    AddedMembers(list, cs);
    if Lists(t, m, list) {
      ListsKept(t, m, u, m, list);
      ListsAdded(u, m, list, cs);
    }
  }

  /** A chain aboard nothing goes to a depot; if there is none for it, its head is lost, and
      the turn of the next convoy comes in its own step. */
  method RepairOrphan(w: Welt, dep: Depot, c: Handle, found: bool, ghost cs: seq<Handle>, ghost L: nat)
    requires w.Valid() && AboardWhole(w.cnv, w.chainOf, cs) && cs[0] == c && c in w.cnv && w.cnv[c].carrier == UNBOUND
    requires Stowed(w.cnv, w.chainOf, L)
    modifies w, dep
    ensures w.Valid() && Stowed(w.cnv, w.chainOf, L)
    ensures found ==> InDepot(w.cnv, cs) && w.cnv.Keys == old(w.cnv).Keys && w.chainOf == old(w.chainOf)
    ensures found ==> forall x :: x in cs ==> x in dep.convois
    ensures !found ==> dep.convois == old(dep.convois)
    ensures ListGrown(old(w.cnv), old(dep.convois), dep.convois)
    ensures !found ==> w.cnv == Lost(old(w.cnv), c) && (|cs| > 1 ==> AboardWhole(w.cnv, w.chainOf, cs[1..]))
    ensures Alighted(old(w.cnv), old(w.chainOf), w.cnv, w.chainOf)
    ensures OthersKept(old(w.cnv), old(w.chainOf), w.cnv, w.chainOf, cs)
    ensures MapKept(old(w.cnv), old(w.chainOf), w.cnv, w.chainOf)
    ensures Lists(old(w.cnv), old(w.chainOf), old(dep.convois)) ==> Lists(w.cnv, w.chainOf, dep.convois)
  {
    ghost var t, m, rest := w.cnv, w.chainOf, cs[1..];
    assert cs == [c] + rest;
    assert Cleared(t, c) == t;
    ReadyAboard(t, m, cs, Routed(t, c));
    var ok := TeleportToNearestDepot(w, dep, c, found, cs);
    if ok {
      OrphanFiledWell(t, m, w.cnv, c, cs, old(dep.convois), L);
      return;
    }
    GoneIsLost(t, c);
    w.cnv := Gone(w.cnv, c);
    w.chainOf := Bereft(m, c, rest);
    FleetLost(t, m, w.cnv, w.chainOf, c, rest);
    StowedLost(t, m, w.cnv, w.chainOf, c, rest, L);
    OrphanMapKept(t, m, w.cnv, w.chainOf, cs);
    OrphanAlighted(t, m, w.cnv, w.chainOf, cs);
    KeptLists(t, m, w.cnv, w.chainOf, dep.convois);
  }
}
