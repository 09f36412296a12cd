/** The events that may happen to coupled, carried and filed convoys, each with all that it
    does. An event that its caller would not ask for, because the states do not allow it, does
    nothing. */
module Events {
  import opened Vehicles
  import opened Convois
  import opened Coupling
  import opened NextStop
  import opened Journeys
  import opened Depots
  import opened Shipping
  import opened Orphans
  import opened Deck
  import opened Carriers
  import opened Landing
  import opened Rescue
  import opened Visits

  /** Boarding gives the whole chain a carrier and takes nobody his own. */
  lemma BoardedExplained(t: Table, m: Chains, self: Handle, c: Handle, cs: seq<Handle>)
    requires Fleet(t, m) && Whole(t, m, cs) && cs[0] == c && c in t && self in t && self !in cs && self != UNBOUND
    ensures Explained(t, m, Boarded(t, self, c, cs), m)
  {
    var u := Boarded(t, self, c, cs);
    assert c in cs;
    forall x | x in u
      ensures OrphanAt(t, m, u, m, x)
    {
      assert Sound(t, m, x);
      if x in cs {
        NotAboard(t, cs, x);
      } else if t[x].state.Shipped? {
        HeadAboard(t, m, x);
        assert m[x][0] in m[x] && m[m[x][0]] == m[x];
      }
    }
  }

  predicate OnTheMap(t: Table, c: Handle) {
    c in t && !t[c].state.Shipped? && !t[c].state.Initial?
  }

  predicate Heads(t: Table, c: Handle) { OnTheMap(t, c) && t[c].state.Drives() }

  lemma OnMapChain(t: Table, m: Chains, x: Handle, L: nat) returns (k: nat)
    requires Fleet(t, m) && OnTheMap(t, x) && Stowed(t, m, L)
    ensures x in m && Whole(t, m, m[x]) && k < |m[x]| && m[x][k] == x && Uniform(t, m[x])
    ensures Heads(t, x) <==> k == 0
    ensures forall y :: y in m[x] ==> y in t && !t[y].state.Shipped? && !t[y].state.Initial?
  {
    k := ChainOf(t, m, x);
    assert UniformAt(t, m, x);
    forall y | y in m[x]
      ensures y in t && !t[y].state.Shipped? && !t[y].state.Initial?
    {
      NotAboard(t, m[x], y);
    }
  }

  lemma TailIs(t: Table, cs: seq<Handle>, k: nat)
    requires OnMap(t, cs) && k < |cs| && cs[k] in t
    ensures t[cs[k]].coupling !in t <==> k == |cs| - 1
  {
    assert OnMapAt(t, cs, k);
    if k + 1 < |cs| { assert OnMapAt(t, cs, k + 1); }
  }

  lemma AllNotAboard(t: Table, cs: seq<Handle>)
    requires OnMap(t, cs)
    ensures forall x :: x in cs ==> x in t && !t[x].state.Shipped?
  {
    forall x | x in cs
      ensures x in t && !t[x].state.Shipped?
    {
      NotAboard(t, cs, x);
    }
  }

  lemma UniformJoined(t: Table, A: seq<Handle>, B: seq<Handle>, a: Handle, b: Handle)
    requires Uniform(t, A) && Uniform(t, B) && a in A && b in B && a in t && b in t
    requires t[a].build.good == t[b].build.good
    ensures Uniform(t, A + B)
  {
  }

  lemma CoupledStowed(t: Table, m: Chains, u: Table, m': Chains, A: seq<Handle>, B: seq<Handle>, L: nat)
    requires Fleet(t, m) && Stowed(t, m, L) && Whole(t, m, A) && Whole(t, m, B) && Uniform(t, A + B)
    requires ElseKept(t, m, u, m', A + B) && LoadsKept(t, u) && Whole(u, m', A + B)
    ensures Stowed(u, m', L)
    ensures forall x :: x in A + B ==> x in t && x in u && !t[x].state.Shipped? && !u[x].state.Shipped?
  {
    AllNotAboard(u, A + B);
    AllNotAboard(t, A);
    AllNotAboard(t, B);
    assert forall x :: x in A + B ==> x in A || x in B;
    LoadsHold(t, u);
    StowedOnMap(t, m, u, m', A + B, L);
  }

  /** a ends one chain on the map, and b begins another of the same kind. */
  ghost predicate MayCouple(t: Table, m: Chains, a: Handle, b: Handle) {
    && OnTheMap(t, a) && Heads(t, b) && a in m && b in m && |m[b]| > 0 && m[b][0] == b && m[a] != m[b]
    && t[a].coupling !in t && t[a].build.good == t[b].build.good
  }

  ghost predicate DidCouple(t: Table, m: Chains, u: Table, m': Chains, a: Handle, b: Handle, running: bool) {
    if MayCouple(t, m, a, b) then
      && u == CoupledWith(t, a, m[b], running) && CouplingStates(t, u, a, m[b], running)
      && Whole(u, m', m[a] + m[b]) && ElseKept(t, m, u, m', m[a] + m[b])
    else u == t && m' == m
  }

  method CoupleThem(w: Welt, dep: Depot, a: Handle, b: Handle, running: bool, ghost L: nat)
    requires w.Valid() && Stowed(w.cnv, w.chainOf, L) && Lists(w.cnv, w.chainOf, dep.convois)
    modifies w
    ensures w.Valid() && Stowed(w.cnv, w.chainOf, L) && Lists(w.cnv, w.chainOf, dep.convois)
    ensures Accounted(old(w.cnv), old(w.chainOf), w.cnv, w.chainOf)
    ensures Cared(old(w.cnv), old(w.chainOf)) ==> Cared(w.cnv, w.chainOf)
    ensures DidCouple(old(w.cnv), old(w.chainOf), w.cnv, w.chainOf, a, b, running)
  {
    ghost var t, m := w.cnv, w.chainOf;
    NobodyAlighted(t, m);
    if !OnTheMap(w.cnv, a) || !OnTheMap(w.cnv, b) || !w.cnv[b].state.Drives() || w.cnv[a].coupling in w.cnv
       || w.cnv[a].build.good != w.cnv[b].build.good {
      return;
    }
    ghost var i := OnMapChain(t, m, a, L);
    ghost var j := OnMapChain(t, m, b, L);
    ghost var A, B := m[a], m[b];
    var head := w.GetMostParent(a, A, i);
    if head == b {
      assert A[0] in A && m[b] == A;
      return;
    }
    TailIs(t, A, i);
    UniformJoined(t, A, B, a, b);
    w.Couple(a, b, running, A, B);
    CoupledStowed(t, m, w.cnv, w.chainOf, A, B, L);
    ListsOnMap(t, m, w.cnv, w.chainOf, A + B, dep.convois);
    AboardUntouched(t, m, w.cnv, w.chainOf, A + B);
  }

  lemma SplitStowed(t: Table, m: Chains, u: Table, m': Chains, A: seq<Handle>, B: seq<Handle>, L: nat)
    requires Fleet(t, m) && Stowed(t, m, L) && Whole(t, m, A + B) && Uniform(t, A + B)
    requires ElseKept(t, m, u, m', A + B) && LoadsKept(t, u) && Whole(u, m', A) && Whole(u, m', B)
    ensures Stowed(u, m', L)
    ensures forall x :: x in A + B ==> x in t && x in u && !t[x].state.Shipped? && !u[x].state.Shipped?
  {
    AllNotAboard(u, A);
    AllNotAboard(u, B);
    AllNotAboard(t, A + B);
    forall x | x in A + B && x in m'
      ensures forall y :: y in m'[x] ==> y in A + B
    {
      assert x in A || x in B;
    }
    LoadsHold(t, u);
    StowedOnMap(t, m, u, m', A + B, L);
  }

  ghost predicate DidUncouple(t: Table, m: Chains, u: Table, m': Chains, a: Handle) {
    if OnTheMap(t, a) && t[a].coupling in t then
      var b := t[a].coupling;
      && u == Cut(t, a) && a in m && a in m' && b in m' && m'[a] + m'[b] == m[a]
      && Whole(u, m', m'[a]) && Whole(u, m', m'[b]) && ElseKept(t, m, u, m', m[a])
    else u == t && m' == m
  }

  method UncoupleThem(w: Welt, dep: Depot, a: Handle, ghost L: nat)
    requires w.Valid() && Stowed(w.cnv, w.chainOf, L) && Lists(w.cnv, w.chainOf, dep.convois)
    modifies w
    ensures w.Valid() && Stowed(w.cnv, w.chainOf, L) && Lists(w.cnv, w.chainOf, dep.convois)
    ensures Accounted(old(w.cnv), old(w.chainOf), w.cnv, w.chainOf)
    ensures Cared(old(w.cnv), old(w.chainOf)) ==> Cared(w.cnv, w.chainOf)
    ensures DidUncouple(old(w.cnv), old(w.chainOf), w.cnv, w.chainOf, a)
  {
    ghost var t, m := w.cnv, w.chainOf;
    NobodyAlighted(t, m);
    if !OnTheMap(w.cnv, a) || w.cnv[a].coupling !in w.cnv {
      return;
    }
    ghost var k := OnMapChain(t, m, a, L);
    TailIs(t, m[a], k);
    ghost var A, B := m[a][..k + 1], m[a][k + 1..];
    assert m[a] == A + B && OnMapAt(t, m[a], k);
    var b := w.Uncouple(a, A, B);
    assert a in A && b in B && b == t[a].coupling;
    SplitStowed(t, m, w.cnv, w.chainOf, A, B, L);
    ListsOnMap(t, m, w.cnv, w.chainOf, A + B, dep.convois);
    AboardUntouched(t, m, w.cnv, w.chainOf, A + B);
  }

  ghost predicate DidTurnRound(t: Table, m: Chains, u: Table, m': Chains, a: Handle) {
    if Heads(t, a) then
      a in m && Whole(u, m', Reversed(m[a])) && TurnedRound(t, u, m[a]) && ElseKept(t, m, u, m', m[a])
    else u == t && m' == m
  }

  method TurnThemRound(w: Welt, dep: Depot, a: Handle, ghost L: nat)
    requires w.Valid() && Stowed(w.cnv, w.chainOf, L) && Lists(w.cnv, w.chainOf, dep.convois)
    modifies w
    ensures w.Valid() && Stowed(w.cnv, w.chainOf, L) && Lists(w.cnv, w.chainOf, dep.convois)
    ensures Accounted(old(w.cnv), old(w.chainOf), w.cnv, w.chainOf)
    ensures Cared(old(w.cnv), old(w.chainOf)) ==> Cared(w.cnv, w.chainOf)
    ensures DidTurnRound(old(w.cnv), old(w.chainOf), w.cnv, w.chainOf, a)
  {
    ghost var t, m := w.cnv, w.chainOf;
    NobodyAlighted(t, m);
    if !OnTheMap(w.cnv, a) || !w.cnv[a].state.Drives() {
      return;
    }
    ghost var k := OnMapChain(t, m, a, L);
    ghost var cs := m[a];
    w.ReverseConvoyCoupling(a, cs);
    ReversedMembers(cs);
    LoadsHold(t, w.cnv);
    StowedOnMap(t, m, w.cnv, w.chainOf, cs, L);
    AllNotAboard(w.cnv, Reversed(cs));
    ListsOnMap(t, m, w.cnv, w.chainOf, cs, dep.convois);
    AboardUntouched(t, m, w.cnv, w.chainOf, cs);
  }

  ghost predicate DidTurn(t: Table, m: Chains, u: Table, m': Chains, c: Handle) {
    m' == m && u == if OnTheMap(t, c) then TurnedOver(t, c) else t
  }

  /** A convoy turns its vehicles round where it stands. */
  method TurnIt(w: Welt, dep: Depot, c: Handle, ghost L: nat)
    requires w.Valid() && Stowed(w.cnv, w.chainOf, L) && Lists(w.cnv, w.chainOf, dep.convois)
    modifies w
    ensures w.Valid() && Stowed(w.cnv, w.chainOf, L) && Lists(w.cnv, w.chainOf, dep.convois)
    ensures Accounted(old(w.cnv), old(w.chainOf), w.cnv, w.chainOf)
    ensures Cared(old(w.cnv), old(w.chainOf)) ==> Cared(w.cnv, w.chainOf)
    ensures DidTurn(old(w.cnv), old(w.chainOf), w.cnv, w.chainOf, c)
  {
    ghost var t, m := w.cnv, w.chainOf;
    NobodyAlighted(t, m);
    if !OnTheMap(w.cnv, c) {
      return;
    }
    ghost var k := OnMapChain(t, m, c, L);
    ghost var cs := m[c];
    w.ReverseVehiclesAtHalt(c, cs, k);
    StowedOnMap(t, m, w.cnv, m, cs, L);
    AllNotAboard(w.cnv, cs);
    ListsOnMap(t, m, w.cnv, m, cs, dep.convois);
    AboardUntouched(t, m, w.cnv, m, cs);
  }

  lemma PartedStowed(t: Table, m: Chains, u: Table, m': Chains, cs: seq<Handle>, keeps: Handle -> bool, L: nat)
    requires Fleet(t, m) && Stowed(t, m, L) && Whole(t, m, cs) && Uniform(t, cs)
    requires ElseKept(t, m, u, m', cs) && LoadsKept(t, u)
    requires forall j :: 0 <= j < |cs| ==> LeftAt(t, u, m', cs, keeps, j)
    ensures Stowed(u, m', L) && forall x :: x in cs ==> x in t && x in u && !t[x].state.Shipped? && !u[x].state.Shipped?
  {
    AllNotAboard(t, cs);
    forall x | x in cs
      ensures x in u && !u[x].state.Shipped?
    {
      var j :| 0 <= j < |cs| && cs[j] == x;
      assert LeftAt(t, u, m', cs, keeps, j);
      NotAboard(u, Part(cs, keeps, j), x);
    }
    forall x | x in cs && x in m'
      ensures forall y :: y in m'[x] ==> y in cs
    {
      var j :| 0 <= j < |cs| && cs[j] == x;
      assert LeftAt(t, u, m', cs, keeps, j);
    }
    LoadsHold(t, u);
    StowedOnMap(t, m, u, m', cs, L);
  }

  ghost predicate DidDepart(t: Table, m: Chains, u: Table, m': Chains, a: Handle, keeps: Handle -> bool) {
    if Heads(t, a) then
      && a in m && LoadsKept(t, u) && ElseKept(t, m, u, m', m[a])
      && forall j {:trigger LeftAt(t, u, m', m[a], keeps, j)} :: 0 <= j < |m[a]| ==> LeftAt(t, u, m', m[a], keeps, j)
    else u == t && m' == m
  }

  method SendThemOn(w: Welt, dep: Depot, a: Handle, keeps: Handle -> bool, ghost L: nat)
    requires w.Valid() && Stowed(w.cnv, w.chainOf, L) && Lists(w.cnv, w.chainOf, dep.convois)
    modifies w
    ensures w.Valid() && Stowed(w.cnv, w.chainOf, L) && Lists(w.cnv, w.chainOf, dep.convois)
    ensures Accounted(old(w.cnv), old(w.chainOf), w.cnv, w.chainOf)
    ensures Cared(old(w.cnv), old(w.chainOf)) ==> Cared(w.cnv, w.chainOf)
    ensures DidDepart(old(w.cnv), old(w.chainOf), w.cnv, w.chainOf, a, keeps)
  {
    ghost var t, m := w.cnv, w.chainOf;
    NobodyAlighted(t, m);
    if !OnTheMap(w.cnv, a) || !w.cnv[a].state.Drives() {
      return;
    }
    ghost var k := OnMapChain(t, m, a, L);
    NextStopButtonPressed(w, a, keeps);
    PartedStowed(t, m, w.cnv, w.chainOf, m[a], keeps, L);
    ListsOnMap(t, m, w.cnv, w.chainOf, m[a], dep.convois);
    AboardUntouched(t, m, w.cnv, w.chainOf, m[a]);
  }

  /** Everything else stays in order as a chain passes from one state on the map to another. */
  lemma PassedWell(t: Table, m: Chains, u: Table, cs: seq<Handle>, list: seq<Handle>, L: nat)
    requires Fleet(t, m) && Stowed(t, m, L) && Lists(t, m, list) && Whole(t, m, cs) && Uniform(t, cs)
    requires Fleet(u, m) && Whole(u, m, cs) && LoadsKept(t, u) && ElseKept(t, m, u, m, cs)
    requires forall x :: x in cs ==> x in t && !t[x].state.Initial?
    ensures Stowed(u, m, L) && Lists(u, m, list) && Accounted(t, m, u, m) && (Cared(t, m) ==> Cared(u, m))
  {
    AllNotAboard(t, cs);
    AllNotAboard(u, cs);
    LoadsHold(t, u);
    StowedOnMap(t, m, u, m, cs, L);
    ListsOnMap(t, m, u, m, cs, list);
    AboardUntouched(t, m, u, m, cs);
  }

  ghost predicate DidStop(t: Table, m: Chains, u: Table, m': Chains, a: Handle) {
    && m' == m
    && if Heads(t, a) && t[a].state.Driving? then
         a in m && |m[a]| > 0 && m[a][0] == a && u == InStates(t, m[a], Loading, CoupledLoading)
         && StatesAre(t, u, m[a], Loading, CoupledLoading)
       else u == t
  }

  /** A chain stops at a halt. */
  method StopIt(w: Welt, dep: Depot, a: Handle, ghost L: nat)
    requires w.Valid() && Stowed(w.cnv, w.chainOf, L) && Lists(w.cnv, w.chainOf, dep.convois)
    modifies w
    ensures w.Valid() && Stowed(w.cnv, w.chainOf, L) && Lists(w.cnv, w.chainOf, dep.convois)
    ensures Accounted(old(w.cnv), old(w.chainOf), w.cnv, w.chainOf)
    ensures Cared(old(w.cnv), old(w.chainOf)) ==> Cared(w.cnv, w.chainOf)
    ensures DidStop(old(w.cnv), old(w.chainOf), w.cnv, w.chainOf, a)
  {
    ghost var t, m := w.cnv, w.chainOf;
    NobodyAlighted(t, m);
    if a in w.cnv && w.cnv[a].state.Driving? {
      ghost var k := OnMapChain(t, m, a, L);
      ZielErreicht(w, a, m[a]);
      PassedWell(t, m, w.cnv, m[a], dep.convois, L);
    }
  }

  ghost predicate DidLeave(t: Table, m: Chains, u: Table, m': Chains, a: Handle) {
    && m' == m
    && if Heads(t, a) && t[a].state.Loading? then
         a in m && |m[a]| > 0 && m[a][0] == a && u == InStates(t, m[a], Routing1, Coupled)
         && StatesAre(t, u, m[a], Routing1, Coupled)
       else u == t
  }

  /** A chain that has loaded leaves its stop. */
  method LeaveIt(w: Welt, dep: Depot, a: Handle, ghost L: nat)
    requires w.Valid() && Stowed(w.cnv, w.chainOf, L) && Lists(w.cnv, w.chainOf, dep.convois)
    modifies w
    ensures w.Valid() && Stowed(w.cnv, w.chainOf, L) && Lists(w.cnv, w.chainOf, dep.convois)
    ensures Accounted(old(w.cnv), old(w.chainOf), w.cnv, w.chainOf)
    ensures Cared(old(w.cnv), old(w.chainOf)) ==> Cared(w.cnv, w.chainOf)
    ensures DidLeave(old(w.cnv), old(w.chainOf), w.cnv, w.chainOf, a)
  {
    ghost var t, m := w.cnv, w.chainOf;
    NobodyAlighted(t, m);
    if a in w.cnv && w.cnv[a].state.Loading? {
      ghost var k := OnMapChain(t, m, a, L);
      HatGehalten(w, a, m[a]);
      PassedWell(t, m, w.cnv, m[a], dep.convois, L);
    }
  }

  ghost predicate DidProceed(t: Table, m: Chains, u: Table, m': Chains, a: Handle, to: State) {
    m' == m && u == if a in t && MayProceed(t[a].state, to) then t[a := t[a].(state := to)] else t
  }

  /** A head on its way passes from one state to another. */
  method ProceedIt(w: Welt, dep: Depot, a: Handle, to: State, ghost L: nat)
    requires w.Valid() && Stowed(w.cnv, w.chainOf, L) && Lists(w.cnv, w.chainOf, dep.convois)
    modifies w
    ensures w.Valid() && Stowed(w.cnv, w.chainOf, L) && Lists(w.cnv, w.chainOf, dep.convois)
    ensures Accounted(old(w.cnv), old(w.chainOf), w.cnv, w.chainOf)
    ensures Cared(old(w.cnv), old(w.chainOf)) ==> Cared(w.cnv, w.chainOf)
    ensures DidProceed(old(w.cnv), old(w.chainOf), w.cnv, w.chainOf, a, to)
  {
    ghost var t, m := w.cnv, w.chainOf;
    NobodyAlighted(t, m);
    if a in w.cnv && MayProceed(w.cnv[a].state, to) {
      ghost var k := OnMapChain(t, m, a, L);
      HeadStateKept(t, m, a, to, m[a]);
      w.SetState(a, to);
      PassedWell(t, m, w.cnv, m[a], dep.convois, L);
    }
  }

  ghost function Max(a: nat, b: nat): nat { if a < b then b else a }

  ghost predicate DidBoard(t: Table, m: Chains, u: Table, m': Chains, self: Handle, c: Handle) {
    m' == m && u == if self in t && CanBeShipped(t, m, self, c) then Boarded(t, self, c, m[c]) else t
  }

  /** Boarding; `length` is that of the chain that boards. */
  method BoardIt(w: Welt, dep: Depot, self: Handle, c: Handle, ghost L: nat) returns (ghost length: nat)
    requires w.Valid() && Stowed(w.cnv, w.chainOf, L) && Lists(w.cnv, w.chainOf, dep.convois)
    modifies w
    ensures w.Valid() && Stowed(w.cnv, w.chainOf, Max(L, length)) && Lists(w.cnv, w.chainOf, dep.convois)
    ensures w.cnv == old(w.cnv) ==> length == 0
    ensures w.cnv != old(w.cnv) ==> c in old(w.chainOf) && length == Length(old(w.cnv), old(w.chainOf)[c])
    ensures Accounted(old(w.cnv), old(w.chainOf), w.cnv, w.chainOf)
    ensures Cared(old(w.cnv), old(w.chainOf)) ==> Cared(w.cnv, w.chainOf)
    ensures DidBoard(old(w.cnv), old(w.chainOf), w.cnv, w.chainOf, self, c)
  {
    length := 0;
    ghost var t, m := w.cnv, w.chainOf;
    NobodyAlighted(t, m);
    if self !in w.cnv || c !in w.cnv {
      return;
    }
    GoodWalk(t, m, c);
    ghost var k :| 0 <= k < |m[c]| && m[c][k] == c;
    length := Length(t, m[c]);
    LongerChains(t, m, L, Max(L, length));
    var ok := BoardCarrier(w, self, c, true, k, Max(L, length));
    if !ok {
      length := 0;
    } else {
      ListGrows(t, self, c, m[c]);
      ListsBoarded(t, m, self, c, dep.convois);
      BoardedExplained(t, m, self, c, m[c]);
      CaredAfter(t, m, w.cnv, m);
    }
  }

  lemma ListsBoarded(t: Table, m: Chains, self: Handle, c: Handle, list: seq<Handle>)
    requires Fleet(t, m) && Lists(t, m, list) && self in t && CanBeShipped(t, m, self, c)
    ensures Lists(Boarded(t, self, c, m[c]), m, list)
  {
    GoodWalk(t, m, c);
    forall x | x in list
      ensures x !in m[c]
    {
      if x in m[c] { NotAboard(t, m[c], x); }
    }
  }

  lemma ListGrows(t: Table, self: Handle, c: Handle, cs: seq<Handle>)
    requires self in t
    ensures Boarded(t, self, c, cs) != t
  {
    assert |Boarded(t, self, c, cs)[self].shipped| == |t[self].shipped| + 1;
  }

  /** A head aboard that knows no carrier. */
  predicate IsOrphan(t: Table, c: Handle) {
    c in t && t[c].state.Shipped? && t[c].parent !in t && t[c].carrier !in t
  }

  ghost predicate DidRepair(t: Table, m: Chains, list: seq<Handle>, u: Table, m': Chains, list': seq<Handle>, c: Handle,
                            found: bool)
  {
    if IsOrphan(t, c) then
      && MapKept(t, m, u, m') && c in m && OthersKept(t, m, u, m', m[c]) && ListGrown(t, list, list')
      && if found then InDepot(u, m[c]) && u.Keys == t.Keys && m' == m && forall x :: x in m[c] ==> x in list'
         else u == Lost(t, c) && (|m[c]| > 1 ==> AboardWhole(u, m', m[c][1..])) && list' == list
    else u == t && m' == m && list' == list
  }

  method RepairIt(w: Welt, dep: Depot, c: Handle, found: bool, ghost L: nat)
    requires w.Valid() && Stowed(w.cnv, w.chainOf, L) && Lists(w.cnv, w.chainOf, dep.convois)
    modifies w, dep
    ensures w.Valid() && Stowed(w.cnv, w.chainOf, L) && Lists(w.cnv, w.chainOf, dep.convois)
    ensures Accounted(old(w.cnv), old(w.chainOf), w.cnv, w.chainOf)
    ensures Cared(old(w.cnv), old(w.chainOf)) ==> w.cnv == old(w.cnv) && w.chainOf == old(w.chainOf)
    ensures DidRepair(old(w.cnv), old(w.chainOf), old(dep.convois), w.cnv, w.chainOf, dep.convois, c, found)
  {
    NobodyAlighted(w.cnv, w.chainOf);
    if !IsOrphan(w.cnv, c) {
      return;
    }
    OrphanChain(w.cnv, w.chainOf, c);
    assert !CaredAt(w.cnv, w.chainOf, c);
    RepairOrphan(w, dep, c, found, w.chainOf[c], L);
  }

  lemma OrphanChain(t: Table, m: Chains, c: Handle)
    requires Fleet(t, m) && IsOrphan(t, c)
    ensures c in m && AboardWhole(t, m, m[c]) && m[c][0] == c && t[c].carrier == UNBOUND
  {
    assert Sound(t, m, c);
    var cs := m[c];
    var k :| 0 <= k < |cs| && cs[k] == c;
    assert OnMap(t, cs) ==> OnMapAt(t, cs, k);
    assert InDepot(t, cs) ==> InDepotAt(t, cs, k);
    assert AboardAt(t, cs, k) && LinkedAt(t, cs, k);
    AboardShipped(t, cs);
    assert forall i :: 0 <= i < |cs| ==> cs[i] in cs && cs[i] in t;
  }

  ghost predicate DidCall(t: Table, m: Chains, list: seq<Handle>, u: Table, m': Chains, list': seq<Handle>,
                          self: Handle, call: Call)
  {
    if self in t then
      && AllServed(t, m, u, m', list', self, call) && Unloaded(t, m, u, m', self, t[self].shipped)
      && ListGrown(t, list, list')
    else u == t && m' == m && list' == list
  }

  method CallIt(w: Welt, dep: Depot, self: Handle, call: Call, ghost L: nat)
    requires w.Valid() && Stowed(w.cnv, w.chainOf, L) && Lists(w.cnv, w.chainOf, dep.convois)
    modifies w, dep
    ensures w.Valid() && Stowed(w.cnv, w.chainOf, L) && Lists(w.cnv, w.chainOf, dep.convois)
    ensures Accounted(old(w.cnv), old(w.chainOf), w.cnv, w.chainOf)
    ensures Cared(old(w.cnv), old(w.chainOf)) && Everywhere(call.depot) ==> Cared(w.cnv, w.chainOf)
    ensures DidCall(old(w.cnv), old(w.chainOf), old(dep.convois), w.cnv, w.chainOf, dep.convois, self, call)
  {
    ghost var t, m := w.cnv, w.chainOf;
    NobodyAlighted(t, m);
    if self in w.cnv {
      PutAllAshore(w, dep, self, call, L);
      ListedHeads(t, m, w.cnv, self);
    }
  }

  ghost predicate DidVanish(t: Table, m: Chains, list: seq<Handle>, u: Table, m': Chains, list': seq<Handle>,
                            self: Handle, depot: Handle -> bool)
  {
    if self in t then
      && self in u && u[self].shipped == [] && Unloaded(t, m, u, m', self, t[self].shipped)
      && ForcedFrom(t, m, u, m', list', depot, self) && ListGrown(t, list, list')
    else u == t && m' == m && list' == list
  }

  method EmptyIt(w: Welt, dep: Depot, self: Handle, depot: Handle -> bool, ghost L: nat)
    requires w.Valid() && Stowed(w.cnv, w.chainOf, L) && Lists(w.cnv, w.chainOf, dep.convois)
    modifies w, dep
    ensures w.Valid() && Stowed(w.cnv, w.chainOf, L) && Lists(w.cnv, w.chainOf, dep.convois)
    ensures Accounted(old(w.cnv), old(w.chainOf), w.cnv, w.chainOf)
    ensures Cared(old(w.cnv), old(w.chainOf)) && Everywhere(depot) ==> Cared(w.cnv, w.chainOf)
    ensures DidVanish(old(w.cnv), old(w.chainOf), old(dep.convois), w.cnv, w.chainOf, dep.convois, self, depot)
  {
    ghost var t, m := w.cnv, w.chainOf;
    NobodyAlighted(t, m);
    if self in w.cnv {
      DisembarkAllForced(w, dep, self, depot, L);
      ListedHeads(t, m, w.cnv, self);
    }
  }

  ghost predicate DidEnter(t: Table, m: Chains, list: seq<Handle>, u: Table, m': Chains, list': seq<Handle>,
                           self: Handle, depot: Handle -> bool)
  {
    if Heads(t, self) then
      && self in m && FiledChain(u, m', list', m[self]) && MapKeptBut(t, m, u, m', m[self])
      && OthersKept(t, m, u, m', m[self]) && AllForced(t, m, u, m', list', depot, m[self], |m[self]|)
      && ListGrown(t, list, list') && Noted(t, u, m[self])
    else u == t && m' == m && list' == list
  }

  method FileIt(w: Welt, dep: Depot, self: Handle, depot: Handle -> bool, ghost L: nat)
    requires w.Valid() && Stowed(w.cnv, w.chainOf, L) && Lists(w.cnv, w.chainOf, dep.convois)
    modifies w, dep
    ensures w.Valid() && Stowed(w.cnv, w.chainOf, L) && Lists(w.cnv, w.chainOf, dep.convois)
    ensures Accounted(old(w.cnv), old(w.chainOf), w.cnv, w.chainOf)
    ensures Cared(old(w.cnv), old(w.chainOf)) && Everywhere(depot) ==> Cared(w.cnv, w.chainOf)
    ensures DidEnter(old(w.cnv), old(w.chainOf), old(dep.convois), w.cnv, w.chainOf, dep.convois, self, depot)
  {
    NobodyAlighted(w.cnv, w.chainOf);
    if OnTheMap(w.cnv, self) && w.cnv[self].state.Drives() {
      ghost var k := OnMapChain(w.cnv, w.chainOf, self, L);
      EnterDepot(w, dep, self, depot, w.chainOf[self], L);
    }
  }

  ghost predicate DidStart(t: Table, m: Chains, list: seq<Handle>, u: Table, m': Chains, list': seq<Handle>,
                           self: Handle, ready: bool) {
    && m' == m
    && if self in list && ready && self in m && |m[self]| > 0 && m[self][0] == self then
         && Whole(u, m, m[self]) && LoadsKept(t, u) && ElseKept(t, m, u, m, m[self])
         && (forall x :: x in m[self] ==>
               x in u && InBaseOrder(u[x]) && u[x].state == if x == self then Routing1 else Coupled)
         && list' == WithoutAll(list, m[self]) && forall x :: x in list' <==> x in list && x !in m[self]
       else u == t && list' == list
  }

  method StartIt(w: Welt, dep: Depot, self: Handle, ready: bool, ghost L: nat)
    requires w.Valid() && Stowed(w.cnv, w.chainOf, L) && Lists(w.cnv, w.chainOf, dep.convois)
    modifies w, dep
    ensures w.Valid() && Stowed(w.cnv, w.chainOf, L) && Lists(w.cnv, w.chainOf, dep.convois)
    ensures Accounted(old(w.cnv), old(w.chainOf), w.cnv, w.chainOf)
    ensures Cared(old(w.cnv), old(w.chainOf)) ==> Cared(w.cnv, w.chainOf)
    ensures DidStart(old(w.cnv), old(w.chainOf), old(dep.convois), w.cnv, w.chainOf, dep.convois, self, ready)
  {
    NobodyAlighted(w.cnv, w.chainOf);
    if self in dep.convois {
      var _ := StartFromDepot(w, dep, self, ready, L);
    }
  }
}
