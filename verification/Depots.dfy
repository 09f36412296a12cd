/** Filing a chain away in a depot and starting it again. */
module Depots {
  import opened Vehicles
  import opened Convois
  import opened Coupling

  /** A convoy that is filed away: in base order, without a parent, still linked to its child. */
  function FiledAway(r: Convoi, pulls: bool): Convoi {
    var f := if pulls then WithLast(r.fahr, true) else r.fahr;
    r.(state := Initial, reversed := false, reversingNeeded := r.reversingNeeded || r.reversed,
       fahr := if r.reversed then Turned(f, !r.state.IsCoupled(), true) else f)
  }

  /** A child whose parent let it go. */
  function LetGo(r: Convoi, loading: bool): Convoi {
    r.(state := if loading then Loading else Routing1, fahr := WithLeading(r.fahr, true), parent := UNBOUND)
  }

  function Added(s: seq<Handle>, x: Handle): seq<Handle> {
    if x in s then s else s + [x]
  }

  function AddedAll(s: seq<Handle>, xs: seq<Handle>): seq<Handle> {
    if xs == [] then s else Added(AddedAll(s, xs[..|xs| - 1]), Last(xs))
  }

  lemma {:induction false} AddedApart(s: seq<Handle>, xs: seq<Handle>)
    requires Distinct(xs) && Apart(s, xs)
    ensures AddedAll(s, xs) == s + xs
  {
    if xs != [] {
      var front := xs[..|xs| - 1];
      AddedApart(s, front);
      assert xs == front + [Last(xs)];
      assert Last(xs) !in s + front;
    }
  }

  class Depot {
    var convois: seq<Handle>

    method ConvoiArrived(acnv: Handle)
      modifies this
      ensures convois == Added(old(convois), acnv)
    {
      if acnv in convois {
        return;
      }
      convois := convois + [acnv];
    }

    method RemoveConvoi(cnv: Handle)
      modifies this
      ensures convois == Without(old(convois), cnv)
    {
      convois := TakenOff(convois, cnv);
    }
  }

  /** The list without the first x in it. */
  method TakenOff(s: seq<Handle>, x: Handle) returns (r: seq<Handle>)
    ensures r == Without(s, x)
  {
    var before, rest := [], s;
    while rest != [] && rest[0] != x
      invariant Without(s, x) == before + Without(rest, x)
      invariant s == before + rest
      decreases |rest|
    {
      before, rest := before + [rest[0]], rest[1..];
    }
    r := if rest == [] then before else before + rest[1..];
  }

  /** Files the convoy c, whose child was `child` when the chain arrived. */
  method FileOne(w: Welt, dep: Depot, c: Handle, child: Handle)
    requires c in w.cnv && |w.cnv[c].fahr| > 0 && w.cnv[c].coupling == child != c && UNBOUND !in w.cnv
    modifies w`cnv, dep
    ensures w.cnv.Keys == old(w.cnv).Keys && w.cnv[c] == FiledAway(old(w.cnv)[c], child in w.cnv)
    ensures child in w.cnv ==> w.cnv[child] == LetGo(old(w.cnv)[child], old(w.cnv)[c].state.IsLoading())
    ensures forall x :: x in w.cnv && x != c && x != child ==> w.cnv[x] == old(w.cnv)[x]
    ensures dep.convois == Added(old(dep.convois), c)
  {
    var _ := w.UncoupleConvoi(c);
    TurnInDepot(w, c);
    w.SetState(c, Initial);
    dep.ConvoiArrived(c);
    if child in w.cnv {
      w.cnv := w.cnv[c := w.cnv[c].(coupling := child)];
    }
  }

  /** Puts the vehicles into base order; that they were turned is noted elsewhere. */
  method TurnInDepot(w: Welt, c: Handle)
    requires c in w.cnv && |w.cnv[c].fahr| > 0
    modifies w`cnv
    ensures var t := old(w.cnv); w.cnv == if t[c].reversed
              then t[c := t[c].(reversed := false, reversingNeeded := true,
                                fahr := Turned(t[c].fahr, !t[c].state.IsCoupled(), t[c].coupling !in t))]
              else t
  {
    if w.cnv[c].reversed {
      w.ReverseVehicles(c);
      w.cnv := w.cnv[c := w.cnv[c].(reversingNeeded := true)];
    }
  }

  /** What a convoy is after it was filed away with its chain. */
  ghost predicate FiledAt(t: Table, u: Table, cs: seq<Handle>, i: int)
    requires 0 <= i < |cs| && cs[i] in t
  {
    && InDepotAt(u, cs, i) && SameHold(t[cs[i]], u[cs[i]]) && u[cs[i]].build == t[cs[i]].build
    && u[cs[i]].reversingNeeded == (t[cs[i]].reversingNeeded || t[cs[i]].reversed)
    && Ids(u[cs[i]].fahr) == if t[cs[i]].reversed then Reversed(Ids(t[cs[i]].fahr)) else Ids(t[cs[i]].fahr)
  }

  /** A convoy of the chain that is not filed yet; the next one has lost its parent. */
  ghost predicate WaitsAt(t: Table, u: Table, cs: seq<Handle>, i: int, next: int)
    requires 0 <= i < |cs| && cs[i] in t
  {
    && cs[i] in u && SameLoad(t[cs[i]], u[cs[i]]) && u[cs[i]].coupling == t[cs[i]].coupling
    && (if i == next then u[cs[i]].parent !in u else u[cs[i]] == t[cs[i]])
  }

  lemma TurnedIds(f: seq<Vehicle>, lead: bool, end: bool)
    ensures Ids(Turned(f, lead, end)) == Reversed(Ids(f)) && |Turned(f, lead, end)| == |f|
  {
  }

  lemma FiledNow(t: Table, u: Table, v: Table, cs: seq<Handle>, i: nat)
    requires i < |cs| && cs[i] in t && Walk(t, cs) && v.Keys == u.Keys == t.Keys
    requires WaitsAt(t, u, cs, i, i) && |t[cs[i]].fahr| > 0
    requires v[cs[i]] == FiledAway(u[cs[i]], u[cs[i]].coupling in u)
    ensures FiledAt(t, v, cs, i)
  {
    assert WalkAt(t, cs, i);
    var r := u[cs[i]];
    KeepsIds(r.fahr, true);
    assert |Ids(r.fahr)| == |Ids(t[cs[i]].fahr)|;
    TurnedIds(r.fahr, !r.state.IsCoupled(), true);
    TurnedIds(WithLast(r.fahr, true), !r.state.IsCoupled(), true);
  }

  /** Halfway through filing a chain: what comes before the i-th convoy is filed. */
  ghost predicate Filing(t: Table, u: Table, cs: seq<Handle>, i: int) {
    && u.Keys == t.Keys && UNBOUND !in t && Distinct(cs) && 0 <= i <= |cs| && Walk(t, cs)
    && (forall j :: 0 <= j < |cs| ==> cs[j] in t && |t[cs[j]].fahr| > 0)
    && (forall j {:trigger FiledAt(t, u, cs, j)} :: 0 <= j < i ==> FiledAt(t, u, cs, j))
    && (forall j {:trigger WaitsAt(t, u, cs, j, i)} :: i <= j < |cs| ==> WaitsAt(t, u, cs, j, i))
    && (forall x :: x in t && x !in cs ==> u[x] == t[x])
  }

  lemma FilingStep(t: Table, u: Table, v: Table, cs: seq<Handle>, i: nat)
    requires Filing(t, u, cs, i) && i < |cs| && v.Keys == u.Keys
    requires var c, child := cs[i], u[cs[i]].coupling;
      && v[c] == FiledAway(u[c], child in u)
      && (child in u ==> v[child] == LetGo(u[child], u[c].state.IsLoading()))
      && (forall x :: x in u && x != c && x != child ==> v[x] == u[x])
    ensures Filing(t, v, cs, i + 1)
  {
    assert WaitsAt(t, u, cs, i, i) && WalkAt(t, cs, i);
    FiledNow(t, u, v, cs, i);
    forall j | 0 <= j < i
      ensures FiledAt(t, v, cs, j)
    {
      assert FiledAt(t, u, cs, j);
    }
    var n := i + 1;
    forall j | n <= j < |cs|
      ensures WaitsAt(t, v, cs, j, n)
    {
      WaitsOn(t, u, v, cs, i, j);
    }
    assert i + 1 < |cs| ==> cs[i + 1] in cs;
  }

  lemma WaitsOn(t: Table, u: Table, v: Table, cs: seq<Handle>, i: nat, j: int)
    requires Filing(t, u, cs, i) && i < j < |cs| && v.Keys == u.Keys
    requires var child := u[cs[i]].coupling;
      && (child in u ==> v[child] == LetGo(u[child], u[cs[i]].state.IsLoading()))
      && (forall x :: x in u && x != cs[i] && x != child ==> v[x] == u[x])
    ensures WaitsAt(t, v, cs, j, i + 1)
  {
    assert WaitsAt(t, u, cs, i, i) && WalkAt(t, cs, i) && WaitsAt(t, u, cs, j, i);
    KeepsIds(u[cs[j]].fahr, true);
  }

  /** Files one convoy and goes on to its child. */
  method FileNext(w: Welt, dep: Depot, c: Handle, child: Handle, ghost t: Table, ghost cs: seq<Handle>, ghost i: nat)
      returns (next: Handle, grandchild: Handle)
    requires Filing(t, w.cnv, cs, i) && i < |cs| && c == cs[i] && child == t[c].coupling
    modifies w`cnv, dep
    ensures Filing(t, w.cnv, cs, i + 1) && dep.convois == Added(old(dep.convois), c)
    ensures if i + 1 < |cs| then next == cs[i + 1] && grandchild == t[next].coupling else next !in w.cnv
  {
    ghost var u := w.cnv;
    assert WaitsAt(t, u, cs, i, i) && WalkAt(t, cs, i);
    FileOne(w, dep, c, child);
    FilingStep(t, u, w.cnv, cs, i);
    assert FiledAt(t, w.cnv, cs, i);
    grandchild := child;
    if child in w.cnv {
      assert WaitsAt(t, w.cnv, cs, i + 1, i + 1);
      grandchild := w.cnv[child].coupling;
    }
    next := w.cnv[c].coupling;
  }

  /** Files a whole chain that carries nothing in a depot. */
  method BetreteDepot(w: Welt, dep: Depot, self: Handle, ghost cs: seq<Handle>)
    requires Filing(w.cnv, w.cnv, cs, 0) && |cs| > 0 && cs[0] == self
    modifies w`cnv, dep
    ensures Filing(old(w.cnv), w.cnv, cs, |cs|)
    ensures dep.convois == AddedAll(old(dep.convois), cs)
  {
    ghost var t := w.cnv;
    var c := self;
    assert WaitsAt(t, t, cs, 0, 0);
    var child := w.cnv[c].coupling;
    ghost var i := 0;
    while c in w.cnv
      invariant Filing(t, w.cnv, cs, i)
      invariant if i < |cs| then c == cs[i] && child == t[c].coupling else c !in w.cnv
      invariant dep.convois == AddedAll(old(dep.convois), cs[..i])
      decreases |cs| - i
    {
      c, child := FileNext(w, dep, c, child, t, cs, i);
      assert cs[..i + 1][..i] == cs[..i];
      i := i + 1;
    }
    assert cs[..i] == cs;
  }

  lemma FiledInDepot(t: Table, u: Table, cs: seq<Handle>)
    requires Filing(t, u, cs, |cs|) && |cs| > 0
    ensures InDepot(u, cs)
  {
    forall i | 0 <= i < |cs|
      ensures InDepotAt(u, cs, i)
    {
      assert FiledAt(t, u, cs, i);
    }
  }

  /** A convoy of a chain on the map may be filed as it stands. */
  lemma ReadyToFile(t: Table, m: Chains, cs: seq<Handle>)
    requires Fleet(t, m) && Whole(t, m, cs)
    ensures Filing(t, t, cs, 0)
  {
    ChainWalk(t, cs);
    forall i | 0 <= i < |cs|
      ensures cs[i] in t && |t[cs[i]].fahr| > 0 && WaitsAt(t, t, cs, i, 0)
    {
      assert OnMapAt(t, cs, i);
    }
  }

  /** Whether or not it had turned, a filed convoy has its vehicles in base order. */
  lemma FiledSound(t: Table, m: Chains, u: Table, cs: seq<Handle>, i: nat)
    requires Fleet(t, m) && i < |cs| && cs[i] in t && cs[i] in m && m[cs[i]] == cs
    requires Filing(t, u, cs, |cs|) && t[cs[i]].carrier == UNBOUND && t[cs[i]].shipped == []
    ensures Sound(u, m, cs[i]) && Ids(u[cs[i]].fahr) == u[cs[i]].build.base && !u[cs[i]].reversed
  {
    var x := cs[i];
    assert Sound(t, m, x) && FiledAt(t, u, cs, i);
    FiledInDepot(t, u, cs);
    ReversedTwice(t[x].build.base);
  }

  /** Filing a chain keeps the whole fleet in order. */
  lemma FleetFiled(t: Table, m: Chains, u: Table, cs: seq<Handle>)
    requires Fleet(t, m) && Whole(t, m, cs) && Filing(t, u, cs, |cs|)
    requires forall i :: 0 <= i < |cs| ==> t[cs[i]].shipped == []
    ensures Fleet(u, m) && InDepot(u, cs)
    ensures forall i :: 0 <= i < |cs| ==> Ids(u[cs[i]].fahr) == u[cs[i]].build.base
  {
    FiledInDepot(t, u, cs);
    FiledHolds(t, u, cs);
    forall i | 0 <= i < |cs|
      ensures Sound(u, m, cs[i]) && Ids(u[cs[i]].fahr) == u[cs[i]].build.base
    {
      assert OnMapAt(t, cs, i) && Sound(t, m, cs[i]) && cs[i] in cs;
      NotAboard(t, cs, cs[i]);
      FiledSound(t, m, u, cs, i);
    }
    forall x | x in m
      ensures Sound(u, m, x)
    {
      if x !in cs { RestSound(t, m, u, m, cs, x); }
    }
  }

  lemma FiledHolds(t: Table, u: Table, cs: seq<Handle>)
    requires Filing(t, u, cs, |cs|)
    ensures HoldsKept(t, u)
  {
    forall x | x in t
      ensures SameHold(t[x], u[x])
    {
      if x in cs {
        var i :| 0 <= i < |cs| && cs[i] == x;
        assert FiledAt(t, u, cs, i);
      }
    }
  }

  /** The flags of a convoy that leaves a depot on its own. */
  function StartFlags(f: seq<Vehicle>): seq<Vehicle> {
    WithLast(WithLeading(seq(|f|, j requires 0 <= j < |f| => Vehicle(f[j].id, false, false)), true), true)
  }

  lemma StartFlagsSet(f: seq<Vehicle>)
    requires |f| > 0
    ensures Flags(StartFlags(f), true, true) && Ids(StartFlags(f)) == Ids(f)
  {
    var g := seq(|f|, j requires 0 <= j < |f| => Vehicle(f[j].id, false, false));
    LeadingFlags(g, false, false, true);
    LastFlags(WithLeading(g, true), true, false, true);
  }

  function Without(s: seq<Handle>, x: Handle): seq<Handle> {
    if s == [] then [] else if s[0] == x then s[1..] else [s[0]] + Without(s[1..], x)
  }

  /** A convoy leaves the depot. A convoy that is neither filed nor waiting for its route
      stays as it is. */
  method Start(w: Welt, c: Handle)
    requires c in w.cnv && |w.cnv[c].fahr| > 0
    modifies w`cnv
    ensures w.cnv == if old(w.cnv)[c].state in {Initial, Routing1}
              then old(w.cnv)[c := old(w.cnv)[c].(state := Routing1, fahr := StartFlags(old(w.cnv)[c].fahr))]
              else old(w.cnv)
  {
    if w.cnv[c].state == Initial || w.cnv[c].state == Routing1 {
      w.SetState(c, Routing1);
      var f, i := w.cnv[c].fahr, 0;
      ghost var f0 := f;
      while i < |f|
        invariant 0 <= i <= |f| == |f0|
        invariant forall j :: 0 <= j < |f| ==> f[j] == if j < i then Vehicle(f0[j].id, false, false) else f0[j]
      {
        f := f[i := Vehicle(f[i].id, false, false)];
        i := i + 1;
      }
      assert f == seq(|f0|, j requires 0 <= j < |f0| => Vehicle(f0[j].id, false, false));
      f := WithLeading(f, true);
      f := WithLast(f, true);
      w.cnv := w.cnv[c := w.cnv[c].(fahr := f)];
    }
  }

  /** A convoy of a starting chain of which the first k have left. */
  ghost predicate OnWayAt(t: Table, u: Table, cs: seq<Handle>, i: int, k: int)
    requires 0 <= i < |cs| && cs[i] in t
  {
    && cs[i] in u && SameLoad(t[cs[i]], u[cs[i]]) && u[cs[i]].coupling == t[cs[i]].coupling
    && (if i >= k then u[cs[i]] == t[cs[i]] else
          && (if i > 0 then u[cs[i]].parent == cs[i - 1] else u[cs[i]].parent !in u)
          && u[cs[i]].state == (if i == 0 then Routing1 else Coupled)
          && Flags(u[cs[i]].fahr, i == 0, i == k - 1))
  }

  ghost predicate Starting(t: Table, u: Table, cs: seq<Handle>, k: int) {
    && u.Keys == t.Keys && InDepot(t, cs) && 0 < k <= |cs| && (forall i :: 0 <= i < |cs| ==> cs[i] in t)
    && (forall i {:trigger OnWayAt(t, u, cs, i, k)} :: 0 <= i < |cs| ==> OnWayAt(t, u, cs, i, k))
    && (forall x :: x in t && x !in cs ==> u[x] == t[x])
  }

  lemma OnWayNext(t: Table, u: Table, v: Table, cs: seq<Handle>, k: nat, i: nat)
    requires Starting(t, u, cs, k) && k < |cs|
    requires var p, c := cs[k - 1], cs[k];
      && v.Keys == u.Keys
      && v[c] == u[c].(state := Coupled, parent := p, fahr := WithLeading(StartFlags(u[c].fahr), false))
      && v[p] == u[p].(coupling := c, fahr := WithLast(u[p].fahr, false))
      && (forall x :: x in u && x != c && x != p ==> v[x] == u[x])
    requires i < |cs|
    ensures OnWayAt(t, v, cs, i, k + 1)
  {
    var p, c := cs[k - 1], cs[k];
    assert InDepotAt(t, cs, k) && InDepotAt(t, cs, k - 1);
    assert OnWayAt(t, u, cs, k, k) && OnWayAt(t, u, cs, k - 1, k) && OnWayAt(t, u, cs, i, k);
    if i == k - 1 {
      LastFlags(u[p].fahr, k == 1, true, false);
    } else if i == k {
      StartFlagsSet(u[c].fahr);
      LeadingFlags(StartFlags(u[c].fahr), true, true, false);
    }
  }

  lemma StartingStep(t: Table, u: Table, v: Table, cs: seq<Handle>, k: nat)
    requires Starting(t, u, cs, k) && k < |cs|
    requires var p, c := cs[k - 1], cs[k];
      && v.Keys == u.Keys
      && v[c] == u[c].(state := Coupled, parent := p, fahr := WithLeading(StartFlags(u[c].fahr), false))
      && v[p] == u[p].(coupling := c, fahr := WithLast(u[p].fahr, false))
      && (forall x :: x in u && x != c && x != p ==> v[x] == u[x])
    ensures Starting(t, v, cs, k + 1)
  {
    var p, c, n := cs[k - 1], cs[k], k + 1;
    assert InDepotAt(t, cs, k) && InDepotAt(t, cs, k - 1);
    assert OnWayAt(t, u, cs, k, k) && OnWayAt(t, u, cs, k - 1, k);
    forall i | 0 <= i < |cs|
      ensures OnWayAt(t, v, cs, i, n)
    {
      OnWayNext(t, u, v, cs, k, i);
    }
    assert p in cs && c in cs;
  }

  lemma StartingFirst(t: Table, u: Table, cs: seq<Handle>)
    requires InDepot(t, cs) && cs[0] in t
    requires u == t[cs[0] := t[cs[0]].(state := Routing1, fahr := StartFlags(t[cs[0]].fahr))]
    ensures Starting(t, u, cs, 1)
  {
    assert InDepotAt(t, cs, 0);
    StartFlagsSet(t[cs[0]].fahr);
    forall i | 0 <= i < |cs|
      ensures cs[i] in t && OnWayAt(t, u, cs, i, 1)
    {
      assert InDepotAt(t, cs, i);
    }
  }

  /** A chain of which every convoy has left is a chain on the map. */
  lemma FleetStarted(t: Table, m: Chains, u: Table, cs: seq<Handle>)
    requires Fleet(t, m) && Starting(t, u, cs, |cs|) && forall i :: 0 <= i < |cs| ==> cs[i] in m && m[cs[i]] == cs
    ensures Fleet(u, m) && Whole(u, m, cs) && LoadsKept(t, u) && ElseKept(t, m, u, m, cs)
    ensures u[cs[0]].state == Routing1
  {
    forall i | 0 <= i < |cs|
      ensures OnMapAt(u, cs, i)
    {
      assert OnWayAt(t, u, cs, i, |cs|) && InDepotAt(t, cs, i);
    }
    assert OnWayAt(t, u, cs, 0, |cs|);
    StartedLoads(t, u, cs);
    LoadsHold(t, u);
    forall x | x in m
      ensures Sound(u, m, x)
    {
      if x in cs {
        StartedSound(t, m, u, cs, x);
      } else {
        RestSound(t, m, u, m, cs, x);
      }
    }
  }

  lemma StartedLoads(t: Table, u: Table, cs: seq<Handle>)
    requires Starting(t, u, cs, |cs|)
    ensures LoadsKept(t, u)
  {
    forall x | x in t
      ensures SameLoad(t[x], u[x])
    {
      if x in cs {
        var i :| 0 <= i < |cs| && cs[i] == x;
        assert OnWayAt(t, u, cs, i, |cs|);
      }
    }
  }

  lemma StartedSound(t: Table, m: Chains, u: Table, cs: seq<Handle>, x: Handle)
    requires Fleet(t, m) && InDepot(t, cs) && OnMap(u, cs) && LoadsKept(t, u) && x in cs && x in m && m[x] == cs
    ensures Sound(u, m, x)
  {
    var i :| 0 <= i < |cs| && cs[i] == x;
    assert InDepotAt(t, cs, i) && Sound(t, m, x);
    NotAboard(u, cs, x);
    assert SameLoad(t[x], u[x]);
  }

  function WithoutAll(s: seq<Handle>, xs: seq<Handle>): seq<Handle> {
    if xs == [] then s else Without(WithoutAll(s, xs[..|xs| - 1]), Last(xs))
  }

  /** The k-th convoy of a starting chain leaves behind its parent p. */
  method StartChild(w: Welt, dep: Depot, p: Handle, c: Handle, ghost t: Table, ghost cs: seq<Handle>, ghost k: nat)
    requires Starting(t, w.cnv, cs, k) && k < |cs| && p == cs[k - 1] && c == cs[k]
    modifies w`cnv, dep
    ensures Starting(t, w.cnv, cs, k + 1)
    ensures p in w.cnv && c in w.cnv && w.cnv[p].coupling == c
    ensures if k + 1 < |cs| then w.cnv[c].coupling == cs[k + 1] else w.cnv[c].coupling !in w.cnv
    ensures dep.convois == Without(old(dep.convois), c)
  {
    ghost var u := w.cnv;
    assert InDepotAt(t, cs, k) && InDepotAt(t, cs, k - 1);
    assert OnWayAt(t, u, cs, k, k) && OnWayAt(t, u, cs, k - 1, k);
    Start(w, c);
    dep.RemoveConvoi(c);
    w.CoupleConvoiDuringRunning(p, c, [c]);
    StartingStep(t, u, w.cnv, cs, k);
  }

  /** The head leaves first. */
  method StartFirst(w: Welt, dep: Depot, self: Handle, ghost cs: seq<Handle>) returns (child: Handle)
    requires InDepot(w.cnv, cs) && cs[0] == self
    modifies w`cnv, dep
    ensures Starting(old(w.cnv), w.cnv, cs, 1) && dep.convois == WithoutAll(old(dep.convois), cs[..1])
    ensures if 1 < |cs| then child == cs[1] else child !in w.cnv
  {
    ghost var t := w.cnv;
    assert InDepotAt(t, cs, 0);
    Start(w, self);
    dep.RemoveConvoi(self);
    StartingFirst(t, w.cnv, cs);
    child := w.cnv[self].coupling;
    assert cs[..1] == [] + [cs[0]];
  }

  /** The chain of `self`, all of it in the depot, leaves in the order it stood in. */
  method StartChain(w: Welt, dep: Depot, self: Handle, ghost cs: seq<Handle>)
    requires InDepot(w.cnv, cs) && cs[0] == self
    modifies w`cnv, dep
    ensures Starting(old(w.cnv), w.cnv, cs, |cs|)
    ensures dep.convois == WithoutAll(old(dep.convois), cs)
  {
    ghost var t, list := w.cnv, dep.convois;
    var p := self;
    var c := StartFirst(w, dep, self, cs);
    ghost var k := 1;
    while c in w.cnv
      invariant Starting(t, w.cnv, cs, k) && p == cs[k - 1]
      invariant if k < |cs| then c == cs[k] else c !in w.cnv
      invariant dep.convois == WithoutAll(list, cs[..k])
      decreases |cs| - k
    {
      StartChild(w, dep, p, c, t, cs, k);
      assert cs[..k + 1][..k] == cs[..k];
      p, c := w.cnv[p].coupling, w.cnv[c].coupling;
      k := k + 1;
    }
    assert cs[..k] == cs;
  }

  /** A depot lists convoys that are filed, each once, and whole chains of them. */
  ghost predicate Lists(t: Table, m: Chains, list: seq<Handle>) {
    && Distinct(list)
    && forall x :: x in list ==> x in t && x in m && t[x].state.Initial? && forall y :: y in m[x] ==> y in list
  }

  /** Whoever arrives and is not listed yet is put at the end of the list. */
  lemma {:induction false} AddedMembers(s: seq<Handle>, xs: seq<Handle>)
    ensures s <= AddedAll(s, xs)
    ensures forall x :: x in AddedAll(s, xs) <==> x in s || x in xs
  {
    if xs != [] {
      AddedMembers(s, xs[..|xs| - 1]);
      assert xs == xs[..|xs| - 1] + [Last(xs)];
    }
  }

  lemma {:induction false} AddedDistinct(s: seq<Handle>, xs: seq<Handle>)
    requires Distinct(s)
    ensures Distinct(AddedAll(s, xs))
  {
    if xs != [] { AddedDistinct(s, xs[..|xs| - 1]); }
  }

  /** The convoy x is aboard something, or as it was but for what it carries. */
  ghost predicate StaysAt(t: Table, m: Chains, u: Table, m': Chains, x: Handle)
    requires x in t && x in m
  {
    || t[x].state.Shipped?
    || (x in u && x in m' && m'[x] == m[x] && u[x] == t[x].(shipped := u[x].shipped)
            && (t[x].shipped == [] ==> u[x].shipped == []))
  }

  /** Nothing happened but that convoys aboard got off. */
  ghost predicate MapKept(t: Table, m: Chains, u: Table, m': Chains) {
    m.Keys == t.Keys && u.Keys <= t.Keys && forall x {:trigger StaysAt(t, m, u, m', x)} :: x in t ==>
            StaysAt(t, m, u, m', x)
  }

  lemma MapKeptTwice(t: Table, m: Chains, u: Table, m': Chains, v: Table, m'': Chains)
    requires MapKept(t, m, u, m') && MapKept(u, m', v, m'')
    ensures MapKept(t, m, v, m'')
  {
    forall x | x in t
      ensures StaysAt(t, m, v, m'', x)
    {
      assert StaysAt(t, m, u, m', x);
      assert x in u ==> StaysAt(u, m', v, m'', x);
    }
  }

  /** A depot's list stays right while convoys aboard get off. */
  lemma ListsKept(t: Table, m: Chains, u: Table, m': Chains, list: seq<Handle>)
    requires Lists(t, m, list) && MapKept(t, m, u, m')
    ensures Lists(u, m', list)
  {
    forall x | x in list
      ensures x in u && x in m' && u[x].state.Initial? && forall y :: y in m'[x] ==> y in list
    {
      assert StaysAt(t, m, u, m', x);
    }
  }

  /** So it does while something happens to a chain on the map. */
  lemma ListsOnMap(t: Table, m: Chains, u: Table, m': Chains, cs: seq<Handle>, list: seq<Handle>)
    requires Lists(t, m, list) && ElseKept(t, m, u, m', cs) && forall x :: x in cs ==> x in t && !t[x].state.Initial?
    ensures Lists(u, m', list)
  {
  }

  /** So it does when a whole chain that was filed is added. */
  lemma {:induction false} ListsAdded(t: Table, m: Chains, list: seq<Handle>, cs: seq<Handle>)
    requires Lists(t, m, list) && InDepot(t, cs) && forall x :: x in cs ==> x in m && m[x] == cs
    ensures Lists(t, m, AddedAll(list, cs))
  {
    AddedMembers(list, cs);
    AddedDistinct(list, cs);
    forall x | x in cs
      ensures x in t && t[x].state.Initial?
    {
      var i :| 0 <= i < |cs| && cs[i] == x;
      assert InDepotAt(t, cs, i);
    }
  }

  lemma {:induction false} WithoutMembers(s: seq<Handle>, x: Handle)
    requires Distinct(s)
    ensures Distinct(Without(s, x)) && forall y :: y in Without(s, x) <==> y in s && y != x
  {
    if s != [] {
      assert s == [s[0]] + s[1..];
      WithoutMembers(s[1..], x);
      if s[0] != x {
        assert s[0] !in s[1..];
        assert forall y :: y in Without(s, x) <==> y == s[0] || y in Without(s[1..], x);
      } else {
        assert s[0] !in s[1..];
      }
    }
  }

  lemma {:induction false} WithoutAllMembers(s: seq<Handle>, xs: seq<Handle>)
    requires Distinct(s)
    ensures Distinct(WithoutAll(s, xs)) && forall y :: y in WithoutAll(s, xs) <==> y in s && y !in xs
  {
    if xs != [] {
      WithoutAllMembers(s, xs[..|xs| - 1]);
      WithoutMembers(WithoutAll(s, xs[..|xs| - 1]), Last(xs));
      assert xs == xs[..|xs| - 1] + [Last(xs)];
    }
  }

  /** Whoever is in front of all that leave stays there. */
  lemma {:induction false} FrontStays(s: seq<Handle>, front: seq<Handle>, x: Handle)
    requires front <= s && x !in front
    ensures front <= Without(s, x)
  {
    if front != [] { FrontStays(s[1..], front[1..], x); }
  }

  lemma {:induction false} FrontStaysAll(s: seq<Handle>, front: seq<Handle>, xs: seq<Handle>)
    requires front <= s && Apart(front, xs)
    ensures front <= WithoutAll(s, xs)
  {
    if xs != [] {
      var rest := xs[..|xs| - 1];
      assert forall x :: x in rest ==> x in xs;
      FrontStaysAll(s, front, rest);
      assert Last(xs) in xs;
      FrontStays(WithoutAll(s, rest), front, Last(xs));
    }
  }

  /** So it does when a whole chain leaves. */
  lemma {:induction false} ListsWithout(t: Table, m: Chains, u: Table, list: seq<Handle>, cs: seq<Handle>)
    requires Fleet(t, m) && Lists(t, m, list) && ElseKept(t, m, u, m, cs)
    requires forall x :: x in cs ==> x in m && m[x] == cs
    ensures Lists(u, m, WithoutAll(list, cs))
  {
    WithoutAllMembers(list, cs);
    forall x | x in list && x !in cs
      ensures forall y :: y in m[x] ==> y !in cs
    {
      assert Sound(t, m, x);
    }
  }

  lemma ListedChain(t: Table, m: Chains, x: Handle)
    requires Fleet(t, m) && x in t && t[x].state.Initial?
    ensures x in m && x in m[x] && InDepot(t, m[x])
  {
    assert Sound(t, m, x);
    var i :| 0 <= i < |m[x]| && m[x][i] == x;
    assert OnMap(t, m[x]) ==> OnMapAt(t, m[x], i);
    assert Aboard(t, m[x]) ==> AboardAt(t, m[x], i);
  }

  /** In a depot, the only convoy linked to a child is the one in front of it in its chain. */
  lemma ParentInDepot(t: Table, m: Chains, cs: seq<Handle>, k: nat, x: Handle)
    requires Fleet(t, m) && InDepot(t, cs) && k < |cs| && cs[k] in t && cs[k] in m && m[cs[k]] == cs
    requires x in t && t[x].state.Initial?
    ensures t[x].coupling == cs[k] <==> k > 0 && x == cs[k - 1]
  {
    ListedChain(t, m, x);
    if t[x].coupling == cs[k] {
      var i :| 0 <= i < |m[x]| && m[x][i] == x;
      assert InDepotAt(t, m[x], i) && Sound(t, m, x) && Sound(t, m, cs[k]);
      assert m[x][i + 1] in m[x];
    }
    if k > 0 {
      assert InDepotAt(t, cs, k - 1);
    }
  }

  method FindParentInDepot(w: Welt, dep: Depot, cnv: Handle, ghost cs: seq<Handle>, ghost k: nat) returns (p: Handle)
    requires w.Valid() && Lists(w.cnv, w.chainOf, dep.convois) && InDepot(w.cnv, cs)
    requires k < |cs| && cs[k] == cnv && cnv in dep.convois && w.chainOf[cnv] == cs
    ensures p == if k > 0 then cs[k - 1] else UNBOUND
  {
    var i := 0;
    while i < |dep.convois|
      invariant 0 <= i <= |dep.convois|
      invariant forall j :: 0 <= j < i ==> dep.convois[j] in w.cnv && w.cnv[dep.convois[j]].coupling != cnv
    {
      assert dep.convois[i] in dep.convois;
      ParentInDepot(w.cnv, w.chainOf, cs, k, dep.convois[i]);
      if w.cnv[dep.convois[i]].coupling == cnv {
        return dep.convois[i];
      }
      i := i + 1;
    }
    if k > 0 {
      assert cs[k - 1] in cs;
      ListedParent(w.cnv, w.chainOf, dep.convois, cs, k);
    }
    return UNBOUND;
  }

  lemma ListedParent(t: Table, m: Chains, list: seq<Handle>, cs: seq<Handle>, k: nat)
    requires Fleet(t, m) && Lists(t, m, list) && InDepot(t, cs) && 0 < k < |cs| && cs[k] in list && m[cs[k]] == cs
    ensures exists j :: 0 <= j < |list| && list[j] in t && t[list[j]].coupling == cs[k]
  {
    assert cs[k - 1] in cs && InDepotAt(t, cs, k - 1);
    var j :| 0 <= j < |list| && list[j] == cs[k - 1];
  }

  method FindMostParentInDepot(w: Welt, dep: Depot, cnv: Handle, ghost cs: seq<Handle>, ghost k: nat)
        returns (c: Handle)
    requires w.Valid() && Lists(w.cnv, w.chainOf, dep.convois) && InDepot(w.cnv, cs)
    requires k < |cs| && cs[k] == cnv && cnv in dep.convois && w.chainOf[cnv] == cs
    ensures c == cs[0]
  {
    c := cnv;
    var p := cnv;
    ghost var i: nat := k;
    assert Sound(w.cnv, w.chainOf, cnv);
    while p in w.cnv
      invariant i <= k && (p in w.cnv ==> p == cs[i])
      invariant p !in w.cnv ==> c == cs[0]
      decreases if p in w.cnv then i + 1 else 0
    {
      assert cs[i] in cs;
      c := p;
      p := FindParentInDepot(w, dep, c, cs, i);
      assert i > 0 ==> InDepotAt(w.cnv, cs, i - 1);
      i := if i > 0 then i - 1 else 0;
    }
  }

  lemma StatesStarted(t: Table, u: Table, cs: seq<Handle>)
    requires Starting(t, u, cs, |cs|)
    ensures forall x :: x in cs ==> x in u && u[x].state == if x == cs[0] then Routing1 else Coupled
  {
    forall x | x in cs
      ensures x in u && u[x].state == if x == cs[0] then Routing1 else Coupled
    {
      var i :| 0 <= i < |cs| && cs[i] == x;
      assert OnWayAt(t, u, cs, i, |cs|) && (i > 0 ==> cs[i] != cs[0]);
    }
  }

  /** Starting a filed convoy: a coupled child cannot leave alone, and `ready` tells whether
      everything else the depot checks allows the start. */
  method StartConvoi(w: Welt, dep: Depot, self: Handle, ready: bool, ghost cs: seq<Handle>, ghost k: nat)
      returns (ok: bool)
    requires w.Valid() && Lists(w.cnv, w.chainOf, dep.convois) && InDepot(w.cnv, cs)
    requires k < |cs| && cs[k] == self && self in dep.convois && w.chainOf[self] == cs
    modifies w`cnv, dep
    ensures w.Valid() && (ok <==> k == 0 && ready)
    ensures !ok ==> w.cnv == old(w.cnv) && dep.convois == old(dep.convois)
    ensures ok ==> Whole(w.cnv, w.chainOf, cs) && w.cnv[self].state == Routing1 && LoadsKept(old(w.cnv), w.cnv)
    ensures ok ==> forall x :: x in cs ==> x in w.cnv && w.cnv[x].state == if x == self then Routing1 else Coupled
    ensures ok ==> ElseKept(old(w.cnv), w.chainOf, w.cnv, w.chainOf, cs)
    ensures ok ==> dep.convois == WithoutAll(old(dep.convois), cs)
  {
    var p := FindParentInDepot(w, dep, self, cs, k);
    assert k > 0 ==> InDepotAt(w.cnv, cs, k - 1);
    if p in w.cnv || !ready {
      return false;
    }
    ghost var t := w.cnv;
    assert Sound(t, w.chainOf, self);
    StartChain(w, dep, self, cs);
    assert forall i :: 0 <= i < |cs| ==> cs[i] in w.chainOf[self];
    FleetStarted(t, w.chainOf, w.cnv, cs);
    StatesStarted(t, w.cnv, cs);
    return true;
  }

  ghost predicate InBaseOrder(c: Convoi) {
    !c.reversed && Ids(c.fahr) == c.build.base
  }

  /** Whoever is in a depot stands in base order. */
  lemma FiledInBase(t: Table, m: Chains, x: Handle)
    requires Fleet(t, m) && x in t && t[x].state.Initial?
    ensures InBaseOrder(t[x])
  {
    var k := ChainOf(t, m, x);
    assert Sound(t, m, x) && InDepotAt(t, m[x], k);
  }

  /** Copying takes the vehicles in normal order, whichever way the convoy stands and wherever
      it is. */
  method CopyConvoi(w: Welt, old_cnv: Handle) returns (ids: seq<nat>)
    requires w.Valid() && old_cnv in w.cnv
    ensures ids == w.cnv[old_cnv].build.base
  {
    var c := w.cnv[old_cnv];
    assert Sound(w.cnv, w.chainOf, old_cnv);
    ids := [];
    var n := |c.fahr|;
    assert |Ids(c.fahr)| == n;
    for i := 0 to n
      invariant |ids| == i && forall j :: 0 <= j < i ==> ids[j] == c.build.base[j]
    {
      var index := if c.reversed then n - i - 1 else i;
      assert Ids(c.fahr)[index] == c.fahr[index].id;
      ids := ids + [c.fahr[index].id];
    }
  }

  /** An aircraft is marked as reversed when it leaves a stop although its vehicles stay where
      they are. If it then enters a depot before it has left forward, which takes the mark
      back, it is filed as not reversed with its vehicles the wrong way round. */
  lemma PushbackFiled(c: Convoi, pulls: bool)
    requires InBaseOrder(c)
    ensures var filed := FiledAway(c.(reversed := true), pulls);
      && !filed.reversed && Ids(filed.fahr) == Reversed(c.build.base)
      && (InBaseOrder(filed) <==> Reversed(c.build.base) == c.build.base)
  {
    var f := if pulls then WithLast(c.fahr, true) else c.fahr;
    KeepsIds(c.fahr, true);
    TurnedIds(f, !c.state.IsCoupled(), true);
  }

  lemma PushbackBreaksOrder()
    ensures var f := [Vehicle(1, true, false), Vehicle(2, false, true)];
      var c := Convoi(Loading, UNBOUND, UNBOUND, f, false, false, UNBOUND, [], Build([1, 2], 2, 0, map[]));
      InBaseOrder(c) && Ids(FiledAway(c.(reversed := true), false).fahr) == [2, 1]
  {
    var f := [Vehicle(1, true, false), Vehicle(2, false, true)];
    var c := Convoi(Loading, UNBOUND, UNBOUND, f, false, false, UNBOUND, [], Build([1, 2], 2, 0, map[]));
    assert Ids(f) == [1, 2] && Reversed([1, 2]) == [2, 1];
    PushbackFiled(c, false);
  }
}
