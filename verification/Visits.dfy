/** Chains that enter a depot from the map, and leave it again. */
module Visits {
  import opened Convois
  import opened Coupling
  import opened Depots
  import opened Orphans
  import opened Shipping
  import opened Carriers
  import opened Deck
  import opened Landing
  import opened Rescue

  /** Everybody finds a depot. */
  ghost predicate Everywhere(depot: Handle -> bool) {
    forall c: Handle {:trigger depot(c)} :: depot(c)
  }

  lemma WholeStays(t: Table, m: Chains, u: Table, m': Chains, cs: seq<Handle>)
    requires Whole(t, m, cs) && MapKept(t, m, u, m')
    ensures Whole(u, m', cs)
  {
    forall x | x in cs
      ensures x in t && x in u && x in m' && m'[x] == cs && SameStand(t[x], u[x])
    {
      NotAboard(t, cs, x);
      assert StaysAt(t, m, u, m', x);
    }
    assert forall i :: 0 <= i < |cs| ==> cs[i] in cs;
    GoodKept(t, u, cs);
  }

  /** The first n convoys of the chain carry nothing. */
  ghost predicate EmptyUpTo(t: Table, cs: seq<Handle>, n: int) {
    0 <= n <= |cs| && forall i :: 0 <= i < n ==> cs[i] in t && t[cs[i]].shipped == []
  }

  lemma EmptyStays(t: Table, m: Chains, u: Table, m': Chains, cs: seq<Handle>, n: nat)
    requires Whole(t, m, cs) && MapKept(t, m, u, m') && EmptyUpTo(t, cs, n) && n < |cs|
    requires cs[n] in u && u[cs[n]].shipped == []
    ensures EmptyUpTo(u, cs, n + 1)
  {
    forall i | 0 <= i < n
      ensures cs[i] in u && u[cs[i]].shipped == []
    {
      assert cs[i] in cs;
      NotAboard(t, cs, cs[i]);
      assert StaysAt(t, m, u, m', cs[i]);
    }
  }

  /** Nobody was lost but convoys that knew their carrier. */
  ghost predicate OnlyCarriedLost(t: Table, u: Table) {
    forall x :: x in t && x !in u ==> t[x].carrier != UNBOUND
  }

  lemma CarriedLost(t: Table, u: Table, m': Chains, v: Table, c: Handle)
    requires Fleet(u, m') && CarriersKept(t, u) && OnlyCarriedLost(t, u) && c in u
    requires OnlyListedLost(u, v, u[c].shipped) && CarriersKept(u, v)
    ensures OnlyCarriedLost(t, v) && CarriersKept(t, v)
  {
    assert Sound(u, m', c);
  }

  lemma CarriedHeads(t: Table, m: Chains, u: Table)
    requires Fleet(t, m) && OnlyCarriedLost(t, u)
    ensures OnlyHeadsLost(t, m, u)
  {
    forall x | x in t && x !in u
      ensures x in m && t[x].state.Shipped? && |m[x]| > 0 && m[x][0] == x
    {
      assert Sound(t, m, x);
    }
  }

  lemma AboardNone(t: Table, cs: seq<Handle>)
    requires OnMap(t, cs)
    ensures forall x :: x in cs ==> x in t && !t[x].state.Shipped?
  {
    forall x | x in cs
      ensures x in t && !t[x].state.Shipped?
    {
      NotAboard(t, cs, x);
    }
  }

  lemma OnMapNotFiled(t: Table, cs: seq<Handle>)
    requires OnMap(t, cs)
    ensures forall x :: x in cs ==> x in t && !t[x].state.Initial?
  {
    forall x | x in cs
      ensures x in t && !t[x].state.Initial?
    {
      var i :| 0 <= i < |cs| && cs[i] == x;
      assert OnMapAt(t, cs, i);
    }
  }

  /** Whoever was aboard one of the first n convoys of the chain is in a depot, or lost if there is
      none for it. */
  ghost predicate AllForced(t: Table, m: Chains, u: Table, m': Chains, filed: seq<Handle>, depot: Handle -> bool,
                            cs: seq<Handle>, n: int)
  {
    && 0 <= n <= |cs|
    && forall i {:trigger cs[i]} :: 0 <= i < n ==> cs[i] in t && ForcedFrom(t, m, u, m', filed, depot, cs[i])
  }

  ghost predicate ForcedFrom(t: Table, m: Chains, u: Table, m': Chains, filed: seq<Handle>, depot: Handle -> bool,
                             k: Handle)
    requires k in t
  {
    forall c :: c in t[k].shipped ==> c in m && Forced(m, u, m', filed, depot, c)
  }

  /** Whoever got off by force stays where he is when another carrier is emptied. */
  lemma ForcedStays(m: Chains, u: Table, m': Chains, v: Table, m'': Chains, filed: seq<Handle>, now: seq<Handle>,
                    depot: Handle -> bool, k: Handle, c: Handle)
    requires c in m && Forced(m, u, m', filed, depot, c) && Fleet(u, m') && k in u && v.Keys <= u.Keys
    requires OthersKept(u, m', v, m'', [k]) && !u[k].state.Initial? && !u[k].state.Shipped?
    requires forall x :: x in filed ==> x in now
    ensures Forced(m, v, m'', now, depot, c)
  {
    if c in u {
      assert UntouchedAt(u, m', v, m'', [k], c);
    } else {
      forall y | y in m[c][1..]
        ensures y in v && v[y] == u[y] && y in m'' && m''[y] == m'[y]
      {
        assert m[c][1..][0] in m[c][1..] && UntouchedAt(u, m', v, m'', [k], y);
      }
    }
  }

  /** The i-th carrier is as it was when its turn comes. */
  lemma StillCarries(t: Table, m: Chains, u: Table, m': Chains, cs: seq<Handle>, i: nat)
    requires Fleet(t, m) && Whole(t, m, cs) && i < |cs| && OthersKept(t, m, u, m', cs[..i])
    ensures cs[i] in t && cs[i] in u && u[cs[i]] == t[cs[i]]
    ensures forall c :: c in t[cs[i]].shipped ==> c in m && c in m' && m'[c] == m[c]
  {
    AboardNone(t, cs);
    var k := cs[i];
    assert k in cs && k !in cs[..i] && UntouchedAt(t, m, u, m', cs[..i], k);
    forall c | c in t[k].shipped
      ensures c in m && c in m' && m'[c] == m[c]
    {
      ListedWalk(t, m, k, c);
      AboardShipped(t, m[c]);
      assert c in m[c] && (c in cs[..i] ==> c in cs) && UntouchedAt(t, m, u, m', cs[..i], c);
    }
  }

  /** One carrier of the chain more is empty. */
  lemma ForcedNext(t: Table, m: Chains, u: Table, m': Chains, v: Table, m'': Chains, filed: seq<Handle>,
                   now: seq<Handle>, depot: Handle -> bool, cs: seq<Handle>, i: nat)
    requires Fleet(t, m) && Whole(t, m, cs) && Fleet(u, m') && Whole(u, m', cs) && i < |cs| && v.Keys <= u.Keys
    requires OthersKept(t, m, u, m', cs[..i]) && AllForced(t, m, u, m', filed, depot, cs, i)
    requires cs[i] in u && OthersKept(u, m', v, m'', [cs[i]]) && (forall x :: x in filed ==> x in now)
    requires forall c :: c in u[cs[i]].shipped ==> c in m' && Forced(m', v, m'', now, depot, c)
    ensures OthersKept(t, m, v, m'', cs[..i + 1]) && AllForced(t, m, v, m'', now, depot, cs, i + 1)
  {
    var k, done := cs[i], cs[..i + 1];
    AboardNone(t, cs);
    AboardNone(u, cs);
    OnMapNotFiled(u, cs);
    StillCarries(t, m, u, m', cs, i);
    assert done == cs[..i] + [k] && k in cs;
    OthersKeptWiden(t, m, u, m', cs[..i], done);
    OthersKeptWiden(u, m', v, m'', [k], done);
    assert forall x :: x in done ==> x in cs;
    OthersKeptTwice(t, m, u, m', v, m'', done);
    forall j | 0 <= j < i + 1
      ensures cs[j] in t && ForcedFrom(t, m, v, m'', now, depot, cs[j])
    {
      assert cs[j] in cs;
      forall c | j < i && c in t[cs[j]].shipped
        ensures c in m && Forced(m, v, m'', now, depot, c)
      {
        assert ForcedFrom(t, m, u, m', filed, depot, cs[j]);
        ForcedStays(m, u, m', v, m'', filed, now, depot, k, c);
      }
    }
  }

  /** So they do when the chain itself is filed. */
  lemma AllForcedFiled(t: Table, m: Chains, u: Table, m': Chains, v: Table, filed: seq<Handle>, now: seq<Handle>,
                       depot: Handle -> bool, cs: seq<Handle>)
    requires AllForced(t, m, u, m', filed, depot, cs, |cs|) && OnMap(u, cs) && ElseKept(u, m', v, m', cs)
    requires (forall x :: x in filed ==> x in now) && u.Keys == m'.Keys
    ensures AllForced(t, m, v, m', now, depot, cs, |cs|)
  {
    AboardNone(u, cs);
    OnMapNotFiled(u, cs);
    forall j | 0 <= j < |cs|
      ensures cs[j] in t && ForcedFrom(t, m, v, m', now, depot, cs[j])
    {
      assert ForcedFrom(t, m, u, m', filed, depot, cs[j]);
      forall c | c in t[cs[j]].shipped
        ensures c in m && Forced(m, v, m', now, depot, c)
      {
        assert Forced(m, u, m', filed, depot, c);
      }
    }
  }

  /** And when it leaves again. */
  lemma AllForcedStarted(t: Table, m: Chains, u: Table, m': Chains, v: Table, filed: seq<Handle>, now: seq<Handle>,
                         depot: Handle -> bool, cs: seq<Handle>)
    requires Fleet(t, m) && Whole(t, m, cs) && AllForced(t, m, u, m', filed, depot, cs, |cs|)
    requires ElseKept(u, m', v, m', cs) && v.Keys == u.Keys == m'.Keys
    requires forall x :: x in now <==> x in filed && x !in cs
    ensures AllForced(t, m, v, m', now, depot, cs, |cs|)
  {
    AboardNone(t, cs);
    forall j | 0 <= j < |cs|
      ensures cs[j] in t && ForcedFrom(t, m, v, m', now, depot, cs[j])
    {
      assert ForcedFrom(t, m, u, m', filed, depot, cs[j]) && cs[j] in cs;
      forall c | c in t[cs[j]].shipped
        ensures c in m && Forced(m, v, m', now, depot, c)
      {
        ListedWalk(t, m, cs[j], c);
        AboardShipped(t, m[c]);
        assert Forced(m, u, m', filed, depot, c) && c in m[c];
        assert forall y :: y in m[c] ==> y !in cs;
      }
    }
  }

  /** The first n carriers of the chain have been emptied. */
  ghost predicate Emptied(t: Table, m: Chains, u: Table, m': Chains, filed: seq<Handle>, now: seq<Handle>,
                          depot: Handle -> bool, cs: seq<Handle>, n: nat)
  {
    && n <= |cs| && Whole(u, m', cs) && EmptyUpTo(u, cs, n) && MapKept(t, m, u, m') && ListGrown(t, filed, now)
    && Alighted(t, m, u, m') && CarriersKept(t, u) && OnlyCarriedLost(t, u)
    && OthersKept(t, m, u, m', cs[..n]) && AllForced(t, m, u, m', now, depot, cs, n)
  }

  lemma NothingEmptied(t: Table, m: Chains, filed: seq<Handle>, depot: Handle -> bool, cs: seq<Handle>)
    requires Fleet(t, m) && Whole(t, m, cs)
    ensures Emptied(t, m, t, m, filed, filed, depot, cs, 0)
  {
    NothingMoved(t, m);
    NobodyAlighted(t, m);
    OthersKeptFirst(t, m, cs[..0]);
  }

  lemma EmptiedNext(t: Table, m: Chains, u: Table, m': Chains, v: Table, m'': Chains, filed: seq<Handle>,
                    next: seq<Handle>, now: seq<Handle>, depot: Handle -> bool, cs: seq<Handle>, i: nat)
    requires Fleet(t, m) && Whole(t, m, cs) && Fleet(u, m') && i < |cs|
    requires Emptied(t, m, u, m', filed, next, depot, cs, i) && ListGrown(u, next, now)
    requires cs[i] in u && cs[i] in v && v[cs[i]].shipped == [] && CarriersKept(u, v)
    requires Unloaded(u, m', v, m'', cs[i], u[cs[i]].shipped)
    requires forall c :: c in u[cs[i]].shipped ==> c in m' && Forced(m', v, m'', now, depot, c)
    ensures Emptied(t, m, v, m'', filed, now, depot, cs, i + 1)
  {
    MapKeptTwice(t, m, u, m', v, m'');
    AlightedTwice(t, m, u, m', v, m'');
    ForcedNext(t, m, u, m', v, m'', next, now, depot, cs, i);
    ListGrownTwice(t, m, u, m', filed, next, now);
    CarriedLost(t, u, m', v, cs[i]);
    WholeStays(u, m', v, m'', cs);
    EmptyStays(u, m', v, m'', cs, i);
  }

  /** Empties one carrier more. */
  method EmptyNext(w: Welt, dep: Depot, c: Handle, depot: Handle -> bool, ghost t: Table, ghost m: Chains,
                   ghost filed: seq<Handle>, ghost cs: seq<Handle>, ghost i: nat, ghost L: nat) returns (next: Handle)
    requires w.Valid() && Stowed(w.cnv, w.chainOf, L) && c in w.cnv && Fleet(t, m) && Whole(t, m, cs)
    requires Emptied(t, m, w.cnv, w.chainOf, filed, dep.convois, depot, cs, i) && i < |cs| && c == cs[i]
    modifies w, dep
    ensures w.Valid() && Stowed(w.cnv, w.chainOf, L)
    ensures Emptied(t, m, w.cnv, w.chainOf, filed, dep.convois, depot, cs, i + 1)
    ensures if i + 1 < |cs| then next == cs[i + 1] else next !in w.cnv
    ensures Lists(old(w.cnv), old(w.chainOf), old(dep.convois)) ==> Lists(w.cnv, w.chainOf, dep.convois)
    ensures Cared(old(w.cnv), old(w.chainOf)) && Everywhere(depot) ==> Cared(w.cnv, w.chainOf)
  {
    ghost var u, m', list := w.cnv, w.chainOf, dep.convois;
    DisembarkAllForced(w, dep, c, depot, L);
    EmptiedNext(t, m, u, m', w.cnv, w.chainOf, filed, list, dep.convois, depot, cs, i);
    assert OnMapAt(w.cnv, cs, i);
    next := w.cnv[c].coupling;
  }

  /** Gets everybody off who is aboard a convoy of the chain. */
  method EmptyChain(w: Welt, dep: Depot, self: Handle, depot: Handle -> bool, ghost cs: seq<Handle>, ghost L: nat)
    requires w.Valid() && Stowed(w.cnv, w.chainOf, L) && Whole(w.cnv, w.chainOf, cs) && cs[0] == self
    modifies w, dep
    ensures w.Valid() && Stowed(w.cnv, w.chainOf, L) && Whole(w.cnv, w.chainOf, cs) && EmptyUpTo(w.cnv, cs, |cs|)
    ensures MapKept(old(w.cnv), old(w.chainOf), w.cnv, w.chainOf)
    ensures OthersKept(old(w.cnv), old(w.chainOf), w.cnv, w.chainOf, cs)
    ensures Lists(old(w.cnv), old(w.chainOf), old(dep.convois)) ==> Lists(w.cnv, w.chainOf, dep.convois)
    ensures AllForced(old(w.cnv), old(w.chainOf), w.cnv, w.chainOf, dep.convois, depot, cs, |cs|)
    ensures ListGrown(old(w.cnv), old(dep.convois), dep.convois)
    ensures Alighted(old(w.cnv), old(w.chainOf), w.cnv, w.chainOf) && OnlyHeadsLost(old(w.cnv), old(w.chainOf), w.cnv)
    ensures Cared(old(w.cnv), old(w.chainOf)) && Everywhere(depot) ==> Cared(w.cnv, w.chainOf)
  {
    ghost var t, m, i := w.cnv, w.chainOf, 0;
    ghost var listed, cared, filed := Lists(t, m, dep.convois), Cared(t, m) && Everywhere(depot), dep.convois;
    NothingEmptied(t, m, filed, depot, cs);
    assert OnMapAt(t, cs, 0);
    var c := self;
    while c in w.cnv
      invariant w.Valid() && Stowed(w.cnv, w.chainOf, L)
      invariant Emptied(t, m, w.cnv, w.chainOf, filed, dep.convois, depot, cs, i)
      invariant if i < |cs| then c == cs[i] else c !in w.cnv
      invariant (listed ==> Lists(w.cnv, w.chainOf, dep.convois)) && (cared ==> Cared(w.cnv, w.chainOf))
      decreases |cs| - i
    {
      c := EmptyNext(w, dep, c, depot, t, m, filed, cs, i, L);
      i := i + 1;
    }
    CarriedHeads(t, m, w.cnv);
    assert cs[..i] == cs;
  }

  /** What a chain is once it was filed. */
  ghost predicate FiledChain(t: Table, m: Chains, list: seq<Handle>, cs: seq<Handle>) {
    InDepot(t, cs) && forall x :: x in cs ==> x in t && x in m && m[x] == cs && x in list && InBaseOrder(t[x])
  }

  /** Whoever was filed remembers whether it had turned, and is built as before. */
  ghost predicate Noted(t: Table, u: Table, cs: seq<Handle>) {
    forall x :: x in cs ==>
      && x in t && x in u && u[x].reversingNeeded == (t[x].reversingNeeded || t[x].reversed)
      && u[x].build == t[x].build
  }

  lemma FiledNoted(t: Table, u: Table, cs: seq<Handle>)
    requires Filing(t, u, cs, |cs|)
    ensures Noted(t, u, cs)
  {
    forall x | x in cs
      ensures x in t && x in u && u[x].build == t[x].build
      ensures u[x].reversingNeeded == (t[x].reversingNeeded || t[x].reversed)
    {
      var i :| 0 <= i < |cs| && cs[i] == x;
      assert FiledAt(t, u, cs, i);
    }
  }

  /** Emptying the chain before has changed nothing about that. */
  lemma NotedBefore(t: Table, m: Chains, u: Table, m': Chains, v: Table, cs: seq<Handle>)
    requires OnMap(t, cs) && MapKept(t, m, u, m') && Noted(u, v, cs)
    ensures Noted(t, v, cs)
  {
    AboardNone(t, cs);
    forall x | x in cs
      ensures x in t && x in u && u[x].reversed == t[x].reversed && u[x].reversingNeeded == t[x].reversingNeeded
      ensures x in t && x in u && u[x].build == t[x].build
    {
      assert StaysAt(t, m, u, m', x);
    }
  }

  /** Filing an empty chain keeps everything in order. */
  lemma {:induction false} FiledWell(t: Table, m: Chains, u: Table, cs: seq<Handle>, list: seq<Handle>, L: nat)
    requires Fleet(t, m) && Stowed(t, m, L) && Whole(t, m, cs) && EmptyUpTo(t, cs, |cs|) && Filing(t, u, cs, |cs|)
    ensures Fleet(u, m) && Stowed(u, m, L) && ElseKept(t, m, u, m, cs) && FiledChain(u, m, AddedAll(list, cs), cs)
    ensures Lists(t, m, list) ==> Lists(u, m, AddedAll(list, cs))
    ensures Alighted(t, m, u, m) && u.Keys == t.Keys && (Cared(t, m) ==> Cared(u, m))
  {
    FleetFiled(t, m, u, cs);
    FiledHolds(t, u, cs);
    AddedMembers(list, cs);
    forall x | x in cs
      ensures x in t && !t[x].state.Shipped? && !t[x].state.Initial? && x in u && u[x].state.Initial?
      ensures InBaseOrder(u[x])
    {
      NotAboard(t, cs, x);
      var i :| 0 <= i < |cs| && cs[i] == x;
      assert InDepotAt(u, cs, i);
      FiledInBase(u, m, x);
    }
    assert cs[0] in cs && UniformAt(t, m, cs[0]);
    StowedOnMap(t, m, u, m, cs, L);
    AboardUntouched(t, m, u, m, cs);
    if Lists(t, m, list) {
      ListsOnMap(t, m, u, m, cs, list);
      ListsAdded(u, m, list, cs);
    }
  }

  /** Nothing happened but to the convoys of `cs`, and that others got off. */
  ghost predicate MapKeptBut(t: Table, m: Chains, u: Table, m': Chains, cs: seq<Handle>) {
    m.Keys == t.Keys && forall x {:trigger StaysAt(t, m, u, m', x)} :: x in t && x !in cs ==> StaysAt(t, m, u, m', x)
  }

  lemma ElseOthers(t: Table, m: Chains, u: Table, m': Chains, cs: seq<Handle>)
    requires ElseKept(t, m, u, m', cs) && t.Keys == m.Keys
    ensures OthersKept(t, m, u, m', cs)
  {
  }

  lemma KeptBut(t: Table, m: Chains, u: Table, m': Chains, v: Table, cs: seq<Handle>)
    requires MapKept(t, m, u, m') && ElseKept(u, m', v, m', cs) && m'.Keys == u.Keys
    ensures MapKeptBut(t, m, v, m', cs)
  {
    forall x | x in t && x !in cs
      ensures StaysAt(t, m, v, m', x)
    {
      assert StaysAt(t, m, u, m', x);
    }
  }

  /** A chain enters a depot: first everybody aboard one of its convoys gets off. */
  method EnterDepot(w: Welt, dep: Depot, self: Handle, depot: Handle -> bool, ghost cs: seq<Handle>, ghost L: nat)
    requires w.Valid() && Stowed(w.cnv, w.chainOf, L) && Whole(w.cnv, w.chainOf, cs) && cs[0] == self
    modifies w, dep
    ensures w.Valid() && Stowed(w.cnv, w.chainOf, L) && FiledChain(w.cnv, w.chainOf, dep.convois, cs)
    ensures MapKeptBut(old(w.cnv), old(w.chainOf), w.cnv, w.chainOf, cs)
    ensures OthersKept(old(w.cnv), old(w.chainOf), w.cnv, w.chainOf, cs)
    ensures Lists(old(w.cnv), old(w.chainOf), old(dep.convois)) ==> Lists(w.cnv, w.chainOf, dep.convois)
    ensures AllForced(old(w.cnv), old(w.chainOf), w.cnv, w.chainOf, dep.convois, depot, cs, |cs|)
    ensures ListGrown(old(w.cnv), old(dep.convois), dep.convois) && Noted(old(w.cnv), w.cnv, cs)
    ensures Alighted(old(w.cnv), old(w.chainOf), w.cnv, w.chainOf) && OnlyHeadsLost(old(w.cnv), old(w.chainOf), w.cnv)
    ensures Cared(old(w.cnv), old(w.chainOf)) && Everywhere(depot) ==> Cared(w.cnv, w.chainOf)
  {
    ghost var t, m := w.cnv, w.chainOf;
    EmptyChain(w, dep, self, depot, cs, L);
    ghost var u, m', list := w.cnv, w.chainOf, dep.convois;
    ReadyToFile(u, m', cs);
    BetreteDepot(w, dep, self, cs);
    FiledWell(u, m', w.cnv, cs, list, L);
    FiledNoted(u, w.cnv, cs);
    NotedBefore(t, m, u, m', w.cnv, cs);
    KeptBut(t, m, u, m', w.cnv, cs);
    AboardNone(t, cs);
    ElseOthers(u, m', w.cnv, m', cs);
    OthersKeptTwice(t, m, u, m', w.cnv, m', cs);
    AlightedTwice(t, m, u, m', w.cnv, m');
    OnMapNotFiled(u, cs);
    ListGrownAll(u, list, cs);
    ListGrownTwice(t, m, u, m', old(dep.convois), list, dep.convois);
    AllForcedFiled(t, m, u, m', w.cnv, list, dep.convois, depot, cs);
  }

  /** A filed chain that left keeps everything in order. */
  lemma {:induction false} StartedWell(t: Table, m: Chains, u: Table, cs: seq<Handle>, list: seq<Handle>, L: nat)
    requires Fleet(t, m) && Stowed(t, m, L) && Lists(t, m, list) && FiledChain(t, m, list, cs)
    requires Fleet(u, m) && Whole(u, m, cs) && LoadsKept(t, u) && ElseKept(t, m, u, m, cs)
    ensures Stowed(u, m, L) && Lists(u, m, WithoutAll(list, cs))
    ensures Alighted(t, m, u, m) && u.Keys == t.Keys && (Cared(t, m) ==> Cared(u, m))
  {
    LoadsHold(t, u);
    forall x | x in cs
      ensures x in t && t[x].state.Initial? && x in u && !u[x].state.Shipped?
    {
      var i :| 0 <= i < |cs| && cs[i] == x;
      assert InDepotAt(t, cs, i);
      NotAboard(u, cs, x);
    }
    assert cs[0] in cs && UniformAt(t, m, cs[0]);
    StowedOnMap(t, m, u, m, cs, L);
    ListsWithout(t, m, u, list, cs);
    AboardUntouched(t, m, u, m, cs);
  }

  lemma ListedFiled(t: Table, m: Chains, list: seq<Handle>, x: Handle)
    requires Fleet(t, m) && Lists(t, m, list) && x in list
    ensures x in t && x in m && FiledChain(t, m, list, m[x])
  {
    var k := ChainOf(t, m, x);
    forall y | y in m[x]
      ensures y in t && InBaseOrder(t[y])
    {
      assert y in list;
      FiledInBase(t, m, y);
    }
  }

  /** Starting a convoy of the list. Only the head of a chain can be started, and the whole
      chain leaves with it, in base order. */
  method StartFromDepot(w: Welt, dep: Depot, self: Handle, ready: bool, ghost L: nat) returns (ok: bool)
    requires w.Valid() && Stowed(w.cnv, w.chainOf, L) && Lists(w.cnv, w.chainOf, dep.convois) && self in dep.convois
    modifies w, dep
    ensures w.Valid() && Stowed(w.cnv, w.chainOf, L) && Lists(w.cnv, w.chainOf, dep.convois)
    ensures w.chainOf == old(w.chainOf)
    ensures self in w.chainOf && |w.chainOf[self]| > 0 && (ok <==> w.chainOf[self][0] == self && ready)
    ensures !ok ==> w.cnv == old(w.cnv) && dep.convois == old(dep.convois)
    ensures ok ==> Whole(w.cnv, w.chainOf, w.chainOf[self]) && LoadsKept(old(w.cnv), w.cnv)
    ensures ok ==> ElseKept(old(w.cnv), w.chainOf, w.cnv, w.chainOf, w.chainOf[self])
    ensures ok ==> forall x :: x in w.chainOf[self] ==>
              x in w.cnv && InBaseOrder(w.cnv[x]) && w.cnv[x].state == if x == self then Routing1 else Coupled
    ensures ok ==> dep.convois == WithoutAll(old(dep.convois), w.chainOf[self])
    ensures ok ==> forall x :: x in dep.convois <==> x in old(dep.convois) && x !in w.chainOf[self]
    ensures Alighted(old(w.cnv), w.chainOf, w.cnv, w.chainOf) && w.cnv.Keys == old(w.cnv).Keys
    ensures Cared(old(w.cnv), old(w.chainOf)) ==> Cared(w.cnv, w.chainOf)
  {
    ghost var t, m, list := w.cnv, w.chainOf, dep.convois;
    ghost var cs := m[self];
    ghost var k := ChainOf(t, m, self);
    ListedFiled(t, m, list, self);
    NobodyAlighted(t, m);
    ok := StartConvoi(w, dep, self, ready, cs, k);
    assert cs[0] == self ==> k == 0;
    if ok {
      StartedWell(t, m, w.cnv, cs, list, L);
      WithoutAllMembers(list, cs);
      forall x | x in cs
        ensures x in w.cnv && InBaseOrder(w.cnv[x])
      {
        assert SameLoad(t[x], w.cnv[x]);
      }
    }
  }

  /** A visit to a depot: whatever the order of its vehicles was, the chain leaves with the
      same convoys in the same order, linked both ways again, and every vehicle in base order.
      Nobody else on the map or in a depot notices. */
  method DepotVisit(w: Welt, dep: Depot, self: Handle, depot: Handle -> bool, ghost cs: seq<Handle>, ghost L: nat)
    requires w.Valid() && Stowed(w.cnv, w.chainOf, L) && Lists(w.cnv, w.chainOf, dep.convois)
    requires Whole(w.cnv, w.chainOf, cs) && cs[0] == self
    modifies w, dep
    ensures w.Valid() && Stowed(w.cnv, w.chainOf, L) && Lists(w.cnv, w.chainOf, dep.convois)
    ensures Whole(w.cnv, w.chainOf, cs)
    ensures forall x :: x in cs ==> x in w.cnv && InBaseOrder(w.cnv[x]) && x !in dep.convois
    ensures AllForced(old(w.cnv), old(w.chainOf), w.cnv, w.chainOf, dep.convois, depot, cs, |cs|)
    ensures ListGrown(old(w.cnv), old(dep.convois), dep.convois)
    ensures MapKeptBut(old(w.cnv), old(w.chainOf), w.cnv, w.chainOf, cs)
    ensures OthersKept(old(w.cnv), old(w.chainOf), w.cnv, w.chainOf, cs)
    ensures Alighted(old(w.cnv), old(w.chainOf), w.cnv, w.chainOf) && OnlyHeadsLost(old(w.cnv), old(w.chainOf), w.cnv)
    ensures Cared(old(w.cnv), old(w.chainOf)) && Everywhere(depot) ==> Cared(w.cnv, w.chainOf)
  {
    ghost var t, m, list := w.cnv, w.chainOf, dep.convois;
    EnterDepot(w, dep, self, depot, cs, L);
    ghost var u, m', filed := w.cnv, w.chainOf, dep.convois;
    assert self in cs;
    var ok := StartFromDepot(w, dep, self, true, L);
    KeptButTwice(t, m, u, m', w.cnv, cs);
    AlightedTwice(t, m, u, m', w.cnv, m');
    AllForcedStarted(t, m, u, m', w.cnv, filed, dep.convois, depot, cs);
    OthersStarted(t, m, u, m', w.cnv, cs);
    ListStarted(t, m, list, filed, cs);
  }

  lemma OthersStarted(t: Table, m: Chains, u: Table, m': Chains, v: Table, cs: seq<Handle>)
    requires Fleet(t, m) && Fleet(u, m') && OnMap(t, cs)
    requires OthersKept(t, m, u, m', cs) && ElseKept(u, m', v, m', cs)
    ensures OthersKept(t, m, v, m', cs)
  {
    AboardNone(t, cs);
    ElseOthers(u, m', v, m', cs);
    OthersKeptTwice(t, m, u, m', v, m', cs);
  }

  lemma {:induction false} ListStarted(t: Table, m: Chains, list: seq<Handle>, filed: seq<Handle>, cs: seq<Handle>)
    requires Lists(t, m, list) && OnMap(t, cs) && ListGrown(t, list, filed)
    requires Distinct(filed)
    ensures ListGrown(t, list, WithoutAll(filed, cs))
  {
    OnMapNotFiled(t, cs);
    forall i, j | 0 <= i < |list| && 0 <= j < |cs|
      ensures list[i] != cs[j]
    {
      assert list[i] in list && cs[j] in cs;
    }
    FrontStaysAll(filed, list, cs);
    WithoutAllMembers(filed, cs);
  }

  lemma KeptButTwice(t: Table, m: Chains, u: Table, m': Chains, v: Table, cs: seq<Handle>)
    requires MapKeptBut(t, m, u, m', cs) && ElseKept(u, m', v, m', cs) && m'.Keys == u.Keys
    ensures MapKeptBut(t, m, v, m', cs)
  {
    forall x | x in t && x !in cs
      ensures StaysAt(t, m, v, m', x)
    {
      assert StaysAt(t, m, u, m', x);
    }
  }
}
