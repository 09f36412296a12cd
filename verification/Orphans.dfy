/** Convoys aboard nothing: where they come from. */
module Orphans {
  import opened Convois
  import opened Coupling
  import opened Shipping

  /** A convoy aboard is aboard something: the head of its chain knows its carrier. */
  ghost predicate CaredAt(t: Table, m: Chains, x: Handle)
    requires x in t && x in m
  {
    t[x].state.Shipped? ==> |m[x]| > 0 && m[x][0] in t && t[m[x][0]].carrier != UNBOUND
  }

  ghost predicate Cared(t: Table, m: Chains) {
    t.Keys == m.Keys && forall x {:trigger CaredAt(t, m, x)} :: x in t ==> CaredAt(t, m, x)
  }

  /** If x is aboard nothing, then it was so before, or a convoy of its chain was lost. Its
      chain, if it was aboard all the time, may have been cut, but did not grow. */
  ghost predicate OrphanAt(t: Table, m: Chains, u: Table, m': Chains, x: Handle)
    requires x in u && x in m'
  {
    && x in t && x in m
    && (t[x].state.Shipped? && u[x].state.Shipped? ==> forall y :: y in m'[x] ==> y in m[x])
    && (CaredAt(u, m', x) || (t[x].state.Shipped? && (CaredAt(t, m, x) ==> exists y :: y in m[x] && y in t && y !in u)))
  }

  /** Nobody is aboard nothing without a reason. */
  ghost predicate Explained(t: Table, m: Chains, u: Table, m': Chains) {
    && t.Keys == m.Keys && u.Keys == m'.Keys && u.Keys <= t.Keys
    && forall x {:trigger OrphanAt(t, m, u, m', x)} :: x in u ==> OrphanAt(t, m, u, m', x)
  }

  /** Nobody was lost but heads of chains aboard. */
  ghost predicate OnlyHeadsLost(t: Table, m: Chains, u: Table) {
    forall x :: x in t && x !in u ==> x in m && t[x].state.Shipped? && |m[x]| > 0 && m[x][0] == x
  }

  /** Whoever is aboard nothing now was so before, or was pulled by a head that was lost. */
  ghost predicate Accounted(t: Table, m: Chains, u: Table, m': Chains) {
    Explained(t, m, u, m') && OnlyHeadsLost(t, m, u)
  }

  lemma NobodyAlighted(t: Table, m: Chains)
    requires t.Keys == m.Keys
    ensures Alighted(t, m, t, m)
  {
    forall x | x in t
      ensures OrphanAt(t, m, t, m, x)
    {
    }
  }

  /** Nobody went aboard. */
  ghost predicate NobodyBoards(t: Table, u: Table) {
    u.Keys <= t.Keys && forall x :: x in u && u[x].state.Shipped? ==> t[x].state.Shipped?
  }

  /** Nobody has another carrier than before. */
  ghost predicate CarriersKept(t: Table, u: Table) {
    u.Keys <= t.Keys && forall x :: x in u && u[x].carrier != UNBOUND ==> u[x].carrier == t[x].carrier
  }

  /** Some got off, and whoever is left aboard nothing is so for a reason. */
  ghost predicate Alighted(t: Table, m: Chains, u: Table, m': Chains) {
    Explained(t, m, u, m') && NobodyBoards(t, u)
  }

  /** One step after the other, as long as nobody goes aboard. */
  lemma AlightedTwice(t: Table, m: Chains, u: Table, m': Chains, v: Table, m'': Chains)
    requires Alighted(t, m, u, m') && Alighted(u, m', v, m'')
    ensures Alighted(t, m, v, m'')
  {
    forall x | x in v
      ensures OrphanAt(t, m, v, m'', x)
    {
      assert OrphanAt(u, m', v, m'', x) && OrphanAt(t, m, u, m', x);
    }
  }

  /** If nobody is lost, nobody loses his carrier. */
  lemma CaredAfter(t: Table, m: Chains, u: Table, m': Chains)
    requires Explained(t, m, u, m') && t.Keys <= u.Keys
    ensures Cared(t, m) ==> Cared(u, m')
  {
    if Cared(t, m) {
      forall x | x in u
        ensures CaredAt(u, m', x)
      {
        assert OrphanAt(t, m, u, m', x) && CaredAt(t, m, x);
      }
    }
  }

  /** Whoever lost his carrier was pulled by a head that was lost. */
  lemma HeadWasLost(t: Table, m: Chains, u: Table, m': Chains, x: Handle)
    requires Fleet(t, m) && Accounted(t, m, u, m') && x in u && !CaredAt(u, m', x)
    ensures x in t && x in m && t[x].state.Shipped?
    ensures CaredAt(t, m, x) ==> |m[x]| > 0 && m[x][0] in t && m[x][0] !in u
  {
    assert OrphanAt(t, m, u, m', x);
    if CaredAt(t, m, x) {
      var y :| y in m[x] && y in t && y !in u;
      assert Sound(t, m, x);
    }
  }

  lemma HeadAboard(t: Table, m: Chains, x: Handle)
    requires Fleet(t, m) && x in t && x in m && |m[x]| > 0 && t[x].state.Shipped?
    ensures m[x][0] in t && t[m[x][0]].state.Shipped?
  {
    assert Sound(t, m, x);
    var cs := m[x];
    var i :| 0 <= i < |cs| && cs[i] == x;
    assert OnMap(t, cs) ==> OnMapAt(t, cs, i);
    assert InDepot(t, cs) ==> InDepotAt(t, cs, i);
    assert Aboard(t, cs) ==> AboardAt(t, cs, 0);
  }

  /** What happens on the map or in a depot takes nobody his carrier. */
  lemma AboardUntouched(t: Table, m: Chains, u: Table, m': Chains, cs: seq<Handle>)
    requires Fleet(t, m) && ElseKept(t, m, u, m', cs) && u.Keys == m'.Keys
    requires forall x :: x in cs ==> x in t && x in u && !t[x].state.Shipped? && !u[x].state.Shipped?
    ensures Alighted(t, m, u, m') && u.Keys == t.Keys && (Cared(t, m) ==> Cared(u, m'))
  {
    forall x | x in u
      ensures OrphanAt(t, m, u, m', x)
    {
      if x !in cs && t[x].state.Shipped? {
        assert Sound(t, m, x);
        HeadAboard(t, m, x);
      }
    }
    CaredAfter(t, m, u, m');
  }

  /** x is aboard one of the carriers. */
  ghost predicate AboardOf(t: Table, m: Chains, carriers: seq<Handle>, x: Handle)
    requires x in t && x in m
  {
    t[x].state.Shipped? && |m[x]| > 0 && m[x][0] in t && t[m[x][0]].carrier in carriers
  }

  /** x is exactly as before, unless it is one of the carriers or aboard one of them. */
  ghost predicate UntouchedAt(t: Table, m: Chains, u: Table, m': Chains, carriers: seq<Handle>, x: Handle)
    requires x in t && x in m
  {
    x in carriers || AboardOf(t, m, carriers, x) || (x in u && x in m' && u[x] == t[x] && m'[x] == m[x])
  }

  /** Nobody noticed but these carriers and whoever is aboard them: all others are where they were,
      with all that they carry. */
  ghost predicate OthersKept(t: Table, m: Chains, u: Table, m': Chains, carriers: seq<Handle>) {
    && t.Keys == m.Keys
    && forall x {:trigger UntouchedAt(t, m, u, m', carriers, x)} :: x in t ==> UntouchedAt(t, m, u, m', carriers, x)
  }

  lemma OthersKeptFirst(t: Table, m: Chains, carriers: seq<Handle>)
    requires t.Keys == m.Keys
    ensures OthersKept(t, m, t, m, carriers)
  {
  }

  lemma OthersKeptWiden(t: Table, m: Chains, u: Table, m': Chains, some: seq<Handle>, carriers: seq<Handle>)
    requires OthersKept(t, m, u, m', some) && forall x :: x in some ==> x in carriers
    ensures OthersKept(t, m, u, m', carriers)
  {
    forall x | x in t
      ensures UntouchedAt(t, m, u, m', carriers, x)
    {
      assert UntouchedAt(t, m, u, m', some, x);
    }
  }

  /** One step after the other, at carriers that are not themselves aboard. */
  lemma OthersKeptTwice(t: Table, m: Chains, u: Table, m': Chains, v: Table, m'': Chains, carriers: seq<Handle>)
    requires Fleet(t, m) && OthersKept(t, m, u, m', carriers) && OthersKept(u, m', v, m'', carriers)
    requires forall x :: x in carriers && x in t ==> !t[x].state.Shipped?
    ensures OthersKept(t, m, v, m'', carriers)
  {
    forall x | x in t
      ensures UntouchedAt(t, m, v, m'', carriers, x)
    {
      assert UntouchedAt(t, m, u, m', carriers, x);
      if x !in carriers && !AboardOf(t, m, carriers, x) {
        assert UntouchedAt(u, m', v, m'', carriers, x);
        if t[x].state.Shipped? { HeadUntouched(t, m, u, m', carriers, x); }
      }
    }
  }

  lemma HeadUntouched(t: Table, m: Chains, u: Table, m': Chains, carriers: seq<Handle>, x: Handle)
    requires Fleet(t, m) && OthersKept(t, m, u, m', carriers) && x in t && x in m && x in u && x in m'
    requires t[x].state.Shipped? && !AboardOf(t, m, carriers, x) && m'[x] == m[x] && u[x] == t[x]
    requires forall y :: y in carriers && y in t ==> !t[y].state.Shipped?
    ensures !AboardOf(u, m', carriers, x)
  {
    assert Sound(t, m, x);
    HeadAboard(t, m, x);
    var y := m[x][0];
    assert y in m[x] && m[y] == m[x] && UntouchedAt(t, m, u, m', carriers, y);
  }
}
