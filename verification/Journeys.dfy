/** Chains on their way: they set off, drive, and stop. */
module Journeys {
  import opened Convois
  import opened Coupling

  lemma RestWalk(t: Table, c: Handle, rest: seq<Handle>)
    requires Walk(t, [c] + rest) && c in t
    ensures Walk(t, rest) && if rest == [] then t[c].coupling !in t else t[c].coupling == rest[0]
  {
    var cs := [c] + rest;
    assert WalkAt(t, cs, 0);
    forall i | 0 <= i < |rest|
      ensures WalkAt(t, rest, i)
    {
      assert WalkAt(t, cs, i + 1) && cs[i + 1] == rest[i];
    }
  }

  lemma StillWalk(t: Table, u: Table, cs: seq<Handle>)
    requires Walk(t, cs) && u.Keys == t.Keys && forall x :: x in t ==> u[x].coupling == t[x].coupling
    ensures Walk(u, cs)
  {
    forall i | 0 <= i < |cs|
      ensures WalkAt(u, cs, i)
    {
      assert WalkAt(t, cs, i);
    }
  }

  lemma OneMoreIn(t: Table, done: seq<Handle>, k: Handle, s: State)
    requires k in t
    ensures var u := AllIn(t, done, s); k in u && u[k := u[k].(state := s)] == AllIn(t, done + [k], s)
  {
  }

  /** Puts all the children of a chain into one state. */
  method SetChildren(w: Welt, first: Handle, s: State, ghost rest: seq<Handle>)
    requires Walk(w.cnv, rest) && (if rest == [] then first !in w.cnv else first == rest[0])
    modifies w`cnv
    ensures w.cnv == AllIn(old(w.cnv), rest, s)
  {
    ghost var t := w.cnv;
    var k := first;
    ghost var i := 0;
    while k in w.cnv
      invariant 0 <= i <= |rest| && w.cnv == AllIn(t, rest[..i], s)
      invariant if i < |rest| then k == rest[i] else k !in w.cnv
      decreases |rest| - i
    {
      assert WalkAt(t, rest, i) && rest[..i + 1] == rest[..i] + [k];
      OneMoreIn(t, rest[..i], k, s);
      w.SetState(k, s);
      k := w.cnv[k].coupling;
      i := i + 1;
    }
    assert i < |rest| ==> WalkAt(t, rest, i);
    assert rest[..i] == rest;
  }

  /** The chain with its head in one state and all its children in another. */
  function InStates(t: Table, cs: seq<Handle>, head: State, child: State): Table
    requires |cs| > 0 && cs[0] in t
  {
    AllIn(t[cs[0] := t[cs[0]].(state := head)], cs[1..], child)
  }

  lemma StatesKept(t: Table, m: Chains, cs: seq<Handle>, head: State, child: State)
    requires Fleet(t, m) && Whole(t, m, cs) && head.Drives() && child.IsCoupled() && cs[0] in t
    ensures var u := InStates(t, cs, head, child);
      Fleet(u, m) && Whole(u, m, cs) && LoadsKept(t, u) && ElseKept(t, m, u, m, cs)
  {
    var u := InStates(t, cs, head, child);
    forall i | 0 <= i < |cs|
      ensures OnMapAt(u, cs, i)
    {
      assert OnMapAt(t, cs, i) && (i > 0 ==> cs[i] == cs[1..][i - 1]);
    }
    assert forall x :: x in cs[1..] ==> x in cs;
    LoadsHold(t, u);
    forall x | x in m
      ensures Sound(u, m, x)
    {
      if x in cs {
        Moved(t, m, u, m, cs, cs, x);
      } else {
        RestSound(t, m, u, m, cs, x);
      }
    }
  }

  /** The head of the chain is in one state and all its children in another; nobody else's state
      has changed. */
  ghost predicate StatesAre(t: Table, u: Table, cs: seq<Handle>, head: State, child: State) {
    u.Keys == t.Keys && forall x :: x in t ==>
      u[x].state == if |cs| > 0 && x == cs[0] then head else if x in cs then child else t[x].state
  }

  lemma InStatesAre(t: Table, cs: seq<Handle>, head: State, child: State)
    requires |cs| > 0 && cs[0] in t && Distinct(cs)
    ensures StatesAre(t, InStates(t, cs, head, child), cs, head, child)
  {
    assert cs == [cs[0]] + cs[1..];
    assert forall x :: x in cs ==> x == cs[0] || x in cs[1..];
  }

  /** Puts the head of a chain and its children into new states. */
  method SetStates(w: Welt, self: Handle, head: State, child: State, ghost cs: seq<Handle>)
    requires w.Valid() && Whole(w.cnv, w.chainOf, cs) && cs[0] == self && head.Drives() && child.IsCoupled()
    modifies w`cnv
    ensures self in old(w.cnv) && w.Valid() && w.cnv == InStates(old(w.cnv), cs, head, child)
    ensures Whole(w.cnv, w.chainOf, cs)
    ensures LoadsKept(old(w.cnv), w.cnv) && ElseKept(old(w.cnv), w.chainOf, w.cnv, w.chainOf, cs)
  {
    assert self in cs;
    StatesKept(w.cnv, w.chainOf, cs, head, child);
    ChainWalk(w.cnv, cs);
    assert cs == [self] + cs[1..];
    RestWalk(w.cnv, self, cs[1..]);
    StillWalk(w.cnv, w.cnv[self := w.cnv[self].(state := head)], cs[1..]);
    w.SetState(self, head);
    SetChildren(w, w.cnv[self].coupling, child, cs[1..]);
  }

  /** A chain stops at a halt: its head loads, and so do its children with it. */
  method ZielErreicht(w: Welt, self: Handle, ghost cs: seq<Handle>)
    requires w.Valid() && Whole(w.cnv, w.chainOf, cs) && cs[0] == self
    modifies w`cnv
    ensures self in old(w.cnv) && w.Valid() && Whole(w.cnv, w.chainOf, cs)
    ensures w.cnv == InStates(old(w.cnv), cs, Loading, CoupledLoading)
    ensures StatesAre(old(w.cnv), w.cnv, cs, Loading, CoupledLoading)
    ensures LoadsKept(old(w.cnv), w.cnv) && ElseKept(old(w.cnv), w.chainOf, w.cnv, w.chainOf, cs)
  {
    assert self in cs;
    InStatesAre(w.cnv, cs, Loading, CoupledLoading);
    SetStates(w, self, Loading, CoupledLoading, cs);
  }

  /** A chain that has loaded looks for its route. */
  method HatGehalten(w: Welt, self: Handle, ghost cs: seq<Handle>)
    requires w.Valid() && Whole(w.cnv, w.chainOf, cs) && cs[0] == self
    modifies w`cnv
    ensures self in old(w.cnv) && w.Valid() && Whole(w.cnv, w.chainOf, cs)
    ensures w.cnv == InStates(old(w.cnv), cs, Routing1, Coupled) && StatesAre(old(w.cnv), w.cnv, cs, Routing1, Coupled)
    ensures LoadsKept(old(w.cnv), w.cnv) && ElseKept(old(w.cnv), w.chainOf, w.cnv, w.chainOf, cs)
  {
    assert self in cs;
    InStatesAre(w.cnv, cs, Routing1, Coupled);
    SetStates(w, self, Routing1, Coupled, cs);
  }

  /** Where a head that is not at a stop may go on to by itself. */
  predicate MayProceed(s: State, to: State) {
    || (s.Routing1? && (to.Driving? || to.NoRoute?)) || (s.NoRoute? && to.Routing1?)
    || (s.EditSchedule? && (to.Routing1? || to.Driving? || to.Loading?))
  }
}
