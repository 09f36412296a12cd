/** Sending a whole chain on to its next stop, where some of its convoys part. */
module NextStop {
  import opened Vehicles
  import opened Convois
  import opened Coupling

  /** Where the part that the i-th convoy stays in begins. */
  function Lo(cs: seq<Handle>, keeps: Handle -> bool, i: nat): (lo: nat)
    requires i < |cs|
    ensures lo <= i
  {
    if i == 0 || !keeps(cs[i - 1]) then i else Lo(cs, keeps, i - 1)
  }

  /** Where the part that the i-th convoy stays in ends. */
  function Hi(cs: seq<Handle>, keeps: Handle -> bool, i: nat): (hi: nat)
    requires i < |cs|
    ensures i < hi <= |cs|
    decreases |cs| - i
  {
    if i + 1 == |cs| || !keeps(cs[i]) then i + 1 else Hi(cs, keeps, i + 1)
  }

  function Part(cs: seq<Handle>, keeps: Handle -> bool, i: nat): seq<Handle>
    requires i < |cs|
  {
    cs[Lo(cs, keeps, i)..Hi(cs, keeps, i)]
  }

  /** Neighbours stay in one part exactly when the front one keeps its child. */
  lemma PartsAt(cs: seq<Handle>, keeps: Handle -> bool, i: nat)
    requires i + 1 < |cs|
    ensures keeps(cs[i]) ==> Part(cs, keeps, i) == Part(cs, keeps, i + 1)
    ensures !keeps(cs[i]) ==> Hi(cs, keeps, i) == i + 1 == Lo(cs, keeps, i + 1)
  {
  }

  /** Whoever keeps every child from the lo-th to the i-th is in one part with them. */
  lemma PartIs(cs: seq<Handle>, keeps: Handle -> bool, lo: nat, i: nat, j: nat)
    requires lo <= j <= i < |cs| && (lo == 0 || !keeps(cs[lo - 1])) && (i + 1 == |cs| || !keeps(cs[i]))
    requires forall k :: lo <= k < i ==> keeps(cs[k])
    ensures Part(cs, keeps, j) == cs[lo..i + 1]
  {
    LoIs(cs, keeps, lo, j);
    HiIs(cs, keeps, i, j);
  }

  lemma {:induction false} LoIs(cs: seq<Handle>, keeps: Handle -> bool, lo: nat, j: nat)
    requires lo <= j < |cs| && (lo == 0 || !keeps(cs[lo - 1])) && forall k :: lo <= k < j ==> keeps(cs[k])
    ensures Lo(cs, keeps, j) == lo
  {
    if lo < j { LoIs(cs, keeps, lo, j - 1); }
  }

  lemma {:induction false} HiIs(cs: seq<Handle>, keeps: Handle -> bool, i: nat, j: nat)
    requires j <= i < |cs| && (i + 1 == |cs| || !keeps(cs[i])) && forall k :: j <= k < i ==> keeps(cs[k])
    ensures Hi(cs, keeps, j) == i + 1
    decreases i - j
  {
    if j < i { HiIs(cs, keeps, i, j + 1); }
  }

  /** The head of a chain may change to any state of a convoy that drives itself. */
  lemma HeadStateKept(t: Table, m: Chains, a: Handle, s: State, cs: seq<Handle>)
    requires Fleet(t, m) && Whole(t, m, cs) && cs[0] == a && a in t && s.Drives()
    ensures var u := t[a := t[a].(state := s)];
      Fleet(u, m) && Whole(u, m, cs) && LoadsKept(t, u) && ElseKept(t, m, u, m, cs)
  {
    var u := t[a := t[a].(state := s)];
    forall i | 0 <= i < |cs|
      ensures OnMapAt(u, cs, i)
    {
      assert OnMapAt(t, cs, i);
    }
    LoadsHold(t, u);
    forall x | x in m
      ensures Sound(u, m, x)
    {
      if x in cs {
        Moved(t, m, u, m, cs, cs, x);
      } else {
        RestSound(t, m, u, m, cs, x);
      }
    }
  }

  /** The state in which a head stands by for a new route, unless it is to be destroyed. */
  function Standby(s: State): State { if s.SelfDestruct? then SelfDestruct else EditSchedule }

  /** The part of the j-th convoy has left since the moment t0: it is a chain of its own, whose
      head stands by for a new route; the states of the others are as they were. */
  ghost predicate LeftAt(t0: Table, t: Table, m: Chains, cs: seq<Handle>, keeps: Handle -> bool, j: int)
    requires 0 <= j < |cs|
  {
    var part := Part(cs, keeps, j);
    && Whole(t, m, part) && cs[j] in part && cs[j] in t0 && cs[j] in t
    && t[cs[j]].state == if Lo(cs, keeps, j) == j then Standby(t0[cs[j]].state) else t0[cs[j]].state
  }

  /** What left before is not touched by what happens to the rest. */
  lemma LeftKept(t: Table, m: Chains, u: Table, m': Chains, part: seq<Handle>, rest: seq<Handle>)
    requires Whole(t, m, part) && ElseKept(t, m, u, m', rest) && forall x :: x in part ==> x !in rest
    ensures Whole(u, m', part)
  {
    assert forall i :: 0 <= i < |part| ==> part[i] in part;
    GoodKept(t, u, part);
  }

  /** A convoy that drives itself stands by for a new route. */
  method StandBy(w: Welt, c: Handle, ghost cs: seq<Handle>, ghost k: nat)
    requires w.Valid() && Whole(w.cnv, w.chainOf, cs) && k < |cs| && cs[k] == c
    modifies w`cnv
    ensures w.Valid() && Whole(w.cnv, w.chainOf, cs) && LoadsKept(old(w.cnv), w.cnv)
    ensures ElseKept(old(w.cnv), w.chainOf, w.cnv, w.chainOf, cs)
    ensures c in old(w.cnv)
    ensures w.cnv == if k > 0 then old(w.cnv)
                     else old(w.cnv)[c := old(w.cnv)[c].(state := Standby(old(w.cnv)[c].state))]
  {
    assert OnMapAt(w.cnv, cs, k);
    if !w.cnv[c].state.IsCoupled() && !w.cnv[c].state.SelfDestruct? {
      HeadStateKept(w.cnv, w.chainOf, c, EditSchedule, cs);
      w.SetState(c, EditSchedule);
    }
  }

  /** A convoy of the walk parts from its child unless it keeps it. The walk goes on with
      what was its child before. */
  method PartUnless(w: Welt, c: Handle, keep: bool, ghost rest: seq<Handle>, ghost k: nat) returns (next: Handle)
    requires w.Valid() && Whole(w.cnv, w.chainOf, rest) && k < |rest| && rest[k] == c
    modifies w
    ensures w.Valid() && LoadsKept(old(w.cnv), w.cnv)
    ensures ElseKept(old(w.cnv), old(w.chainOf), w.cnv, w.chainOf, rest)
    ensures if k + 1 < |rest| then next == rest[k + 1] else next !in w.cnv
    ensures keep || k + 1 == |rest| ==> Whole(w.cnv, w.chainOf, rest)
    ensures !keep && k + 1 < |rest| ==>
              Whole(w.cnv, w.chainOf, rest[..k + 1]) && Whole(w.cnv, w.chainOf, rest[k + 1..])
    ensures c in old(w.cnv) && w.cnv == if keep then old(w.cnv) else Cut(old(w.cnv), c)
  {
    assert OnMapAt(w.cnv, rest, k) && OnMapAt(w.cnv, rest, 0) && (k + 1 < |rest| ==> OnMapAt(w.cnv, rest, k + 1));
    next := w.cnv[c].coupling;
    if !keep && next in w.cnv {
      assert rest == rest[..k + 1] + rest[k + 1..];
      var _ := w.Uncouple(c, rest[..k + 1], rest[k + 1..]);
    }
  }

  /** The states after one convoy of the walk, the k-th of the rest, was sent on: that of the
      head is one to stand by in, that of a head that was cut off is not one of destruction,
      all others are as before. */
  ghost predicate StatesSent(t: Table, u: Table, rest: seq<Handle>, k: int, cut: bool) {
    forall j {:trigger rest[j]} :: 0 <= j < |rest| ==>
      && rest[j] in t && rest[j] in u
      && if j == 0 then u[rest[j]].state == Standby(t[rest[j]].state)
         else if cut && j == k + 1 then !u[rest[j]].state.SelfDestruct?
         else u[rest[j]].state == t[rest[j]].state
  }

  lemma StatesAfter(t: Table, u: Table, v: Table, rest: seq<Handle>, k: nat, keep: bool)
    requires OnMap(t, rest) && k < |rest| && rest[k] in t && u == if keep then t else Cut(t, rest[k])
    requires k > 0 ==> rest[0] in t && t[rest[0]].state == Standby(t[rest[0]].state)
    requires rest[k] in u && v == if k == 0 then u[rest[k] := u[rest[k]].(state := Standby(u[rest[k]].state))] else u
    ensures StatesSent(t, v, rest, k, !keep && k + 1 < |rest|)
  {
    assert OnMapAt(t, rest, k) && (k + 1 < |rest| ==> OnMapAt(t, rest, k + 1));
    forall j | 0 <= j < |rest|
      ensures rest[j] in t
    {
      assert OnMapAt(t, rest, j);
    }
  }

  /** What one convoy of the walk leaves behind: the chain up to it is a chain of its own if
      it does not keep its child. */
  method SendOn(w: Welt, c: Handle, keep: bool, ghost rest: seq<Handle>, ghost k: nat) returns (next: Handle)
    requires w.Valid() && Whole(w.cnv, w.chainOf, rest) && k < |rest| && rest[k] == c
    requires k > 0 ==> rest[0] in w.cnv && w.cnv[rest[0]].state == Standby(w.cnv[rest[0]].state)
    modifies w
    ensures w.Valid() && LoadsKept(old(w.cnv), w.cnv)
    ensures ElseKept(old(w.cnv), old(w.chainOf), w.cnv, w.chainOf, rest)
    ensures if k + 1 < |rest| then next == rest[k + 1] else next !in w.cnv
    ensures keep || k + 1 == |rest| ==> Whole(w.cnv, w.chainOf, rest)
    ensures !keep && k + 1 < |rest| ==>
              Whole(w.cnv, w.chainOf, rest[..k + 1]) && Whole(w.cnv, w.chainOf, rest[k + 1..])
    ensures StatesSent(old(w.cnv), w.cnv, rest, k, !keep && k + 1 < |rest|)
  {
    ghost var t0 := w.cnv;
    next := PartUnless(w, c, keep, rest, k);
    ghost var parts, t, m := !keep && k + 1 < |rest|, w.cnv, w.chainOf;
    StandBy(w, c, if parts then rest[..k + 1] else rest, k);
    StatesAfter(t0, t, w.cnv, rest, k, keep);
    if parts {
      LeftKept(t, m, w.cnv, m, rest[k + 1..], rest[..k + 1]);
    }
    LoadsKeptTwice(t0, t, w.cnv);
  }

  /** The states of the rest of the walk, which begins at the lo-th convoy, before the i-th. */
  ghost predicate RestStates(t0: Table, t: Table, cs: seq<Handle>, lo: int, i: int) {
    forall j {:trigger cs[j]} :: 0 <= lo <= j < |cs| ==>
      && cs[j] in t0 && cs[j] in t
      && if j > lo then t[cs[j]].state == t0[cs[j]].state
         else if lo < i then t[cs[j]].state == Standby(t0[cs[j]].state)
         else Standby(t[cs[j]].state) == Standby(t0[cs[j]].state)
  }

  /** The state of the walk before the i-th convoy: what lies before the lo-th has left, the
      rest is still one chain. */
  ghost predicate Walking(t0: Table, t: Table, m: Chains, cs: seq<Handle>, keeps: Handle -> bool, lo: int, i: int) {
    && 0 <= lo <= i <= |cs| && lo < |cs| && (lo == 0 || !keeps(cs[lo - 1])) && OnMap(t0, cs)
    && (forall j :: lo <= j < i && j + 1 < |cs| ==> keeps(cs[j]))
    && Whole(t, m, cs[lo..]) && RestStates(t0, t, cs, lo, i)
    && forall j {:trigger LeftAt(t0, t, m, cs, keeps, j)} :: 0 <= j < lo ==> LeftAt(t0, t, m, cs, keeps, j)
  }

  lemma LeftBefore(t0: Table, t: Table, m: Chains, u: Table, m': Chains, cs: seq<Handle>, keeps: Handle -> bool,
                   lo: nat, j: nat)
    requires j < lo < |cs| && Distinct(cs) && LeftAt(t0, t, m, cs, keeps, j)
    requires Whole(t, m, cs[lo..]) && ElseKept(t, m, u, m', cs[lo..])
    ensures LeftAt(t0, u, m', cs, keeps, j)
  {
    var part, rest := Part(cs, keeps, j), cs[lo..];
    assert cs[j] !in rest;
    WholesApart(t, m, part, rest);
    LeftKept(t, m, u, m', part, rest);
    assert part[0] in part;
  }

  lemma LeftNow(t0: Table, t: Table, m: Chains, cs: seq<Handle>, keeps: Handle -> bool, lo: nat, i: nat, j: nat)
    requires lo <= j <= i < |cs| && (lo == 0 || !keeps(cs[lo - 1])) && (i + 1 == |cs| || !keeps(cs[i]))
    requires forall k :: lo <= k < i ==> keeps(cs[k])
    requires Whole(t, m, cs[lo..i + 1]) && cs[j] in t0 && cs[j] in t
    requires t[cs[j]].state == if j == lo then Standby(t0[cs[j]].state) else t0[cs[j]].state
    ensures LeftAt(t0, t, m, cs, keeps, j)
  {
    PartIs(cs, keeps, lo, i, j);
    LoIs(cs, keeps, lo, j);
    assert cs[lo..i + 1][j - lo] == cs[j];
  }

  /** The states of what is left of the walk after its i-th convoy. */
  lemma StatesNext(t0: Table, t: Table, u: Table, cs: seq<Handle>, lo: nat, i: nat, cut: bool)
    requires lo <= i < |cs| && OnMap(t0, cs) && RestStates(t0, t, cs, lo, i) && (cut ==> i + 1 < |cs|)
    requires StatesSent(t, u, cs[lo..], i - lo, cut)
    ensures RestStates(t0, u, cs, if cut then i + 1 else lo, i + 1)
    ensures forall j :: lo <= j <= i ==>
              && cs[j] in t0 && cs[j] in u
              && u[cs[j]].state == if j == lo then Standby(t0[cs[j]].state) else t0[cs[j]].state
  {
    assert i + 1 < |cs| ==> OnMapAt(t0, cs, i + 1);
    assert forall j :: lo <= j < |cs| ==> cs[lo..][j - lo] == cs[j];
  }

  /** One step of the walk: `lo` moves on if the i-th convoy let its child go. */
  lemma WalkOn(t0: Table, t: Table, m: Chains, u: Table, m': Chains, cs: seq<Handle>, keeps: Handle -> bool, lo: nat,
               i: nat)
    requires Walking(t0, t, m, cs, keeps, lo, i) && i < |cs| && Distinct(cs)
    requires ElseKept(t, m, u, m', cs[lo..]) && StatesSent(t, u, cs[lo..], i - lo, !keeps(cs[i]) && i + 1 < |cs|)
    requires keeps(cs[i]) || i + 1 == |cs| ==> Whole(u, m', cs[lo..])
    requires !keeps(cs[i]) && i + 1 < |cs| ==> Whole(u, m', cs[lo..i + 1]) && Whole(u, m', cs[i + 1..])
    ensures Walking(t0, u, m', cs, keeps, if !keeps(cs[i]) && i + 1 < |cs| then i + 1 else lo, i + 1)
  {
    StatesNext(t0, t, u, cs, lo, i, !keeps(cs[i]) && i + 1 < |cs|);
    AllLeftBefore(t0, t, m, u, m', cs, keeps, lo, i);
    if !keeps(cs[i]) && i + 1 < |cs| {
      forall j | lo <= j <= i
        ensures LeftAt(t0, u, m', cs, keeps, j)
      {
        LeftNow(t0, u, m', cs, keeps, lo, i, j);
      }
    }
  }

  lemma AllLeftBefore(t0: Table, t: Table, m: Chains, u: Table, m': Chains, cs: seq<Handle>, keeps: Handle -> bool,
                      lo: nat, i: nat)
    requires Walking(t0, t, m, cs, keeps, lo, i) && Distinct(cs) && ElseKept(t, m, u, m', cs[lo..])
    ensures forall j {:trigger LeftAt(t0, u, m', cs, keeps, j)} :: 0 <= j < lo ==> LeftAt(t0, u, m', cs, keeps, j)
  {
    forall j | 0 <= j < lo
      ensures LeftAt(t0, u, m', cs, keeps, j)
    {
      LeftBefore(t0, t, m, u, m', cs, keeps, lo, j);
    }
  }

  lemma WalkDone(t0: Table, t: Table, m: Chains, cs: seq<Handle>, keeps: Handle -> bool, lo: nat)
    requires Walking(t0, t, m, cs, keeps, lo, |cs|)
    ensures forall j :: 0 <= j < |cs| ==> LeftAt(t0, t, m, cs, keeps, j)
  {
    assert cs[lo..|cs|] == cs[lo..];
    forall j | lo <= j < |cs|
      ensures LeftAt(t0, t, m, cs, keeps, j)
    {
      LeftNow(t0, t, m, cs, keeps, lo, |cs| - 1, j);
    }
  }

  lemma RestParts(cs: seq<Handle>, lo: nat, i: nat)
    requires lo <= i < |cs|
    ensures cs[lo..][..i - lo + 1] == cs[lo..i + 1] && cs[lo..][i - lo + 1..] == cs[i + 1..]
    ensures forall x :: x in cs[lo..] ==> x in cs
  {
  }

  /** What SendOn promises for the k-th convoy of the rest of the walk. */
  ghost predicate SentOn(t: Table, m: Chains, u: Table, m': Chains, rest: seq<Handle>, k: int, keep: bool,
                         next: Handle) {
    && 0 <= k < |rest| && ElseKept(t, m, u, m', rest) && StatesSent(t, u, rest, k, !keep && k + 1 < |rest|)
    && (if k + 1 < |rest| then next == rest[k + 1] else next !in u)
    && (keep || k + 1 == |rest| ==> Whole(u, m', rest))
    && (!keep && k + 1 < |rest| ==> Whole(u, m', rest[..k + 1]) && Whole(u, m', rest[k + 1..]))
  }

  /** Where the rest of the walk begins after the i-th convoy. */
  function NextLo(cs: seq<Handle>, keeps: Handle -> bool, lo: nat, i: nat): nat
    requires i < |cs|
  {
    if !keeps(cs[i]) && i + 1 < |cs| then i + 1 else lo
  }

  lemma StepDone(t0: Table, t: Table, m: Chains, u: Table, m': Chains, cs: seq<Handle>, keeps: Handle -> bool,
                 lo: nat, i: nat, next: Handle)
    requires Walking(t0, t, m, cs, keeps, lo, i) && i < |cs| && Distinct(cs)
    requires SentOn(t, m, u, m', cs[lo..], i - lo, keeps(cs[i]), next)
    ensures Walking(t0, u, m', cs, keeps, NextLo(cs, keeps, lo, i), i + 1) && ElseKept(t, m, u, m', cs)
    ensures if i + 1 < |cs| then next == cs[i + 1] else next !in u
  {
    RestParts(cs, lo, i);
    WalkOn(t0, t, m, u, m', cs, keeps, lo, i);
  }

  /** One step of the walk over the chain `cs`. */
  method Step(w: Welt, c: Handle, keeps: Handle -> bool, ghost cs: seq<Handle>, ghost lo: nat, ghost i: nat,
              ghost t0: Table)
      returns (next: Handle)
    requires w.Valid() && Distinct(cs) && i < |cs| && c == cs[i] && Walking(t0, w.cnv, w.chainOf, cs, keeps, lo, i)
    modifies w
    ensures w.Valid() && LoadsKept(old(w.cnv), w.cnv)
    ensures ElseKept(old(w.cnv), old(w.chainOf), w.cnv, w.chainOf, cs)
    ensures if i + 1 < |cs| then next == cs[i + 1] else next !in w.cnv
    ensures Walking(t0, w.cnv, w.chainOf, cs, keeps, NextLo(cs, keeps, lo, i), i + 1)
  {
    ghost var t, m := w.cnv, w.chainOf;
    next := SendOn(w, c, keeps(c), cs[lo..], i - lo);
    StepDone(t0, t, m, w.cnv, w.chainOf, cs, keeps, lo, i, next);
  }

  lemma NoneLeft(t0: Table, t: Table, m: Chains, cs: seq<Handle>, keeps: Handle -> bool, lo: nat, i: nat)
    requires Walking(t0, t, m, cs, keeps, lo, i)
    ensures i < |cs| ==> cs[i] in t
  {
    if i < |cs| {
      assert OnMapAt(t, cs[lo..], i - lo);
    }
  }

  lemma KeptTwice(t: Table, m: Chains, u: Table, m': Chains, v: Table, m'': Chains, cs: seq<Handle>)
    requires LoadsKept(t, u) && ElseKept(t, m, u, m', cs) && LoadsKept(u, v) && ElseKept(u, m', v, m'', cs)
    ensures LoadsKept(t, v) && ElseKept(t, m, v, m'', cs)
  {
    LoadsKeptTwice(t, u, v);
  }

  /** The whole walk before the i-th convoy, since the moment (t0, m0). */
  ghost predicate OnWalk(t0: Table, m0: Chains, t: Table, m: Chains, cs: seq<Handle>, keeps: Handle -> bool, lo: int,
                         i: int) {
    Fleet(t, m) && LoadsKept(t0, t) && ElseKept(t0, m0, t, m, cs) && Distinct(cs) && Walking(t0, t, m, cs, keeps, lo, i)
  }

  method StepOn(w: Welt, c: Handle, keeps: Handle -> bool, ghost cs: seq<Handle>, ghost lo: nat, ghost i: nat,
                ghost t0: Table, ghost m0: Chains)
      returns (next: Handle)
    requires OnWalk(t0, m0, w.cnv, w.chainOf, cs, keeps, lo, i) && i < |cs| && c == cs[i]
    modifies w
    ensures w.Valid() && OnWalk(t0, m0, w.cnv, w.chainOf, cs, keeps, NextLo(cs, keeps, lo, i), i + 1)
    ensures if i + 1 < |cs| then next == cs[i + 1] else next !in w.cnv
  {
    ghost var t1, m1 := w.cnv, w.chainOf;
    next := Step(w, c, keeps, cs, lo, i, t0);
    KeptTwice(t0, m0, t1, m1, w.cnv, w.chainOf, cs);
  }

  lemma WalkEnds(t0: Table, m0: Chains, t: Table, m: Chains, cs: seq<Handle>, keeps: Handle -> bool, lo: nat, i: nat)
    requires OnWalk(t0, m0, t, m, cs, keeps, lo, i) && (i < |cs| ==> cs[i] !in t)
    ensures LoadsKept(t0, t) && ElseKept(t0, m0, t, m, cs)
    ensures forall j :: 0 <= j < |cs| ==> LeftAt(t0, t, m, cs, keeps, j)
  {
    NoneLeft(t0, t, m, cs, keeps, lo, i);
    WalkDone(t0, t, m, cs, keeps, lo);
  }

  lemma WalkFirst(t: Table, m: Chains, cs: seq<Handle>, keeps: Handle -> bool)
    requires Fleet(t, m) && Whole(t, m, cs)
    ensures OnWalk(t, m, t, m, cs, keeps, 0, 0)
  {
    assert cs[0..] == cs;
    assert forall j {:trigger cs[j]} :: 0 <= j < |cs| ==> OnMapAt(t, cs, j);
  }

  /** The walk over the chain `cs`, the first convoy first. */
  method WalkAll(w: Welt, self: Handle, keeps: Handle -> bool, ghost cs: seq<Handle>, ghost t0: Table, ghost m0: Chains)
      returns (ghost lo: nat, ghost i: nat)
    requires OnWalk(t0, m0, w.cnv, w.chainOf, cs, keeps, 0, 0) && |cs| > 0 && self == cs[0]
    modifies w
    ensures OnWalk(t0, m0, w.cnv, w.chainOf, cs, keeps, lo, i) && (i < |cs| ==> cs[i] !in w.cnv)
  {
    var c := self;
    lo, i := 0, 0;
    while c in w.cnv
      invariant i <= |cs|
      invariant OnWalk(t0, m0, w.cnv, w.chainOf, cs, keeps, lo, i)
      invariant if i < |cs| then c == cs[i] else c !in w.cnv
      decreases |cs| - i
    {
      c := StepOn(w, c, keeps, cs, lo, i, t0, m0);
      i, lo := i + 1, NextLo(cs, keeps, lo, i);
    }
  }

  /** Sends the convoys of the chain `cs` on. */
  method WalkChain(w: Welt, self: Handle, keeps: Handle -> bool, ghost cs: seq<Handle>)
    requires w.Valid() && Whole(w.cnv, w.chainOf, cs) && self == cs[0] && self in w.cnv
    modifies w
    ensures w.Valid() && LoadsKept(old(w.cnv), w.cnv) && ElseKept(old(w.cnv), old(w.chainOf), w.cnv, w.chainOf, cs)
    ensures forall j :: 0 <= j < |cs| ==> LeftAt(old(w.cnv), w.cnv, w.chainOf, cs, keeps, j)
  {
    ghost var t0, m0 := w.cnv, w.chainOf;
    WalkFirst(t0, m0, cs, keeps);
    ghost var lo, i := WalkAll(w, self, keeps, cs, t0, m0);
    WalkEnds(t0, m0, w.cnv, w.chainOf, cs, keeps, lo, i);
  }

  /** Every convoy of the chain from the k-th on that pulls another keeps it. */
  ghost predicate KeepsAll(cs: seq<Handle>, keeps: Handle -> bool, k: nat) {
    forall i :: k <= i < |cs| - 1 ==> keeps(cs[i])
  }

  /** The table after one convoy of a filed chain was sent on. */
  function Pressed(t: Table, c: Handle, keep: bool): Table
    requires c in t && t[c].coupling != c
  {
    var u := if keep then t else Cut(t, c);
    if u[c].state.IsCoupled() || u[c].state.SelfDestruct? || u[c].state.Initial? then u
    else u[c := u[c].(state := EditSchedule)]
  }

  method PressOne(w: Welt, c: Handle, keep: bool)
    requires c in w.cnv && w.cnv[c].coupling != c
    modifies w`cnv
    ensures w.cnv == Pressed(old(w.cnv), c, keep)
  {
    if !keep {
      var _ := w.UncoupleConvoi(c);
    }
    if !w.cnv[c].state.IsCoupled() && !w.cnv[c].state.SelfDestruct? && !w.cnv[c].state.Initial? {
      w.SetState(c, EditSchedule);
    }
  }

  /** The j-th convoy lets its child go, if the walk begins at the k-th. */
  predicate LetsGo(cs: seq<Handle>, keeps: Handle -> bool, k: int, j: int) {
    0 <= k <= j && j + 1 < |cs| && !keeps(cs[j])
  }

  /** A filed convoy that was let go is in state s, and one that let its child go has none. */
  function SentFiled(c: Convoi, freed: bool, s: State, frees: bool): Convoi {
    var d := if freed then c.(state := s, parent := UNBOUND, fahr := WithLeading(c.fahr, true)) else c;
    if frees then d.(coupling := UNBOUND, fahr := WithLast(d.fahr, true)) else d
  }

  /** The j-th convoy of a filed chain when the walk from the k-th on is about to reach the i-th. */
  ghost predicate SentAt(t: Table, u: Table, cs: seq<Handle>, keeps: Handle -> bool, k: int, i: int, j: int)
    requires 0 <= j < |cs|
  {
    && cs[j] in t && cs[j] in u
    && u[cs[j]] == SentFiled(t[cs[j]], LetsGo(cs, keeps, k, j - 1) && j <= i,
                             if j < i then EditSchedule else Routing1, LetsGo(cs, keeps, k, j) && j < i)
  }

  /** The walk over a filed chain before the i-th convoy: whoever was let go is no longer filed,
      and nobody else is touched. */
  ghost predicate WalkingFiled(t: Table, u: Table, cs: seq<Handle>, keeps: Handle -> bool, k: int, i: int) {
    && 0 <= k <= i <= |cs| && u.Keys == t.Keys && (forall x :: x in t && x !in cs ==> u[x] == t[x])
    && forall j {:trigger SentAt(t, u, cs, keeps, k, i, j)} :: 0 <= j < |cs| ==> SentAt(t, u, cs, keeps, k, i, j)
  }

  lemma SentNext(t: Table, u: Table, cs: seq<Handle>, keeps: Handle -> bool, k: nat, i: nat, j: nat)
    requires WalkingFiled(t, u, cs, keeps, k, i) && i < |cs| && j < |cs| && InDepot(t, cs) && UNBOUND !in t
    requires cs[i] in u && u[cs[i]].coupling != cs[i]
    requires if i + 1 < |cs| then u[cs[i]].coupling == cs[i + 1] else u[cs[i]].coupling !in u
    ensures SentAt(t, Pressed(u, cs[i], keeps(cs[i])), cs, keeps, k, i + 1, j)
  {
    assert SentAt(t, u, cs, keeps, k, i, j) && SentAt(t, u, cs, keeps, k, i, i) && InDepotAt(t, cs, i);
    assert j != i ==> cs[j] != cs[i];
    if i + 1 < |cs| {
      assert SentAt(t, u, cs, keeps, k, i, i + 1) && InDepotAt(t, cs, i + 1) && (j != i + 1 ==> cs[j] != cs[i + 1]);
    }
  }

  lemma NextFiled(t: Table, u: Table, cs: seq<Handle>, keeps: Handle -> bool, k: nat, i: nat)
    requires WalkingFiled(t, u, cs, keeps, k, i) && i < |cs| && InDepot(t, cs)
    ensures cs[i] in u && u[cs[i]].coupling != cs[i]
    ensures if i + 1 < |cs| then u[cs[i]].coupling == cs[i + 1] else u[cs[i]].coupling !in u
  {
    assert SentAt(t, u, cs, keeps, k, i, i) && InDepotAt(t, cs, i) && (i + 1 < |cs| ==> InDepotAt(t, cs, i + 1));
  }

  lemma WalkFiledStep(t: Table, u: Table, cs: seq<Handle>, keeps: Handle -> bool, k: nat, i: nat)
    requires WalkingFiled(t, u, cs, keeps, k, i) && i < |cs| && InDepot(t, cs) && UNBOUND !in t
    requires cs[i] in u && u[cs[i]].coupling != cs[i]
    requires if i + 1 < |cs| then u[cs[i]].coupling == cs[i + 1] else u[cs[i]].coupling !in u
    ensures WalkingFiled(t, Pressed(u, cs[i], keeps(cs[i])), cs, keeps, k, i + 1)
  {
    var v, n := Pressed(u, cs[i], keeps(cs[i])), i + 1;
    forall j | 0 <= j < |cs|
      ensures SentAt(t, v, cs, keeps, k, n, j)
    {
      SentNext(t, u, cs, keeps, k, i, j);
    }
    assert cs[i] in cs && (i + 1 < |cs| ==> cs[i + 1] in cs);
  }

  lemma WalkFiledFirst(t: Table, cs: seq<Handle>, keeps: Handle -> bool, k: nat)
    requires InDepot(t, cs) && k < |cs|
    ensures WalkingFiled(t, t, cs, keeps, k, k)
  {
    forall j | 0 <= j < |cs|
      ensures SentAt(t, t, cs, keeps, k, k, j)
    {
      assert InDepotAt(t, cs, j);
    }
  }

  /** It does no harm exactly when nobody is let go. */
  lemma FiledHarm(t: Table, u: Table, cs: seq<Handle>, keeps: Handle -> bool, k: nat)
    requires WalkingFiled(t, u, cs, keeps, k, |cs|) && k < |cs|
    ensures if KeepsAll(cs, keeps, k) then u == t
            else exists j :: k < j < |cs| && cs[j] in u && u[cs[j]].state.EditSchedule?
  {
    if KeepsAll(cs, keeps, k) {
      forall x | x in t
        ensures u[x] == t[x]
      {
        if x in cs {
          var j :| 0 <= j < |cs| && cs[j] == x;
          assert SentAt(t, u, cs, keeps, k, |cs|, j);
        }
      }
    } else {
      var i :| k <= i < |cs| - 1 && !keeps(cs[i]);
      var j := i + 1;
      assert SentAt(t, u, cs, keeps, k, |cs|, j) && LetsGo(cs, keeps, k, j - 1);
    }
  }

  /** Sends on the convoys of a filed chain from the k-th on. Whoever lets its child go leaves
      a convoy in the depot that is no longer filed. */
  method WalkFiled(w: Welt, self: Handle, keeps: Handle -> bool, ghost cs: seq<Handle>, ghost k: nat)
    requires InDepot(w.cnv, cs) && k < |cs| && cs[k] == self && UNBOUND !in w.cnv
    modifies w`cnv
    ensures w.cnv.Keys == old(w.cnv).Keys && WalkingFiled(old(w.cnv), w.cnv, cs, keeps, k, |cs|)
    ensures if KeepsAll(cs, keeps, k) then w.cnv == old(w.cnv)
            else exists j :: k < j < |cs| && cs[j] in w.cnv && w.cnv[cs[j]].state.EditSchedule?
  {
    ghost var t, i := w.cnv, k;
    var c := self;
    WalkFiledFirst(t, cs, keeps, k);
    while c in w.cnv
      invariant WalkingFiled(t, w.cnv, cs, keeps, k, i)
      invariant if i < |cs| then c == cs[i] else c !in w.cnv
      decreases |cs| - i
    {
      NextFiled(t, w.cnv, cs, keeps, k, i);
      WalkFiledStep(t, w.cnv, cs, keeps, k, i);
      var next := w.cnv[c].coupling;
      PressOne(w, c, keeps(c));
      c := next;
      i := i + 1;
    }
    if i < |cs| { NextFiled(t, w.cnv, cs, keeps, k, i); }
    FiledHarm(t, w.cnv, cs, keeps, k);
  }

  /** Every part of the chain has left, and nobody else noticed. */
  ghost predicate SentOnAll(t: Table, m: Chains, u: Table, m': Chains, self: Handle, keeps: Handle -> bool) {
    && self in m && Fleet(u, m') && LoadsKept(t, u) && ElseKept(t, m, u, m', m[self])
    && forall j {:trigger LeftAt(t, u, m', m[self], keeps, j)} :: 0 <= j < |m[self]| ==>
         LeftAt(t, u, m', m[self], keeps, j)
  }

  /** Either nothing has changed, or a convoy of the filed chain is no longer filed. */
  ghost predicate PressedInDepot(t: Table, u: Table, cs: seq<Handle>, keeps: Handle -> bool, self: Handle) {
    exists k: nat :: k < |cs| && cs[k] == self && WalkingFiled(t, u, cs, keeps, k, |cs|) &&
      if KeepsAll(cs, keeps, k) then u == t
      else exists j :: k < j < |cs| && cs[j] in u && u[cs[j]].state.EditSchedule?
  }

  /** Sends a chain on to its next stop. `keeps` tells of each convoy whether it can go on
      with its child and its entry does not ask it to let go. A convoy in a depot may be sent
      on as well, which does no harm exactly when nobody behind it is let go. */
  method NextStopButtonPressed(w: Welt, self: Handle, keeps: Handle -> bool)
    requires w.Valid() && self in w.cnv
    modifies w
    ensures self in old(w.chainOf) && w.cnv.Keys == old(w.cnv).Keys
    ensures old(w.cnv)[self].state.IsCoupled() || old(w.cnv)[self].state.Shipped? ==>
              w.cnv == old(w.cnv) && w.chainOf == old(w.chainOf)
    ensures old(w.cnv)[self].state.Drives() ==>
              SentOnAll(old(w.cnv), old(w.chainOf), w.cnv, w.chainOf, self, keeps)
    ensures old(w.cnv)[self].state.Initial? ==>
              w.chainOf == old(w.chainOf) && PressedInDepot(old(w.cnv), w.cnv, old(w.chainOf)[self], keeps, self)
  {
    ghost var k := ChainOf(w.cnv, w.chainOf, self);
    if w.cnv[self].state.IsCoupled() || w.cnv[self].state.Shipped? {
      return;
    }
    ghost var cs := w.chainOf[self];
    if w.cnv[self].state.Initial? {
      WalkFiled(w, self, keeps, cs, k);
    } else {
      WalkChain(w, self, keeps, cs);
    }
  }

  /** Two coupled convoys in a depot. */
  function FiledPair(): Table {
    map[
      4 := Convoi(Initial, 5, UNBOUND, [Vehicle(1, false, false)], false, false, UNBOUND, [], Build([1], 1, 0, map[])),
      5 := Convoi(Initial, UNBOUND, UNBOUND, [Vehicle(2, false, false)], false, false, UNBOUND, [],
              Build([2], 1, 0, map[]))
    ]
  }

  /** If the first one does not keep its child when it is sent on, the second one is left in a
      state in which the depot cannot start it. */
  lemma ReleasedInDepot()
    ensures var t, m := FiledPair(), map[4 := [4, 5], 5 := [4, 5]];
      Fleet(t, m) && InDepot(t, [4, 5]) && Pressed(Pressed(t, 4, false), 5, false)[5].state == EditSchedule
  {
    var t, m := FiledPair(), map[4 := [4, 5], 5 := [4, 5]];
    assert InDepotAt(t, [4, 5], 0) && InDepotAt(t, [4, 5], 1);
    assert forall x :: x in [4, 5] ==> x == 4 || x == 5;
    assert Sound(t, m, 4) && Sound(t, m, 5);
  }
}
