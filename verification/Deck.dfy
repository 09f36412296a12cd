/** The space that convoys take up aboard a carrier. */
module Deck {
  import opened Vehicles
  import opened Convois
  import opened Coupling
  import opened Depots
  import opened Shipping

  /** The length of a chain: the whole chain rides together. */
  function Length(t: Table, cs: seq<Handle>): nat {
    if cs == [] then 0
    else Length(t, cs[..|cs| - 1]) + if Last(cs) in t then t[Last(cs)].build.length else 0
  }

  /** What the chain led by x takes of the space for convoys of the shipping good g. */
  ghost function Taken(t: Table, m: Chains, x: Handle, g: nat): nat {
    if x in t && x in m && t[x].build.good == g then Length(t, m[x]) else 0
  }

  ghost function DeckLoad(t: Table, m: Chains, list: seq<Handle>, g: nat): nat {
    if list == [] then 0 else DeckLoad(t, m, list[..|list| - 1], g) + Taken(t, m, Last(list), g)
  }

  function Capacity(c: Convoi, g: nat): nat {
    if g in c.build.deck then c.build.deck[g] else 0
  }

  /** No deck is overloaded by more than one chain of length L. */
  ghost predicate DeckAt(t: Table, m: Chains, k: Handle, g: nat, L: nat)
    requires k in t
  {
    DeckLoad(t, m, t[k].shipped, g) > 0 ==> DeckLoad(t, m, t[k].shipped, g) < Capacity(t[k], g) + L
  }

  ghost predicate DecksHold(t: Table, m: Chains, L: nat) {
    forall k, g {:trigger DeckAt(t, m, k, g, L)} :: k in t ==> DeckAt(t, m, k, g, L)
  }

  lemma {:induction false} LengthSplit(t: Table, A: seq<Handle>, B: seq<Handle>)
    ensures Length(t, A + B) == Length(t, A) + Length(t, B)
  {
    if B == [] {
      assert A + B == A;
    } else {
      var front := B[..|B| - 1];
      LengthSplit(t, A, front);
      assert (A + B)[..|A + B| - 1] == A + front;
    }
  }

  lemma {:induction false} LengthKept(t: Table, u: Table, cs: seq<Handle>)
    requires forall x :: x in cs ==> x in t && x in u && u[x].build == t[x].build
    ensures Length(u, cs) == Length(t, cs)
  {
    if cs != [] {
      LengthKept(t, u, cs[..|cs| - 1]);
      assert Last(cs) in cs;
    }
  }

  /** What the listed chains take does not change if they do not change. */
  lemma {:induction false} LoadKept(t: Table, m: Chains, u: Table, m': Chains, list: seq<Handle>, g: nat)
    requires forall x :: x in list ==> Taken(u, m', x, g) == Taken(t, m, x, g)
    ensures DeckLoad(u, m', list, g) == DeckLoad(t, m, list, g)
  {
    if list != [] {
      LoadKept(t, m, u, m', list[..|list| - 1], g);
      assert Last(list) in list;
    }
  }

  lemma {:induction false} LoadAdded(t: Table, m: Chains, list: seq<Handle>, x: Handle, g: nat)
    ensures DeckLoad(t, m, list + [x], g) == DeckLoad(t, m, list, g) + Taken(t, m, x, g)
  {
    assert (list + [x])[..|list|] == list;
  }

  lemma {:induction false} LoadSplit(t: Table, m: Chains, a: seq<Handle>, b: seq<Handle>, g: nat)
    ensures DeckLoad(t, m, a + b, g) == DeckLoad(t, m, a, g) + DeckLoad(t, m, b, g)
  {
    if b == [] {
      assert a + b == a;
    } else {
      LoadSplit(t, m, a, b[..|b| - 1], g);
      assert (a + b)[..|a + b| - 1] == a + b[..|b| - 1];
    }
  }

  /** A chain that leaves takes its load with it. */
  lemma {:induction false} LoadWithout(t: Table, m: Chains, list: seq<Handle>, x: Handle, g: nat)
    requires x in list
    ensures DeckLoad(t, m, list, g) == DeckLoad(t, m, Without(list, x), g) + Taken(t, m, x, g)
  {
    var rest := list[1..];
    assert list == [list[0]] + rest;
    LoadSplit(t, m, [list[0]], rest, g);
    LoadAdded(t, m, [], list[0], g);
    assert [] + [list[0]] == [list[0]];
    if list[0] != x {
      LoadWithout(t, m, rest, x, g);
      LoadSplit(t, m, [list[0]], Without(rest, x), g);
    }
  }

  lemma TakenKept(t: Table, m: Chains, u: Table, m': Chains, x: Handle, g: nat)
    requires x in t && x in u && x in m && x in m' && m'[x] == m[x]
    requires u[x].build == t[x].build && forall y :: y in m[x] ==> y in t && y in u && u[y].build == t[y].build
    ensures Taken(u, m', x, g) == Taken(t, m, x, g)
  {
    LengthKept(t, u, m[x]);
  }

  /** A convoy boards while any space is left, so it overloads the deck by no more than its
      own length. */
  lemma {:induction false} BoardedDeck(t: Table, m: Chains, self: Handle, c: Handle, cs: seq<Handle>, g: nat, L: nat)
    requires Fleet(t, m) && Whole(t, m, cs) && cs[0] == c && self in t && self !in cs && c in t
    requires DeckAt(t, m, self, g, L) && Length(t, cs) <= L
    requires g == t[c].build.good ==> DeckLoad(t, m, t[self].shipped, g) < Capacity(t[self], g)
    ensures DeckAt(Boarded(t, self, c, cs), m, self, g, L)
  {
    var u := Boarded(t, self, c, cs);
    forall x | x in t[self].shipped + [c]
      ensures Taken(u, m, x, g) == Taken(t, m, x, g)
    {
      if x in m { EachKept(t, m, u, x, g); }
    }
    LoadKept(t, m, u, m, t[self].shipped + [c], g);
    LoadAdded(t, m, t[self].shipped, c, g);
    assert c in cs && m[c] == cs;
  }

  lemma EachKept(t: Table, m: Chains, u: Table, x: Handle, g: nat)
    requires Fleet(t, m) && x in m && u.Keys == t.Keys && forall y :: y in t ==> u[y].build == t[y].build
    ensures Taken(u, m, x, g) == Taken(t, m, x, g)
  {
    assert Sound(t, m, x);
    TakenKept(t, m, u, m, x, g);
  }

  lemma {:induction false} DecksBoarded(t: Table, m: Chains, self: Handle, c: Handle, cs: seq<Handle>, L: nat)
    requires Fleet(t, m) && Whole(t, m, cs) && cs[0] == c && self in t && self !in cs && c in t
    requires DecksHold(t, m, L) && Length(t, cs) <= L
    requires DeckLoad(t, m, t[self].shipped, t[c].build.good) < Capacity(t[self], t[c].build.good)
    ensures DecksHold(Boarded(t, self, c, cs), m, L)
  {
    var u := Boarded(t, self, c, cs);
    forall k, g | k in u
      ensures DeckAt(u, m, k, g, L)
    {
      assert DeckAt(t, m, k, g, L);
      if k == self {
        BoardedDeck(t, m, self, c, cs, g, L);
      } else {
        DeckKept(t, m, u, k, g);
      }
    }
  }

  lemma {:induction false} DeckKept(t: Table, m: Chains, u: Table, k: Handle, g: nat)
    requires Fleet(t, m) && k in t && u.Keys == t.Keys && u[k].shipped == t[k].shipped
    requires forall y :: y in t ==> u[y].build == t[y].build
    ensures DeckLoad(u, m, u[k].shipped, g) == DeckLoad(t, m, t[k].shipped, g)
    ensures Capacity(u[k], g) == Capacity(t[k], g)
  {
    forall x | x in t[k].shipped
      ensures Taken(u, m, x, g) == Taken(t, m, x, g)
    {
      if x in m { EachKept(t, m, u, x, g); }
    }
    LoadKept(t, m, u, m, t[k].shipped, g);
  }

  /** Whoever is still listed after a chain left takes what it took. */
  lemma StillTaken(t: Table, m: Chains, u: Table, cs: seq<Handle>, k: Handle, x: Handle, g: nat)
    requires Fleet(t, m) && AboardWhole(t, m, cs) && Released(t, u, cs) && k in t
    requires x in t[k].shipped && x != cs[0]
    ensures Taken(u, m, x, g) == Taken(t, m, x, g)
  {
    assert Sound(t, m, k) && Sound(t, m, x) && cs[0] in cs;
    if x in cs { AboardMember(t, m, cs, x); }
    forall y | y in m[x]
      ensures y in t && y !in cs
    {
      assert m[y] == m[x];
    }
    TakenKept(t, m, u, m, x, g);
  }

  /** A carrier that puts a chain ashore gets back exactly the space the chain took. */
  lemma {:induction false} ReleasedDeck(t: Table, m: Chains, u: Table, cs: seq<Handle>, k: Handle, g: nat)
    requires Fleet(t, m) && AboardWhole(t, m, cs) && Released(t, u, cs) && k in t && k !in cs
    ensures DeckLoad(t, m, t[k].shipped, g) == DeckLoad(u, m, u[k].shipped, g) +
              if cs[0] in t[k].shipped then Taken(t, m, cs[0], g) else 0
  {
    var c := cs[0];
    assert Sound(t, m, k) && c in cs;
    WithoutMembers(t[k].shipped, c);
    forall x | x in u[k].shipped
      ensures Taken(u, m, x, g) == Taken(t, m, x, g)
    {
      StillTaken(t, m, u, cs, k, x, g);
    }
    LoadKept(t, m, u, m, u[k].shipped, g);
    if c in t[k].shipped {
      AboardMember(t, m, cs, c);
      LoadWithout(t, m, t[k].shipped, c, g);
    }
    assert c !in t[k].shipped ==> k != t[c].carrier || Without(t[k].shipped, c) == t[k].shipped by {
      WithoutNone(t[k].shipped, c);
    }
  }

  lemma {:induction false} WithoutNone(s: seq<Handle>, x: Handle)
    ensures x !in s ==> Without(s, x) == s
  {
    if s != [] && x !in s {
      assert s == [s[0]] + s[1..];
      WithoutNone(s[1..], x);
    }
  }

  lemma DecksReleased(t: Table, m: Chains, u: Table, cs: seq<Handle>, L: nat)
    requires Fleet(t, m) && AboardWhole(t, m, cs) && Released(t, u, cs) && DecksHold(t, m, L)
    ensures DecksHold(u, m, L)
  {
    forall k, g | k in u
      ensures DeckAt(u, m, k, g, L)
    {
      if k !in cs {
        assert DeckAt(t, m, k, g, L);
        ReleasedDeck(t, m, u, cs, k, g);
      }
    }
  }

  /** Cutting a chain aboard neither frees nor takes space, as its convoys share one good. */
  lemma {:induction false} SplitDeck(t: Table, m: Chains, u: Table, m': Chains, self: Handle, A: seq<Handle>,
                                     B: seq<Handle>, g: nat)
    requires Fleet(t, m) && AboardWhole(t, m, A + B) && |A| > 0 && |B| > 0 && self in t && self !in A + B
    requires A[0] in t && t[A[0]].carrier == self && u == SplitAboard(t, self, Last(A), B[0]) && Parted(m, m', A, B)
    requires B[0] in t && t[B[0]].build.good == t[A[0]].build.good
    ensures DeckLoad(u, m', u[self].shipped, g) == DeckLoad(t, m, t[self].shipped, g)
  {
    var c, b, list := A[0], B[0], t[self].shipped;
    SecondHead(t, m, A, B);
    assert (A + B)[0] == c && c in A + B;
    AboardMember(t, m, A + B, c);
    PartsTaken(t, m, u, m', self, A, B, g);
    forall x | x in Without(list, c)
      ensures Taken(u, m', x, g) == Taken(t, m, x, g)
    {
      assert Sound(t, m, self);
      WithoutMembers(list, c);
      SplitTaken(t, m, u, m', self, A, B, x, g);
    }
    LoadKept(t, m, u, m', Without(list, c), g);
    LoadWithout(t, m, list, c, g);
    LoadWithout(u, m', list, c, g);
    LoadAdded(u, m', list, b, g);
  }

  lemma PartsTaken(t: Table, m: Chains, u: Table, m': Chains, self: Handle, A: seq<Handle>, B: seq<Handle>, g: nat)
    requires Fleet(t, m) && AboardWhole(t, m, A + B) && |A| > 0 && |B| > 0
    requires A[0] in t && u == SplitAboard(t, self, Last(A), B[0]) && Parted(m, m', A, B)
    requires B[0] in t && t[B[0]].build.good == t[A[0]].build.good
    ensures Taken(u, m', A[0], g) + Taken(u, m', B[0], g) == Taken(t, m, A[0], g)
  {
    assert A[0] in A && B[0] in B && A[0] in A + B;
    forall x | x in A || x in B
      ensures x in t && x in u && u[x].build == t[x].build
    {
      assert x in A + B;
    }
    LengthKept(t, u, A);
    LengthKept(t, u, B);
    LengthSplit(t, A, B);
  }

  lemma SplitTaken(t: Table, m: Chains, u: Table, m': Chains, self: Handle, A: seq<Handle>, B: seq<Handle>, x: Handle,
                   g: nat)
    requires Fleet(t, m) && AboardWhole(t, m, A + B) && |A| > 0 && |B| > 0 && self in t && x in t
    requires x != A[0] && t[x].carrier != UNBOUND && u == SplitAboard(t, self, Last(A), B[0]) && Parted(m, m', A, B)
    ensures Taken(u, m', x, g) == Taken(t, m, x, g)
  {
    assert (A + B)[0] == A[0] && Sound(t, m, x);
    if x in A + B { AboardMember(t, m, A + B, x); }
    TakenKept(t, m, u, m', x, g);
  }

  lemma DecksSplit(t: Table, m: Chains, u: Table, m': Chains, self: Handle, A: seq<Handle>, B: seq<Handle>, L: nat)
    requires Fleet(t, m) && AboardWhole(t, m, A + B) && |A| > 0 && |B| > 0 && self in t && self !in A + B
    requires A[0] in t && t[A[0]].carrier == self && u == SplitAboard(t, self, Last(A), B[0]) && Parted(m, m', A, B)
    requires B[0] in t && t[B[0]].build.good == t[A[0]].build.good && DecksHold(t, m, L)
    ensures DecksHold(u, m', L)
  {
    forall k, g | k in u
      ensures DeckAt(u, m', k, g, L)
    {
      assert DeckAt(t, m, k, g, L) && Sound(t, m, k);
      if k == self {
        SplitDeck(t, m, u, m', self, A, B, g);
      } else {
        forall x | x in t[k].shipped
          ensures Taken(u, m', x, g) == Taken(t, m, x, g)
        {
          SplitTaken(t, m, u, m', self, A, B, x, g);
        }
        LoadKept(t, m, u, m', t[k].shipped, g);
      }
    }
  }

  /** A carrier gets back the space of a lost convoy's chain. */
  lemma {:induction false} LostDeck(t: Table, m: Chains, u: Table, m': Chains, c: Handle, rest: seq<Handle>, k: Handle,
                                    g: nat)
    requires Fleet(t, m) && AboardWhole(t, m, [c] + rest) && c in t && k in t && k != c
    requires u == Lost(t, c) && Orphaned(m, m', c, rest)
    ensures k in u && DeckLoad(u, m', u[k].shipped, g) <= DeckLoad(t, m, t[k].shipped, g)
  {
    assert Sound(t, m, k);
    WithoutMembers(t[k].shipped, c);
    forall x | x in u[k].shipped
      ensures Taken(u, m', x, g) == Taken(t, m, x, g)
    {
      LostTaken(t, m, u, m', c, rest, x, g);
    }
    LoadKept(t, m, u, m', u[k].shipped, g);
    if c in t[k].shipped {
      LoadWithout(t, m, t[k].shipped, c, g);
    }
    WithoutNone(t[k].shipped, c);
  }

  lemma DecksLost(t: Table, m: Chains, u: Table, m': Chains, c: Handle, rest: seq<Handle>, L: nat)
    requires Fleet(t, m) && AboardWhole(t, m, [c] + rest) && c in t && DecksHold(t, m, L)
    requires u == Lost(t, c) && Orphaned(m, m', c, rest)
    ensures DecksHold(u, m', L)
  {
    forall k, g | k in u
      ensures DeckAt(u, m', k, g, L)
    {
      assert DeckAt(t, m, k, g, L);
      LostDeck(t, m, u, m', c, rest, k, g);
    }
  }

  lemma LostTaken(t: Table, m: Chains, u: Table, m': Chains, c: Handle, rest: seq<Handle>, x: Handle, g: nat)
    requires Fleet(t, m) && AboardWhole(t, m, [c] + rest) && c in t && x in t && x != c && t[x].carrier != UNBOUND
    requires u == Lost(t, c) && Orphaned(m, m', c, rest)
    ensures Taken(u, m', x, g) == Taken(t, m, x, g)
  {
    var cs := [c] + rest;
    assert Sound(t, m, x) && cs[0] == c && c in cs;
    if x in cs { AboardMember(t, m, cs, x); }
    assert forall y :: y in rest ==> y in cs;
    forall y | y in m[x]
      ensures y in t && y !in cs
    {
      assert m[y] == m[x];
    }
    TakenKept(t, m, u, m', x, g);
  }

  /** The convoys of a chain share one shipping good. */
  ghost predicate Uniform(t: Table, cs: seq<Handle>) {
    forall x, y :: x in cs && y in cs && x in t && y in t ==> t[x].build.good == t[y].build.good
  }

  ghost predicate UniformAt(t: Table, m: Chains, x: Handle)
    requires x in m
  {
    Uniform(t, m[x])
  }

  /** Every chain shares one shipping good. */
  ghost predicate AllUniform(t: Table, m: Chains) {
    forall x {:trigger UniformAt(t, m, x)} :: x in m ==> UniformAt(t, m, x)
  }

  /** No deck is overloaded by more than a chain of length L, and every chain shares one
      shipping good. */
  ghost predicate Stowed(t: Table, m: Chains, L: nat) {
    DecksHold(t, m, L) && AllUniform(t, m)
  }

  /** The parts of a chain that shares one good share it too. */
  lemma UniformPart(t: Table, u: Table, cs: seq<Handle>, part: seq<Handle>)
    requires Uniform(t, cs) && (forall x :: x in part ==> x in cs)
    requires forall x :: x in u ==> x in t && u[x].build == t[x].build
    ensures Uniform(u, part)
  {
  }

  lemma LongerChains(t: Table, m: Chains, L: nat, L': nat)
    requires Stowed(t, m, L) && L <= L'
    ensures Stowed(t, m, L')
  {
    forall k, g | k in t
      ensures DeckAt(t, m, k, g, L')
    {
      assert DeckAt(t, m, k, g, L);
    }
  }

  /** What happens to chains on the map does not touch any deck. */
  lemma StowedOnMap(t: Table, m: Chains, u: Table, m': Chains, cs: seq<Handle>, L: nat)
    requires Fleet(t, m) && Stowed(t, m, L) && ElseKept(t, m, u, m', cs) && HoldsKept(t, u)
    requires forall x :: x in cs ==> x in t && !t[x].state.Shipped?
    requires Uniform(t, cs) && forall x :: x in cs && x in m' ==> forall y :: y in m'[x] ==> y in cs
    ensures Stowed(u, m', L)
  {
    assert forall x {:trigger t[x]} :: x in t ==> SameHold(t[x], u[x]);
    forall x | x in m'
      ensures UniformAt(u, m', x)
    {
      assert x in cs || UniformAt(t, m, x);
      UniformPart(t, u, if x in cs then cs else m[x], m'[x]);
    }
    forall k, g | k in u
      ensures DeckAt(u, m', k, g, L)
    {
      assert DeckAt(t, m, k, g, L) && Sound(t, m, k);
      forall x | x in t[k].shipped
        ensures Taken(u, m', x, g) == Taken(t, m, x, g)
      {
        assert Sound(t, m, x);
        TakenKept(t, m, u, m', x, g);
      }
      LoadKept(t, m, u, m', t[k].shipped, g);
    }
  }

  lemma {:induction false} StowedBoarded(t: Table, m: Chains, self: Handle, c: Handle, cs: seq<Handle>, L: nat)
    requires Fleet(t, m) && Whole(t, m, cs) && cs[0] == c && self in t && self !in cs && c in t
    requires Stowed(t, m, L) && Length(t, cs) <= L
    requires DeckLoad(t, m, t[self].shipped, t[c].build.good) < Capacity(t[self], t[c].build.good)
    ensures Stowed(Boarded(t, self, c, cs), m, L)
  {
    var u := Boarded(t, self, c, cs);
    DecksBoarded(t, m, self, c, cs, L);
    forall x | x in m
      ensures UniformAt(u, m, x)
    {
      assert UniformAt(t, m, x);
      UniformPart(t, u, m[x], m[x]);
    }
  }

  lemma StowedReleased(t: Table, m: Chains, u: Table, cs: seq<Handle>, L: nat)
    requires Fleet(t, m) && AboardWhole(t, m, cs) && Released(t, u, cs) && Stowed(t, m, L)
    requires forall x :: x in t ==> u[x].build == t[x].build
    ensures Stowed(u, m, L)
  {
    DecksReleased(t, m, u, cs, L);
    forall x | x in m
      ensures UniformAt(u, m, x)
    {
      assert UniformAt(t, m, x);
      UniformPart(t, u, m[x], m[x]);
    }
  }

  lemma StowedSplit(t: Table, m: Chains, u: Table, m': Chains, self: Handle, A: seq<Handle>, B: seq<Handle>, L: nat)
    requires Fleet(t, m) && AboardWhole(t, m, A + B) && |A| > 0 && |B| > 0 && self in t && self !in A + B
    requires A[0] in t && t[A[0]].carrier == self && u == SplitAboard(t, self, Last(A), B[0]) && Parted(m, m', A, B)
    requires Stowed(t, m, L)
    ensures Stowed(u, m', L)
  {
    assert A[0] in A + B && (A + B)[|A|] == B[0] && B[0] in A + B;
    assert UniformAt(t, m, A[0]);
    AboardMember(t, m, A + B, B[0]);
    DecksSplit(t, m, u, m', self, A, B, L);
    UniformSplit(t, m, u, m', A, B);
  }

  lemma UniformSplit(t: Table, m: Chains, u: Table, m': Chains, A: seq<Handle>, B: seq<Handle>)
    requires Uniform(t, A + B) && Parted(m, m', A, B) && AllUniform(t, m)
    requires forall x :: x in u ==> x in t && u[x].build == t[x].build
    ensures AllUniform(u, m')
  {
    forall x | x in m'
      ensures UniformAt(u, m', x)
    {
      assert x in A + B || UniformAt(t, m, x);
      assert forall y :: y in A || y in B ==> y in A + B;
      UniformPart(t, u, if x in A + B then A + B else m[x], m'[x]);
    }
  }

  lemma StowedLost(t: Table, m: Chains, u: Table, m': Chains, c: Handle, rest: seq<Handle>, L: nat)
    requires Fleet(t, m) && AboardWhole(t, m, [c] + rest) && c in t && Stowed(t, m, L)
    requires u == Lost(t, c) && Orphaned(m, m', c, rest)
    ensures Stowed(u, m', L)
  {
    DecksLost(t, m, u, m', c, rest, L);
    assert c in [c] + rest && m[c] == [c] + rest;
    forall x | x in m'
      ensures UniformAt(u, m', x)
    {
      assert UniformAt(t, m, c) && UniformAt(t, m, x);
      assert forall y :: y in rest ==> y in [c] + rest;
      UniformPart(t, u, if x in rest then [c] + rest else m[x], m'[x]);
    }
  }
}
