/** Any run of the operations on coupled, carried and filed convoys, in any order. */
module Runs {
  import opened Convois
  import opened Coupling
  import opened Journeys
  import opened Depots
  import opened Orphans
  import opened Deck
  import opened Landing
  import opened Rescue
  import opened Visits
  import opened Events

  datatype Event =
    | Couple(front: Handle, rear: Handle, running: bool)
    | Uncouple(front: Handle)
    | TurnRound(head: Handle)                          // the order of the convoys
    | Turn(convoy: Handle)                             // the vehicles of one convoy
    | Depart(head: Handle, keeps: Handle -> bool)
    | Stop(head: Handle)
    | Leave(head: Handle)
    | Proceed(head: Handle, to: State)
    | Board(carrier: Handle, convoy: Handle)
    | CallAt(carrier: Handle, call: Call)
    | Vanish(carrier: Handle, depot: Handle -> bool)
    | Repair(orphan: Handle, found: bool)
    | Enter(head: Handle, depot: Handle -> bool)
    | Start(convoy: Handle, ready: bool)

  datatype Moment = Moment(cnv: Table, chainOf: Chains, listed: seq<Handle>)

  /** The events that only concern chains on the map. */
  predicate OnMapOnly(e: Event) {
    e.Couple? || e.Uncouple? || e.TurnRound? || e.Turn? || e.Depart? || e.Stop? || e.Leave? || e.Proceed?
  }

  /** What an event does on the map. */
  ghost predicate DidOnMap(t: Table, m: Chains, u: Table, m': Chains, e: Event)
    requires OnMapOnly(e)
  {
    match e
    case Couple(a, b, running) => DidCouple(t, m, u, m', a, b, running)
    case Uncouple(a) => DidUncouple(t, m, u, m', a)
    case TurnRound(a) => DidTurnRound(t, m, u, m', a)
    case Turn(c) => DidTurn(t, m, u, m', c)
    case Depart(a, keeps) => DidDepart(t, m, u, m', a, keeps)
    case Stop(a) => DidStop(t, m, u, m', a)
    case Leave(a) => DidLeave(t, m, u, m', a)
    case Proceed(a, to) => DidProceed(t, m, u, m', a, to)
  }

  /** What an event does, from one moment to the next. */
  ghost predicate Did(s: Moment, e: Event, s': Moment) {
    if OnMapOnly(e) then DidOnMap(s.cnv, s.chainOf, s'.cnv, s'.chainOf, e) && s'.listed == s.listed
    else match e
      case Board(k, c) => DidBoard(s.cnv, s.chainOf, s'.cnv, s'.chainOf, k, c) && s'.listed == s.listed
      case CallAt(k, call) => DidCall(s.cnv, s.chainOf, s.listed, s'.cnv, s'.chainOf, s'.listed, k, call)
      case Vanish(k, depot) => DidVanish(s.cnv, s.chainOf, s.listed, s'.cnv, s'.chainOf, s'.listed, k, depot)
      case Repair(c, found) => DidRepair(s.cnv, s.chainOf, s.listed, s'.cnv, s'.chainOf, s'.listed, c, found)
      case Enter(c, depot) => DidEnter(s.cnv, s.chainOf, s.listed, s'.cnv, s'.chainOf, s'.listed, c, depot)
      case Start(c, ready) => DidStart(s.cnv, s.chainOf, s.listed, s'.cnv, s'.chainOf, s'.listed, c, ready)
  }

  /** Whatever is rescued by the event has a depot to go to. */
  ghost predicate Sheltered(e: Event) {
    match e
    case CallAt(_, call) => Everywhere(call.depot)
    case Vanish(_, depot) => Everywhere(depot)
    case Enter(_, depot) => Everywhere(depot)
    case _ => true
  }

  /** The length of the chain that went aboard, if one did. */
  ghost function LengthBoarded(s: Moment, s': Moment, e: Event): nat {
    if e.Board? && s'.cnv != s.cnv && e.convoy in s.chainOf then Length(s.cnv, s.chainOf[e.convoy]) else 0
  }

  /** A moment at which all is in order, with no deck overloaded by more than L. */
  ghost predicate Orderly(s: Moment, L: nat) {
    Fleet(s.cnv, s.chainOf) && Stowed(s.cnv, s.chainOf, L) && Lists(s.cnv, s.chainOf, s.listed)
  }

  method HappenOnMap(w: Welt, dep: Depot, e: Event, ghost L: nat)
    requires Orderly(Moment(w.cnv, w.chainOf, dep.convois), L) && OnMapOnly(e)
    modifies w
    ensures Orderly(Moment(w.cnv, w.chainOf, dep.convois), L)
    ensures Accounted(old(w.cnv), old(w.chainOf), w.cnv, w.chainOf)
    ensures Cared(old(w.cnv), old(w.chainOf)) ==> Cared(w.cnv, w.chainOf)
    ensures DidOnMap(old(w.cnv), old(w.chainOf), w.cnv, w.chainOf, e)
  {
    match e
    case Couple(a, b, running) => CoupleThem(w, dep, a, b, running, L);
    case Uncouple(a) => UncoupleThem(w, dep, a, L);
    case TurnRound(a) => TurnThemRound(w, dep, a, L);
    case Turn(c) => TurnIt(w, dep, c, L);
    case Depart(a, keeps) => SendThemOn(w, dep, a, keeps, L);
    case Stop(a) => StopIt(w, dep, a, L);
    case Leave(a) => LeaveIt(w, dep, a, L);
    case Proceed(a, to) => ProceedIt(w, dep, a, to, L);
  }

  method Happen(w: Welt, dep: Depot, e: Event, ghost L: nat) returns (ghost length: nat)
    requires Orderly(Moment(w.cnv, w.chainOf, dep.convois), L)
    modifies w, dep
    ensures Orderly(Moment(w.cnv, w.chainOf, dep.convois), Max(L, length))
    ensures Accounted(old(w.cnv), old(w.chainOf), w.cnv, w.chainOf)
    ensures Cared(old(w.cnv), old(w.chainOf)) && Sheltered(e) ==> Cared(w.cnv, w.chainOf)
    ensures Did(old(Moment(w.cnv, w.chainOf, dep.convois)), e, Moment(w.cnv, w.chainOf, dep.convois))
    ensures length ==
              LengthBoarded(old(Moment(w.cnv, w.chainOf, dep.convois)), Moment(w.cnv, w.chainOf, dep.convois), e)
  {
    length := 0;
    if OnMapOnly(e) {
      HappenOnMap(w, dep, e, L);
      return;
    }
    match e
    case Board(k, c) => length := BoardIt(w, dep, k, c, L);
    case CallAt(k, call) => CallIt(w, dep, k, call, L);
    case Vanish(k, depot) => EmptyIt(w, dep, k, depot, L);
    case Repair(c, found) => RepairIt(w, dep, c, found, L);
    case Enter(c, depot) => FileIt(w, dep, c, depot, L);
    case Start(c, ready) => StartIt(w, dep, c, ready, L);
  }

  ghost function Longest(s: seq<nat>): nat {
    if s == [] then 0 else Max(Longest(s[..|s| - 1]), s[|s| - 1])
  }

  lemma {:induction false} LongestNext(boarded: seq<nat>, length: nat)
    ensures Longest(boarded + [length]) == Max(Longest(boarded), length)
  {
    assert (boarded + [length])[..|boarded|] == boarded;
  }

  /** The n-th moment: all is in order, no deck is overloaded by more than the longest chain
      that boarded until then, and everybody aboard is aboard something as long as there
      were depots. */
  ghost predicate MomentAt(trace: seq<Moment>, boarded: seq<nat>, events: seq<Event>, n: int)
    requires 0 <= n < |trace| && |trace| == |boarded| + 1 && |boarded| <= |events|
  {
    && Orderly(trace[n], Longest(boarded[..n]))
    && ((forall i :: 0 <= i < n ==> Sheltered(events[i])) ==> Cared(trace[n].cnv, trace[n].chainOf))
  }

  /** What the n-th event did: whoever is aboard nothing after it was so before, or was pulled
      by a head that the event destroyed. */
  ghost predicate StepAt(trace: seq<Moment>, boarded: seq<nat>, events: seq<Event>, n: int)
    requires 0 <= n < |boarded| && |trace| == |boarded| + 1 && |boarded| <= |events|
  {
    var next := n + 1;
    && Did(trace[n], events[n], trace[next])
    && Accounted(trace[n].cnv, trace[n].chainOf, trace[next].cnv, trace[next].chainOf)
    && boarded[n] == LengthBoarded(trace[n], trace[next], events[n])
  }

  ghost predicate Moments(trace: seq<Moment>, boarded: seq<nat>, events: seq<Event>)
    requires |trace| == |boarded| + 1 && |boarded| <= |events|
  {
    forall n {:trigger MomentAt(trace, boarded, events, n)} :: 0 <= n < |trace| ==> MomentAt(trace, boarded, events, n)
  }

  ghost predicate Steps(trace: seq<Moment>, boarded: seq<nat>, events: seq<Event>)
    requires |trace| == |boarded| + 1 && |boarded| <= |events|
  {
    forall n {:trigger StepAt(trace, boarded, events, n)} :: 0 <= n < |boarded| ==> StepAt(trace, boarded, events, n)
  }

  /** The moments of the first events of a run, and the lengths that went aboard. */
  ghost predicate Traced(trace: seq<Moment>, boarded: seq<nat>, events: seq<Event>) {
    && |boarded| <= |events| && |trace| == |boarded| + 1
    && Moments(trace, boarded, events) && Steps(trace, boarded, events)
  }

  lemma {:induction false} MomentsNext(trace: seq<Moment>, boarded: seq<nat>, events: seq<Event>, s: Moment,
                                       length: nat)
    requires |trace| == |boarded| + 1 <= |events| && Moments(trace, boarded, events)
    requires Orderly(s, Max(Longest(boarded), length))
    requires var last, e := trace[|boarded|], events[|boarded|];
      Cared(last.cnv, last.chainOf) && Sheltered(e) ==> Cared(s.cnv, s.chainOf)
    ensures Moments(trace + [s], boarded + [length], events)
  {
    var t, b, k := trace + [s], boarded + [length], |boarded|;
    LongestNext(boarded, length);
    assert b[..k + 1] == b && MomentAt(trace, boarded, events, k);
    forall n | 0 <= n < |t|
      ensures MomentAt(t, b, events, n)
    {
      if n <= k {
        assert MomentAt(trace, boarded, events, n) && b[..n] == boarded[..n];
      }
    }
  }

  lemma {:induction false} StepsNext(trace: seq<Moment>, boarded: seq<nat>, events: seq<Event>, s: Moment, length: nat)
    requires |trace| == |boarded| + 1 <= |events| && Steps(trace, boarded, events)
    requires var last, e := trace[|boarded|], events[|boarded|];
      && Did(last, e, s) && Accounted(last.cnv, last.chainOf, s.cnv, s.chainOf) && length == LengthBoarded(last, s, e)
    ensures Steps(trace + [s], boarded + [length], events)
  {
    var t, b, k := trace + [s], boarded + [length], |boarded|;
    forall n | 0 <= n < |b|
      ensures StepAt(t, b, events, n)
    {
      if n < k {
        assert StepAt(trace, boarded, events, n);
        assert t[n] == trace[n] && t[n + 1] == trace[n + 1] && b[n] == boarded[n];
      }
    }
  }

  lemma {:induction false} TracedNext(trace: seq<Moment>, boarded: seq<nat>, events: seq<Event>, s: Moment,
                                      length: nat)
    requires Traced(trace, boarded, events) && |boarded| < |events| && Orderly(s, Max(Longest(boarded), length))
    requires var last, e := trace[|boarded|], events[|boarded|];
      && Did(last, e, s) && Accounted(last.cnv, last.chainOf, s.cnv, s.chainOf) && length == LengthBoarded(last, s, e)
      && (Cared(last.cnv, last.chainOf) && Sheltered(e) ==> Cared(s.cnv, s.chainOf))
    ensures Traced(trace + [s], boarded + [length], events)
  {
    MomentsNext(trace, boarded, events, s, length);
    StepsNext(trace, boarded, events, s, length);
  }

  /** The n-th event destroyed the head of the chain aboard that x was in. */
  ghost predicate BereftAt(trace: seq<Moment>, n: int, x: Handle)
    requires 0 <= n < |trace| - 1
  {
    var s, next := trace[n], n + 1;
    && x in s.cnv && x in s.chainOf && s.cnv[x].state.Shipped?
    && |s.chainOf[x]| > 0 && s.chainOf[x][0] in s.cnv && s.chainOf[x][0] !in trace[next].cnv
  }

  /** Whoever is aboard nothing at some moment of a run was so from the start, or some event
      before destroyed the head of the chain it was in. */
  lemma {:induction false} OrphanOrigin(trace: seq<Moment>, boarded: seq<nat>, events: seq<Event>, n: nat, x: Handle)
    requires Traced(trace, boarded, events) && n < |trace| && x in trace[n].cnv && x in trace[n].chainOf
    requires !CaredAt(trace[n].cnv, trace[n].chainOf, x)
    ensures || (x in trace[0].cnv && x in trace[0].chainOf && !CaredAt(trace[0].cnv, trace[0].chainOf, x))
            || exists k {:trigger BereftAt(trace, k, x)} :: 0 <= k < n && BereftAt(trace, k, x)
  {
    if n > 0 {
      var s, s' := trace[n - 1], trace[n];
      assert StepAt(trace, boarded, events, n - 1) && MomentAt(trace, boarded, events, n - 1);
      HeadWasLost(s.cnv, s.chainOf, s'.cnv, s'.chainOf, x);
      if CaredAt(s.cnv, s.chainOf, x) {
        assert BereftAt(trace, n - 1, x);
      } else {
        OrphanOrigin(trace, boarded, events, n - 1, x);
      }
    }
  }

  /** As long as no chain aboard loses its head, everybody aboard has a carrier, whether there
      are depots or not. */
  lemma CaredUntilLoss(trace: seq<Moment>, boarded: seq<nat>, events: seq<Event>, n: nat)
    requires Traced(trace, boarded, events) && n < |trace| && Cared(trace[0].cnv, trace[0].chainOf)
    requires forall k, x {:trigger BereftAt(trace, k, x)} :: 0 <= k < n && x in trace[n].cnv ==> !BereftAt(trace, k, x)
    ensures Cared(trace[n].cnv, trace[n].chainOf)
  {
    assert MomentAt(trace, boarded, events, n);
    forall x | x in trace[n].cnv
      ensures CaredAt(trace[n].cnv, trace[n].chainOf, x)
    {
      if !CaredAt(trace[n].cnv, trace[n].chainOf, x) { OrphanOrigin(trace, boarded, events, n, x); }
    }
  }

  /** Every run keeps the whole fleet in order, at every moment. */
  method Run(w: Welt, dep: Depot, events: seq<Event>) returns (ghost trace: seq<Moment>, ghost boarded: seq<nat>)
    requires Orderly(Moment(w.cnv, w.chainOf, dep.convois), 0) && Cared(w.cnv, w.chainOf)
    modifies w, dep
    ensures Traced(trace, boarded, events) && |boarded| == |events|
    ensures trace[0] == old(Moment(w.cnv, w.chainOf, dep.convois))
    ensures trace[|events|] == Moment(w.cnv, w.chainOf, dep.convois)
  {
    boarded, trace := [], [Moment(w.cnv, w.chainOf, dep.convois)];
    ghost var s := trace[0];
    assert MomentAt(trace, boarded, events, 0);
    var n := 0;
    while n < |events|
      invariant 0 <= n == |boarded| <= |events| && Traced(trace, boarded, events)
      invariant trace[0] == s && trace[n] == Moment(w.cnv, w.chainOf, dep.convois)
    {
      assert MomentAt(trace, boarded, events, n) && boarded[..n] == boarded;
      ghost var length := Happen(w, dep, events[n], Longest(boarded));
      TracedNext(trace, boarded, events, Moment(w.cnv, w.chainOf, dep.convois), length);
      boarded, trace := boarded + [length], trace + [Moment(w.cnv, w.chainOf, dep.convois)];
      n := n + 1;
    }
  }

  /** At every moment of a run, whoever is in a depot stands in base order, and whoever is
      anywhere in the order that `reversed` tells, which is what copying relies on. */
  lemma BaseOrderInDepots(s: Moment, L: nat, x: Handle)
    requires Orderly(s, L) && x in s.cnv
    ensures InOrder(s.cnv[x])
    ensures s.cnv[x].state.Initial? || x in s.listed ==> InBaseOrder(s.cnv[x])
  {
    assert Sound(s.cnv, s.chainOf, x);
    if s.cnv[x].state.Initial? { FiledInBase(s.cnv, s.chainOf, x); }
  }
}
