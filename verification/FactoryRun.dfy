/** Whatever happens to a factory, its stocks stay within their limits; and the counters of one
    that consumes are those of a recount up to the first event that makes one wrong. */
module FactoryRun {
  import opened Rates
  import opened Factory

  datatype Event =
    | Work(prod: nat)                  // a step: produce, consume and order
    | Arrival(input: nat, menge: nat)
    | SetOut(input: nat, menge: nat)
    | TakenBack(input: nat, menge: nat)
    | Departure(output: nat, space: int)
    | Recount

  ghost predicate InputBounds(input: seq<Input>) {
    forall i :: 0 <= i < |input| ==> 0 <= input[i].menge <= input[i].max && Fits(input[i])
  }

  ghost predicate OutputBounds(output: seq<Output>) {
    forall i :: 0 <= i < |output| ==> 0 <= output[i].menge <= output[i].max
  }

  /** No stock is negative or above its limit, whatever the counters say. */
  ghost predicate InBounds(f: Fabrik)
    reads f
  {
    f.Valid() && f.OutputsCounted() && InputBounds(f.input) && OutputBounds(f.output)
  }

  /** The stocks and counters of a factory at one moment. */
  datatype Moment = Moment(ins: seq<Input>, outs: seq<Output>, ci: Byte, co: Byte, cd: Byte)

  function Now(f: Fabrik): Moment
    reads f
  {
    Moment(f.input, f.output, f.inactiveInputs, f.inactiveOutputs, f.inactiveDemands)
  }

  /** No stock leaves its limits, and the counter of the outputs of a factory that consumes is
      right. */
  ghost predicate Sane(s: Moment) {
    && InputBounds(s.ins) && OutputBounds(s.outs) && |s.ins| < 256 && |s.outs| < 256
    && (s.ins != [] ==> Shows(s.co, CountFull(s.outs)))
  }

  /** The counters of inputs and demands are right. */
  ghost predicate Right(s: Moment) { Shows(s.ci, CountDrained(s.ins)) && Shows(s.cd, CountSated(s.ins)) }

  /** The counters are those of a recount. */
  ghost predicate Recounted(s: Moment) {
    s.ci == CountDrained(s.ins) && s.cd == CountSated(s.ins) && s.co == CountFull(s.outs)
  }

  lemma CountersShow(s: Moment)
    requires Sane(s) && s.ins != []
    ensures Recounted(s) <==> Right(s)
  {
    ShowsSmall(s.ci, CountDrained(s.ins));
    ShowsSmall(s.cd, CountSated(s.ins));
    ShowsSmall(s.co, CountFull(s.outs));
  }

  /** What makes a counter wrong: a delivery after which the input is still drained, and an
      amount that makes a demand wrap round past its limit. */
  ghost predicate Miscounts(s: Moment, consumption: seq<nat>, e: Event)
    requires Consumes(s, consumption)
  {
    match e
    case Arrival(k, menge) => k < |s.ins| && (s.ins[k].max <= 0 || (menge == 0 && Drained(s.ins[k])))
    case SetOut(k, menge) => k < |s.ins| && WrapsUp(s.ins[k], menge, consumption[k])
    case TakenBack(k, menge) => k < |s.ins| && WrapsDown(s.ins[k], menge, consumption[k])
    case _ => false
  }

  ghost predicate Consumes(s: Moment, consumption: seq<nat>) {
    |consumption| == |s.ins| && forall i :: 0 <= i < |consumption| ==> consumption[i] > 0
  }

  ghost predicate Makes(s: Moment, factor: seq<nat>) {
    |factor| == |s.outs| && forall i :: 0 <= i < |factor| ==> factor[i] > 0
  }

  lemma OutputsStay(outs: seq<Output>, now: seq<Output>)
    requires OutputBounds(outs) && Raised(outs, now)
    ensures OutputBounds(now)
  {
  }

  lemma InputsStay(input: seq<Input>, now: seq<Input>)
    requires InputBounds(input) && |now| == |input|
    requires forall i :: 0 <= i < |input| ==>
               && now[i].max == input[i].max && 0 <= now[i].menge <= input[i].menge
               && MIN_SINT32 <= now[i].demand <= MAX_SINT32
    ensures InputBounds(now)
  {
  }

  /** What a factory of any kind makes and takes in a step, and how much it wants. */
  ghost predicate Made(ins: seq<Input>, outs: seq<Output>, ci: Byte, co: Byte, prod: nat, now: seq<Input>,
                       made: seq<Output>, want: nat)
  {
    if ins == [] then
      now == [] && want == 0 && if co == |outs| then made == outs else FilledFrom(outs, made, prod, |outs|)
    else if outs == [] then
      made == [] && want == prod && if ci == |ins| then now == ins else Consumed(ins, now, prod, |ins|)
    else if co == |outs| then now == ins && made == outs && want == 0
    else
      var noInput := ci > 0;
      exists total, consumed :: Works(ins, outs, now, made, prod, noInput, want, total, consumed)
  }

  /** What it then has on order. */
  ghost predicate Asked(ins: seq<Input>, cd: Byte, want: nat, sync: bool, now: seq<Input>) {
    && |now| == |ins|
    && if want == 0 || (if sync then cd > 0 else cd == |ins|) then now == ins
       else if sync then now == OrderedAll(ins, want)
       else forall i :: 0 <= i < |ins| ==> now[i] == OrderedOne(ins[i], want)
  }

  method Work(f: Fabrik, prod: nat) returns (want: nat)
    requires InBounds(f) && prod <= MAX_SINT32
    modifies f
    ensures InBounds(f) && (old(f.Counted()) ==> f.Counted()) && f.inactiveDemands == old(f.inactiveDemands)
    ensures Made(old(f.input), old(f.output), old(f.inactiveInputs), old(f.inactiveOutputs), prod, f.input, f.output,
                 want)
  {
    want := 0;
    ghost var ins, outs := f.input, f.output;
    if f.input == [] {
      f.ProduceMany(prod);
    } else if f.output == [] {
      want := f.ConsumeMany(prod);
      InputsStay(ins, f.input);
    } else {
      ghost var made, consumed;
      want, made, consumed := f.TransformMany(prod);
      OutputsStay(outs, f.output);
      InputsStay(ins, f.input);
    }
  }

  method Order(f: Fabrik, want: nat, sync: bool)
    requires InBounds(f)
    modifies f
    ensures InBounds(f) && (old(f.Counted()) ==> f.Counted()) && f.output == old(f.output)
    ensures Asked(old(f.input), old(f.inactiveDemands), want, sync, f.input)
  {
    ghost var ins := f.input;
    if sync {
      f.OrderSync(want);
    } else {
      f.OrderAsync(want);
    }
    InputsStay(ins, f.input);
  }

  /** What an event does to the stocks and to what is on order. */
  ghost predicate Moves(s: Moment, s': Moment, consumption: seq<nat>, factor: seq<nat>, e: Event, sync: bool)
    requires Consumes(s, consumption) && Makes(s, factor)
  {
    match e
    case Work(prod) =>
      exists now, want :: Made(s.ins, s.outs, s.ci, s.co, Saturate(prod), now, s'.outs, want)
                       && Asked(now, s.cd, want, sync, s'.ins)
    case Arrival(k, menge) =>
      && s'.outs == s.outs
      && s'.ins == if k < |s.ins| then s.ins[k := Delivered(s.ins[k], FromUnits(menge, consumption[k]))] else s.ins
    case SetOut(k, menge) =>
      && s'.outs == s.outs
      && s'.ins == if k < |s.ins| then s.ins[k := Factory.SetOut(s.ins[k], menge, consumption[k])] else s.ins
    case TakenBack(k, menge) =>
      && s'.outs == s.outs
      && s'.ins == if k < |s.ins| then s.ins[k := Factory.TakenBack(s.ins[k], menge, consumption[k])] else s.ins
    case Departure(k, space) =>
      && s'.ins == s.ins
      && s'.outs == if k < |s.outs| && s.outs[k].menge >= s.outs[k].minShipment
                    then s.outs[k := Shipped(s.outs[k], Shipment(s.outs[k], factor[k], space), factor[k])] else s.outs
    case Recount => s'.ins == s.ins && s'.outs == s.outs
  }

  /** One event: what it does, that all stocks stay within their limits, and that right counters
      stay right exactly unless it is an event that makes one wrong. */
  ghost predicate Did(s: Moment, s': Moment, consumption: seq<nat>, factor: seq<nat>, e: Event, sync: bool) {
    && Consumes(s, consumption) && Makes(s, factor) && |s'.ins| == |s.ins| && |s'.outs| == |s.outs| && Sane(s')
    && Moves(s, s', consumption, factor, e, sync)
    && (Right(s) ==> (Right(s') <==> !Miscounts(s, consumption, e))) && (e.Recount? ==> Right(s'))
  }

  lemma BoundsSane(f: Fabrik)
    requires InBounds(f)
    ensures Sane(Now(f)) && Consumes(Now(f), f.consumption) && Makes(Now(f), f.factor)
    ensures (Right(Now(f)) <==> f.Counted())
  {
  }

  method Arrive(f: Fabrik, k: nat, menge: nat, sync: bool)
    requires InBounds(f) && k < |f.input|
    modifies f
    ensures InBounds(f) && Did(old(Now(f)), Now(f), f.consumption, f.factor, Arrival(k, menge), sync)
  {
    BoundsSane(f);
    var _ := f.LiefereAn(k, menge);
    BoundsSane(f);
  }

  method Send(f: Fabrik, k: nat, menge: nat, sync: bool)
    requires InBounds(f) && k < |f.input|
    modifies f
    ensures InBounds(f) && Did(old(Now(f)), Now(f), f.consumption, f.factor, SetOut(k, menge), sync)
  {
    BoundsSane(f);
    WrapsUpExact(f.input[k], menge, f.consumption[k]);
    f.ApplyTransit(k, menge);
    BoundsSane(f);
  }

  method TakeBack(f: Fabrik, k: nat, menge: nat, sync: bool)
    requires InBounds(f) && k < |f.input|
    modifies f
    ensures InBounds(f) && Did(old(Now(f)), Now(f), f.consumption, f.factor, TakenBack(k, menge), sync)
  {
    BoundsSane(f);
    WrapsDownExact(f.input[k], menge, f.consumption[k]);
    f.Refund(k, menge);
    BoundsSane(f);
  }

  method Depart(f: Fabrik, k: nat, space: int, sync: bool)
    requires InBounds(f)
    modifies f
    ensures InBounds(f) && Did(old(Now(f)), Now(f), f.consumption, f.factor, Departure(k, space), sync)
  {
    BoundsSane(f);
    if k < |f.output| && f.output[k].menge >= f.output[k].minShipment {
      var _ := f.VerteileWaren(k, space);
    }
    BoundsSane(f);
  }

  method Step(f: Fabrik, prod: nat, sync: bool)
    requires InBounds(f)
    modifies f
    ensures InBounds(f) && Did(old(Now(f)), Now(f), f.consumption, f.factor, Event.Work(prod), sync)
  {
    BoundsSane(f);
    var want := Work(f, Saturate(prod));
    Order(f, want, sync);
    BoundsSane(f);
  }

  method Happen(f: Fabrik, e: Event, sync: bool)
    requires InBounds(f)
    modifies f
    ensures InBounds(f) && Did(old(Now(f)), Now(f), f.consumption, f.factor, e, sync)
  {
    BoundsSane(f);
    match e {
      case Work(prod) => Step(f, prod, sync);
      case Arrival(k, menge) =>
        if k < |f.input| { Arrive(f, k, menge, sync); }
      case SetOut(k, menge) =>
        if k < |f.input| { Send(f, k, menge, sync); }
      case TakenBack(k, menge) =>
        if k < |f.input| { TakeBack(f, k, menge, sync); }
      case Departure(k, space) => Depart(f, k, space, sync);
      case Recount =>
        f.RebuildInactiveCache();
        BoundsSane(f);
    }
  }

  /** The n-th event of a run. */
  ghost predicate StepAt(trace: seq<Moment>, consumption: seq<nat>, factor: seq<nat>, events: seq<Event>, sync: bool,
                         n: int)
    requires 0 <= n < |events| && |trace| == |events| + 1
  {
    var next := n + 1;
    Did(trace[n], trace[next], consumption, factor, events[n], sync)
  }

  ghost predicate Traced(trace: seq<Moment>, consumption: seq<nat>, factor: seq<nat>, events: seq<Event>, sync: bool) {
    && |trace| == |events| + 1 && Sane(trace[0])
    && forall n {:trigger StepAt(trace, consumption, factor, events, sync, n)} :: 0 <= n < |events| ==>
         StepAt(trace, consumption, factor, events, sync, n)
  }

  lemma TracedNext(trace: seq<Moment>, consumption: seq<nat>, factor: seq<nat>, events: seq<Event>, sync: bool,
                   s: Moment, e: Event)
    requires Traced(trace, consumption, factor, events, sync) && Did(trace[|events|], s, consumption, factor, e, sync)
    ensures Traced(trace + [s], consumption, factor, events + [e], sync)
  {
    var t, es := trace + [s], events + [e];
    forall n | 0 <= n < |es|
      ensures StepAt(t, consumption, factor, es, sync, n)
    {
      assert n < |events| ==> StepAt(trace, consumption, factor, events, sync, n) && t[n + 1] == trace[n + 1];
      assert t[n] == trace[n];
    }
  }

  /** Any run of any factory, from any state of its counters: each moment follows from the one
      before by its event, and no stock is ever negative or above its limit. */
  method Run(f: Fabrik, events: seq<Event>, sync: bool) returns (ghost trace: seq<Moment>)
    requires InBounds(f)
    modifies f
    ensures InBounds(f) && Traced(trace, f.consumption, f.factor, events, sync)
    ensures trace[0] == old(Now(f)) && trace[|events|] == Now(f)
  {
    BoundsSane(f);
    trace := [Now(f)];
    assert events[..0] == [];
    for i := 0 to |events|
      invariant InBounds(f) && Traced(trace, f.consumption, f.factor, events[..i], sync)
      invariant trace[0] == old(Now(f)) && trace[i] == Now(f)
    {
      Happen(f, events[i], sync);
      assert events[..i + 1] == events[..i] + [events[i]];
      TracedNext(trace, f.consumption, f.factor, events[..i], sync, Now(f), events[i]);
      trace := trace + [Now(f)];
    }
    assert events[..|events|] == events;
  }

  lemma DidRight(s: Moment, s': Moment, consumption: seq<nat>, factor: seq<nat>, e: Event, sync: bool)
    requires Did(s, s', consumption, factor, e, sync) && Sane(s) && s.ins != [] && Recounted(s)
    ensures s'.ins != [] && Sane(s') && Consumes(s, consumption)
    ensures Recounted(s') <==> !Miscounts(s, consumption, e)
  {
    CountersShow(s);
    CountersShow(s');
  }

  /** The n-th event makes no counter wrong. */
  ghost predicate KeepsRight(trace: seq<Moment>, consumption: seq<nat>, events: seq<Event>, n: int) {
    0 <= n < |events| && n < |trace| && Consumes(trace[n], consumption) && !Miscounts(trace[n], consumption, events[n])
  }

  /** Over a run of a factory that consumes, the counters are those of a recount until the first
      event that makes one wrong, and not right after it. */
  lemma {:induction false} RightUntilWrong(trace: seq<Moment>, consumption: seq<nat>, factor: seq<nat>,
                                           events: seq<Event>, sync: bool, n: nat)
    requires Traced(trace, consumption, factor, events, sync) && n <= |events|
    requires Recounted(trace[0]) && trace[0].ins != []
    requires forall i {:trigger KeepsRight(trace, consumption, events, i)} :: 0 <= i < n ==>
               KeepsRight(trace, consumption, events, i)
    ensures Recounted(trace[n]) && trace[n].ins != [] && Sane(trace[n])
    ensures n < |events| ==>
              var next := n + 1; Recounted(trace[next]) <==> KeepsRight(trace, consumption, events, n)
  {
    if n > 0 {
      var k := n - 1;
      RightUntilWrong(trace, consumption, factor, events, sync, k);
      RightNext(trace, consumption, factor, events, sync, k);
    }
    if n < |events| { RightNext(trace, consumption, factor, events, sync, n); }
  }

  lemma RightNext(trace: seq<Moment>, consumption: seq<nat>, factor: seq<nat>, events: seq<Event>, sync: bool, n: nat)
    requires Traced(trace, consumption, factor, events, sync) && n < |events|
    requires Recounted(trace[n]) && trace[n].ins != [] && Sane(trace[n])
    ensures var next := n + 1;
      && (Recounted(trace[next]) <==> KeepsRight(trace, consumption, events, n))
      && trace[next].ins != [] && Sane(trace[next])
  {
    assert StepAt(trace, consumption, factor, events, sync, n);
    DidRight(trace[n], trace[n + 1], consumption, factor, events[n], sync);
  }
}
