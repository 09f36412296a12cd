/** A factory that orders its inputs just in time. It keeps three counters instead of counting
    its idle inputs, outputs and demands over and over; each is a byte. */
module Factory {
  import opened SaturatedMath
  import opened Rates

  datatype Input = Input(menge: int, max: int, demand: int)
  datatype Output = Output(menge: int, max: int, minShipment: nat)

  predicate Drained(w: Input) { w.menge <= 0 }
  predicate Sated(w: Input) { w.demand >= w.max }
  predicate Full(o: Output) { o.menge >= o.max }

  function One(b: bool): nat { if b then 1 else 0 }

  function CountDrained(s: seq<Input>): (n: nat)
    ensures n <= |s|
  {
    if s == [] then 0 else CountDrained(s[..|s| - 1]) + One(Drained(s[|s| - 1]))
  }

  function CountSated(s: seq<Input>): (n: nat)
    ensures n <= |s|
  {
    if s == [] then 0 else CountSated(s[..|s| - 1]) + One(Sated(s[|s| - 1]))
  }

  function CountFull(s: seq<Output>): (n: nat)
    ensures n <= |s|
  {
    if s == [] then 0 else CountFull(s[..|s| - 1]) + One(Full(s[|s| - 1]))
  }

  lemma {:induction false} InputChanged(s: seq<Input>, i: nat, v: Input)
    requires i < |s|
    ensures CountDrained(s[i := v]) == CountDrained(s) - One(Drained(s[i])) + One(Drained(v))
    ensures CountSated(s[i := v]) == CountSated(s) - One(Sated(s[i])) + One(Sated(v))
  {
    var n := |s| - 1;
    if i == n {
      assert s[i := v][..n] == s[..n];
    } else {
      InputChanged(s[..n], i, v);
      assert s[i := v][..n] == s[..n][i := v];
    }
  }

  lemma {:induction false} OutputChanged(s: seq<Output>, i: nat, v: Output)
    requires i < |s|
    ensures CountFull(s[i := v]) == CountFull(s) - One(Full(s[i])) + One(Full(v))
  {
    var n := |s| - 1;
    if i == n {
      assert s[i := v][..n] == s[..n];
    } else {
      OutputChanged(s[..n], i, v);
      assert s[i := v][..n] == s[..n][i := v];
    }
  }

  /** A count is the length exactly when all of them count, and zero when none does. */
  lemma {:induction false} AllInputs(s: seq<Input>)
    ensures CountDrained(s) == |s| <==> forall i :: 0 <= i < |s| ==> Drained(s[i])
    ensures CountSated(s) == |s| <==> forall i :: 0 <= i < |s| ==> Sated(s[i])
    ensures CountDrained(s) == 0 <==> forall i :: 0 <= i < |s| ==> !Drained(s[i])
    ensures CountSated(s) == 0 <==> forall i :: 0 <= i < |s| ==> !Sated(s[i])
  {
    if s != [] {
      AllInputs(s[..|s| - 1]);
      assert forall i :: 0 <= i < |s| - 1 ==> s[i] == s[..|s| - 1][i];
    }
  }

  lemma {:induction false} AllOutputs(s: seq<Output>)
    ensures CountFull(s) == |s| <==> forall i :: 0 <= i < |s| ==> Full(s[i])
  {
    if s != [] {
      AllOutputs(s[..|s| - 1]);
      assert forall i :: 0 <= i < |s| - 1 ==> s[i] == s[..|s| - 1][i];
    }
  }

  lemma {:induction false} NoOutputs(s: seq<Output>)
    ensures CountFull(s) == 0 <==> forall i :: 0 <= i < |s| ==> !Full(s[i])
  {
    if s != [] {
      NoOutputs(s[..|s| - 1]);
      assert forall i :: 0 <= i < |s| - 1 ==> s[i] == s[..|s| - 1][i];
    }
  }

  function FirstInputs(max: seq<nat>): seq<Input> {
    seq(|max|, i requires 0 <= i < |max| => Input(0, max[i], max[i]))
  }

  function FirstOutputs(max: seq<nat>, minShipment: seq<nat>, full: bool): seq<Output>
    requires |max| == |minShipment|
  {
    seq(|max|, i requires 0 <= i < |max| => Output(if full then max[i] else 0, max[i], minShipment[i]))
  }

  type Byte = x: int | 0 <= x < 256

  function Inc(b: Byte): Byte { if b == 255 then 0 else b + 1 }
  function Dec(b: Byte): Byte { if b == 0 then 255 else b - 1 }

  /** The byte shows this number. */
  predicate Shows(b: Byte, n: int) { b == n % 256 }

  /** How far the byte is off what it should show. */
  ghost function Drift(b: Byte, n: int): (d: int)
    ensures 0 <= d < 256 && (d == 0 <==> Shows(b, n))
  {
    (b - n) % 256
  }

  lemma DriftNext(b: Byte, n: int)
    ensures Drift(Inc(b), n + 1) == Drift(b, n) && Drift(Dec(b), n - 1) == Drift(b, n)
    ensures Drift(Dec(b), n) != Drift(b, n) && Drift(b, n + 1) != Drift(b, n)
  {
  }

  /** An input that becomes drained, or gets enough on order, and is counted. */
  lemma InputCounted(s: seq<Input>, k: nat, v: Input, b: Byte)
    requires k < |s|
    ensures !Drained(s[k]) ==>
              Drift(if Drained(v) then Inc(b) else b, CountDrained(s[k := v])) == Drift(b, CountDrained(s))
    ensures !Sated(s[k]) ==>
              Drift(if Sated(v) then Inc(b) else b, CountSated(s[k := v])) == Drift(b, CountSated(s))
    ensures v.menge == s[k].menge ==> CountDrained(s[k := v]) == CountDrained(s)
    ensures v.max == s[k].max && v.demand == s[k].demand ==> CountSated(s[k := v]) == CountSated(s)
  {
    InputChanged(s, k, v);
    DriftNext(b, CountDrained(s));
    DriftNext(b, CountSated(s));
  }

  lemma ShowsNext(b: Byte, n: int)
    requires Shows(b, n)
    ensures Shows(Inc(b), n + 1) && Shows(Dec(b), n - 1)
  {
  }

  lemma ShowsSmall(b: Byte, n: nat)
    requires n < 256
    ensures Shows(b, n) <==> b == n
  {
  }

  lemma CountNext(s: seq<Input>, i: nat)
    requires i < |s|
    ensures CountDrained(s[..i + 1]) == CountDrained(s[..i]) + One(Drained(s[i]))
    ensures CountSated(s[..i + 1]) == CountSated(s[..i]) + One(Sated(s[i]))
  {
    assert s[..i + 1][..i] == s[..i];
  }

  function OutputRate(o: Output): nat {
    WorkRateRamp(o.menge, o.minShipment * RAMPDOWN_MULTIPLYER, o.max)
  }

  /** Half of it, rounded towards zero. */
  function Half(a: int): int { if a < 0 then -(-a / 2) else a / 2 }

  function DemandRate(w: Input): nat {
    WorkRateRamp(w.demand, Half(w.max), w.max)
  }

  /** What an output would take of the production, at most at the given rate. */
  function Desired(o: Output, prod: nat, limit: nat): nat {
    if Full(o) then 0 else Min(ScaledProduction(prod, Min(OutputRate(o), limit)), o.max - o.menge)
  }

  function SumDesired(outs: seq<Output>, prod: nat, limit: nat): nat {
    if outs == [] then 0 else SumDesired(outs[..|outs| - 1], prod, limit) + Desired(outs[|outs| - 1], prod, limit)
  }

  function Stock(outs: seq<Output>): int {
    if outs == [] then 0 else Stock(outs[..|outs| - 1]) + outs[|outs| - 1].menge
  }

  /** An output with some more in it. */
  function Produced(o: Output, delta: nat): Output { o.(menge := o.menge + delta) }

  /** The inputs without stock and those with enough on order. */
  method CountInputs(input: seq<Input>) returns (drained: Byte, sated: Byte)
    requires |input| < 256
    ensures drained == CountDrained(input) && sated == CountSated(input)
  {
    drained, sated := 0, 0;
    for i := 0 to |input|
      invariant drained == CountDrained(input[..i]) && sated == CountSated(input[..i])
    {
      CountNext(input, i);
      if input[i].menge <= 0 {
        drained := Inc(drained);
      }
      if input[i].demand >= input[i].max {
        sated := Inc(sated);
      }
    }
    assert input[..|input|] == input;
  }

  /** The outputs without room. */
  method CountOutputs(output: seq<Output>) returns (full: Byte)
    requires |output| < 256
    ensures full == CountFull(output)
  {
    full := 0;
    for i := 0 to |output|
      invariant full == CountFull(output[..i])
    {
      assert output[..i + 1][..i] == output[..i];
      if output[i].menge >= output[i].max {
        full := Inc(full);
      }
    }
    assert output[..|output|] == output;
  }

  /** The least stock and the least demand rate. */
  method Bottleneck(input: seq<Input>) returns (menge: int, rate: nat)
    requires input != []
    ensures forall i :: 0 <= i < |input| ==> menge <= input[i].menge && rate <= DemandRate(input[i])
    ensures exists i :: 0 <= i < |input| && menge == input[i].menge
    ensures exists i :: 0 <= i < |input| && rate == DemandRate(input[i])
  {
    menge, rate := input[0].menge, DemandRate(input[0]);
    for i := 1 to |input|
      invariant forall j :: 0 <= j < i ==> menge <= input[j].menge && rate <= DemandRate(input[j])
      invariant exists j :: 0 <= j < i && menge == input[j].menge
      invariant exists j :: 0 <= j < i && rate == DemandRate(input[j])
    {
      if input[i].menge < menge {
        menge := input[i].menge;
      }
      var limit := DemandRate(input[i]);
      if limit < rate {
        rate := limit;
      }
    }
  }

  /** No output lost anything or was filled above its limit. */
  ghost predicate Raised(outs: seq<Output>, now: seq<Output>) {
    && |now| == |outs|
    && forall i :: 0 <= i < |outs| ==> && outs[i].menge <= now[i].menge && now[i] == outs[i].(menge := now[i].menge)
                                       && (now[i].menge > outs[i].menge ==> now[i].menge <= outs[i].max)
  }

  /** Served in order, the outputs took what they desired until nothing was left. */
  ghost predicate ServedInOrder(outs: seq<Output>, now: seq<Output>, prod: nat, limit: nat, avail: int, k: nat) {
    && |now| == |outs|
    && forall i :: 0 <= i <= |outs| ==> Stock(now[..i]) == Stock(outs[..i]) + Given(outs, prod, limit, avail, k, i)
  }

  /** What the first i outputs got once the first k were served. */
  ghost function Given(outs: seq<Output>, prod: nat, limit: nat, avail: int, k: nat, i: nat): int {
    var n := if i < k then i else k;
    if n <= |outs| then Min(avail, SumDesired(outs[..n], prod, limit)) else 0
  }

  lemma {:induction false} StockChanged(s: seq<Output>, i: nat, v: Output, k: nat)
    requires i < |s| && k <= |s|
    ensures Stock(s[i := v][..k]) == Stock(s[..k]) + if i < k then v.menge - s[i].menge else 0
  {
    if k > 0 {
      StockChanged(s, i, v, k - 1);
      assert s[i := v][..k][..k - 1] == s[i := v][..k - 1] && s[..k][..k - 1] == s[..k - 1];
    }
  }

  lemma {:induction false} ServedNext(outs: seq<Output>, now: seq<Output>, prod: nat, limit: nat, avail: nat, k: nat,
                                      used: int, delta: nat)
    requires ServedInOrder(outs, now, prod, limit, avail, k) && k < |outs| && now[k] == outs[k]
    requires used == Min(avail, SumDesired(outs[..k], prod, limit))
    requires delta == Min(Desired(outs[k], prod, limit), avail - used)
    ensures ServedInOrder(outs, now[k := Produced(now[k], delta)], prod, limit, avail, k + 1)
    ensures SumDesired(outs[..k + 1], prod, limit) == SumDesired(outs[..k], prod, limit) + Desired(outs[k], prod, limit)
  {
    assert outs[..k + 1][..k] == outs[..k];
    var v := now[k := Produced(now[k], delta)];
    forall i | 0 <= i <= |outs|
      ensures Stock(v[..i]) == Stock(outs[..i]) + Given(outs, prod, limit, avail, k + 1, i)
    {
      StockChanged(now, k, Produced(now[k], delta), i);
      assert Stock(now[..i]) == Stock(outs[..i]) + Given(outs, prod, limit, avail, k, i);
    }
  }

  /** Fills one output as far as it wants and the inputs allow. */
  method ProduceOne(o: Output, prod: nat, limit: nat, left: nat, noInput: bool, counter: Byte)
      returns (v: Output, delta: nat, desired: nat, c: Byte)
    ensures desired == Desired(o, prod, limit) && delta == (if noInput then 0 else Min(desired, left))
    ensures v == Produced(o, delta) && c == if !Full(o) && Full(v) then Inc(counter) else counter
  {
    v, delta, desired, c := o, 0, 0, counter;
    var comp := o.max - o.menge;
    if comp <= 0 {
      return;
    }
    desired := ScaledProduction(prod, Min(OutputRate(o), limit));
    if desired > comp {
      desired := comp;
    }
    if noInput {
      return;
    }
    delta := if desired > left then left else desired;
    if delta == comp {
      c := Inc(c);
    }
    v := Produced(o, delta);
  }

  /** The first k outputs have been served. */
  ghost predicate Serving(outs: seq<Output>, now: seq<Output>, prod: nat, limit: nat, avail: nat, noInput: bool, k: nat,
                          work: int, want: int) {
    && k <= |outs| && Raised(outs, now) && want == SumDesired(outs[..k], prod, limit)
    && (forall i :: k <= i < |outs| ==> now[i] == outs[i])
    && if noInput then now == outs && work == 0
       else ServedInOrder(outs, now, prod, limit, avail, k) && work == Min(avail, want)
  }

  lemma ServingNext(outs: seq<Output>, now: seq<Output>, prod: nat, limit: nat, avail: nat, noInput: bool, k: nat,
                    work: int, want: int, delta: nat)
    requires k < |outs| && Serving(outs, now, prod, limit, avail, noInput, k, work, want)
    requires delta == (if noInput then 0 else Min(Desired(outs[k], prod, limit), avail - work))
    ensures Serving(outs, now[k := Produced(now[k], delta)], prod, limit, avail, noInput, k + 1, work + delta,
                    want + Desired(outs[k], prod, limit))
  {
    assert outs[..k + 1][..k] == outs[..k];
    if noInput {
      assert now[k := Produced(now[k], 0)] == now;
    } else {
      ServedNext(outs, now, prod, limit, avail, k, work, delta);
    }
  }

  /** An output that gets some more is counted when that makes it full. */
  lemma CounterAfter(now: seq<Output>, k: nat, delta: nat, b: Byte, behind: int)
    requires k < |now| && Shows(b, CountFull(now) - behind)
    ensures var v := Produced(now[k], delta);
      Shows(if !Full(now[k]) && Full(v) then Inc(b) else b, CountFull(now[k := v]) - behind)
  {
    OutputChanged(now, k, Produced(now[k], delta));
    ShowsNext(b, CountFull(now) - behind);
  }

  /** Serves the k-th output. */
  method ServeOne(ghost outs: seq<Output>, now0: seq<Output>, prod: nat, limit: nat, ghost avail: nat, left: nat,
                  noInput: bool, k: nat,
                  ghost work: nat, ghost want: nat, counter0: Byte, ghost behind: int)
      returns (now: seq<Output>, delta: nat, desired: nat, counter: Byte)
    requires k < |outs| && Serving(outs, now0, prod, limit, avail, noInput, k, work, want) && left == avail - work
    requires Shows(counter0, CountFull(now0) - behind)
    ensures Serving(outs, now, prod, limit, avail, noInput, k + 1, work + delta, want + desired) && delta <= left
    ensures Shows(counter, CountFull(now) - behind)
  {
    var v;
    v, delta, desired, counter := ProduceOne(now0[k], prod, limit, left, noInput, counter0);
    ServingNext(outs, now0, prod, limit, avail, noInput, k, work, want, delta);
    CounterAfter(now0, k, delta, counter0, behind);
    now := now0[k := v];
  }

  /** Shares what the inputs allow among the outputs. */
  method ProduceOutputs(outs: seq<Output>, prod: nat, limit: nat, avail: nat, noInput: bool, counter0: Byte,
                        ghost behind: int)
      returns (now: seq<Output>, work: nat, want: nat, counter: Byte)
    requires Shows(counter0, CountFull(outs) - behind)
    ensures Shows(counter, CountFull(now) - behind)
    ensures Serving(outs, now, prod, limit, avail, noInput, |outs|, work, want)
  {
    now, work, want, counter := outs, 0, 0, counter0;
    var left := avail;
    NoneServed(outs, prod, limit, avail, noInput);
    for k := 0 to |outs|
      invariant Shows(counter, CountFull(now) - behind)
      invariant Serving(outs, now, prod, limit, avail, noInput, k, work, want)
      invariant left == avail - work
    {
      var delta, desired;
      now, delta, desired, counter :=
        ServeOne(outs, now, prod, limit, avail, left, noInput, k, work, want, counter, behind);
      work, want, left := work + delta, want + desired, left - delta;
    }
  }

  lemma NoneServed(outs: seq<Output>, prod: nat, limit: nat, avail: nat, noInput: bool)
    ensures Serving(outs, outs, prod, limit, avail, noInput, 0, 0, 0)
  {
    assert outs[..0] == [];
  }

  /** Takes the same amount from every input, and counts those that have nothing left. */
  method ConsumeInputs(input: seq<Input>, consumed: nat) returns (now: seq<Input>, counter: Byte)
    requires |input| < 256 && forall i :: 0 <= i < |input| ==> consumed <= input[i].menge
    ensures Taken(input, now, consumed) && counter == CountDrained(now) && CountSated(now) == CountSated(input)
  {
    now, counter := input, 0;
    for k := 0 to |input|
      invariant |now| == |input| && counter == CountDrained(now[..k]) <= k && CountSated(now) == CountSated(input)
      invariant forall i :: 0 <= i < |input| ==>
                  now[i] == if i < k then input[i].(menge := input[i].menge - consumed) else input[i]
    {
      var w := now[k].(menge := now[k].menge - consumed);
      InputChanged(now, k, w);
      ghost var before := now;
      now := now[k := w];
      assert now[..k] == before[..k];
      CountNext(now, k);
      if w.menge <= 0 {
        counter := Inc(counter);
      }
    }
    assert now[..|input|] == now;
  }

  class Fabrik {
    const consumption: seq<nat>
    const factor: seq<nat>
    var input: seq<Input>
    var output: seq<Output>
    var inactiveInputs: Byte
    var inactiveOutputs: Byte
    var inactiveDemands: Byte
    ghost var uncounted: nat     // outputs filled up since the last count without being counted

    /** A new factory: a producer starts full, any other starts empty and with enough on order. */
    constructor (consumption: seq<nat>, factor: seq<nat>, inMax: seq<nat>, outMax: seq<nat>, minShipment: seq<nat>)
      requires |consumption| == |inMax| < 256 && |factor| == |outMax| == |minShipment| < 256
      requires forall i :: 0 <= i < |consumption| ==> consumption[i] > 0
      requires forall i :: 0 <= i < |factor| ==> factor[i] > 0
      requires forall i :: 0 <= i < |outMax| ==> outMax[i] > 0
      ensures Valid() && Counted() && OutputsCounted() && uncounted == 0
      ensures this.consumption == consumption && this.factor == factor
      ensures input == FirstInputs(inMax) && output == FirstOutputs(outMax, minShipment, inMax == [])
    {
      this.consumption, this.factor := consumption, factor;
      input, output := FirstInputs(inMax), FirstOutputs(outMax, minShipment, inMax == []);
      inactiveInputs, inactiveDemands := |inMax|, |inMax|;
      inactiveOutputs, uncounted := if inMax == [] then |outMax| else 0, 0;
      AllInputs(FirstInputs(inMax));
      AllOutputs(FirstOutputs(outMax, minShipment, inMax == []));
      NoOutputs(FirstOutputs(outMax, minShipment, false));
    }

    ghost predicate Valid()
      reads this
    {
      && |consumption| == |input| < 256 && |factor| == |output| < 256
      && (forall i :: 0 <= i < |consumption| ==> consumption[i] > 0)
      && (forall i :: 0 <= i < |factor| ==> factor[i] > 0)
      && (forall i :: 0 <= i < |input| ==> input[i].menge >= 0)
      && (forall i :: 0 <= i < |output| ==> output[i].menge >= 0)
    }

    /** The counters of inputs and demands say what a recount would say. */
    ghost predicate Counted()
      reads this
    {
      Shows(inactiveInputs, CountDrained(input)) && Shows(inactiveDemands, CountSated(input))
    }

    ghost function InputDrift(): int
      reads this
    {
      Drift(inactiveInputs, CountDrained(input))
    }

    ghost function DemandDrift(): int
      reads this
    {
      Drift(inactiveDemands, CountSated(input))
    }

    /** The counter of outputs is behind a recount by what was not counted. */
    ghost predicate OutputsCounted()
      reads this
    {
      Shows(inactiveOutputs, CountFull(output) - uncounted) && (input != [] ==> uncounted == 0)
    }

    method RebuildInactiveCache()
      requires Valid()
      modifies this`inactiveInputs, this`inactiveOutputs, this`inactiveDemands, this`uncounted
      ensures Valid() && Counted() && OutputsCounted() && uncounted == 0
    {
      inactiveInputs, inactiveDemands := CountInputs(input);
      inactiveOutputs := CountOutputs(output);
      uncounted := 0;
    }

    /** A producer: fills its outputs, without counting those that become full. */
    method ProduceMany(prod: nat)
      requires Valid() && OutputsCounted() && prod <= MAX_SINT32 && input == []
      modifies this`uncounted, this`output
      ensures Valid() && OutputsCounted()
      ensures inactiveOutputs == |output| ==> output == old(output) && uncounted == old(uncounted)
      ensures inactiveOutputs != |output| ==> FilledFrom(old(output), output, prod, |output|)
      ensures uncounted - old(uncounted) == CountFull(output) - CountFull(old(output))
    {
      if inactiveOutputs == |output| {
        return;
      }
      ghost var filled;
      output, filled := FillOutputs(output, prod);
      uncounted := uncounted + filled;
    }

    /** A factory: turns inputs into outputs. Every input gives the same amount, which is what
        all outputs got together divided by their number, rounded down. It works whatever the
        counters say; if it consumes, the counter of inputs is right afterwards. */
    method TransformMany(prod: nat) returns (want: nat, ghost made: nat, ghost consumed: nat)
      requires Valid() && OutputsCounted() && input != [] && output != []
      modifies this`input, this`output, this`inactiveInputs, this`inactiveOutputs
      ensures Valid() && OutputsCounted() && DemandDrift() == old(DemandDrift())
      ensures if old(inactiveOutputs) == |output| then input == old(input) && output == old(output) && made == want == 0
              else Works(old(input), old(output), input, output, prod, old(inactiveInputs) > 0, want, made, consumed)
      ensures InputDrift() ==
                if old(inactiveOutputs) == |output| || old(inactiveInputs) > 0 then old(InputDrift()) else 0
      ensures old(Counted()) ==> Counted() && (old(inactiveInputs) > 0 <==> !AllStocked(old(input)))
    {
      made, consumed := 0, 0;
      StockedCounted(input, inactiveInputs);
      if inactiveOutputs == |output| {
        return 0, 0, 0;
      }
      want, made, consumed := MakeAndTake(prod);
    }

    /** The work of a step whose outputs are not believed to be full. */
    method MakeAndTake(prod: nat) returns (want: nat, ghost made: nat, ghost consumed: nat)
      requires Valid() && OutputsCounted() && input != [] && output != []
      modifies this`input, this`output, this`inactiveInputs, this`inactiveOutputs
      ensures Valid() && OutputsCounted() && CountSated(input) == CountSated(old(input))
      ensures Works(old(input), old(output), input, output, prod, old(inactiveInputs) > 0, want, made, consumed)
      ensures if old(inactiveInputs) > 0 then input == old(input) && inactiveInputs == old(inactiveInputs)
              else inactiveInputs == CountDrained(input)
    {
      ghost var ins, outs := input, output;
      input, output, inactiveInputs, inactiveOutputs, want, made, consumed :=
        Transform(input, output, prod, inactiveInputs, inactiveOutputs, uncounted);
      StillStocked(ins, outs, input, output, consumed);
    }

    /** A consumer: takes from each input that has something what its demand rate asks for,
        unless it believes that none has. */
    method ConsumeMany(prod: nat) returns (want: nat)
      requires Valid() && prod <= MAX_SINT32
      modifies this`input, this`inactiveInputs
      ensures Valid() && want == prod && InputDrift() == old(InputDrift()) && DemandDrift() == old(DemandDrift())
      ensures if old(inactiveInputs) == |old(input)| then input == old(input)
              else Consumed(old(input), input, prod, |input|)
      ensures old(Counted()) ==> Consumed(old(input), input, prod, |input|)
    {
      want := prod;
      ShowsSmall(inactiveInputs, CountDrained(input));
      AllInputs(input);
      if inactiveInputs == |input| {
        return;
      }
      input, inactiveInputs := ConsumeEach(input, prod, inactiveInputs);
    }

    /** Orders the same for every input, unless one is believed to have enough on order. If it
        orders, the counter of demands is right afterwards. */
    method OrderSync(want: nat)
      requires Valid() && MaxFits(input)
      modifies this`input, this`inactiveDemands
      ensures Valid() && MaxFits(input) && InputDrift() == old(InputDrift())
      ensures input == if want == 0 || old(inactiveDemands) > 0 then old(input) else OrderedAll(old(input), want)
      ensures DemandDrift() == if want == 0 || old(inactiveDemands) > 0 then old(DemandDrift()) else 0
      ensures old(Counted()) ==> Counted() && (old(inactiveDemands) > 0 <==> CountSated(old(input)) > 0)
    {
      ShowsSmall(inactiveDemands, CountSated(input));
      if want == 0 || inactiveDemands > 0 {
        return;
      }
      input, inactiveDemands := OrderAll(input, want);
    }

    /** Orders for each input that has not enough on order, the less the nearer it is to that,
        unless all are believed to have enough. */
    method OrderAsync(want: nat)
      requires Valid() && MaxFits(input)
      modifies this`input, this`inactiveDemands
      ensures Valid() && MaxFits(input) && InputDrift() == old(InputDrift()) && DemandDrift() == old(DemandDrift())
      ensures |input| == |old(input)|
      ensures forall i :: 0 <= i < |input| ==>
                input[i] == if want == 0 || old(inactiveDemands) == |input| then old(input)[i]
                        else OrderedOne(old(input)[i], want)
      ensures old(Counted()) ==> forall i :: 0 <= i < |input| ==>
                input[i] == if want == 0 then old(input)[i] else OrderedOne(old(input)[i], want)
    {
      ShowsSmall(inactiveDemands, CountSated(input));
      AllInputs(input);
      if want == 0 || inactiveDemands == |input| {
        return;
      }
      input, inactiveDemands := OrderEach(input, want, inactiveDemands);
    }

    /** Goods arrive for the k-th input. The result is how many of them were of use. The input
        counter stays as right as it was exactly when something arrives or was there and there
        is room for anything. */
    method LiefereAn(k: nat, menge: nat) returns (used: int)
      requires Valid() && k < |input| && Fits(input[k])
      modifies this`input, this`inactiveInputs, this`inactiveDemands
      ensures |input| == |old(input)|
      ensures input == old(input)[k := Delivered(old(input)[k], FromUnits(menge, consumption[k]))]
      ensures input[k].max >= 0 ==> Valid()
      ensures DemandDrift() == old(DemandDrift())
      ensures InputDrift() == old(InputDrift()) <==> input[k].max > 0 && (old(input)[k].menge > 0 || menge > 0)
      ensures old(Counted()) ==> (Counted() <==> input[k].max > 0 && (old(input)[k].menge > 0 || menge > 0))
      ensures used <= menge && OfUse(old(input)[k], menge, consumption[k], used)
    {
      input, inactiveInputs, inactiveDemands, used :=
        DeliverTo(input, k, menge, consumption[k], inactiveInputs, inactiveDemands);
    }

    /** Goods for the k-th input have set out, so less has to be ordered. The counter stays
        right unless the demand wraps round and turns up above the limit. */
    method ApplyTransit(k: nat, menge: nat)
      requires Valid() && k < |input|
      modifies this`input, this`inactiveDemands
      ensures Valid() && input == old(input)[k := SetOut(old(input)[k], menge, consumption[k])]
      ensures inactiveDemands == if Sated(old(input)[k])
              && !Sated(input[k]) then Dec(old(inactiveDemands)) else old(inactiveDemands)
      ensures old(Counted()) ==> (Counted() <==> Sated(old(input)[k]) || !Sated(input[k]))
    {
      ghost var was, counter := input, inactiveDemands;
      var delta := Narrow(FromUnits(menge, consumption[k]));
      var demand := input[k].demand;
      var v := input[k].(demand := Narrow(demand - delta));
      if demand >= v.max && v.demand < v.max {
        inactiveDemands := Dec(inactiveDemands);
      }
      input := input[k := v];
      DemandCounted(was, k, v, counter);
    }

    /** Goods that had set out for the k-th input were taken back. The counter stays right
        unless the demand wraps round and turns up below the limit. */
    method Refund(k: nat, menge: nat)
      requires Valid() && k < |input|
      modifies this`input, this`inactiveDemands
      ensures Valid() && input == old(input)[k := TakenBack(old(input)[k], menge, consumption[k])]
      ensures inactiveDemands == if !Sated(old(input)[k])
              && Sated(input[k]) then Inc(old(inactiveDemands)) else old(inactiveDemands)
      ensures old(Counted()) ==> (Counted() <==> !Sated(old(input)[k]) || Sated(input[k]))
    {
      ghost var was, counter := input, inactiveDemands;
      var delta := Narrow(FromUnits(menge, consumption[k]));
      var demand := input[k].demand;
      var v := input[k].(demand := Narrow(demand + delta));
      if demand < v.max && v.demand >= v.max {
        inactiveDemands := Inc(inactiveDemands);
      }
      input := input[k := v];
      DemandCounted(was, k, v, counter);
    }

    /** Goods that set out and were taken back leave nothing behind, even if the demand wrapped
        round in between. */
    method SetOutAndBack(k: nat, menge: nat)
      requires Valid() && k < |input| && Fits(input[k])
      modifies this`input, this`inactiveDemands
      ensures Valid() && input == old(input) && inactiveDemands == old(inactiveDemands)
    {
      NarrowBack(input[k].demand, Narrow(FromUnits(menge, consumption[k])));
      ApplyTransit(k, menge);
      Refund(k, menge);
    }

    /** Ships some of the k-th output, never more than there is; `spaceLeft` is what the halt
        still takes. */
    method VerteileWaren(k: nat, spaceLeft: int) returns (menge: nat)
      requires Valid() && OutputsCounted() && k < |output| && output[k].menge >= output[k].minShipment
      modifies this`output, this`inactiveOutputs
      ensures Valid() && OutputsCounted() && menge <= ToUnits(output[k].minShipment, factor[k])
      ensures |output| == |old(output)| && menge == Shipment(old(output)[k], factor[k], spaceLeft)
      ensures output == old(output)[k := Shipped(old(output)[k], menge, factor[k])]
    {
      menge := ToUnits(output[k].minShipment, factor[k]);
      if menge > 9 + spaceLeft {
        menge := if 9 + spaceLeft < 0 then 0 else 9 + spaceLeft;
      }
      BackAndForth(output[k].minShipment, factor[k], menge);
      var delta := Saturate(FromUnits(menge, factor[k]));
      var o, v := output[k], output[k].(menge := output[k].menge - delta);
      ShippedCounted(output, k, v, inactiveOutputs, uncounted);
      var wasInactive := o.menge >= o.max;
      if wasInactive && v.menge < v.max {
        inactiveOutputs := Dec(inactiveOutputs);
      }
      output := output[k := v];
    }
  }

  /** How many units are shipped at once. */
  function Shipment(o: Output, factor: nat, spaceLeft: int): nat {
    var menge := Min(ToUnits(o.minShipment, factor), 9 + spaceLeft);
    if menge < 0 then 0 else menge
  }

  function Shipped(o: Output, menge: nat, factor: nat): Output
    requires factor > 0
  {
    o.(menge := o.menge - Saturate(FromUnits(menge, factor)))
  }

  function SetOut(w: Input, menge: nat, factor: nat): Input
    requires factor > 0
  {
    w.(demand := Narrow(w.demand - Narrow(FromUnits(menge, factor))))
  }

  function TakenBack(w: Input, menge: nat, factor: nat): Input
    requires factor > 0
  {
    w.(demand := Narrow(w.demand + Narrow(FromUnits(menge, factor))))
  }

  /** As long as nothing leaves 32 bits, what sets out leaves that much less to order. */
  lemma SetOutInRange(w: Input, menge: nat, factor: nat)
    requires factor > 0 && Fits(w) && MIN_SINT32 <= w.demand - FromUnits(menge, factor)
    requires FromUnits(menge, factor) <= MAX_SINT32
    ensures SetOut(w, menge, factor).demand == w.demand - FromUnits(menge, factor)
    ensures (Sated(SetOut(w, menge, factor)) ==> Sated(w))
  {
  }

  /** Exactly these amounts, when they set out, make a demand below its limit wrap round to
      one that is not. */
  predicate WrapsUp(w: Input, menge: nat, factor: nat)
    requires factor > 0
  {
    && w.demand < w.max
    && w.demand - MIN_SINT32 < FromUnits(menge, factor) % 0x1_0000_0000 <= w.demand - w.max + 0x1_0000_0000
  }

  lemma WrapsUpExact(w: Input, menge: nat, factor: nat)
    requires factor > 0 && Fits(w) && w.max >= MIN_SINT32
    ensures WrapsUp(w, menge, factor) <==> !Sated(w) && Sated(SetOut(w, menge, factor))
  {
    var amount := FromUnits(menge, factor);
    Signed(amount);
    NarrowSmall(w.demand - Narrow(amount));
  }

  /** Exactly these amounts, when they are taken back, make a demand that is not below its
      limit wrap round to one that is. */
  predicate WrapsDown(w: Input, menge: nat, factor: nat)
    requires factor > 0
  {
    && w.demand >= w.max
    && MAX_SINT32 - w.demand < FromUnits(menge, factor) % 0x1_0000_0000 < w.max - w.demand + 0x1_0000_0000
  }

  lemma WrapsDownExact(w: Input, menge: nat, factor: nat)
    requires factor > 0 && Fits(w) && w.max >= MIN_SINT32
    ensures WrapsDown(w, menge, factor) <==> Sated(w) && !Sated(TakenBack(w, menge, factor))
  {
    var amount := FromUnits(menge, factor);
    Signed(amount);
    NarrowSmall(w.demand + Narrow(amount));
  }

  lemma DemandCounted(input: seq<Input>, k: nat, v: Input, b: Byte)
    requires k < |input| && v.menge == input[k].menge
    ensures CountDrained(input[k := v]) == CountDrained(input)
    ensures Shows(b, CountSated(input)) ==> var n := CountSated(input[k := v]);
      && (Shows(b, n) <==> Sated(input[k]) == Sated(v))
      && (Shows(Dec(b), n) <==> Sated(input[k]) && !Sated(v))
      && (Shows(Inc(b), n) <==> !Sated(input[k]) && Sated(v))
  {
    InputChanged(input, k, v);
    if Shows(b, CountSated(input)) {
      ShowsNext(b, CountSated(input));
    }
  }

  lemma ShippedCounted(output: seq<Output>, k: nat, v: Output, b: Byte, uncounted: nat)
    requires k < |output| && Shows(b, CountFull(output) - uncounted) && (Full(v) ==> Full(output[k]))
    ensures Shows(if Full(output[k]) && !Full(v) then Dec(b) else b, CountFull(output[k := v]) - uncounted)
  {
    OutputChanged(output, k, v);
    ShowsNext(b, CountFull(output) - uncounted);
  }

  /** Neither the limit nor the demand is too large for the source's integers. */
  predicate Fits(w: Input) { w.max <= MAX_SINT32 && MIN_SINT32 <= w.demand <= MAX_SINT32 }

  /** What a delivery does to the inputs and their counters. */
  method DeliverTo(input: seq<Input>, k: nat, menge: nat, factor: nat, ci0: Byte, cd0: Byte)
      returns (now: seq<Input>, ci: Byte, cd: Byte, used: int)
    requires k < |input| && factor > 0 && Fits(input[k]) && input[k].menge >= 0
    ensures now == input[k := Delivered(input[k], FromUnits(menge, factor))]
    ensures used <= menge && OfUse(input[k], menge, factor, used)
    ensures Drift(cd, CountSated(now)) == Drift(cd0, CountSated(input))
    ensures Drift(ci, CountDrained(now)) == Drift(ci0, CountDrained(input)) <==>
              now[k].max > 0 && (input[k].menge > 0 || menge > 0)
    ensures now[k].max == input[k].max && (now[k].max >= 0 ==> now[k].menge >= 0)
  {
    var v;
    v, ci, cd, used := DeliverOne(input[k], menge, factor, ci0, cd0);
    DeliveryCounted(input, k, v, ci, cd, ci0, cd0);
    DeliveredStock(input[k], menge, factor);
    now := input[k := v];
  }

  /** After a delivery there is stock unless nothing was there and nothing came, or nothing
      can be stored at all. */
  lemma DeliveredStock(w: Input, menge: nat, factor: nat)
    requires factor > 0 && w.menge >= 0
    ensures Drained(Delivered(w, FromUnits(menge, factor))) <==> w.max <= 0 || (w.menge == 0 && menge == 0)
  {
    FromUnitsIsLeast(menge, factor, 0);
  }

  /** What a delivery does to one input. */
  method DeliverOne(w: Input, menge: nat, factor: nat, ci0: Byte, cd0: Byte)
        returns (v: Input, ci: Byte, cd: Byte, used: int)
    requires factor > 0 && Fits(w)
    ensures v == Delivered(w, FromUnits(menge, factor)) && (Sated(v) ==> Sated(w))
    ensures used <= menge && OfUse(w, menge, factor, used)
    ensures ci == (if Drained(w) then Dec(ci0) else ci0) && cd == if Sated(w) && !Sated(v) then Dec(cd0) else cd0
  {
    ci, cd, used := ci0, cd0, menge;
    var delta := Saturate(FromUnits(menge, factor));
    if w.menge <= 0 {
      ci := Dec(ci);
    }
    var received := w.menge + delta;
    v := w.(menge := Min(received, MAX_SINT32));
    if received > w.max {
      var comp := received - w.max;
      v := w.(menge := w.max, demand := Clamp(w.demand - comp));
      if w.demand >= w.max && v.demand < v.max {
        cd := Dec(cd);
      }
      RoundedToNearest(comp * factor);
      used := menge - ToNearest(comp, factor);
    }
  }

  /** All of a delivery is of use if it fits in; otherwise all but the number of units, in whole
      ones, that comes nearest to what is beyond the limit. */
  ghost predicate OfUse(w: Input, menge: nat, factor: nat, used: int)
    requires factor > 0
  {
    var excess := w.menge + Saturate(FromUnits(menge, factor)) - w.max;
    if excess <= 0 then used == menge
    else 0 - UNIT < 2 * ((menge - used) * UNIT - excess * factor) <= UNIT
  }

  lemma RoundedToNearest(n: nat)
    ensures 0 - UNIT < 2 * ((n + UNIT / 2) / UNIT * UNIT - n) <= UNIT
  {
    RoundedDown(n + UNIT / 2, UNIT);
  }

  /** An amount in whole units, rounded to the nearest. */
  function ToNearest(amount: nat, factor: nat): nat {
    (amount * factor + UNIT / 2) / UNIT
  }

  lemma DeliveryCounted(input: seq<Input>, k: nat, v: Input, ci: Byte, cd: Byte, ci0: Byte, cd0: Byte)
    requires k < |input| && (Sated(v) ==> Sated(input[k]))
    requires ci == if Drained(input[k]) then Dec(ci0) else ci0
    requires cd == if Sated(input[k]) && !Sated(v) then Dec(cd0) else cd0
    ensures Drift(cd, CountSated(input[k := v])) == Drift(cd0, CountSated(input))
    ensures Drift(ci, CountDrained(input[k := v])) == Drift(ci0, CountDrained(input)) <==> !Drained(v)
  {
    InputChanged(input, k, v);
    DriftNext(ci0, CountDrained(input));
    DriftNext(cd0, CountSated(input));
  }

  /** Whether the counter of inputs, if it is right, lets the factory work. */
  lemma {:induction false} StockedCounted(input: seq<Input>, counter: Byte)
    requires |input| < 256
    ensures Shows(counter, CountDrained(input)) ==> (counter > 0 <==> !AllStocked(input))
  {
    AllInputs(input);
    ShowsSmall(counter, CountDrained(input));
  }

  /** Every input has something. */
  ghost predicate AllStocked(input: seq<Input>) {
    forall i :: 0 <= i < |input| ==> !Drained(input[i])
  }

  /** All that a transformation does: the outputs get what the inputs give, served in order. */
  ghost predicate Works(input: seq<Input>, output: seq<Output>, ins: seq<Input>, outs: seq<Output>, prod: nat,
                        noInput: bool, want: nat, made: nat, consumed: nat)
  {
    && Stock(outs) == Stock(output) + made && Raised(output, outs) && Taken(input, ins, consumed)
    && IsShare(consumed, |output|, made) && Transformed(input, output, outs, prod, noInput, made, want)
  }

  lemma StillStocked(input: seq<Input>, output: seq<Output>, ins: seq<Input>, outs: seq<Output>, consumed: nat)
    requires Taken(input, ins, consumed) && Raised(output, outs)
    ensures |ins| == |input| && |outs| == |output|
    ensures (forall i :: 0 <= i < |input| ==> input[i].menge >= 0) ==> forall i :: 0 <= i < |ins| ==> ins[i].menge >= 0
    ensures (forall i :: 0 <= i < |output| ==> output[i].menge >= 0) ==>
              forall i :: 0 <= i < |outs| ==> outs[i].menge >= 0
  {
  }

  /** Works out what a factory takes and makes. */
  method Transform(input: seq<Input>, output: seq<Output>, prod: nat, counterIn: Byte, counterOut: Byte,
                   ghost behind: int)
      returns (ins: seq<Input>, outs: seq<Output>, ci: Byte, co: Byte, want: nat, made: nat, consumed: nat)
    requires input != [] && output != [] && |input| < 256 && forall i :: 0 <= i < |input| ==> input[i].menge >= 0
    requires Shows(counterOut, CountFull(output) - behind)
    ensures if counterIn > 0 then ins == input && ci == counterIn else ci == CountDrained(ins)
    ensures CountSated(ins) == CountSated(input) && Shows(co, CountFull(outs) - behind)
    ensures Works(input, output, ins, outs, prod, counterIn > 0, want, made, consumed)
  {
    ins, ci, consumed := input, counterIn, 0;
    var noInput := counterIn > 0;
    var least, limit := Bottleneck(input);
    var total;
    var avail := Product(|output|, least);
    outs, made, total, co := ProduceOutputs(output, prod, limit, avail, noInput, counterOut, behind);
    TotalStock(output, outs, prod, limit, avail, noInput, made, total);
    want := Share(total, |output|);
    assert IsBottleneck(input, least, limit);
    if noInput {
      return;
    }
    consumed := Share(made, |output|);
    SharedOut(made, |output|, least, consumed);
    ins, ci := ConsumeInputs(input, consumed);
  }

  /** n times k. */
  ghost function Times(n: nat, k: nat): (r: nat)
    ensures k == 0 ==> r == 0
  {
    if n == 0 then 0 else Times(n - 1, k) + k
  }

  lemma {:induction false} TimesIs(n: nat, k: nat)
    ensures Times(n, k) == n * k
  {
    if n > 0 { TimesIs(n - 1, k); }
  }

  method Product(n: nat, k: nat) returns (r: nat)
    ensures r == Times(n, k)
  {
    TimesIs(n, k);
    r := n * k;
  }

  /** c is the n-th part of the total, rounded down. */
  ghost predicate IsShare(c: nat, n: nat, total: nat) {
    Times(n, c) <= total < Times(n, c) + n
  }

  method Share(total: nat, n: nat) returns (c: nat)
    requires n > 0
    ensures IsShare(c, n, total) && (total == 0 ==> c == 0)
  {
    RoundedDown(total, n);
    TimesIs(n, total / n);
    c := total / n;
  }

  /** What one of n takes of a total is at most the share each could give. */
  lemma {:induction false} SharedOut(work: nat, n: nat, least: nat, c: nat)
    requires n > 0 && work <= Times(n, least) && IsShare(c, n, work)
    ensures c <= least
  {
    TimesIs(n, least);
    TimesIs(n, c);
    OneMore(least, n);
    if c > least {
      Scale(least + 1, c, n);
    }
  }

  /** Every input gave the same, and none more than it had. */
  ghost predicate Taken(input: seq<Input>, ins: seq<Input>, consumed: nat) {
    && |ins| == |input|
    && forall i :: 0 <= i < |input| ==>
            consumed <= input[i].menge && ins[i] == input[i].(menge := input[i].menge - consumed)
  }

  /** An input after a delivery; what is beyond its limit counts against what is on order. */
  function Delivered(w: Input, amount: nat): Input {
    var received := w.menge + Saturate(amount);
    if received > w.max then w.(menge := w.max, demand := Clamp(w.demand - (received - w.max)))
    else w.(menge := received)
  }

  /** What a consumer takes of an input. */
  function Used(w: Input, prod: nat): int {
    if w.menge <= 0 then 0 else Min(ScaledProduction(prod, DemandRate(w)), w.menge)
  }

  ghost predicate Consumed(input: seq<Input>, now: seq<Input>, prod: nat, k: nat) {
    && |now| == |input|
    && forall i :: 0 <= i < |input| ==>
            now[i] == if i < k then input[i].(menge := input[i].menge - Used(input[i], prod)) else input[i]
  }

  method ConsumeEach(input: seq<Input>, prod: nat, counter0: Byte) returns (now: seq<Input>, counter: Byte)
    ensures Consumed(input, now, prod, |input|) && CountSated(now) == CountSated(input)
    ensures Drift(counter, CountDrained(now)) == Drift(counter0, CountDrained(input))
  {
    now, counter := input, counter0;
    for k := 0 to |input|
      invariant Consumed(input, now, prod, k) && CountSated(now) == CountSated(input)
      invariant Drift(counter, CountDrained(now)) == Drift(counter0, CountDrained(input))
    {
      var w := now[k];
      if w.menge <= 0 {
        continue;
      }
      var consumption := ScaledProduction(prod, DemandRate(w));
      var delta := if w.menge > consumption then consumption else w.menge;
      var v := w.(menge := w.menge - delta);
      InputCounted(now, k, v, counter);
      if v.menge <= 0 {
        counter := Inc(counter);
      }
      now := now[k := v];
    }
  }

  /** No limit is larger than what can be on order. */
  ghost predicate MaxFits(input: seq<Input>) {
    forall i :: 0 <= i < |input| ==> input[i].max <= MAX_SINT32
  }

  function Ordered(w: Input, amount: nat): Input { w.(demand := Clamp(w.demand + amount)) }

  function OrderedAll(input: seq<Input>, want: nat): seq<Input> {
    seq(|input|, i requires 0 <= i < |input| => Ordered(input[i], want))
  }

  /** What is ordered for one input. */
  function OrderedOne(w: Input, want: nat): Input {
    if Sated(w) then w else
      var part := ScaledProduction(want, DemandRate(w));
      Ordered(w, if part > 1 then part else 1)
  }

  method OrderAll(input: seq<Input>, want: nat) returns (now: seq<Input>, counter: Byte)
    requires |input| < 256
    ensures now == OrderedAll(input, want) && counter == CountSated(now) && CountDrained(now) == CountDrained(input)
  {
    now, counter := input, 0;
    for k := 0 to |input|
      invariant |now| == |input| && counter == CountSated(now[..k]) <= k && CountDrained(now) == CountDrained(input)
      invariant forall i :: 0 <= i < |input| ==> now[i] == if i < k then Ordered(input[i], want) else input[i]
    {
      var v := Ordered(now[k], want);
      InputChanged(now, k, v);
      ghost var before := now;
      now := now[k := v];
      assert now[..k] == before[..k];
      CountNext(now, k);
      if now[k].demand >= now[k].max {
        counter := Inc(counter);
      }
    }
    assert now[..|input|] == now;
  }

  method OrderEach(input: seq<Input>, want: nat, counter0: Byte) returns (now: seq<Input>, counter: Byte)
    ensures |now| == |input| && forall i :: 0 <= i < |input| ==> now[i] == OrderedOne(input[i], want)
    ensures Drift(counter, CountSated(now)) == Drift(counter0, CountSated(input))
    ensures CountDrained(now) == CountDrained(input)
  {
    now, counter := input, counter0;
    for k := 0 to |input|
      invariant |now| == |input| && CountDrained(now) == CountDrained(input)
      invariant Drift(counter, CountSated(now)) == Drift(counter0, CountSated(input))
      invariant forall i :: 0 <= i < |input| ==> now[i] == if i < k then OrderedOne(input[i], want) else input[i]
    {
      if now[k].demand >= now[k].max {
        continue;
      }
      var v := OrderedOne(now[k], want);
      InputCounted(now, k, v, counter);
      now := now[k := v];
      if now[k].demand >= now[k].max {
        counter := Inc(counter);
      }
    }
  }

  /** What a transformation made and what it wanted: all that the outputs desire at the least
      demand rate, as far as the least input allows, and nothing when it believes that an input
      is drained. */
  ghost predicate Transformed(input: seq<Input>, outs: seq<Output>, now: seq<Output>, prod: nat, noInput: bool,
                              made: nat, want: nat) {
    |outs| > 0 && exists least: nat, limit: nat {:trigger IsBottleneck(input, least, limit)} ::
      && IsBottleneck(input, least, limit)
      && IsShare(want, |outs|, SumDesired(outs, prod, limit))
      && (noInput ==> made == 0 && now == outs)
      && (!noInput ==> made == Min(Times(|outs|, least), SumDesired(outs, prod, limit))
                       && ServedInOrder(outs, now, prod, limit, Times(|outs|, least), |outs|))
  }

  ghost predicate IsBottleneck(input: seq<Input>, least: nat, limit: nat) {
    && (forall i :: 0 <= i < |input| ==> least <= input[i].menge && limit <= DemandRate(input[i]))
    && (exists i :: 0 <= i < |input| && least == input[i].menge)
    && exists i :: 0 <= i < |input| && limit == DemandRate(input[i])
  }

  lemma {:induction false} TotalStock(outs: seq<Output>, now: seq<Output>, prod: nat, limit: nat, avail: nat,
                                      noInput: bool, work: nat, want: nat)
    requires Serving(outs, now, prod, limit, avail, noInput, |outs|, work, want)
    ensures Stock(now) == Stock(outs) + work && want == SumDesired(outs, prod, limit)
    ensures if noInput then work == 0 && now == outs
            else work == Min(avail, want) && ServedInOrder(outs, now, prod, limit, avail, |outs|)
  {
    assert outs[..|outs|] == outs && now[..|outs|] == now;
    if !noInput {
      assert Stock(now[..|outs|]) == Stock(outs[..|outs|]) + Given(outs, prod, limit, avail, |outs|, |outs|);
    }
  }

  /** Fills every output as far as it wants. */
  method FillOutputs(outs: seq<Output>, prod: nat) returns (now: seq<Output>, ghost filled: nat)
    requires prod <= MAX_SINT32
    ensures FilledFrom(outs, now, prod, |outs|) && CountFull(now) == CountFull(outs) + filled
  {
    now, filled := outs, 0;
    for k := 0 to |outs|
      invariant FilledFrom(outs, now, prod, k) && CountFull(now) == CountFull(outs) + filled
    {
      var o := now[k];
      var comp := o.max - o.menge;
      if comp <= 0 {
        continue;
      }
      var rate := OutputRate(o);
      RateBounds(o.menge, o.minShipment * RAMPDOWN_MULTIPLYER, o.max);
      var delta := ScaledProduction(prod, rate);
      if delta > comp {
        delta := comp;
      }
      OutputChanged(now, k, Produced(o, delta));
      now := now[k := Produced(o, delta)];
      filled := filled + One(Full(now[k]));
    }
  }

  /** The first k outputs took what they desired. */
  ghost predicate FilledFrom(outs: seq<Output>, now: seq<Output>, prod: nat, k: nat) {
    && |now| == |outs|
    && forall i :: 0 <= i < |outs| ==>
            now[i] == if i < k then Produced(outs[i], Desired(outs[i], prod, FULL_RATE)) else outs[i]
  }

  /** A producer that believes all its outputs are full is right exactly when the number it
      failed to count is a multiple of 256. */
  lemma {:induction false} EarlyExit(outs: seq<Output>, counter: Byte, uncounted: nat)
    requires |outs| < 256 && Shows(counter, CountFull(outs) - uncounted) && counter == |outs|
    ensures (forall i :: 0 <= i < |outs| ==> Full(outs[i])) <==> uncounted % 256 == 0
  {
    AllOutputs(outs);
  }
}
