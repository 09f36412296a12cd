/** Why a producer of a single good stops after 255 shipments, until its outputs are counted
    anew. */
module Stall {
  import opened Rates
  import opened Factory

  /** A producer with room that believes it has none. */
  ghost predicate Stalled(f: Fabrik)
    reads f
  {
    && f.Valid() && f.OutputsCounted() && f.input == [] && |f.output| == 1
    && f.inactiveOutputs == 1 && !Full(f.output[0])
  }

  // A product of factor 1.0, a store for 40 units, shipped by tens.
  const FULL := Output(40960, 40960, 10240)
  const SHIPPED := Output(30720, 40960, 10240)

  lemma ShipTen()
    ensures Shipment(FULL, 256, 100) == 10 && Shipped(FULL, 10, 256) == SHIPPED
  {
  }

  lemma FillUp()
    ensures Produced(SHIPPED, Desired(SHIPPED, 20480, FULL_RATE)) == FULL
  {
    assert WorkRateRamp(30720, 20480, 40960) == 32768;
    assert ScaledProduction(20480, 32768) == 10240;
  }

  lemma CountOne(o: Output)
    ensures CountFull([o]) == One(Full(o))
  {
    assert [o][..0] == [];
  }

  /** Ships from a full store and fills it again. */
  method Cycle(f: Fabrik)
    requires f.Valid() && f.OutputsCounted() && f.input == [] && f.output == [FULL] && f.factor == [256]
    requires f.uncounted < 255
    modifies f
    ensures f.Valid() && f.OutputsCounted() && f.input == [] && f.output == [FULL]
    ensures f.uncounted == old(f.uncounted) + 1
  {
    ShipTen();
    FillUp();
    CountOne(FULL);
    CountOne(SHIPPED);
    var _ := f.VerteileWaren(0, 100);
    assert f.output == [SHIPPED];
    assert f.inactiveOutputs != 1;
    f.ProduceMany(20480);
    assert f.output == [FULL];
  }

  /** After 255 shipments, each made up for at once, the next one stalls the producer. */
  method ProducerStalls() returns (f: Fabrik)
    ensures fresh(f) && Stalled(f)
  {
    f := new Fabrik([], [256], [], [40960], [10240]);
    assert f.output == [FULL];
    for i := 0 to 255
      invariant f.Valid() && f.OutputsCounted() && f.input == [] && f.output == [FULL] && f.factor == [256]
      invariant f.uncounted == i
      invariant fresh(f)
    {
      Cycle(f);
    }
    ShipTen();
    CountOne(FULL);
    CountOne(SHIPPED);
    var _ := f.VerteileWaren(0, 100);
    assert f.output == [SHIPPED];
  }

  /** Whatever is shipped, a stalled producer does not produce until its outputs are counted
      anew. */
  method StaysStalled(f: Fabrik, prods: seq<nat>, spaces: seq<int>)
    requires Stalled(f) && |prods| == |spaces| && forall i :: 0 <= i < |prods| ==> prods[i] <= MAX_SINT32
    modifies f
    ensures Stalled(f) && f.output[0].menge <= old(f.output[0].menge)
  {
    for i := 0 to |prods|
      invariant Stalled(f) && f.output[0].menge <= old(f.output[0].menge)
    {
      f.ProduceMany(prods[i]);
      if f.output[0].menge >= f.output[0].minShipment {
        ghost var o := f.output[0];
        assert f.output == [o];
        CountOne(o);
        var _ := f.VerteileWaren(0, spaces[i]);
        assert f.output == [f.output[0]];
        CountOne(f.output[0]);
      }
    }
  }

  /** A recount, as when the base production changes, sets it going again. */
  method Recount(f: Fabrik, prod: nat)
    requires Stalled(f) && 0 < prod <= MAX_SINT32
    modifies f
    ensures f.Valid() && f.OutputsCounted() && |f.output| == 1 && f.output[0].menge > old(f.output[0].menge)
  {
    ghost var o := f.output[0];
    assert f.output == [o];
    CountOne(o);
    f.RebuildInactiveCache();
    RateBounds(o.menge, o.minShipment * RAMPDOWN_MULTIPLYER, o.max);
    ScaledBounds(prod, OutputRate(o));
    f.ProduceMany(prod);
  }

  /** A delivery of nothing makes a drained input look stocked. */
  method EmptyDelivery() returns (f: Fabrik)
    ensures f.Valid() && !f.Counted() && f.input == [Input(0, 5, 5)]
  {
    f := new Fabrik([1], [], [5], [], []);
    assert f.input == [Input(0, 5, 5)];
    assert FromUnits(0, 1) == 0;
    var _ := f.LiefereAn(0, 0);
  }

  /** So much sets out at once that the demand wraps round and turns up above its limit, which
      the counter misses. */
  method LongWayRound() returns (f: Fabrik)
    ensures f.Valid() && !f.Counted() && f.input == [Input(10240, 10240, 1222967296)]
  {
    f := new Fabrik([256], [], [10240], [], []);
    assert f.input == [Input(0, 10240, 10240)];
    assert FromUnits(20, 256) == 20480 && FromUnits(3000000, 256) == 3072000000;
    var _ := f.LiefereAn(0, 20);
    assert f.input == [Input(10240, 10240, 0)];
    f.ApplyTransit(0, 3000000);
  }
}
