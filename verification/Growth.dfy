/** What a city had to satisfy and what it got, since it was last asked: nothing is lost or told
    twice when a month ends. */
module Growth {

  const GROWTH_FACTOR_NUMBER := 3      // passengers, mail and goods

  datatype Factor = Factor(demand: int, supplied: int)

  function Plus(a: Factor, b: Factor): Factor { Factor(a.demand + b.demand, a.supplied + b.supplied) }
  function Minus(a: Factor, b: Factor): Factor { Factor(a.demand - b.demand, a.supplied - b.supplied) }

  type Factors = seq<Factor>

  function None(): Factors { [Factor(0, 0), Factor(0, 0), Factor(0, 0)] }

  class City {
    var month: seq<Factors>           // the history, this month first
    var previous: Factors
    ghost var booked: Factors         // all that was ever booked
    ghost var reported: Factors       // all that was ever reported

    constructor (months: nat)
      requires months > 1
      ensures Valid() && |month| == months && booked == reported == None()
    {
      month := seq(months, _ => None());
      previous, booked, reported := None(), None(), None();
    }

    /** All that was booked was either reported or is still to be. */
    ghost predicate Valid()
      reads this
    {
      && |month| > 1 && |month[0]| == |previous| == |booked| == |reported| == GROWTH_FACTOR_NUMBER
      && forall i :: 0 <= i < GROWTH_FACTOR_NUMBER ==> Plus(reported[i], Minus(month[0][i], previous[i])) == booked[i]
    }

    method Book(i: nat, demand: nat, supplied: nat)
      requires Valid() && i < GROWTH_FACTOR_NUMBER
      modifies this
      ensures Valid() && reported == old(reported)
      ensures booked == old(booked)[i := Plus(old(booked)[i], Factor(demand, supplied))]
    {
      month := month[0 := month[0][i := Plus(month[0][i], Factor(demand, supplied))]];
      booked := booked[i := Plus(booked[i], Factor(demand, supplied))];
    }

    /** A growth tick: what came up since the last one. Afterwards nothing is pending. */
    method CityGrowthBase() returns (had: seq<Factor>)
      requires Valid()
      modifies this
      ensures Valid() && booked == old(booked) && |had| == GROWTH_FACTOR_NUMBER && month == old(month)
      ensures forall i :: 0 <= i < GROWTH_FACTOR_NUMBER ==> reported[i] == Plus(old(reported)[i], had[i])
      ensures reported == booked
    {
      had := [];
      ghost var p, r := previous, reported;
      var now := month[0];
      for i := 0 to GROWTH_FACTOR_NUMBER
        invariant |had| == i && booked == old(booked) && month == old(month)
        invariant |previous| == |reported| == GROWTH_FACTOR_NUMBER
        invariant forall j :: 0 <= j < i ==>
                  previous[j] == now[j] && had[j] == Minus(now[j], p[j]) && reported[j] == Plus(r[j], had[j])
        invariant forall j :: i <= j < GROWTH_FACTOR_NUMBER ==> previous[j] == p[j] && reported[j] == r[j]
      {
        var differential := Minus(now[i], previous[i]);
        previous := previous[i := now[i]];
        had := had + [differential];
        reported := reported[i := Plus(reported[i], differential)];
      }
    }

    /** The month ends: what is pending is kept as a negative amount to start from. */
    method NewMonth()
      requires Valid()
      modifies this
      ensures Valid() && booked == old(booked) && reported == old(reported)
      ensures month == [None()] + old(month)[..|old(month)| - 1]
    {
      CityGrowthMonthly(0);
      month := [None()] + month[..|month| - 1];
    }

    method CityGrowthMonthly(k: nat)
      requires k < |month| && |previous| == |month[k]| == GROWTH_FACTOR_NUMBER
      modifies this`previous
      ensures |previous| == GROWTH_FACTOR_NUMBER
      ensures forall i :: 0 <= i < GROWTH_FACTOR_NUMBER ==> previous[i] == Minus(old(previous)[i], month[k][i])
    {
      ghost var p := previous;
      for i := 0 to GROWTH_FACTOR_NUMBER
        invariant |previous| == GROWTH_FACTOR_NUMBER
        invariant forall j :: 0 <= j < GROWTH_FACTOR_NUMBER ==>
                  previous[j] == if j < i then Minus(p[j], month[k][j]) else p[j]
      {
        var differential := Minus(month[k][i], previous[i]);
        previous := previous[i := Factor(-differential.demand, -differential.supplied)];
      }
    }
  }

  datatype Event = Booking(i: nat, demand: nat, supplied: nat) | Tick | MonthEnd

  function Amount(e: Event, i: nat): Factor {
    if e.Booking? && e.i == i then Factor(e.demand, e.supplied) else Factor(0, 0)
  }

  function BookedBy(events: seq<Event>, i: nat): Factor {
    if events == [] then Factor(0, 0) else Plus(BookedBy(events[..|events| - 1], i), Amount(events[|events| - 1], i))
  }

  /** The sum of all reports, of the i-th factor. */
  function Reports(ticks: seq<seq<Factor>>, i: nat): Factor {
    if ticks == [] then Factor(0, 0) else
      var last := ticks[|ticks| - 1];
      Plus(Reports(ticks[..|ticks| - 1], i), if i < |last| then last[i] else Factor(0, 0))
  }

  /** The ghost accounts are those of the run so far. */
  ghost predicate Tracks(c: City, ticks: seq<seq<Factor>>, events: seq<Event>)
    reads c
  {
    c.Valid() && forall i :: 0 <= i < GROWTH_FACTOR_NUMBER ==>
            c.reported[i] == Reports(ticks, i) && c.booked[i] == BookedBy(events, i)
  }

  lemma {:induction false} NextReport(ticks: seq<seq<Factor>>, had: seq<Factor>, i: nat)
    requires i < |had|
    ensures Reports(ticks + [had], i) == Plus(Reports(ticks, i), had[i])
  {
    assert (ticks + [had])[..|ticks|] == ticks;
  }

  lemma {:induction false} NextBooking(events: seq<Event>, e: Event, i: nat)
    ensures BookedBy(events + [e], i) == Plus(BookedBy(events, i), Amount(e, i))
  {
    assert (events + [e])[..|events|] == events;
  }

  method Happen(c: City, e: Event, ticks0: seq<seq<Factor>>, ghost events: seq<Event>) returns (ticks: seq<seq<Factor>>)
    requires Tracks(c, ticks0, events) && (e.Booking? ==> e.i < GROWTH_FACTOR_NUMBER)
    modifies c
    ensures Tracks(c, ticks, events + [e])
  {
    ticks := ticks0;
    ghost var booked, reported := c.booked, c.reported;
    match e {
      case Booking(i, d, s) => c.Book(i, d, s);
      case Tick =>
        var had := c.CityGrowthBase();
        ticks := ticks + [had];
      case MonthEnd => c.NewMonth();
    }
    forall i | 0 <= i < GROWTH_FACTOR_NUMBER
      ensures c.reported[i] == Reports(ticks, i) && c.booked[i] == BookedBy(events + [e], i)
    {
      assert reported[i] == Reports(ticks0, i) && booked[i] == BookedBy(events, i);
      NextBooking(events, e, i);
      if e.Tick? { NextReport(ticks0, ticks[|ticks0|], i); }
    }
  }

  ghost predicate Accounted(c: City, ticks: seq<seq<Factor>>, events: seq<Event>)
    requires |c.month| > 0 && |c.month[0]| == |c.previous| == GROWTH_FACTOR_NUMBER
    reads c
  {
    forall i :: 0 <= i < GROWTH_FACTOR_NUMBER ==>
      Plus(Reports(ticks, i), Minus(c.month[0][i], c.previous[i])) == BookedBy(events, i)
  }

  /** Over any run, the reports of all ticks and what is still pending make up everything
      that was booked. */
  method Run(c: City, events: seq<Event>) returns (ticks: seq<seq<Factor>>)
    requires c.Valid() && c.booked == c.reported == None()
    requires forall k :: 0 <= k < |events| && events[k].Booking? ==> events[k].i < GROWTH_FACTOR_NUMBER
    modifies c
    ensures c.Valid() && Accounted(c, ticks, events)
  {
    ticks := [];
    ghost var done := [];
    for n := 0 to |events|
      invariant done == events[..n] && Tracks(c, ticks, done)
    {
      ticks := Happen(c, events[n], ticks, done);
      done := done + [events[n]];
    }
    assert done == events;
  }
}
