/** Passengers and mail of the cities: packets set out until all have been dealt with, and the
    histories never tell of more trips than people. */
module Passengers {
  import opened TargetFactories

  const PACKET_SIZE := 7
  const MAIL_RETURN_MULTIPLIER_PRODUCERS := 3
  const SLOTS := 12      // months and years that are kept

  datatype Tally = Tally(generated: nat, transported: nat, walked: nat)

  /** What a city has on record of one kind of traffic; this month and this year come first. */
  datatype City = City(month: seq<Tally>, year: seq<Tally>)

  datatype Return = NoReturn | FactoryReturn | TouristReturn | CityReturn
  datatype Route = Ok | Walk | Overcrowded | NoRoute
  datatype Aim = Attraction(city: nat) | Town(city: nat)

  /** What chance and the network decide about one packet. */
  datatype Trip = Trip(weight: nat, aim: Aim, route: Route, crowded: bool)

  /** Nobody travelled who was not there, with `due` people of the first slot yet to travel. */
  predicate Covered(s: seq<Tally>, due: nat) {
    && |s| == SLOTS
    && forall i :: 0 <= i < |s| ==> s[i].transported + s[i].walked + (if i == 0 then due else 0) <= s[i].generated
  }

  ghost predicate CityCovered(c: City, due: nat) { Covered(c.month, due) && Covered(c.year, due) }

  /** All records are sound; of the people of `home`, `due` have yet to travel. */
  ghost predicate Sound(cities: map<nat, City>, home: nat, due: nat) {
    && home in cities
    && forall c {:trigger cities[c]} :: c in cities ==> CityCovered(cities[c], if c == home then due else 0)
  }

  function First(s: seq<Tally>, t: Tally): seq<Tally>
    requires |s| == SLOTS
  {
    s[0 := t]
  }

  function Generated(c: City, n: nat): City
    requires |c.month| == |c.year| == SLOTS
  {
    City(First(c.month, c.month[0].(generated := c.month[0].generated + n)),
         First(c.year, c.year[0].(generated := c.year[0].generated + n)))
  }

  function Transported(c: City, n: nat): City
    requires |c.month| == |c.year| == SLOTS
  {
    City(First(c.month, c.month[0].(transported := c.month[0].transported + n)),
         First(c.year, c.year[0].(transported := c.year[0].transported + n)))
  }

  function Walked(c: City, n: nat): City
    requires |c.month| == |c.year| == SLOTS
  {
    City(First(c.month, c.month[0].(walked := c.month[0].walked + n)),
         First(c.year, c.year[0].(walked := c.year[0].walked + n)))
  }

  /** The record after a packet set out. */
  function Departed(c: City, n: nat, route: Route): City
    requires |c.month| == |c.year| == SLOTS
  {
    match route
    case Ok => Transported(c, n)
    case Walk => Walked(c, n)
    case _ => c
  }

  /** The record of the destination after the people of a packet want to go back. */
  function Returned(c: City, n: nat, route: Route, crowded: bool): City
    requires |c.month| == |c.year| == SLOTS
  {
    var g := Generated(c, n);
    if route == Ok && crowded then g else Departed(g, n, route)
  }

  lemma DepartedCovered(c: City, due: nat, n: nat, route: Route)
    requires CityCovered(c, due) && n <= due
    ensures CityCovered(Departed(c, n, route), due - n)
  {
  }

  lemma ReturnedCovered(c: City, due: nat, n: nat, route: Route, crowded: bool)
    requires CityCovered(c, due)
    ensures CityCovered(Returned(c, n, route, crowded), due)
  {
  }

  lemma GeneratedCovered(c: City, due: nat, n: nat)
    requires CityCovered(c, due)
    ensures CityCovered(Generated(c, n), due + n)
  {
  }

  /** A packet: how many set out and how, and how many want to go back from where. */
  datatype Packet = Packet(people: nat, route: Route, dest: nat, returning: nat, crowded: bool, factory: bool)

  /** How many people there are in all packets. */
  function People(s: seq<Packet>): nat {
    if s == [] then 0 else People(s[..|s| - 1]) + s[|s| - 1].people
  }

  /** How many of them set out by this route. */
  function SetOut(s: seq<Packet>, route: Route): nat {
    if s == [] then 0
    else SetOut(s[..|s| - 1], route) + if s[|s| - 1].route == route then s[|s| - 1].people else 0
  }

  /** How many want to go back from the city c. */
  function WantBack(s: seq<Packet>, c: nat): nat {
    if s == [] then 0 else WantBack(s[..|s| - 1], c) + if s[|s| - 1].dest == c then s[|s| - 1].returning else 0
  }

  /** A packet whose people do go back, by this route: not if the stop is crowded. */
  predicate GoesBack(p: Packet, route: Route) { p.route == route && !(route == Ok && p.crowded) }

  /** How many go back from the city c by this route. */
  function Back(s: seq<Packet>, c: nat, route: Route): nat {
    if s == [] then 0
    else
      var p := s[|s| - 1];
      Back(s[..|s| - 1], c, route) + if p.dest == c && GoesBack(p, route) then p.returning else 0
  }

  /** How many of them want to go to a factory. */
  function ForFactories(s: seq<Packet>): nat {
    if s == [] then 0
    else ForFactories(s[..|s| - 1]) + if s[|s| - 1].factory then s[|s| - 1].people else 0
  }

  /** Everybody sets out by some route. */
  lemma {:induction false} EverybodySetsOut(s: seq<Packet>)
    ensures SetOut(s, Ok) + SetOut(s, Walk) + SetOut(s, Overcrowded) + SetOut(s, NoRoute) == People(s)
  {
    if s != [] { EverybodySetsOut(s[..|s| - 1]); }
  }

  lemma {:induction false} OneMorePacket(s: seq<Packet>, p: Packet, c: nat, route: Route)
    ensures People(s + [p]) == People(s) + p.people
    ensures SetOut(s + [p], route) == SetOut(s, route) + if p.route == route then p.people else 0
    ensures ForFactories(s + [p]) == ForFactories(s) + if p.factory then p.people else 0
    ensures WantBack(s + [p], c) == WantBack(s, c) + if p.dest == c then p.returning else 0
    ensures Back(s + [p], c, route) == Back(s, c, route) + if p.dest == c && GoesBack(p, route) then p.returning else 0
  {
    assert (s + [p])[..|s|] == s;
  }

  /** The first record gained that much, the others are as they were. */
  ghost predicate Gained(s: seq<Tally>, r: seq<Tally>, generated: int, transported: int, walked: int) {
    && |s| == |r| == SLOTS && (forall i :: 1 <= i < SLOTS ==> r[i] == s[i])
    && r[0].generated == s[0].generated + generated && r[0].transported == s[0].transported + transported
    && r[0].walked == s[0].walked + walked
  }

  /** Between the records t and u of the city c, the packets set out, from `home` where `people`
      had wished to travel, month and year alike. */
  ghost predicate Books(t: City, u: City, c: nat, home: nat, people: nat, packets: seq<Packet>) {
    var own := c == home;
    var generated := WantBack(packets, c) + if own then people else 0;
    var transported := Back(packets, c, Ok) + if own then SetOut(packets, Ok) else 0;
    var walked := Back(packets, c, Walk) + if own then SetOut(packets, Walk) else 0;
    Gained(t.month, u.month, generated, transported, walked) && Gained(t.year, u.year, generated, transported, walked)
  }

  /** The books of all cities balance. */
  ghost predicate Balanced(t: map<nat, City>, u: map<nat, City>, home: nat, people: nat, packets: seq<Packet>) {
    && u.Keys == t.Keys
    && forall c {:trigger Books(t[c], u[c], c, home, people, packets)} :: c in u ==>
         Books(t[c], u[c], c, home, people, packets)
  }

  lemma BooksTwice(t: City, u: City, v: City, c: nat, home: nat, people: nat, packets: seq<Packet>, p: Packet)
    requires Books(t, u, c, home, people, packets) && Books(u, v, c, home, 0, [p])
    ensures Books(t, v, c, home, people, packets + [p])
  {
    OneMorePacket(packets, p, c, Ok);
    OneMorePacket(packets, p, c, Walk);
    OneMorePacket([], p, c, Ok);
    OneMorePacket([], p, c, Walk);
    assert [] + [p] == [p];
  }

  lemma BalancedTwice(t: map<nat, City>, u: map<nat, City>, v: map<nat, City>, home: nat, people: nat,
                      packets: seq<Packet>, p: Packet)
    requires Balanced(t, u, home, people, packets) && Balanced(u, v, home, 0, [p])
    ensures Balanced(t, v, home, people, packets + [p])
  {
    forall c | c in v
      ensures Books(t[c], v[c], c, home, people, packets + [p])
    {
      BooksTwice(t[c], u[c], v[c], c, home, people, packets, p);
    }
  }

  /** The wish to travel is on the books before anybody sets out. */
  lemma WishBalanced(t: map<nat, City>, home: nat, people: nat)
    requires home in t && forall c :: c in t ==> |t[c].month| == |t[c].year| == SLOTS
    ensures Balanced(t, t[home := Generated(t[home], people)], home, people, [])
    ensures Generated(t[home], people).month[0].generated == t[home].month[0].generated + people
  {
  }

  lemma DepartedGains(t: City, n: nat, route: Route)
    requires |t.month| == |t.year| == SLOTS
    ensures var u := Departed(t, n, route);
      var transported, walked := if route == Ok then n else 0, if route == Walk then n else 0;
      Gained(t.month, u.month, 0, transported, walked) && Gained(t.year, u.year, 0, transported, walked)
  {
  }

  lemma ReturnedGains(t: City, n: nat, route: Route, crowded: bool)
    requires |t.month| == |t.year| == SLOTS
    ensures var u := Returned(t, n, route, crowded);
      var transported, walked := if route == Ok && !crowded then n else 0, if route == Walk then n else 0;
      Gained(t.month, u.month, n, transported, walked) && Gained(t.year, u.year, n, transported, walked)
  {
  }

  lemma PacketBooks(t: City, u: City, v: City, c: nat, home: nat, p: Packet)
    requires |t.month| == |t.year| == |u.month| == |u.year| == SLOTS
    requires u == if c == home then Departed(t, p.people, p.route) else t
    requires v == if c == p.dest then Returned(u, p.returning, p.route, p.crowded) else u
    ensures Books(t, v, c, home, 0, [p])
  {
    DepartedGains(t, p.people, p.route);
    ReturnedGains(u, p.returning, p.route, p.crowded);
    OneMorePacket([], p, c, Ok);
    OneMorePacket([], p, c, Walk);
    assert [] + [p] == [p];
  }

  /** One packet, with what the records say once it set out and has returned. */
  lemma PacketBalanced(t: map<nat, City>, home: nat, p: Packet)
    requires home in t && p.dest in t && forall c :: c in t ==> |t[c].month| == |t[c].year| == SLOTS
    ensures var u := t[home := Departed(t[home], p.people, p.route)];
      Balanced(t, u[p.dest := Returned(u[p.dest], p.returning, p.route, p.crowded)], home, 0, [p])
  {
    var u := t[home := Departed(t[home], p.people, p.route)];
    var v := u[p.dest := Returned(u[p.dest], p.returning, p.route, p.crowded)];
    DepartedGains(t[home], p.people, p.route);
    forall c | c in v
      ensures Books(t[c], v[c], c, home, 0, [p])
    {
      PacketBooks(t[c], u[c], v[c], c, home, p);
    }
  }

  /** A packet is full unless nobody is left, or a factory takes no more. */
  ghost predicate Fits(p: Packet, left: nat, enforce: bool) {
    0 < p.people <= PACKET_SIZE && (p.people < PACKET_SIZE ==> left == 0 || (enforce && p.factory))
  }

  /** With so many left after the last packet, each of them is as large as it may be. */
  ghost predicate Packed(packets: seq<Packet>, left: nat, enforce: bool) {
    forall i {:trigger packets[i]} :: 0 <= i < |packets| ==>
      Fits(packets[i], if i == |packets| - 1 then left else 1, enforce)
  }

  /** The packet of a trip: who goes to a factory or an attraction goes back to where he came from,
      with three times the mail; so does who goes to another city. */
  ghost predicate TakesTrip(p: Packet, trip: Trip, mail: bool, home: nat, factory: bool) {
    var more := p.people * if mail then MAIL_RETURN_MULTIPLIER_PRODUCERS else 1;
    && p.route == trip.route && p.crowded == trip.crowded && p.factory == factory
    && if factory then p.dest == home && p.returning == more
       else match trip.aim
         case Attraction(c) => p.dest == c && p.returning == more
         case Town(c) => p.dest == c && p.returning == if c == home then 0 else p.people
  }

  /** All trips lead to cities there are. */
  ghost predicate Reachable(trips: nat -> Trip, cities: set<nat>) {
    forall n: nat {:trigger trips(n)} :: trips(n).aim.city in cities
  }

  /** The n-th packet is that of the n-th trip. */
  ghost predicate TakeTrips(packets: seq<Packet>, trips: nat -> Trip, mail: bool, home: nat) {
    forall i {:trigger packets[i]} :: 0 <= i < |packets| ==>
      TakesTrip(packets[i], trips(i), mail, home, packets[i].factory)
  }

  /** These packets have set out, and with them so many people. */
  ghost predicate Sending(t: map<nat, City>, u: map<nat, City>, home: nat, numPax: nat, routed: nat,
                          packets: seq<Packet>, trips: nat -> Trip, mail: bool, enforce: bool)
  {
    && routed <= numPax && Sound(u, home, numPax - routed) && People(packets) == routed
    && Packed(packets, numPax - routed, enforce)
    && Balanced(t, u, home, 0, packets) && TakeTrips(packets, trips, mail, home)
  }

  /** What the choice of a destination does to the factories. */
  ghost predicate Charges(s: Ledger, r: Ledger, weight: nat, amount: nat, enforce: bool, factory: bool) {
    && Booked(s, r, if factory then amount else 0, enforce)
    && if !factory then r.entries == s.entries
       else
         && s.totalRemaining > 0
         && exists i :: 0 <= i < |s.entries| && FallsTo(s.entries, weight % s.totalRemaining, i)
              && r.entries == if enforce then s.entries[i := Charged(s.entries[i], amount)] else s.entries
  }

  /** Whether the n-th packet goes to a factory: as long as there is something remaining of what
      was there at first, and of all people so far too few were for factories. */
  ghost predicate Aimed(s: Ledger, generated: nat, wish: nat, packets: seq<Packet>, home: nat, enforce: bool, n: int)
    requires 0 <= n < |packets|
  {
    packets[n].factory ==
      Wanted(After(s, ForFactories(packets[..n]), enforce), generated + wish + WantBack(packets[..n], home))
  }

  /** The totals after so many people were booked. */
  function After(s: Ledger, people: nat, enforce: bool): Ledger {
    s.(totalRemaining := s.totalRemaining - (if enforce then people else 0),
       totalGenerated := s.totalGenerated + people)
  }

  /** What the packets do to the factories. */
  ghost predicate Charging(s: Ledger, r: Ledger, generated: nat, wish: nat, packets: seq<Packet>, home: nat,
                           enforce: bool)
  {
    && Booked(s, r, ForFactories(packets), enforce)
    && forall n {:trigger Aimed(s, generated, wish, packets, home, enforce, n)} :: 0 <= n < |packets| ==>
         Aimed(s, generated, wish, packets, home, enforce, n)
  }

  lemma {:induction false} LastAimed(s: Ledger, r: Ledger, now: nat, generated: nat, packets: seq<Packet>, p: Packet,
                                   home: nat, enforce: bool)
    requires Booked(s, r, ForFactories(packets), enforce)
    requires p.factory == Wanted(r, now) && now == generated + WantBack(packets, home)
    ensures Aimed(s, generated, 0, packets + [p], home, enforce, |packets|)
  {
    assert (packets + [p])[..|packets|] == packets;
  }

  lemma StillAimed(s: Ledger, generated: nat, packets: seq<Packet>, p: Packet, home: nat, enforce: bool, n: nat)
    requires n < |packets| && Aimed(s, generated, 0, packets, home, enforce, n)
    ensures Aimed(s, generated, 0, packets + [p], home, enforce, n)
  {
    assert (packets + [p])[..n] == packets[..n];
  }

  /** The wish to travel is on the books before anybody sets out. */
  lemma ChargingWish(s: Ledger, r: Ledger, g: nat, generated: nat, wish: nat, packets: seq<Packet>, home: nat,
                     enforce: bool)
    requires g == generated + wish && Charging(s, r, g, 0, packets, home, enforce)
    ensures Charging(s, r, generated, wish, packets, home, enforce)
  {
    forall n | 0 <= n < |packets|
      ensures Aimed(s, generated, wish, packets, home, enforce, n)
    {
      assert Aimed(s, g, 0, packets, home, enforce, n);
    }
  }

  lemma {:induction false} ChargingNext(s: Ledger, r: Ledger, q: Ledger, now: nat, generated: nat,
                                        packets: seq<Packet>, p: Packet, home: nat, enforce: bool)
    requires Charging(s, r, generated, 0, packets, home, enforce)
    requires Booked(r, q, if p.factory then p.people else 0, enforce)
    requires p.factory == Wanted(r, now) && now == generated + WantBack(packets, home)
    ensures Charging(s, q, generated, 0, packets + [p], home, enforce)
  {
    var all := packets + [p];
    OneMorePacket(packets, p, home, Ok);
    BookedTwice(s, r, q, ForFactories(packets), if p.factory then p.people else 0, enforce);
    LastAimed(s, r, now, generated, packets, p, home, enforce);
    forall n | 0 <= n < |packets|
      ensures Aimed(s, generated, 0, all, home, enforce, n)
    {
      StillAimed(s, generated, packets, p, home, enforce, n);
    }
  }

  lemma {:induction false} SendingNext(t: map<nat, City>, u: map<nat, City>, v: map<nat, City>, home: nat,
                                       numPax: nat, routed: nat, packets: seq<Packet>, p: Packet, trips: nat -> Trip,
                                       mail: bool, enforce: bool)
    requires Sending(t, u, home, numPax, routed, packets, trips, mail, enforce) && home in t && routed < numPax
    requires p.people <= numPax - routed && Fits(p, numPax - routed - p.people, enforce)
    requires home in u && |t[home].month| > 0 && |u[home].month| > 0
    requires Balanced(u, v, home, 0, [p]) && Sound(v, home, numPax - routed - p.people)
    requires TakesTrip(p, trips(|packets|), mail, home, p.factory)
    ensures Sending(t, v, home, numPax, routed + p.people, packets + [p], trips, mail, enforce)
    ensures u[home].month[0].generated == t[home].month[0].generated + WantBack(packets, home)
  {
    BalancedTwice(t, u, v, home, 0, packets, p);
    OneMorePacket(packets, p, home, Ok);
    OneMoreTrip(packets, p, trips, mail, home, numPax - routed, numPax - routed - p.people, enforce);
    assert Books(t[home], u[home], home, home, 0, packets);
  }

  lemma OneMoreTrip(packets: seq<Packet>, p: Packet, trips: nat -> Trip, mail: bool, home: nat, left: nat, now: nat,
                    enforce: bool)
    requires TakeTrips(packets, trips, mail, home) && TakesTrip(p, trips(|packets|), mail, home, p.factory)
    requires left > 0 && Packed(packets, left, enforce) && Fits(p, now, enforce)
    ensures TakeTrips(packets + [p], trips, mail, home) && Packed(packets + [p], now, enforce)
  {
  }

  /** Of all people who were generated, the factories have seen less than the part they should. */
  ghost predicate Wanted(s: Ledger, generated: nat) {
    s.totalRemaining > 0 && s.totalGenerated * (100 * RATIO_UNIT) < Part(s.generationRatio, generated)
  }

  function Part(ratio: nat, generated: nat): nat { ratio * (generated + 1) }

  lemma QuotientBelow(n: nat, ratio: nat, generated: nat)
    ensures n / (generated + 1) < ratio <==> n < Part(ratio, generated)
  {
    var d := generated + 1;
    var q := n / d;
    assert q * d <= n < q * d + d;
    if q < ratio {
      Grows(q + 1, ratio, d);
    } else {
      Grows(ratio, q, d);
    }
  }

  lemma Grows(a: nat, b: nat, d: nat)
    requires a <= b
    ensures a * d <= b * d
  {
  }

  lemma NothingBalanced(t: map<nat, City>, home: nat)
    requires forall c :: c in t ==> |t[c].month| == |t[c].year| == SLOTS
    ensures Balanced(t, t, home, 0, [])
  {
  }

  lemma WishSound(t: map<nat, City>, home: nat, due: nat, dest: nat, n: nat)
    requires Sound(t, home, due) && dest in t
    ensures Sound(t, home, 0) && Sound(t[dest := Generated(t[dest], n)], home, 0)
  {
    GeneratedCovered(t[dest], if dest == home then due else 0, n);
  }

  lemma NobodyBack(t: map<nat, City>, p: Packet)
    requires p.dest in t && p.returning == 0 && |t[p.dest].month| == |t[p.dest].year| == SLOTS
    ensures t[p.dest := Returned(t[p.dest], 0, p.route, p.crowded)] == t
  {
    assert Returned(t[p.dest], 0, p.route, p.crowded) == t[p.dest];
  }

  lemma AfterWish(t: map<nat, City>, u: map<nat, City>, v: map<nat, City>, home: nat, people: nat, packets: seq<Packet>)
    requires Balanced(t, u, home, people, []) && Balanced(u, v, home, 0, packets)
    ensures Balanced(t, v, home, people, packets)
  {
    forall c | c in v
      ensures Books(t[c], v[c], c, home, people, packets)
    {
      assert Books(t[c], u[c], c, home, people, []) && Books(u[c], v[c], c, home, 0, packets);
    }
  }

  /** How far the packets have come, on the records of the cities and of the factories. */
  ghost predicate Underway(t: map<nat, City>, u: map<nat, City>, s: Ledger, r: Ledger, home: nat, numPax: nat,
                           routed: nat, packets: seq<Packet>, trips: nat -> Trip, mail: bool, enforce: bool)
  {
    && home in t && |t[home].month| > 0 && home in u && |u[home].month| > 0
    && Sending(t, u, home, numPax, routed, packets, trips, mail, enforce)
    && Charging(s, r, t[home].month[0].generated, 0, packets, home, enforce)
  }

  lemma UnderwayNext(t: map<nat, City>, u: map<nat, City>, v: map<nat, City>, s: Ledger, r: Ledger, q: Ledger,
                     home: nat, numPax: nat, routed: nat, packets: seq<Packet>, p: Packet, trips: nat -> Trip,
                     mail: bool, enforce: bool)
    requires Underway(t, u, s, r, home, numPax, routed, packets, trips, mail, enforce) && routed < numPax
    requires p.people <= numPax - routed && Fits(p, numPax - routed - p.people, enforce)
    requires Balanced(u, v, home, 0, [p]) && Sound(v, home, numPax - routed - p.people)
    requires TakesTrip(p, trips(|packets|), mail, home, p.factory)
    requires Charges(r, q, trips(|packets|).weight, p.people, enforce, p.factory)
    requires p.factory == Wanted(r, u[home].month[0].generated)
    ensures Underway(t, v, s, q, home, numPax, routed + p.people, packets + [p], trips, mail, enforce)
  {
    SendingNext(t, u, v, home, numPax, routed, packets, p, trips, mail, enforce);
    ChargingNext(s, r, q, u[home].month[0].generated, t[home].month[0].generated, packets, p, home, enforce);
  }

  class Traffic {
    const mail: bool
    var cities: map<nat, City>

    constructor (mail: bool)
      ensures cities == map[] && this.mail == mail
    {
      this.mail := mail;
      cities := map[];
    }

    /** Finds where the people of the next packet want to go: to a factory while more of the
        people should, or else to an attraction or a city. */
    method FindDestination(set0: FactorySet, home: nat, generated: nat, trip: Trip)
        returns (toFactory: bool, entry: nat, back: Return, dest: nat)
      requires set0.Valid()
      ensures toFactory <==> Wanted(set0.Now(), generated)
      ensures toFactory ==> entry < |set0.entries| && set0.entries[entry].remaining > 0
      ensures toFactory ==> FallsTo(set0.entries, trip.weight % set0.totalRemaining, entry)
      ensures toFactory ==> back == FactoryReturn && dest == home
      ensures !toFactory ==> dest == trip.aim.city
      ensures !toFactory ==> back == if trip.aim.Attraction? then TouristReturn
                                     else if dest == home then NoReturn else CityReturn
    {
      QuotientBelow(set0.totalGenerated * 100 * RATIO_UNIT, set0.generationRatio, generated);
      if set0.totalRemaining > 0 && set0.generationRatio > set0.totalGenerated * 100 * RATIO_UNIT / (generated + 1) {
        var found;
        ghost var weight;
        found, entry, weight := set0.GetRandomEntry(trip.weight);
        return found, entry, FactoryReturn, home;
      }
      match trip.aim
      case Attraction(c) => return false, 0, TouristReturn, c;
      case Town(c) => return false, 0, if c == home then NoReturn else CityReturn, c;
    }

    /** Chooses where up to `want` people of the next packet go, and books them on the factory if
        it is one. */
    method Choose(set0: FactorySet, home: nat, want: nat, trip: Trip, enforce: bool)
        returns (sent: nat, toFactory: bool, back: Return, dest: nat)
      requires set0.Valid() && home in cities && |cities[home].month| > 0
      modifies set0
      ensures set0.Valid() && sent <= want && (want > 0 ==> sent > 0) && (sent < want ==> enforce && toFactory)
      ensures toFactory == Wanted(old(set0.Now()), old(cities[home].month[0].generated))
      ensures if toFactory then back == FactoryReturn && dest == home else dest == trip.aim.city
      ensures !toFactory ==> back == if trip.aim.Attraction? then TouristReturn
                                     else if dest == home then NoReturn else CityReturn
      ensures Charges(old(set0.Now()), set0.Now(), trip.weight, sent, enforce, toFactory)
    {
      sent := want;
      var entry;
      toFactory, entry, back, dest := FindDestination(set0, home, cities[home].month[0].generated, trip);
      if toFactory {
        sent := set0.Book(entry, want, enforce);
      }
    }

    /** One packet: how many of the `want` people travel, and what the histories say then. */
    method SendPacket(set0: FactorySet, home: nat, want: nat, trip: Trip, enforce: bool, ghost due: nat)
          returns (sent: nat, ghost p: Packet)
      requires set0.Valid() && Sound(cities, home, due) && 0 < want <= due && trip.aim.city in cities
      modifies this, set0
      ensures set0.Valid() && 0 < sent <= want && Sound(cities, home, due - sent)
      ensures cities.Keys == old(cities.Keys)
      ensures p.people == sent && TakesTrip(p, trip, mail, home, p.factory)
      ensures p.factory == Wanted(old(set0.Now()), old(cities[home].month[0].generated))
      ensures sent < want ==> enforce && p.factory
      ensures Charges(old(set0.Now()), set0.Now(), trip.weight, sent, enforce, p.factory)
      ensures Balanced(old(cities), cities, home, 0, [p])
    {
      var toFactory, back, dest;
      sent, toFactory, back, dest := Choose(set0, home, want, trip, enforce);
      var returning := Returning(back, sent);
      p := Packet(sent, trip.route, dest, returning, trip.crowded, toFactory);
      Record(home, sent, dest, returning, back != NoReturn, trip, due, p);
    }

    /** How many want to go back. */
    function Returning(back: Return, people: nat): nat {
      if back == NoReturn then 0
      else if back != CityReturn && mail then people * MAIL_RETURN_MULTIPLIER_PRODUCERS
      else people
    }

    /** What the records say once a packet set out and has returned. */
    method Record(home: nat, sent: nat, dest: nat, returning: nat, goesBack: bool, trip: Trip, ghost due: nat,
                  ghost p: Packet)
      requires Sound(cities, home, due) && sent <= due && dest in cities && (!goesBack ==> returning == 0)
      requires p.people == sent && p.dest == dest && p.returning == returning
      requires p.route == trip.route && p.crowded == trip.crowded
      modifies this
      ensures Sound(cities, home, due - sent) && cities.Keys == old(cities.Keys)
      ensures Balanced(old(cities), cities, home, 0, [p])
    {
      ghost var t := cities;
      DepartedCovered(cities[home], due, sent, trip.route);
      cities := cities[home := Departed(cities[home], sent, trip.route)];
      ghost var u := cities;
      ReturnedCovered(cities[dest], if dest == home then due - sent else 0, returning, trip.route, trip.crowded);
      if goesBack {
        cities := cities[dest := Returned(cities[dest], returning, trip.route, trip.crowded)];
      } else {
        NobodyBack(u, p);
      }
      PacketBalanced(t, home, p);
    }

    /** The people of a building set out in packets, until all of them have been dealt with. What
        the cities gain is exactly what the packets say. Without a stop to start from, there is
        only the wish to travel, there and back. */
    method StepPassagiere(set0: FactorySet, home: nat, numPax: nat, hasStart: bool, trips: nat -> Trip, enforce: bool)
        returns (ghost packets: seq<Packet>, ghost booked: nat)
      requires set0.Valid() && Sound(cities, home, 0) && Reachable(trips, cities.Keys)
      modifies this, set0
      ensures set0.Valid() && Sound(cities, home, 0) && cities.Keys == old(cities.Keys)
      ensures Balanced(old(cities), cities, home, numPax, packets)
      ensures hasStart ==> People(packets) == numPax && Packed(packets, 0, enforce)
      ensures hasStart ==> TakeTrips(packets, trips, mail, home)
      ensures Booked(old(set0.Now()), set0.Now(), booked, enforce)
      ensures if hasStart then booked == ForFactories(packets) else booked <= numPax && booked <= PACKET_SIZE
      ensures home in old(cities) && |old(cities)[home].month| > 0
      ensures hasStart ==>
                Charging(old(set0.Now()), set0.Now(), old(cities)[home].month[0].generated, numPax, packets, home,
                         enforce)
      ensures !hasStart ==> |packets| == 1 && packets[0].people == 0 && packets[0].route == NoRoute
      ensures !hasStart ==>
                TakesTrip(Packet(numPax, trips(0).route, packets[0].dest, packets[0].returning, trips(0).crowded,
                                 packets[0].factory), trips(0), mail, home, packets[0].factory)
    {
      ghost var t := cities;
      GeneratedCovered(cities[home], 0, numPax);
      WishBalanced(t, home, numPax);
      cities := cities[home := Generated(cities[home], numPax)];
      ghost var u, s, g := cities, set0.Now(), cities[home].month[0].generated;
      if hasStart {
        packets := SendAll(set0, home, numPax, trips, enforce);
        booked := ForFactories(packets);
        AfterWish(t, u, cities, home, numPax, packets);
        ChargingWish(s, set0.Now(), g, t[home].month[0].generated, numPax, packets, home, enforce);
      } else {
        assert trips(0).aim.city in cities;
        ghost var p, n := FakeRide(set0, home, numPax, trips(0), enforce);
        packets, booked := [p], if p.factory then n else 0;
        BalancedTwice(t, u, cities, home, numPax, [], p);
        assert [] + [p] == [p];
      }
    }

    method SendAll(set0: FactorySet, home: nat, numPax: nat, trips: nat -> Trip, enforce: bool)
          returns (ghost packets: seq<Packet>)
      requires set0.Valid() && Sound(cities, home, numPax) && Reachable(trips, cities.Keys)
      modifies this, set0
      ensures set0.Valid() && Sound(cities, home, 0) && cities.Keys == old(cities.Keys)
      ensures People(packets) == numPax && Packed(packets, 0, enforce)
      ensures Balanced(old(cities), cities, home, 0, packets)
      ensures TakeTrips(packets, trips, mail, home)
      ensures home in old(cities) && |old(cities)[home].month| > 0
      ensures Charging(old(set0.Now()), set0.Now(), old(cities)[home].month[0].generated, 0, packets, home, enforce)
    {
      packets := [];
      ghost var t, s := cities, set0.Now();
      NothingBalanced(cities, home);
      var routed, n := 0, 0;
      while routed < numPax
        invariant set0.Valid() && routed <= numPax && n == |packets|
        invariant Underway(t, cities, s, set0.Now(), home, numPax, routed, packets, trips, mail, enforce)
        decreases numPax - routed
      {
        ghost var p;
        routed, p := SendOne(set0, home, numPax, routed, trips, n, enforce, t, s, packets);
        packets := packets + [p];
        n := n + 1;
      }
    }

    /** One packet of many. */
    method SendOne(set0: FactorySet, home: nat, numPax: nat, routed: nat, trips: nat -> Trip, n: nat, enforce: bool,
                   ghost t: map<nat, City>, ghost s: Ledger, ghost packets: seq<Packet>)
          returns (now: nat, ghost p: Packet)
      requires set0.Valid() && routed < numPax && n == |packets| && Reachable(trips, t.Keys)
      requires Underway(t, cities, s, set0.Now(), home, numPax, routed, packets, trips, mail, enforce)
      modifies this, set0
      ensures set0.Valid() && routed < now <= numPax
      ensures Underway(t, cities, s, set0.Now(), home, numPax, now, packets + [p], trips, mail, enforce)
    {
      assert trips(n).aim.city in cities;
      ghost var u, r := cities, set0.Now();
      var sent;
      sent, p := SendNext(set0, home, numPax - routed, trips(n), enforce);
      UnderwayNext(t, u, cities, s, r, set0.Now(), home, numPax, routed, packets, p, trips, mail, enforce);
      now := routed + sent;
    }

    /** The next packet, as large as one may be. */
    method SendNext(set0: FactorySet, home: nat, left: nat, trip: Trip, enforce: bool)
          returns (sent: nat, ghost p: Packet)
      requires set0.Valid() && Sound(cities, home, left) && left > 0 && trip.aim.city in cities
      modifies this, set0
      ensures set0.Valid() && sent <= left && Sound(cities, home, left - sent)
      ensures p.people == sent && Fits(p, left - sent, enforce) && TakesTrip(p, trip, mail, home, p.factory)
      ensures Balanced(old(cities), cities, home, 0, [p])
      ensures p.factory == Wanted(old(set0.Now()), old(cities[home].month[0].generated))
      ensures Charges(old(set0.Now()), set0.Now(), trip.weight, sent, enforce, p.factory)
    {
      var want := if left < PACKET_SIZE then left else PACKET_SIZE;
      sent, p := SendPacket(set0, home, want, trip, enforce, left);
    }

    /** Without a stop to start from, only the wish to travel is recorded. */
    method FakeRide(set0: FactorySet, home: nat, numPax: nat, trip: Trip, enforce: bool)
          returns (ghost p: Packet, ghost booked: nat)
      requires set0.Valid() && Sound(cities, home, numPax) && trip.aim.city in cities
      modifies this, set0
      ensures set0.Valid() && Sound(cities, home, 0) && cities.Keys == old(cities.Keys)
      ensures p.people == 0 && p.route == NoRoute && Balanced(old(cities), cities, home, 0, [p])
      ensures p.factory == Wanted(old(set0.Now()), old(cities[home].month[0].generated))
      ensures TakesTrip(Packet(numPax, trip.route, p.dest, p.returning, trip.crowded, p.factory), trip, mail, home,
                        p.factory)
      ensures booked <= numPax && booked <= PACKET_SIZE
      ensures Charges(old(set0.Now()), set0.Now(), trip.weight, booked, enforce, p.factory)
      ensures booked < numPax && booked < PACKET_SIZE && p.factory ==> enforce
    {
      var want := if numPax < PACKET_SIZE then numPax else PACKET_SIZE;
      var toFactory, back, dest;
      booked, toFactory, back, dest := Choose(set0, home, want, trip, enforce);
      var returning := Returning(back, numPax);
      p := Packet(0, NoRoute, dest, returning, trip.crowded, toFactory);
      RecordWish(home, numPax, dest, returning, back != NoReturn, p);
    }

    /** What the records say when nobody can set out. */
    method RecordWish(home: nat, numPax: nat, dest: nat, returning: nat, goesBack: bool, ghost p: Packet)
      requires Sound(cities, home, numPax) && dest in cities && (!goesBack ==> returning == 0)
      requires p.people == 0 && p.dest == dest && p.returning == returning && p.route == NoRoute
      modifies this
      ensures Sound(cities, home, 0) && cities.Keys == old(cities.Keys) && Balanced(old(cities), cities, home, 0, [p])
    {
      ghost var t := cities;
      WishSound(t, home, numPax, dest, returning);
      if goesBack {
        cities := cities[dest := Generated(cities[dest], returning)];
      } else {
        NobodyBack(t, p);
      }
      assert t[home := t[home]] == t;
      PacketBalanced(t, home, p);
    }

    /** A new month begins, and maybe a new year. */
    method RollHistory(c: nat, newYear: bool)
      requires c in cities && CityCovered(cities[c], 0)
      modifies this
      ensures cities == old(cities)[c := City(Rolled(old(cities)[c].month),
              if newYear then Rolled(old(cities)[c].year) else old(cities)[c].year)]
      ensures CityCovered(cities[c], 0)
    {
      var month := Shift(cities[c].month);
      var year := cities[c].year;
      if newYear {
        year := Shift(year);
      }
      cities := cities[c := City(month, year)];
    }
  }

  /** Every record moves on by one; the first starts anew. */
  function Rolled(s: seq<Tally>): seq<Tally>
    requires |s| > 0
  {
    [Tally(0, 0, 0)] + s[..|s| - 1]
  }

  method Shift(s: seq<Tally>) returns (r: seq<Tally>)
    requires |s| > 0
    ensures r == Rolled(s)
  {
    r := s;
    var i := |s| - 1;
    while i > 0
      invariant 0 <= i < |r| == |s|
      invariant forall j :: 0 <= j <= i ==> r[j] == s[j]
      invariant forall j :: i < j < |s| ==> r[j] == Rolled(s)[j]
    {
      r := r[i := r[i - 1]];
      i := i - 1;
    }
    r := r[0 := Tally(0, 0, 0)];
  }
}
