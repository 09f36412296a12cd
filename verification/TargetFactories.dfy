/** The factories that the people of a city travel to, and how much of that is still to come. */
module TargetFactories {

  import opened Rates
  import opened SaturatedMath

  const SUPPLY_FACTOR := 9
  const RATIO_UNIT := 0x200_0000             // 1 << RATIO_BITS
  const SUPPLY_UNIT := 0x80                  // 1 << (DEMAND_BITS + SUPPLY_BITS)
  const PROMILLE := 1024

  /** The part of its supply that a factory has not seen yet remains. */
  datatype Entry = Entry(factory: nat, demand: nat, supply: int, remaining: int)

  function SumDemand(s: seq<Entry>): int {
    if s == [] then 0 else SumDemand(s[..|s| - 1]) + s[|s| - 1].demand
  }

  function SumRemaining(s: seq<Entry>): int {
    if s == [] then 0 else SumRemaining(s[..|s| - 1]) + s[|s| - 1].remaining
  }

  ghost predicate Sane(s: seq<Entry>) {
    forall i :: 0 <= i < |s| ==> 0 <= s[i].remaining <= s[i].supply
  }

  ghost predicate OncePerFactory(s: seq<Entry>) {
    forall i, j :: 0 <= i < j < |s| ==> s[i].factory != s[j].factory
  }

  lemma {:induction false} SumsChanged(s: seq<Entry>, i: nat, v: Entry)
    requires i < |s|
    ensures SumDemand(s[i := v]) == SumDemand(s) - s[i].demand + v.demand
    ensures SumRemaining(s[i := v]) == SumRemaining(s) - s[i].remaining + v.remaining
  {
    var n := |s| - 1;
    if i == n {
      assert s[i := v][..n] == s[..n];
    } else {
      SumsChanged(s[..n], i, v);
      assert s[i := v][..n] == s[..n][i := v];
    }
  }

  lemma {:induction false} SumsWithout(s: seq<Entry>, i: nat)
    requires i < |s|
    ensures SumDemand(s[..i] + s[i + 1..]) == SumDemand(s) - s[i].demand
    ensures SumRemaining(s[..i] + s[i + 1..]) == SumRemaining(s) - s[i].remaining
  {
    var n := |s| - 1;
    var r := s[..i] + s[i + 1..];
    if i == n {
      assert r == s[..n];
    } else {
      SumsWithout(s[..n], i);
      assert r[..|r| - 1] == s[..n][..i] + s[..n][i + 1..] && r[|r| - 1] == s[n];
    }
  }

  lemma {:induction false} SumNonNegative(s: seq<Entry>, i: nat)
    requires Sane(s) && i <= |s|
    ensures 0 <= SumRemaining(s[..i]) <= SumRemaining(s)
    decreases |s|
  {
    assert s[..|s|] == s;
    if i < |s| {
      SumNonNegative(s[..|s| - 1], i);
      assert s[..|s| - 1][..i] == s[..i];
    } else if i > 0 {
      SumNonNegative(s[..i - 1], i - 1);
      assert s[..i - 1][..i - 1] == s[..i - 1];
    }
  }

  /** The weight falls to the i-th entry. */
  ghost predicate FallsTo(s: seq<Entry>, weight: int, i: int) {
    0 <= i < |s| && SumRemaining(s[..i]) <= weight < SumRemaining(s[..i]) + s[i].remaining
  }

  lemma PartsInOrder(s: seq<Entry>, i: nat, j: nat)
    requires Sane(s) && i < j <= |s|
    ensures SumRemaining(s[..i]) + s[i].remaining <= SumRemaining(s[..j])
  {
    SumNonNegative(s[..j], i + 1);
    assert s[..j][..i + 1] == s[..i + 1] && s[..i + 1][..i] == s[..i];
  }

  lemma FallsToOne(s: seq<Entry>, weight: int, i: int, j: int)
    requires Sane(s) && FallsTo(s, weight, i) && FallsTo(s, weight, j)
    ensures i == j
  {
    if i < j {
      PartsInOrder(s, i, j);
    } else if j < i {
      PartsInOrder(s, j, i);
    }
  }

  /** Each entry is picked for exactly as many weights as it has remaining. */
  lemma {:induction false} PickedInProportion(s: seq<Entry>, i: nat)
    requires Sane(s) && i < |s|
    ensures |set w: int | 0 <= w < SumRemaining(s) && FallsTo(s, w, i)| == s[i].remaining
  {
    var lo := SumRemaining(s[..i]);
    SumNonNegative(s, i);
    SumNonNegative(s, i + 1);
    assert s[..i + 1][..i] == s[..i];
    Interval(lo, s[i].remaining);
    assert (set w: int | 0 <= w < SumRemaining(s) && FallsTo(s, w, i)) == Weights(lo, s[i].remaining);
  }

  predicate In(w: int, lo: int, n: nat) { lo <= w < lo + n }

  ghost function Weights(lo: int, n: nat): set<int> {
    set w: int | lo <= w < lo + n && In(w, lo, n)
  }

  lemma {:induction false} Interval(lo: int, n: nat)
    ensures |Weights(lo, n)| == n
  {
    if n > 0 {
      Interval(lo, n - 1);
      assert forall w: int :: In(w, lo, n) ==> In(w, lo, n - 1) || w == lo + (n - 1);
      assert forall w: int :: In(w, lo, n - 1) ==> In(w, lo, n);
      assert In(lo + (n - 1), lo, n);
      assert Weights(lo, n) == Weights(lo, n - 1) + {lo + (n - 1)};
    } else {
      assert Weights(lo, 0) == {};
    }
  }

  /** What can be supplied for a demand, rounded up. */
  function Supply(demand: nat, promille: nat): nat {
    (demand * SUPPLY_FACTOR * promille + (SUPPLY_UNIT * PROMILLE - 1)) / (SUPPLY_UNIT * PROMILLE)
  }

  /** The plain form of it that the source uses when supply is not short. */
  lemma FullSupply(demand: nat)
    ensures Supply(demand, PROMILLE) == (demand * SUPPLY_FACTOR + (SUPPLY_UNIT - 1)) / SUPPLY_UNIT
  {
  }

  /** An entry with another supply: what was realised of the old one is deducted. */
  function Adjusted(e: Entry, supply: nat): Entry {
    var remaining := supply - (e.supply - e.remaining);
    e.(supply := supply, remaining := if remaining < 0 then 0 else remaining)
  }

  /** With its new supply, a factory has seen as much of it as of the old one, or all of it if it
      has been cut down to less. */
  lemma RealisedKept(e: Entry, supply: int)
    requires 0 <= e.remaining <= e.supply && 0 <= supply
    ensures var v := Adjusted(e, supply);
      && v.factory == e.factory && v.demand == e.demand && v.supply == supply && 0 <= v.remaining <= v.supply
      && v.supply - v.remaining == Min(e.supply - e.remaining, supply)
  {
  }

  function AllAdjusted(s: seq<Entry>, promille: nat): seq<Entry> {
    seq(|s|, i requires 0 <= i < |s| => Adjusted(s[i], Supply(s[i].demand, promille)))
  }

  /** Every factory is supplied with the least that makes up its part of the demand and an eighth
      more; what it has seen stays seen. */
  ghost predicate Resupplied(s: seq<Entry>, r: seq<Entry>, promille: nat) {
    && |r| == |s|
    && forall i :: 0 <= i < |s| ==>
         && r[i].factory == s[i].factory && r[i].demand == s[i].demand
         && r[i].supply - r[i].remaining == Min(s[i].supply - s[i].remaining, r[i].supply)
         && (r[i].supply - 1) * (SUPPLY_UNIT * PROMILLE) < s[i].demand * SUPPLY_FACTOR * promille
         && s[i].demand * SUPPLY_FACTOR * promille <= r[i].supply * (SUPPLY_UNIT * PROMILLE)
  }

  lemma {:induction false} AllResupplied(s: seq<Entry>, promille: nat)
    requires Sane(s)
    ensures Resupplied(s, AllAdjusted(s, promille), promille)
  {
    forall i | 0 <= i < |s|
      ensures var v := Adjusted(s[i], Supply(s[i].demand, promille));
        && v.supply - v.remaining == Min(s[i].supply - s[i].remaining, v.supply)
        && (v.supply - 1) * (SUPPLY_UNIT * PROMILLE) < s[i].demand * SUPPLY_FACTOR * promille
        && s[i].demand * SUPPLY_FACTOR * promille <= v.supply * (SUPPLY_UNIT * PROMILLE)
    {
      RealisedKept(s[i], Supply(s[i].demand, promille));
      LeastUnits(s[i].demand * SUPPLY_FACTOR * promille);
    }
  }

  lemma LeastUnits(n: nat)
    ensures var d := SUPPLY_UNIT * PROMILLE; var q := (n + (d - 1)) / d;
      (q - 1) * d < n <= q * d
  {
  }

  /** The factory demands so much: its entry is changed in place, or a new one comes last. */
  ghost predicate Demands(s: seq<Entry>, r: seq<Entry>, factory: nat, demand: nat) {
    if exists i :: 0 <= i < |s| && s[i].factory == factory then
      && |r| == |s|
      && forall i :: 0 <= i < |s| ==> r[i] == if s[i].factory == factory then s[i].(demand := demand) else s[i]
    else r == s + [Entry(factory, demand, 0, 0)]
  }

  /** The factory is no longer there, the others are, in order. */
  ghost predicate Without(s: seq<Entry>, r: seq<Entry>, factory: nat) {
    if exists i :: 0 <= i < |s| && s[i].factory == factory then
      exists i :: 0 <= i < |s| && s[i].factory == factory && r == s[..i] + s[i + 1..]
    else r == s
  }

  function Charged(e: Entry, amount: int): Entry { e.(remaining := e.remaining - amount) }

  /** All that a set of factories records. */
  datatype Ledger = Ledger(entries: seq<Entry>, totalDemand: int, totalRemaining: int, totalGenerated: nat,
                           generationRatio: nat, ratioStale: bool)

  /** So many people were booked, on entries that had that many remaining if demand is enforced. */
  ghost predicate Booked(s: Ledger, r: Ledger, people: nat, enforce: bool) {
    && r.totalGenerated == s.totalGenerated + people
    && r.totalRemaining == s.totalRemaining - (if enforce then people else 0)
    && r.totalDemand == s.totalDemand && r.generationRatio == s.generationRatio && r.ratioStale == s.ratioStale
    && (!enforce ==> r.entries == s.entries) && |r.entries| == |s.entries|
    && forall i :: 0 <= i < |s.entries| ==>
         r.entries[i] == s.entries[i].(remaining := r.entries[i].remaining)
         && r.entries[i].remaining <= s.entries[i].remaining
  }

  lemma BookedTwice(s: Ledger, r: Ledger, q: Ledger, a: nat, b: nat, enforce: bool)
    requires Booked(s, r, a, enforce) && Booked(r, q, b, enforce)
    ensures Booked(s, q, a + b, enforce)
  {
  }

  class FactorySet {
    var entries: seq<Entry>
    var totalDemand: int
    var totalRemaining: int
    var totalGenerated: nat
    var generationRatio: nat
    var ratioStale: bool

    constructor ()
      ensures Valid() && entries == []
    {
      entries, totalDemand, totalRemaining, totalGenerated, generationRatio, ratioStale := [], 0, 0, 0, 0, true;
    }

    ghost function Now(): Ledger
      reads this
    {
      Ledger(entries, totalDemand, totalRemaining, totalGenerated, generationRatio, ratioStale)
    }

    /** The running totals are those of the entries. */
    ghost predicate Valid()
      reads this
    {
      && Sane(entries) && OncePerFactory(entries)
      && totalDemand == SumDemand(entries) && totalRemaining == SumRemaining(entries)
    }

    method IndexOf(factory: nat) returns (i: nat)
      ensures i <= |entries| && (i < |entries| ==> entries[i].factory == factory)
      ensures i == |entries| ==> forall j :: 0 <= j < |entries| ==> entries[j].factory != factory
    {
      i := 0;
      while i < |entries| && entries[i].factory != factory
        invariant i <= |entries| && forall j :: 0 <= j < i ==> entries[j].factory != factory
      {
        i := i + 1;
      }
    }

    method UpdateFactory(factory: nat, demand: nat)
      requires Valid()
      modifies this
      ensures Valid() && ratioStale && Demands(old(entries), entries, factory, demand)
      ensures totalRemaining == old(totalRemaining) && totalGenerated == old(totalGenerated)
      ensures generationRatio == old(generationRatio)
    {
      var i := IndexOf(factory);
      if i < |entries| {
        SumsChanged(entries, i, entries[i].(demand := demand));
        totalDemand := totalDemand + (demand - entries[i].demand);
        entries := entries[i := entries[i].(demand := demand)];
      } else {
        assert (entries + [Entry(factory, demand, 0, 0)])[..|entries|] == entries;
        entries := entries + [Entry(factory, demand, 0, 0)];
        totalDemand := totalDemand + demand;
      }
      ratioStale := true;
    }

    method RemoveFactory(factory: nat)
      requires Valid()
      modifies this
      ensures Valid() && Without(old(entries), entries, factory)
      ensures forall e :: e in entries <==> e in old(entries) && e.factory != factory
      ensures ratioStale <==> old(ratioStale) || |entries| < |old(entries)|
      ensures totalGenerated == old(totalGenerated) && generationRatio == old(generationRatio)
    {
      var i := IndexOf(factory);
      if i < |entries| {
        SumsWithout(entries, i);
        Removed(entries, i);
        totalDemand := totalDemand - entries[i].demand;
        totalRemaining := totalRemaining - entries[i].remaining;
        entries := entries[..i] + entries[i + 1..];
        ratioStale := true;
      }
    }

    method NewMonth()
      requires Valid()
      modifies this
      ensures Valid() && |entries| == |old(entries)| && totalRemaining == 0 && totalGenerated == 0 && ratioStale
      ensures totalDemand == old(totalDemand) && generationRatio == old(generationRatio)
      ensures forall i :: 0 <= i < |entries| ==> entries[i] == old(entries)[i].(supply := 0, remaining := 0)
    {
      ghost var s := entries;
      for i := 0 to |entries|
        invariant |entries| == |s| && totalDemand == old(totalDemand) && generationRatio == old(generationRatio)
        invariant forall j :: 0 <= j < |s| ==> entries[j] == if j < i then s[j].(supply := 0, remaining := 0) else s[j]
      {
        entries := entries[i := entries[i].(supply := 0, remaining := 0)];
      }
      SumsCleared(s, entries);
      totalRemaining, totalGenerated, ratioStale := 0, 0, true;
    }

    /** Picks an entry that has something remaining, for a weight below the total. */
    method GetRandomEntry(rand: nat) returns (found: bool, i: nat, ghost weight: nat)
      requires Valid()
      ensures found <==> totalRemaining > 0
      ensures found ==>
                weight < totalRemaining && FallsTo(entries, weight, i) && i < |entries| && entries[i].remaining > 0
      ensures found ==> weight == rand % totalRemaining
    {
      found, i, weight := false, 0, 0;
      if totalRemaining > 0 {
        weight := rand % totalRemaining;
        var w := rand % totalRemaining;
        assert entries[..0] == [] && entries[..|entries|] == entries;
        while i < |entries|
          invariant 0 <= i <= |entries| && w >= 0 && weight == SumRemaining(entries[..i]) + w && !found
        {
          assert entries[..i + 1][..i] == entries[..i];
          if entries[i].remaining > 0 {
            if w < entries[i].remaining {
              return true, i, weight;
            }
            w := w - entries[i].remaining;
          }
          i := i + 1;
        }
      }
    }

    /** Books a packet on an entry, no more than remains if demand is enforced. */
    method Book(i: nat, amount: nat, enforce: bool) returns (booked: nat)
      requires Valid() && i < |entries| && entries[i].remaining > 0
      modifies this
      ensures Valid() && booked <= amount && (amount > 0 ==> booked > 0)
      ensures booked < amount ==> enforce && booked == old(entries)[i].remaining
      ensures totalGenerated == old(totalGenerated) + booked
      ensures totalRemaining == old(totalRemaining) - (if enforce then booked else 0)
      ensures totalDemand == old(totalDemand) && generationRatio == old(generationRatio)
      ensures ratioStale == old(ratioStale)
      ensures enforce ==> booked <= old(entries)[i].remaining
      ensures entries == if enforce then old(entries)[i := Charged(old(entries)[i], booked)] else old(entries)
      ensures Booked(old(Now()), Now(), booked, enforce)
    {
      booked := amount;
      if enforce {
        if booked > entries[i].remaining {
          booked := entries[i].remaining;
        }
        SumsChanged(entries, i, Charged(entries[i], booked));
        entries := entries[i := Charged(entries[i], booked)];
        totalRemaining := totalRemaining - booked;
      }
      totalGenerated := totalGenerated + booked;
    }

    /** Works out anew what every factory can be supplied with. `history` holds what was
        generated in the months before. */
    method RecalcGenerationRatio(defaultPercent: nat, history: seq<nat>, enforce: bool) returns (ghost promille: nat)
      requires Valid() && |history| >= 3
      modifies this
      ensures Valid() && promille <= PROMILLE && entries == AllAdjusted(old(entries), promille)
      ensures Resupplied(old(entries), entries, promille)
      ensures totalDemand == old(totalDemand) && totalGenerated == old(totalGenerated) && !ratioStale
      ensures totalDemand >= 0
      ensures RatioFits(generationRatio, totalDemand, |entries|, defaultPercent, Mean(history), enforce)
      ensures ShareFits(promille, generationRatio, totalDemand, defaultPercent, Mean(history), enforce)
    {
      ratioStale := false;
      DemandNonNegative(entries);
      var average := Average(history);
      var p;
      generationRatio, p := Ratio(totalDemand, |entries|, defaultPercent, average, enforce);
      promille := p;
      AllResupplied(entries, p);
      AdjustAll(p, p < PROMILLE);
    }

    method AdjustAll(promille: nat, short: bool)
      requires Valid() && (short || promille == PROMILLE)
      modifies this`entries, this`totalRemaining
      ensures Valid() && entries == AllAdjusted(old(entries), promille)
    {
      ghost var s := entries;
      var i := 0;
      while i < |entries|
        invariant 0 <= i <= |entries| == |s| && Valid()
        invariant forall j :: 0 <= j < |s| ==>
                  entries[j] == if j < i then Adjusted(s[j], Supply(s[j].demand, promille)) else s[j]
      {
        var e := entries[i];
        FullSupply(e.demand);
        var supply :=
          if short then (e.demand * SUPPLY_FACTOR * promille + (SUPPLY_UNIT * PROMILLE - 1)) / (SUPPLY_UNIT * PROMILLE)
          else (e.demand * SUPPLY_FACTOR + (SUPPLY_UNIT - 1)) / SUPPLY_UNIT;
        AdjustOne(i, supply);
        i := i + 1;
      }
    }

    method AdjustOne(i: nat, supply: nat)
      requires Valid() && i < |entries|
      modifies this`entries, this`totalRemaining
      ensures Valid() && entries == old(entries)[i := Adjusted(old(entries)[i], supply)]
    {
      var e := entries[i];
      var delta := supply - e.supply;
      if delta == 0 {
        return;
      }
      SumsChanged(entries, i, Adjusted(e, supply));
      if delta > 0 || e.remaining + delta >= 0 {
        totalRemaining := totalRemaining + delta;
        e := e.(remaining := e.remaining + delta);
      } else {
        totalRemaining := totalRemaining - e.remaining;
        e := e.(remaining := 0);
      }
      entries := entries[i := e.(supply := supply)];
    }
  }

  /** x is the largest number up to `cap` of which d-fold is at most n. */
  ghost predicate Largest(x: nat, cap: nat, d: nat, n: nat) {
    x <= cap && x * d <= n && (x < cap ==> (x + 1) * d > n)
  }

  /** The quotient, or the cap if that is smaller. */
  method Capped(n: nat, d: nat, cap: nat) returns (x: nat)
    requires d > 0
    ensures Largest(x, cap, d, n)
  {
    RoundedDown(n, d);
    x := n / d;
    Distribute(x, 1, d);
    if cap < x {
      Scale(cap, x, d);
      x := cap;
    }
  }

  /** Enforced demand asks for no more people than it takes to meet the target, with something
      extra per factory, if a sixteenth fewer turn up than usual. */
  ghost predicate RatioFits(ratio: nat, totalDemand: nat, count: nat, percent: nat, average: nat, enforce: bool) {
    if totalDemand == 0 then ratio == 0
    else if enforce && average > 0 then
      Largest(ratio, percent * RATIO_UNIT, average - average / 16 + 1,
              (TargetSupply(totalDemand) + count) * 100 * RATIO_UNIT)
    else ratio == percent * RATIO_UNIT
  }

  /** All of the target is supplied, unless demand is enforced with all the people there may be:
      then only as much of it as these people are enough for. */
  ghost predicate ShareFits(promille: nat, ratio: nat, totalDemand: nat, percent: nat, average: nat, enforce: bool) {
    if enforce && average > 0 && totalDemand > 0 && ratio / RATIO_UNIT == percent then
      Largest(promille, PROMILLE, TargetSupply(totalDemand), average * PROMILLE * percent / 100)
    else promille == PROMILLE
  }

  /** The share of all travel that goes to factories, and the part of their supply, out of
      1024, that can be expected if it is too little. */
  method Ratio(totalDemand: nat, count: nat, defaultPercent: nat, average: nat, enforce: bool)
        returns (ratio: nat, promille: nat)
    ensures RatioFits(ratio, totalDemand, count, defaultPercent, average, enforce)
    ensures ShareFits(promille, ratio, totalDemand, defaultPercent, average, enforce) && promille <= PROMILLE
  {
    promille := PROMILLE;
    ratio := defaultPercent * RATIO_UNIT;
    if totalDemand == 0 {
      ratio := 0;
    } else if enforce && average != 0 {
      ratio := Capped((TargetSupply(totalDemand) + count) * 100 * RATIO_UNIT, average - average / 16 + 1, ratio);
    }
    if enforce && ratio / RATIO_UNIT == defaultPercent && average > 0 && totalDemand > 0 {
      promille := Capped(average * PROMILLE * defaultPercent / 100, TargetSupply(totalDemand), PROMILLE);
    }
  }

  function TargetSupply(demand: nat): (s: nat)
    ensures demand > 0 ==> s > 0
  {
    (demand * SUPPLY_FACTOR + (SUPPLY_UNIT - 1)) / SUPPLY_UNIT
  }

  /** The average of the up to three last months without a gap. */
  function Mean(history: seq<nat>): nat
    requires |history| >= 3
  {
    if history[0] == 0 || history[1] == 0 then history[0]
    else if history[2] == 0 then (history[0] + history[1]) / 2
    else (history[0] + history[1] + history[2]) / 3
  }

  method Average(history: seq<nat>) returns (average: nat)
    requires |history| >= 3
    ensures average == Mean(history)
  {
    var months := 0;
    average := 0;
    while months < 3 && history[months] > 0
      invariant months <= 3 && forall i :: 0 <= i < months ==> history[i] > 0
      invariant average == (if months > 0 then history[0] else 0) + (if months > 1 then history[1]
              else 0) + if months > 2 then history[2] else 0
    {
      average := average + history[months];
      months := months + 1;
    }
    if months > 1 {
      average := average / months;
    }
  }

  lemma {:induction false} DemandNonNegative(s: seq<Entry>)
    ensures SumDemand(s) >= 0
  {
    if s != [] { DemandNonNegative(s[..|s| - 1]); }
  }

  lemma {:induction false} SumsCleared(s: seq<Entry>, r: seq<Entry>)
    requires |r| == |s| && forall i :: 0 <= i < |s| ==> r[i] == s[i].(supply := 0, remaining := 0)
    ensures SumDemand(r) == SumDemand(s) && SumRemaining(r) == 0
  {
    if s != [] {
      SumsCleared(s[..|s| - 1], r[..|s| - 1]);
    }
  }

  lemma Removed(s: seq<Entry>, i: nat)
    requires OncePerFactory(s) && i < |s|
    ensures forall e :: e in s[..i] + s[i + 1..] <==> e in s && e.factory != s[i].factory
  {
    var r := s[..i] + s[i + 1..];
    forall e | e in s && e != s[i]
      ensures e in r
    {
      var k :| 0 <= k < |s| && s[k] == e;
      assert r[if k < i then k else k - 1] == e;
    }
    assert forall k :: 0 <= k < |r| ==> r[k] == s[if k < i then k else k + 1];
  }
}
