/** The vehicles of a convoy: their order and the flags at the two ends of a chain. */
module Vehicles {

  datatype Vehicle = Vehicle(id: nat, leading: bool, last: bool)

  function WithLeading(f: seq<Vehicle>, b: bool): seq<Vehicle> {
    if f == [] then f else f[0 := f[0].(leading := b)]
  }

  function WithLast(f: seq<Vehicle>, b: bool): seq<Vehicle> {
    if f == [] then f else f[|f| - 1 := f[|f| - 1].(last := b)]
  }

  function Ids(f: seq<Vehicle>): seq<nat> {
    seq(|f|, j requires 0 <= j < |f| => f[j].id)
  }

  function Reversed<T>(s: seq<T>): seq<T> {
    seq(|s|, j requires 0 <= j < |s| => s[|s| - 1 - j])
  }

  /** Only the front vehicle may be leading and only the back vehicle last. */
  ghost predicate Flags(f: seq<Vehicle>, lead: bool, end: bool) {
    && |f| > 0
    && forall j :: 0 <= j < |f| ==>
         f[j].leading == (lead && j == 0) && f[j].last == (end && j == |f| - 1)
  }

  /** What turning a convoy round does to its vehicles. */
  function Turned(f: seq<Vehicle>, lead: bool, end: bool): seq<Vehicle> {
    var f1 := Reversed(WithLast(WithLeading(f, false), false));
    var f2 := if lead then WithLeading(f1, true) else f1;
    if end then WithLast(f2, true) else f2
  }

  lemma LeadingFlags(f: seq<Vehicle>, lead: bool, end: bool, b: bool)
    requires Flags(f, lead, end)
    ensures Flags(WithLeading(f, b), b, end) && Ids(WithLeading(f, b)) == Ids(f)
  {
  }

  lemma LastFlags(f: seq<Vehicle>, lead: bool, end: bool, b: bool)
    requires Flags(f, lead, end)
    ensures Flags(WithLast(f, b), lead, b) && Ids(WithLast(f, b)) == Ids(f)
  {
  }

  lemma ReversedFlags(f: seq<Vehicle>)
    requires Flags(f, false, false)
    ensures Flags(Reversed(f), false, false) && Ids(Reversed(f)) == Reversed(Ids(f))
  {
  }

  lemma TurnedFlags(f: seq<Vehicle>, lead: bool, end: bool)
    requires Flags(f, lead, end)
    ensures Flags(Turned(f, lead, end), lead, end) && Ids(Turned(f, lead, end)) == Reversed(Ids(f))
  {
    LeadingFlags(f, lead, end, false);
    var g := WithLeading(f, false);
    LastFlags(g, false, end, false);
    g := WithLast(g, false);
    ReversedFlags(g);
    g := Reversed(g);
    LeadingFlags(g, false, false, true);
    g := if lead then WithLeading(g, true) else g;
    LastFlags(g, lead, false, true);
  }

  lemma ReversedTwice<T>(s: seq<T>)
    ensures Reversed(Reversed(s)) == s
  {
  }
}
