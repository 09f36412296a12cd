/** Finding places for cities that are far enough from each other. Two grids make up for the
    comparison of all pairs: one so fine that a cell holds at most one city, and one so coarse
    that only neighbouring cells can hold a city that is too close. */
module RandomPlace {

  datatype Koord = Koord(x: nat, y: nat)

  function Abs(a: int): nat { if a < 0 then -a else a }

  function Distance(k: Koord, l: Koord): nat {
    Abs(k.x - l.x) + Abs(k.y - l.y)
  }

  function FineCell(k: Koord, mcd: nat): Koord
    requires mcd > 0
  {
    Koord(2 * k.x / mcd, 2 * k.y / mcd)
  }

  function CoarseCell(k: Koord, mcd: nat): Koord
    requires mcd > 0
  {
    Koord(k.x / mcd, k.y / mcd)
  }

  lemma QuotientBounds(a: nat, d: nat)
    requires d > 0
    ensures d * (a / d) <= a < d * (a / d) + d
  {
  }

  lemma SameQuotient(a: nat, b: nat, d: nat)
    requires d > 0 && a / d == b / d
    ensures a - b < d
  {
    QuotientBounds(a, d);
    QuotientBounds(b, d);
  }

  lemma NearQuotient(a: nat, b: nat, d: nat)
    requires d > 0 && a <= b < a + d
    ensures a / d <= b / d <= a / d + 1
  {
    QuotientBounds(a, d);
    QuotientBounds(b, d);
    var p, q := a / d, b / d;
    if q > p + 1 { MulUp(p + 2, q, d); }
    if q < p { MulUp(q + 1, p, d); }
  }

  lemma MulUp(a: nat, b: nat, d: nat)
    requires a <= b
    ensures d * a <= d * b
  {
    assert d * b == d * a + d * (b - a);
  }

  /** Two places of one fine cell are too close to each other. */
  lemma FineTooClose(k: Koord, l: Koord, mcd: nat)
    requires mcd > 0 && FineCell(k, mcd) == FineCell(l, mcd)
    ensures Distance(k, l) < mcd
  {
    SameQuotient(2 * k.x, 2 * l.x, mcd);
    SameQuotient(2 * l.x, 2 * k.x, mcd);
    SameQuotient(2 * k.y, 2 * l.y, mcd);
    SameQuotient(2 * l.y, 2 * k.y, mcd);
  }

  predicate Neighbours(a: Koord, b: Koord) {
    a.x - 1 <= b.x <= a.x + 1 && a.y - 1 <= b.y <= a.y + 1
  }

  /** Two places that are too close lie in neighbouring coarse cells. */
  lemma CoarseNeighbours(k: Koord, l: Koord, mcd: nat)
    requires mcd > 0 && Distance(k, l) < mcd
    ensures Neighbours(CoarseCell(k, mcd), CoarseCell(l, mcd))
  {
    if k.x <= l.x { NearQuotient(k.x, l.x, mcd); } else { NearQuotient(l.x, k.x, mcd); }
    if k.y <= l.y { NearQuotient(k.y, l.y, mcd); } else { NearQuotient(l.y, k.y, mcd); }
  }

  type Grid = map<Koord, seq<Koord>>

  function Empty(xmax: nat, ymax: nat): Grid {
    map x: nat, y: nat | x < xmax && y < ymax :: Koord(x, y) := []
  }

  ghost predicate Near(k: Koord, result: seq<Koord>, mcd: nat) {
    exists l :: l in result && Distance(k, l) < mcd
  }

  /** The coarse grid holds exactly the chosen places, each in its cell. */
  ghost predicate Holds(chosen: Grid, result: seq<Koord>, mcd: nat, xmax: nat, ymax: nat)
    requires mcd > 0
  {
    && (forall c :: c in chosen <==> c.x < xmax && c.y < ymax)
    && (forall l :: l in result ==> CoarseCell(l, mcd) in chosen && l in chosen[CoarseCell(l, mcd)])
    && (forall c, l :: c in chosen && l in chosen[c] ==> l in result)
  }

  /** Whether a place is too close to a chosen one, looking at nine cells only. */
  method TooClose(k: Koord, chosen: Grid, xmax: nat, ymax: nat, mcd: nat, ghost result: seq<Koord>) returns (b: bool)
    requires mcd > 0 && Holds(chosen, result, mcd, xmax, ymax)
    ensures b <==> Near(k, result, mcd)
  {
    var cell := CoarseCell(k, mcd);
    for i := cell.x - 1 to cell.x + 2
      invariant forall l :: l in result && CoarseCell(l, mcd).x < i && Neighbours(cell, CoarseCell(l, mcd)) ==>
                  Distance(k, l) >= mcd
    {
      for j := cell.y - 1 to cell.y + 2
        invariant forall l :: l in result && CoarseCell(l, mcd).x == i && cell.y - 1 <= CoarseCell(l, mcd).y < j ==>
                    Distance(k, l) >= mcd
      {
        if 0 <= i < xmax && 0 <= j < ymax {
          var there := chosen[Koord(i, j)];
          for n := 0 to |there|
            invariant forall m :: 0 <= m < n ==> Distance(k, there[m]) >= mcd
          {
            if Distance(k, there[n]) < mcd {
              return true;
            }
          }
        }
      }
    }
    forall l | l in result
      ensures Distance(k, l) >= mcd
    {
      if Distance(k, l) < mcd { CoarseNeighbours(k, l, mcd); }
    }
    return false;
  }

  /** All places, each in its fine cell. */
  method Distribute(list: seq<Koord>, xmax: nat, ymax: nat, mcd: nat) returns (places: Grid)
    requires mcd > 0 && forall k :: k in list ==> FineCell(k, mcd).x < xmax && FineCell(k, mcd).y < ymax
    ensures forall c :: c in places <==> c.x < xmax && c.y < ymax
    ensures forall k :: k in list ==> k in places[FineCell(k, mcd)]
    ensures Sorted(places, mcd) && forall c, k :: c in places && k in places[c] ==> k in list
  {
    places := Empty(xmax, ymax);
    for n := 0 to |list|
      invariant forall c :: c in places <==> c.x < xmax && c.y < ymax
      invariant forall m :: 0 <= m < n ==> list[m] in places[FineCell(list[m], mcd)]
      invariant Sorted(places, mcd) && forall c, k :: c in places && k in places[c] ==> k in list
    {
      var c := FineCell(list[n], mcd);
      places := places[c := places[c] + [list[n]]];
    }
  }

  ghost predicate Sorted(places: Grid, mcd: nat)
    requires mcd > 0
  {
    forall c, k :: c in places && k in places[c] ==> FineCell(k, mcd) == c
  }

  /** The cells that hold a place. */
  method Index(places: Grid, xmax: nat, ymax: nat) returns (index: seq<Koord>)
    requires forall c :: c in places <==> c.x < xmax && c.y < ymax
    ensures forall c :: c in index <==> c in places && places[c] != []
  {
    index := [];
    for i := 0 to xmax
      invariant forall c :: c in index <==> c in places && c.x < i && places[c] != []
    {
      for j := 0 to ymax
        invariant forall c :: c in index <==> c in places && (c.x < i || (c.x == i && c.y < j)) && places[c] != []
      {
        if places[Koord(i, j)] != [] {
          index := index + [Koord(i, j)];
        }
      }
    }
  }

  lemma QuotientLess(a: nat, b: nat, d: nat)
    requires d > 0 && a <= b
    ensures a / d < b / d + 1
  {
    QuotientBounds(a, d);
    QuotientBounds(b, d);
    if a / d > b / d { MulUp(b / d + 1, a / d, d); }
  }

  ghost predicate FarApart(result: seq<Koord>, mcd: nat) {
    forall i, j :: 0 <= i < j < |result| ==> Distance(result[i], result[j]) >= mcd
  }

  /** Every place of the list is near to a chosen one or may still be picked. */
  ghost predicate Covered(list: seq<Koord>, places: Grid, index: seq<Koord>, result: seq<Koord>, mcd: nat)
    requires mcd > 0
  {
    forall k :: k in list ==> Near(k, result, mcd) || CanBePicked(k, places, index, mcd)
  }

  ghost predicate CanBePicked(k: Koord, places: Grid, index: seq<Koord>, mcd: nat)
    requires mcd > 0
  {
    var c := FineCell(k, mcd);
    c in places && c in index && k in places[c]
  }

  /** All that is left to be picked is among `left`. */
  ghost predicate Within(places: Grid, left: multiset<Koord>) {
    forall c :: c in places ==> multiset(places[c]) <= left
  }

  function Drop<T>(s: seq<T>, i: nat): seq<T>
    requires i < |s|
  {
    s[..i] + s[i + 1..]
  }

  lemma Dropped<T>(s: seq<T>, i: nat)
    requires i < |s|
    ensures multiset(s) == multiset(Drop(s, i)) + multiset{s[i]}
    ensures forall x :: x in s ==> x in Drop(s, i) || x == s[i]
    ensures forall x :: x in Drop(s, i) ==> x in s
  {
    assert s == s[..i] + [s[i]] + s[i + 1..];
  }

  lemma NotElsewhere(places: Grid, c: Koord, d: Koord, k: Koord, mcd: nat)
    requires mcd > 0 && Sorted(places, mcd) && c in places && d in places && c != d && k in places[c]
    ensures multiset(places[d])[k] == 0
  {
    assert k in places[d] ==> FineCell(k, mcd) == d;
  }

  lemma Taken(places: Grid, left: multiset<Koord>, c: Koord, j: nat, mcd: nat)
    requires mcd > 0 && Sorted(places, mcd) && Within(places, left) && c in places && j < |places[c]|
    ensures places[c][j] in left && Within(places[c := Drop(places[c], j)], left - multiset{places[c][j]})
    ensures Sorted(places[c := Drop(places[c], j)], mcd)
    ensures |left - multiset{places[c][j]}| == |left| - 1
  {
    var p, k := places[c], places[c][j];
    Dropped(p, j);
    assert k in multiset(p);
    forall d | d in places && d != c
      ensures multiset(places[d]) <= left - multiset{k}
    {
      NotElsewhere(places, c, d, k, mcd);
    }
  }

  lemma FartherApart(result: seq<Koord>, k: Koord, mcd: nat)
    requires FarApart(result, mcd) && !Near(k, result, mcd)
    ensures FarApart(result + [k], mcd)
  {
    forall i | 0 <= i < |result|
      ensures Distance(result[i], k) >= mcd
    {
      assert result[i] in result;
    }
  }

  lemma StillNear(k: Koord, result: seq<Koord>, l: Koord, mcd: nat)
    ensures Near(k, result, mcd) || Distance(k, l) < mcd ==> Near(k, result + [l], mcd)
  {
    if Near(k, result, mcd) {
      var m :| m in result && Distance(k, m) < mcd;
      assert m in result + [l];
    } else {
      assert l in result + [l];
    }
  }

  /** Taking a place covers all others of its cell. */
  lemma CoveredByChoice(list: seq<Koord>, places: Grid, index: seq<Koord>, n: nat, result: seq<Koord>, k: Koord,
                        mcd: nat)
    requires mcd > 0 && Covered(list, places, index, result, mcd) && n < |index| && index[n] == FineCell(k, mcd)
    ensures Covered(list, places, Drop(index, n), result + [k], mcd)
  {
    Dropped(index, n);
    forall l | l in list
      ensures Near(l, result + [k], mcd) || CanBePicked(l, places, Drop(index, n), mcd)
    {
      StillNear(l, result, k, mcd);
      if FineCell(l, mcd) == FineCell(k, mcd) { FineTooClose(l, k, mcd); }
    }
  }

  /** Giving up a place that is too close loses nothing. */
  lemma CoveredWithout(list: seq<Koord>, places: Grid, index: seq<Koord>, n: nat, j: nat, result: seq<Koord>, mcd: nat)
    requires mcd > 0 && Covered(list, places, index, result, mcd) && n < |index| && index[n] in places
    requires j < |places[index[n]]| && Near(places[index[n]][j], result, mcd)
    ensures var c := index[n]; var p := Drop(places[c], j);
      Covered(list, places[c := p], if p == [] then Drop(index, n) else Drop(index, n) + [c], result, mcd)
  {
    Dropped(index, n);
    Dropped(places[index[n]], j);
  }

  /** What the search knows at any time. */
  ghost predicate Ready(list: seq<Koord>, places: Grid, index: seq<Koord>, result: seq<Koord>, mcd: nat)
    requires mcd > 0
  {
    && Sorted(places, mcd) && Covered(list, places, index, result, mcd) && (forall c :: c in index ==> c in places)
    && (forall c, k :: c in places && k in places[c] ==> k in list)
  }

  lemma Accept(list: seq<Koord>, places: Grid, index: seq<Koord>, n: nat, result: seq<Koord>, k: Koord, mcd: nat)
    requires mcd > 0 && Ready(list, places, index, result, mcd) && n < |index| && index[n] == FineCell(k, mcd)
    requires !Near(k, result, mcd) && FarApart(result, mcd)
    ensures Ready(list, places, Drop(index, n), result + [k], mcd) && FarApart(result + [k], mcd)
  {
    CoveredByChoice(list, places, index, n, result, k, mcd);
    FartherApart(result, k, mcd);
    Dropped(index, n);
  }

  lemma Reject(list: seq<Koord>, places: Grid, index: seq<Koord>, n: nat, j: nat, result: seq<Koord>, mcd: nat,
               left: multiset<Koord>)
    requires mcd > 0 && Ready(list, places, index, result, mcd) && n < |index| && Within(places, left)
    requires index[n] in places && j < |places[index[n]]| && Near(places[index[n]][j], result, mcd)
    ensures var c := index[n]; var p := Drop(places[c], j);
      && Ready(list, places[c := p], if p == [] then Drop(index, n) else Drop(index, n) + [c], result, mcd)
      && Within(places[c := p], left - multiset{places[c][j]}) && |left - multiset{places[c][j]}| == |left| - 1
  {
    CoveredWithout(list, places, index, n, j, result, mcd);
    Taken(places, left, index[n], j, mcd);
    Dropped(places[index[n]], j);
    Dropped(index, n);
  }

  lemma Chosen(chosen: Grid, result: seq<Koord>, k: Koord, mcd: nat, xmax: nat, ymax: nat)
    requires mcd > 0 && Holds(chosen, result, mcd, xmax, ymax) && CoarseCell(k, mcd).x < xmax
    requires CoarseCell(k, mcd).y < ymax
    ensures CoarseCell(k, mcd) in chosen
    ensures Holds(chosen[CoarseCell(k, mcd) := chosen[CoarseCell(k, mcd)] + [k]], result + [k], mcd, xmax, ymax)
  {
  }

  /** Picks places at random until one is far enough from all that were chosen; `found` tells
      whether there was one. */
  method NextPlace(list: seq<Koord>, places0: Grid, index0: seq<Koord>, result: seq<Koord>, chosen: Grid,
                   mcd: nat, xmax2: nat, ymax2: nat)
      returns (found: bool, k: Koord, places: Grid, index: seq<Koord>)
    requires mcd > 0 && Holds(chosen, result, mcd, xmax2, ymax2) && Ready(list, places0, index0, result, mcd)
    requires FarApart(result, mcd)
    ensures if found then k in list && Ready(list, places, index, result + [k], mcd) && FarApart(result + [k], mcd)
            else index == [] && Ready(list, places, index, result, mcd)
    ensures index0 == [] ==> !found
  {
    places, index, k := places0, index0, Koord(0, 0);
    ghost var left := Everything(places);
    while index != []
      invariant Within(places, left) && Ready(list, places, index, result, mcd)
      invariant index0 == [] ==> index == []
      decreases |left| + |index|
    {
      var n :| 0 <= n < |index|;
      var c := index[n];
      assert c in index;
      if places[c] == [] {
        Dropped(index, n);
        index := Drop(index, n);
        continue;
      }
      var j :| 0 <= j < |places[c]|;
      k := places[c][j];
      assert k in places[c];
      var close := TooClose(k, chosen, xmax2, ymax2, mcd, result);
      if !close {
        Accept(list, places, index, n, result, k, mcd);
        return true, k, places, Drop(index, n);
      }
      Reject(list, places, index, n, j, result, mcd, left);
      left := left - multiset{k};
      places := places[c := Drop(places[c], j)];
      index := Drop(index, n);
      if places[c] != [] {
        index := index + [c];
      }
    }
    return false, k, places, index;
  }

  /** All places of a grid. */
  ghost function Everything(places: Grid): (left: multiset<Koord>)
    ensures Within(places, left)
  {
    if places == map[] then multiset{} else
      var c :| c in places;
      var rest := Everything(places - {c});
      assert forall d :: d in places ==> d == c || (d in places - {c} && (places - {c})[d] == places[d]);
      multiset(places[c]) + rest
  }

  lemma CellsInside(list: seq<Koord>, mcd: nat, sizeX: nat, sizeY: nat)
    requires mcd > 0 && forall k :: k in list ==> k.x < sizeX && k.y < sizeY
    ensures forall k :: k in list ==>
              FineCell(k, mcd).x < 2 * sizeX / mcd + 1 && FineCell(k, mcd).y < 2 * sizeY / mcd + 1
    ensures forall k :: k in list ==> CoarseCell(k, mcd).x < sizeX / mcd + 1 && CoarseCell(k, mcd).y < sizeY / mcd + 1
  {
    forall k | k in list
      ensures FineCell(k, mcd).x < 2 * sizeX / mcd + 1 && FineCell(k, mcd).y < 2 * sizeY / mcd + 1
      ensures CoarseCell(k, mcd).x < sizeX / mcd + 1 && CoarseCell(k, mcd).y < sizeY / mcd + 1
    {
      QuotientLess(2 * k.x, 2 * sizeX, mcd);
      QuotientLess(2 * k.y, 2 * sizeY, mcd);
      QuotientLess(k.x, sizeX, mcd);
      QuotientLess(k.y, sizeY, mcd);
    }
  }

  /** The chosen places so far, and what is known of the others. */
  ghost predicate Going(list: seq<Koord>, places: Grid, index: seq<Koord>, result: seq<Koord>, chosen: Grid, mcd: nat,
                        xmax2: nat, ymax2: nat)
    requires mcd > 0
  {
    && Ready(list, places, index, result, mcd) && Holds(chosen, result, mcd, xmax2, ymax2) && FarApart(result, mcd)
    && (forall k :: k in list ==> CoarseCell(k, mcd).x < xmax2 && CoarseCell(k, mcd).y < ymax2)
    && (forall k :: k in result ==> k in list)
  }

  /** Chooses one more place, if there is one. */
  method PlaceOne(list: seq<Koord>, places0: Grid, index0: seq<Koord>, result0: seq<Koord>, chosen0: Grid, mcd: nat,
                  xmax2: nat, ymax2: nat)
      returns (places: Grid, index: seq<Koord>, result: seq<Koord>, chosen: Grid)
    requires mcd > 0 && Going(list, places0, index0, result0, chosen0, mcd, xmax2, ymax2)
    ensures Going(list, places, index, result, chosen, mcd, xmax2, ymax2)
    ensures (|result| == |result0| + 1 && index0 != []) || (|result| == |result0| && index == [])
  {
    var found, k;
    result, chosen := result0, chosen0;
    found, k, places, index := NextPlace(list, places0, index0, result0, chosen0, mcd, xmax2, ymax2);
    if found {
      Chosen(chosen, result, k, mcd, xmax2, ymax2);
      chosen := chosen[CoarseCell(k, mcd) := chosen[CoarseCell(k, mcd)] + [k]];
      result := result + [k];
    }
  }

  /** Chooses up to `count` places. */
  method Choose(list: seq<Koord>, places0: Grid, index0: seq<Koord>, chosen0: Grid, count: int, mcd: nat, xmax2: nat,
                ymax2: nat)
      returns (result: seq<Koord>, ghost places: Grid, ghost index: seq<Koord>, ghost chosen: Grid)
    requires mcd > 0 && Going(list, places0, index0, [], chosen0, mcd, xmax2, ymax2)
    ensures Going(list, places, index, result, chosen, mcd, xmax2, ymax2)
    ensures |result| <= (if count < 0 then 0 else count) && (|result| < count ==> index == [])
  {
    result := [];
    var p, q, c := places0, index0, chosen0;
    var i := 0;
    while i < count
      invariant 0 <= i && |result| <= i && (i > 0 ==> i <= count) && (|result| < i ==> q == [])
      invariant Going(list, p, q, result, c, mcd, xmax2, ymax2)
    {
      p, q, result, c := PlaceOne(list, p, q, result, c, mcd, xmax2, ymax2);
      if q == [] && i < count - 1 {
        break;
      }
      i := i + 1;
    }
    places, index, chosen := p, q, c;
  }

  /** Places for at most `count` cities, all at least `mcd` apart. If there are fewer, no place
      of the list is left that is far enough from all of them. */
  method RandomPlace(list: seq<Koord>, count: int, mcd: nat, sizeX: nat, sizeY: nat) returns (result: seq<Koord>)
    requires mcd > 0 && forall k :: k in list ==> k.x < sizeX && k.y < sizeY
    ensures |result| <= (if count < 0 then 0 else count) && FarApart(result, mcd)
    ensures forall k :: k in result ==> k in list
    ensures |result| < count ==> forall k :: k in list ==> Near(k, result, mcd)
  {
    CellsInside(list, mcd, sizeX, sizeY);
    var xmax, ymax, xmax2, ymax2 := 2 * sizeX / mcd + 1, 2 * sizeY / mcd + 1, sizeX / mcd + 1, sizeY / mcd + 1;
    var places := Distribute(list, xmax, ymax, mcd);
    var index := Index(places, xmax, ymax);
    var chosen := Empty(xmax2, ymax2);
    ghost var rest, none, all;
    result, rest, none, all := Choose(list, places, index, chosen, count, mcd, xmax2, ymax2);
  }
}
