/** The list of waiting or loaded goods: merged, sorted and put under headings. */
module FreightList {

  const GOODS_AMOUNT_LIMIT: nat := 0x7F_FFFF     // what fits in 23 bits
  const INDEX_NONE := 2

  type Halt = nat
  const NO_HALT: Halt := 0

  datatype Option<T> = None | Some(value: T)
  datatype Mode = ByName | ByVia | ByViaSum | ByAmount

  datatype Ware = Ware(index: nat, menge: nat, toFactory: bool, ziel: Halt, via: Halt, zielpos: nat)

  /** What is known of the goods, the halts and the factories. */
  datatype Names = Names(catg: nat -> nat, catgIndex: nat -> nat, halt: Halt -> string, factory: nat -> Option<string>)
  {
    /** Special goods have a category of their own, all others share that of their kind. */
    ghost predicate Consistent() {
      forall a, b :: catgIndex(a) == catgIndex(b) <==> a == b || (catg(a) != 0 && catg(a) == catg(b))
    }
  }

  /** Compares character by character; negative if a comes first. */
  function StrCmp(a: string, b: string): int {
    if a == [] then (if b == [] then 0 else -1)
    else if b == [] then 1
    else if a[0] != b[0] then a[0] as int - b[0] as int
    else StrCmp(a[1..], b[1..])
  }

  /** Two comparisons in a row go the same way. */
  ghost predicate Follows(ab: int, bc: int, ac: int) {
    && (ab <= 0 && bc <= 0 ==> ac <= 0)
    && (ab <= 0 && bc <= 0 && (ab < 0 || bc < 0) ==> ac < 0)
  }

  lemma {:induction false} StrCmpBack(a: string, b: string)
    ensures (StrCmp(a, b) < 0 <==> StrCmp(b, a) > 0) && (StrCmp(a, b) == 0 <==> StrCmp(b, a) == 0)
  {
    if a != [] && b != [] && a[0] == b[0] { StrCmpBack(a[1..], b[1..]); }
  }

  lemma {:induction false} StrCmpFollows(a: string, b: string, c: string)
    ensures Follows(StrCmp(a, b), StrCmp(b, c), StrCmp(a, c))
  {
    if a != [] && b != [] && c != [] && a[0] == b[0] == c[0] {
      StrCmpFollows(a[1..], b[1..], c[1..]);
    }
  }

  /** Nothing comes before something. */
  function NameCmp(a: Option<string>, b: Option<string>): int {
    if a.Some? && b.Some? then StrCmp(a.value, b.value)
    else if a.Some? then 1 else if b.Some? then -1 else 0
  }

  function ViaName(n: Names, w: Ware): Option<string> {
    if w.via == NO_HALT then None else Some(n.halt(w.via))
  }

  function DestName(n: Names, w: Ware): Option<string> {
    if w.ziel == NO_HALT then None
    else if !w.toFactory then Some(n.halt(w.ziel))
    else if n.factory(w.zielpos).Some? then n.factory(w.zielpos) else Some("Invalid Factory")
  }

  predicate BeforeByName(n: Names, w1: Ware, w2: Ware) {
    if w1.ziel != NO_HALT && w2.ziel != NO_HALT then
      StrCmp(DestName(n, w1).value, DestName(n, w2).value) < 0
    else w1.ziel == NO_HALT && w2.ziel != NO_HALT
  }

  predicate BeforeByVia(n: Names, w1: Ware, w2: Ware) {
    if w1.via != NO_HALT && w2.via != NO_HALT && StrCmp(n.halt(w1.via), n.halt(w2.via)) != 0 then
      StrCmp(n.halt(w1.via), n.halt(w2.via)) < 0
    else if w1.via != NO_HALT && w2.via == NO_HALT then false
    else if w1.via == NO_HALT && w2.via != NO_HALT then true
    else BeforeByName(n, w1, w2)
  }

  /** Whether w1 comes before w2. */
  predicate CompareWare(n: Names, mode: Mode, w1: Ware, w2: Ware) {
    var idx := n.catgIndex(w1.index) - n.catgIndex(w2.index);
    var idx' := if idx == 0 then w1.index - w2.index else idx;
    if idx' != 0 then idx' < 0
    else match mode
      case ByName => BeforeByName(n, w1, w2)
      case ByVia => BeforeByVia(n, w1, w2)
      case _ => if w2.menge - w1.menge != 0 then w2.menge - w1.menge < 0 else BeforeByVia(n, w1, w2)
  }

  function Then(a: int, b: int): int { if a != 0 then a else b }

  /** The keys of two wares, compared one after the other. */
  function KeyCmp(n: Names, mode: Mode, w1: Ware, w2: Ware): int {
    Then(n.catgIndex(w1.index) - n.catgIndex(w2.index),
    Then(w1.index - w2.index,
    Then(if mode == ByAmount || mode == ByViaSum then w2.menge - w1.menge else 0,
    Then(if mode == ByName then 0 else NameCmp(ViaName(n, w1), ViaName(n, w2)),
         NameCmp(DestName(n, w1), DestName(n, w2))))))
  }

  lemma CompareIsKeyCmp(n: Names, mode: Mode, w1: Ware, w2: Ware)
    ensures CompareWare(n, mode, w1, w2) <==> KeyCmp(n, mode, w1, w2) < 0
  {
  }

  lemma NameCmpFollows(a: Option<string>, b: Option<string>, c: Option<string>)
    ensures Follows(NameCmp(a, b), NameCmp(b, c), NameCmp(a, c))
    ensures (NameCmp(a, b) < 0 <==> NameCmp(b, a) > 0) && (NameCmp(a, b) == 0 <==> NameCmp(b, a) == 0)
  {
    if a.Some? && b.Some? {
      StrCmpBack(a.value, b.value);
      if c.Some? { StrCmpFollows(a.value, b.value, c.value); }
    }
  }

  lemma KeyCmpFollows(n: Names, mode: Mode, a: Ware, b: Ware, c: Ware)
    ensures Follows(KeyCmp(n, mode, a, b), KeyCmp(n, mode, b, c), KeyCmp(n, mode, a, c))
  {
    NameCmpFollows(ViaName(n, a), ViaName(n, b), ViaName(n, c));
    NameCmpFollows(DestName(n, a), DestName(n, b), DestName(n, c));
  }

  lemma KeyCmpBack(n: Names, mode: Mode, a: Ware, b: Ware)
    ensures KeyCmp(n, mode, a, b) < 0 <==> KeyCmp(n, mode, b, a) > 0
    ensures KeyCmp(n, mode, a, b) == 0 <==> KeyCmp(n, mode, b, a) == 0
  {
    NameCmpFollows(ViaName(n, a), ViaName(n, b), ViaName(n, a));
    NameCmpFollows(DestName(n, a), DestName(n, b), DestName(n, a));
  }

  /** In every mode, the comparison is a strict weak order, as sorting requires. */
  lemma StrictWeakOrder(n: Names, mode: Mode, a: Ware, b: Ware, c: Ware)
    ensures !CompareWare(n, mode, a, a)
    ensures CompareWare(n, mode, a, b) ==> !CompareWare(n, mode, b, a)
    ensures CompareWare(n, mode, a, b) && CompareWare(n, mode, b, c) ==> CompareWare(n, mode, a, c)
    ensures !CompareWare(n, mode, b, a) && !CompareWare(n, mode, c, b) ==> !CompareWare(n, mode, c, a)
  {
    CompareIsKeyCmp(n, mode, a, a);
    CompareIsKeyCmp(n, mode, a, b);
    CompareIsKeyCmp(n, mode, b, a);
    CompareIsKeyCmp(n, mode, b, c);
    CompareIsKeyCmp(n, mode, c, b);
    CompareIsKeyCmp(n, mode, a, c);
    CompareIsKeyCmp(n, mode, c, a);
    KeyCmpBack(n, mode, a, a);
    KeyCmpBack(n, mode, a, b);
    KeyCmpBack(n, mode, b, c);
    KeyCmpBack(n, mode, a, c);
    KeyCmpFollows(n, mode, a, b, c);
  }

  /** The amount of a category in a list. */
  function Amount(n: Names, s: seq<Ware>, c: nat): nat {
    if s == [] then 0 else
      Amount(n, s[..|s| - 1], c) + if n.catgIndex(s[|s| - 1].index) == c then s[|s| - 1].menge else 0
  }

  predicate Counts(w: Ware) { w.index != INDEX_NONE && w.menge != 0 }

  /** The amount of a category among the wares that count at all. */
  function Total(n: Names, s: seq<Ware>, c: nat): nat {
    if s == [] then 0 else
      var w := s[|s| - 1];
      Total(n, s[..|s| - 1], c) + if Counts(w) && n.catgIndex(w.index) == c then w.menge else 0
  }

  ghost predicate Present(n: Names, s: seq<Ware>, c: nat) {
    exists i :: 0 <= i < |s| && Counts(s[i]) && n.catgIndex(s[i].index) == c
  }

  lemma {:induction false} AmountAdded(n: Names, s: seq<Ware>, w: Ware, c: nat)
    ensures Amount(n, s + [w], c) == Amount(n, s, c) + if n.catgIndex(w.index) == c then w.menge else 0
  {
    assert (s + [w])[..|s|] == s;
  }

  lemma {:induction false} AmountChanged(n: Names, s: seq<Ware>, i: nat, v: Ware, c: nat)
    requires i < |s| && v.index == s[i].index
    ensures Amount(n, s[i := v], c) == Amount(n, s, c) + if n.catgIndex(v.index) == c then v.menge - s[i].menge else 0
  {
    var m := |s| - 1;
    if i == m {
      assert s[i := v][..m] == s[..m];
    } else {
      AmountChanged(n, s[..m], i, v, c);
      assert s[i := v][..m] == s[..m][i := v];
    }
  }

  /** Whether two wares are shown as one in a list by next stop. */
  predicate Mergeable(wi: Ware, w: Ware) {
    && wi.index == w.index && wi.via == w.via
    && ((wi.via != NO_HALT && ((wi.ziel == wi.via) == (w.ziel == w.via))) || wi.ziel == w.ziel)
  }

  /** What does not fit into one ware is returned. */
  method AddGoods(w: Ware, number: nat) returns (v: Ware, rest: nat)
    requires w.menge <= GOODS_AMOUNT_LIMIT
    ensures v == w.(menge := v.menge) && v.menge + rest == w.menge + number
    ensures v.menge <= GOODS_AMOUNT_LIMIT && (rest > 0 ==> v.menge == GOODS_AMOUNT_LIMIT)
  {
    var limit := GOODS_AMOUNT_LIMIT - w.menge;
    if limit < number {
      return w.(menge := GOODS_AMOUNT_LIMIT), number - limit;
    }
    return w.(menge := w.menge + number), 0;
  }

  function Lost(lost: map<nat, nat>, c: nat): nat { if c in lost then lost[c] else 0 }

  /** The merged list and what was lost make up the first k wares of the input. */
  ghost predicate Merged(n: Names, input: seq<Ware>, list: seq<Ware>, lost: map<nat, nat>, k: nat) {
    && k <= |input|
    && (forall c {:trigger Total(n, input[..k], c)} :: Amount(n, list, c) + Lost(lost, c) == Total(n, input[..k], c))
    && (forall i :: 0 <= i < |list| ==> 0 < list[i].menge <= GOODS_AMOUNT_LIMIT)
    && (forall c {:trigger Present(n, input[..k], c)} :: Present(n, input[..k], c) <==> HasCategory(n, list, c))
  }

  ghost predicate HasCategory(n: Names, list: seq<Ware>, c: nat) {
    exists i :: 0 <= i < |list| && n.catgIndex(list[i].index) == c
  }

  lemma {:induction false} NextTotal(n: Names, input: seq<Ware>, k: nat, c: nat)
    requires k < |input|
    ensures Total(n, input[..k + 1], c) == Total(n, input[..k], c) +
              if Counts(input[k]) && n.catgIndex(input[k].index) == c then input[k].menge else 0
    ensures Present(n, input[..k + 1], c) <==>
              Present(n, input[..k], c) || (Counts(input[k]) && n.catgIndex(input[k].index) == c)
  {
    assert input[..k + 1][..k] == input[..k] && input[..k + 1] == input[..k] + [input[k]];
    if Present(n, input[..k], c) {
      var i :| 0 <= i < k && Counts(input[..k][i]) && n.catgIndex(input[..k][i].index) == c;
      assert input[..k + 1][i] == input[..k][i];
    }
    if Counts(input[k]) && n.catgIndex(input[k].index) == c {
      assert input[..k + 1][k] == input[k];
    }
    if Present(n, input[..k + 1], c) {
      var i :| 0 <= i < k + 1 && Counts(input[..k + 1][i]) && n.catgIndex(input[..k + 1][i].index) == c;
      if i < k { assert input[..k][i] == input[..k + 1][i]; }
    }
  }

  lemma MergedSkip(n: Names, input: seq<Ware>, list: seq<Ware>, lost: map<nat, nat>, k: nat)
    requires Merged(n, input, list, lost, k) && k < |input| && !Counts(input[k])
    ensures Merged(n, input, list, lost, k + 1)
  {
    forall c: nat
      ensures Amount(n, list, c) + Lost(lost, c) == Total(n, input[..k + 1], c)
      ensures Present(n, input[..k + 1], c) <==> HasCategory(n, list, c)
    {
      NextTotal(n, input, k, c);
    }
  }

  lemma MergedAdd(n: Names, input: seq<Ware>, list: seq<Ware>, lost: map<nat, nat>, k: nat)
    requires Merged(n, input, list, lost, k) && k < |input| && Counts(input[k]) && input[k].menge <= GOODS_AMOUNT_LIMIT
    ensures Merged(n, input, list + [input[k]], lost, k + 1)
  {
    var l := list + [input[k]];
    forall c: nat
      ensures Amount(n, l, c) + Lost(lost, c) == Total(n, input[..k + 1], c)
      ensures Present(n, input[..k + 1], c) <==> HasCategory(n, l, c)
    {
      NextTotal(n, input, k, c);
      AmountAdded(n, list, input[k], c);
      CategoryAdded(n, list, input[k], c);
    }
  }

  lemma CategoryAdded(n: Names, list: seq<Ware>, w: Ware, c: nat)
    ensures HasCategory(n, list + [w], c) <==> HasCategory(n, list, c) || n.catgIndex(w.index) == c
  {
    var l := list + [w];
    if HasCategory(n, list, c) {
      var i :| 0 <= i < |list| && n.catgIndex(list[i].index) == c;
      assert l[i] == list[i];
    }
    assert l[|list|] == w;
  }

  lemma MergedInto(n: Names, input: seq<Ware>, list: seq<Ware>, lost: map<nat, nat>, k: nat, i: nat, v: Ware, rest: nat)
    requires Merged(n, input, list, lost, k) && k < |input| && Counts(input[k]) && i < |list|
    requires list[i].index == input[k].index && v == list[i].(menge := v.menge)
    requires v.menge + rest == list[i].menge + input[k].menge && 0 < v.menge <= GOODS_AMOUNT_LIMIT
    ensures var ci := n.catgIndex(v.index);
      Merged(n, input, list[i := v], if rest > 0 then lost[ci := Lost(lost, ci) + rest] else lost, k + 1)
  {
    var ci := n.catgIndex(v.index);
    var lost' := if rest > 0 then lost[ci := Lost(lost, ci) + rest] else lost;
    var l := list[i := v];
    forall c: nat
      ensures Amount(n, l, c) + Lost(lost', c) == Total(n, input[..k + 1], c)
      ensures Present(n, input[..k + 1], c) <==> HasCategory(n, l, c)
    {
      NextTotal(n, input, k, c);
      AmountChanged(n, list, i, v, c);
      CategoryKept(n, list, i, v, c);
    }
    forall j | 0 <= j < |l|
      ensures 0 < l[j].menge <= GOODS_AMOUNT_LIMIT
    {
      assert j != i ==> l[j] == list[j];
    }
    assert Merged(n, input, l, lost', k + 1);
  }

  lemma CategoryKept(n: Names, list: seq<Ware>, i: nat, v: Ware, c: nat)
    requires i < |list| && v.index == list[i].index
    ensures HasCategory(n, list[i := v], c) <==> HasCategory(n, list, c)
    ensures HasCategory(n, list, n.catgIndex(v.index))
  {
    var l := list[i := v];
    assert forall j :: 0 <= j < |list| ==> l[j].index == list[j].index;
    if HasCategory(n, list, c) {
      var j :| 0 <= j < |list| && n.catgIndex(list[j].index) == c;
      assert n.catgIndex(l[j].index) == c;
    }
    assert n.catgIndex(list[i].index) == n.catgIndex(v.index);
  }

  /** How much of the wares that count is shown as one with w. */
  function Alike(s: seq<Ware>, w: Ware): nat {
    if s == [] then 0 else
      var v := s[|s| - 1];
      Alike(s[..|s| - 1], w) + if Counts(v) && Mergeable(v, w) then v.menge else 0
  }

  /** The wares that count, as they come. */
  function Counting(s: seq<Ware>): seq<Ware> {
    if s == [] then [] else
      Counting(s[..|s| - 1]) + if Counts(s[|s| - 1]) then [s[|s| - 1]] else []
  }

  /** An entry that counts and, up to its amount, is the first ware it is shown as one with. */
  ghost predicate FirstOfItsKind(input: seq<Ware>, e: Ware) {
    && Counts(e)
    && exists k :: 0 <= k < |input| && Counts(input[k]) && e == input[k].(menge := e.menge)
         && forall j :: 0 <= j < k && Counts(input[j]) ==> !Mergeable(input[j], input[k])
  }

  /** Every two wares that belong together are in one entry, with all that fits into it. */
  ghost predicate Summed(input: seq<Ware>, list: seq<Ware>) {
    && (forall i, j :: 0 <= i < j < |list| ==> !Mergeable(list[i], list[j]))
    && (forall i :: 0 <= i < |list| ==> FirstOfItsKind(input, list[i]))
    && (forall w {:trigger Held(input, list, w)} :: Held(input, list, w))
  }

  /** The list holds all that fits of the wares that are shown as one with w. */
  ghost predicate Held(input: seq<Ware>, list: seq<Ware>, w: Ware) {
    Alike(list, w) == Min(GOODS_AMOUNT_LIMIT, Alike(input, w))
  }

  function Min(a: nat, b: nat): nat { if a < b then a else b }

  lemma {:induction false} AlikeAdded(s: seq<Ware>, v: Ware, w: Ware)
    ensures Alike(s + [v], w) == Alike(s, w) + if Counts(v) && Mergeable(v, w) then v.menge else 0
  {
    assert (s + [v])[..|s|] == s;
  }

  lemma {:induction false} AlikeNone(s: seq<Ware>, w: Ware)
    requires forall i :: 0 <= i < |s| && Counts(s[i]) ==> !Mergeable(s[i], w)
    ensures Alike(s, w) == 0
  {
    if s != [] { AlikeNone(s[..|s| - 1], w); }
  }

  lemma {:induction false} AlikeSome(s: seq<Ware>, i: nat, w: Ware)
    requires i < |s| && Counts(s[i]) && Mergeable(s[i], w)
    ensures Alike(s, w) >= s[i].menge
  {
    if i < |s| - 1 { AlikeSome(s[..|s| - 1], i, w); }
  }

  lemma {:induction false} AlikeChanged(s: seq<Ware>, i: nat, v: Ware, w: Ware)
    requires i < |s| && v == s[i].(menge := v.menge) && Counts(s[i]) && Counts(v)
    ensures Alike(s[i := v], w) == Alike(s, w) + if Mergeable(v, w) then v.menge - s[i].menge else 0
  {
    var m := |s| - 1;
    if i == m {
      assert s[i := v][..m] == s[..m];
    } else {
      AlikeChanged(s[..m], i, v, w);
      assert s[i := v][..m] == s[..m][i := v];
    }
  }

  /** Of entries no two of which belong together, one is all there is of its kind. */
  lemma {:induction false} AlikeOne(s: seq<Ware>, i: nat, w: Ware)
    requires i < |s| && Counts(s[i]) && Mergeable(s[i], w)
    requires forall a, b :: 0 <= a < b < |s| ==> !Mergeable(s[a], s[b])
    ensures Alike(s, w) == s[i].menge
  {
    var m := |s| - 1;
    if i < m {
      assert !Mergeable(s[i], s[m]);
      AlikeOne(s[..m], i, w);
    } else {
      forall a | 0 <= a < m
        ensures !Mergeable(s[..m][a], w)
      {
        assert !Mergeable(s[a], s[m]);
      }
      AlikeNone(s[..m], w);
    }
  }

  lemma StaysFirst(input: seq<Ware>, w: Ware, e: Ware)
    requires FirstOfItsKind(input, e)
    ensures FirstOfItsKind(input + [w], e)
  {
    var r := input + [w];
    var k :| 0 <= k < |input| && Counts(input[k]) && e == input[k].(menge := e.menge)
             && forall j :: 0 <= j < k && Counts(input[j]) ==> !Mergeable(input[j], input[k]);
    assert r[k] == input[k] && forall j :: 0 <= j < k ==> r[j] == input[j];
  }

  lemma SummedSkip(input: seq<Ware>, list: seq<Ware>, w: Ware)
    requires Summed(input, list) && !Counts(w)
    ensures Summed(input + [w], list)
  {
    forall v: Ware
      ensures Held(input + [w], list, v)
    {
      assert Held(input, list, v);
      AlikeAdded(input, w, v);
    }
    forall i | 0 <= i < |list|
      ensures FirstOfItsKind(input + [w], list[i])
    {
      StaysFirst(input, w, list[i]);
    }
  }

  lemma HeldAdded(input: seq<Ware>, list: seq<Ware>, w: Ware, v: Ware)
    requires Held(input, list, v) && Counts(w) && w.menge <= GOODS_AMOUNT_LIMIT
    requires forall i :: 0 <= i < |list| ==> !Mergeable(list[i], w)
    ensures Held(input + [w], list + [w], v)
  {
    AlikeAdded(input, w, v);
    AlikeAdded(list, w, v);
    if Mergeable(w, v) { AlikeNone(list, v); }
  }

  lemma NewIsFirst(input: seq<Ware>, list: seq<Ware>, w: Ware)
    requires Held(input, list, w) && Counts(w)
    requires forall i :: 0 <= i < |list| ==> !Mergeable(list[i], w)
    ensures FirstOfItsKind(input + [w], w)
  {
    var r := input + [w];
    AlikeNone(list, w);
    forall j | 0 <= j < |input| && Counts(r[j])
      ensures !Mergeable(r[j], w)
    {
      if Mergeable(input[j], w) { AlikeSome(input, j, w); }
    }
    assert r[|input|] == w;
  }

  lemma SummedAdd(input: seq<Ware>, list: seq<Ware>, w: Ware)
    requires Summed(input, list) && Counts(w) && w.menge <= GOODS_AMOUNT_LIMIT
    requires forall i :: 0 <= i < |list| ==> !Mergeable(list[i], w)
    ensures Summed(input + [w], list + [w])
  {
    forall v: Ware
      ensures Held(input + [w], list + [w], v)
    {
      assert Held(input, list, v);
      HeldAdded(input, list, w, v);
    }
    forall i | 0 <= i < |list|
      ensures FirstOfItsKind(input + [w], list[i])
    {
      StaysFirst(input, w, list[i]);
    }
    assert Held(input, list, w);
    NewIsFirst(input, list, w);
  }

  lemma SummedInto(input: seq<Ware>, list: seq<Ware>, w: Ware, i: nat, v: Ware, rest: nat)
    requires Summed(input, list) && Counts(w) && i < |list| && Mergeable(list[i], w)
    requires v == list[i].(menge := v.menge) && v.menge + rest == list[i].menge + w.menge
    requires v.menge <= GOODS_AMOUNT_LIMIT && (rest > 0 ==> v.menge == GOODS_AMOUNT_LIMIT)
    ensures Summed(input + [w], list[i := v])
  {
    var l, r := list[i := v], input + [w];
    assert FirstOfItsKind(input, list[i]);
    forall u: Ware
      ensures Held(r, l, u)
    {
      assert Held(input, list, u);
      AlikeAdded(input, w, u);
      AlikeChanged(list, i, v, u);
      if Mergeable(w, u) { AlikeOne(list, i, u); }
    }
    forall j | 0 <= j < |l|
      ensures FirstOfItsKind(r, l[j])
    {
      StaysFirst(input, w, list[j]);
      if j == i { ChangedIsFirst(r, list[i], v); }
    }
    forall a, b | 0 <= a < b < |l|
      ensures !Mergeable(l[a], l[b])
    {
      assert !Mergeable(list[a], list[b]);
    }
  }

  lemma ChangedIsFirst(input: seq<Ware>, e: Ware, v: Ware)
    requires FirstOfItsKind(input, e) && v == e.(menge := v.menge) && Counts(v)
    ensures FirstOfItsKind(input, v)
  {
    var k :| 0 <= k < |input| && Counts(input[k]) && e == input[k].(menge := e.menge)
             && forall j :: 0 <= j < k && Counts(input[j]) ==> !Mergeable(input[j], input[k]);
    assert v == input[k].(menge := v.menge);
  }

  /** All amounts fit into the bits for them. */
  predicate Storable(input: seq<Ware>) {
    forall i :: 0 <= i < |input| ==> input[i].menge <= GOODS_AMOUNT_LIMIT
  }

  /** Puts the wares that count into one list; by next stop, wares with a common one are
      merged, and what no longer fits into one ware is recorded for its category. */
  method Merge(n: Names, input: seq<Ware>, mode: Mode) returns (list: seq<Ware>, lost: map<nat, nat>)
    requires Storable(input)
    ensures Merged(n, input, list, lost, |input|)
    ensures Shown(input, list, mode)
  {
    list, lost := [], map[];
    for k := 0 to |input|
      invariant Merged(n, input, list, lost, k) && Shown(input[..k], list, mode)
    {
      list, lost := MergeNext(n, input, k, list, lost, mode);
    }
    assert input[..|input|] == input;
  }

  /** What the list holds of the wares so far. */
  ghost predicate Shown(input: seq<Ware>, list: seq<Ware>, mode: Mode) {
    if mode == ByViaSum then Summed(input, list) else list == Counting(input)
  }

  /** Puts the next ware into the list if it counts. */
  method MergeNext(n: Names, input: seq<Ware>, k: nat, was: seq<Ware>, lostBefore: map<nat, nat>, mode: Mode)
      returns (list: seq<Ware>, lost: map<nat, nat>)
    requires Storable(input) && k < |input| && Merged(n, input, was, lostBefore, k) && Shown(input[..k], was, mode)
    ensures Merged(n, input, list, lost, k + 1) && Shown(input[..k + 1], list, mode)
  {
    var w := input[k];
    assert input[..k + 1] == input[..k] + [w] && input[..k + 1][..k] == input[..k];
    if w.index == INDEX_NONE || w.menge == 0 {
      if mode == ByViaSum { SummedSkip(input[..k], was, w); }
      MergedSkip(n, input, was, lostBefore, k);
      return was, lostBefore;
    }
    list, lost := MergeWare(n, w, was, lostBefore, mode, input, k);
  }

  /** Puts one ware that counts into the list. */
  method MergeWare(n: Names, w: Ware, was: seq<Ware>, lostBefore: map<nat, nat>, mode: Mode, ghost input: seq<Ware>,
                   ghost k: nat) returns (list: seq<Ware>, lost: map<nat, nat>)
    requires Storable(input) && k < |input| && w == input[k] && Counts(w) && Merged(n, input, was, lostBefore, k)
    requires mode == ByViaSum ==> Summed(input[..k], was)
    ensures Merged(n, input, list, lost, k + 1)
    ensures if mode == ByViaSum then Summed(input[..k] + [w], list) else list == was + [w]
  {
    list, lost := was, lostBefore;
    var i := if mode == ByViaSum then 0 else |list|;
    while i < |list| && !Mergeable(list[i], w)
      invariant 0 <= i <= |list| && (mode == ByViaSum ==> forall j :: 0 <= j < i ==> !Mergeable(list[j], w))
    {
      i := i + 1;
    }
    if i < |list| {
      var v, rest := AddGoods(list[i], w.menge);
      SummedInto(input[..k], list, w, i, v, rest);
      MergedInto(n, input, list, lost, k, i, v, rest);
      list := list[i := v];
      if rest > 0 {
        lost := lost[n.catgIndex(v.index) := Lost(lost, n.catgIndex(v.index)) + rest];
      }
    } else {
      MergedAdd(n, input, list, lost, k);
      if mode == ByViaSum { SummedAdd(input[..k], list, w); }
      list := list + [w];
    }
  }

  /** Nothing comes after anything it should come before. */
  ghost predicate Sorted(n: Names, mode: Mode, s: seq<Ware>) {
    InOrder(s, (a, b) => CompareWare(n, mode, a, b))
  }

  ghost predicate InOrder<T(!new)>(s: seq<T>, less: (T, T) -> bool) {
    forall i, j :: 0 <= i < j < |s| ==> !less(s[j], s[i])
  }

  /** Everything in a may come before everything in b. */
  ghost predicate Before<T(!new)>(a: seq<T>, b: seq<T>, less: (T, T) -> bool) {
    forall i, j :: 0 <= i < |a| && 0 <= j < |b| ==> !less(b[j], a[i])
  }

  lemma Parts<T(!new)>(a: seq<T>, b: seq<T>, less: (T, T) -> bool)
    requires InOrder(a + b, less)
    ensures InOrder(a, less) && InOrder(b, less) && Before(a, b, less)
  {
    var s := a + b;
    assert forall i :: 0 <= i < |a| ==> s[i] == a[i];
    assert forall j :: 0 <= j < |b| ==> s[|a| + j] == b[j];
  }

  lemma Append<T(!new)>(a: seq<T>, b: seq<T>, less: (T, T) -> bool)
    requires InOrder(a, less) && InOrder(b, less) && Before(a, b, less)
    ensures InOrder(a + b, less)
  {
  }

  lemma InsertInOrder<T(!new)>(a: seq<T>, w: T, b: seq<T>, less: (T, T) -> bool)
    requires InOrder(a + b, less) && Before(a, [w], less) && Before([w], b, less)
    ensures InOrder(a + [w] + b, less)
  {
    Parts(a, b, less);
    Append(a, [w], less);
    assert Before(a + [w], b, less);
    Append(a + [w], b, less);
  }

  /** Stands for the library's sort. */
  method Sort(n: Names, mode: Mode, s: seq<Ware>) returns (r: seq<Ware>)
    ensures multiset(r) == multiset(s) && Sorted(n, mode, r)
  {
    r := [];
    for k := 0 to |s|
      invariant multiset(r) == multiset(s[..k]) && Sorted(n, mode, r)
    {
      assert s[..k + 1] == s[..k] + [s[k]];
      r := Insert(n, mode, r, s[k]);
    }
    assert s[..|s|] == s;
  }

  method Insert(n: Names, mode: Mode, s: seq<Ware>, w: Ware) returns (r: seq<Ware>)
    requires Sorted(n, mode, s)
    ensures multiset(r) == multiset(s) + multiset{w} && Sorted(n, mode, r)
  {
    var i := 0;
    while i < |s| && !CompareWare(n, mode, w, s[i])
      invariant 0 <= i <= |s| && forall j :: 0 <= j < i ==> !CompareWare(n, mode, w, s[j])
    {
      i := i + 1;
    }
    assert s == s[..i] + s[i..];
    r := s[..i] + [w] + s[i..];
    if i < |s| { LaterAfter(n, mode, s, i, w); }
    InsertInOrder(s[..i], w, s[i..], (a, b) => CompareWare(n, mode, a, b));
  }

  lemma LaterAfter(n: Names, mode: Mode, s: seq<Ware>, i: nat, w: Ware)
    requires Sorted(n, mode, s) && i < |s| && CompareWare(n, mode, w, s[i])
    ensures forall j :: 0 <= j < |s[i..]| ==> !CompareWare(n, mode, s[i..][j], w)
  {
    forall j | i <= j < |s|
      ensures !CompareWare(n, mode, s[j], w)
    {
      StrictWeakOrder(n, mode, s[j], w, s[i]);
    }
  }

  /** A heading shows a category and its amount. */
  datatype Heading = Heading(category: nat, sum: nat)

  /** Wares are shown under one heading if they are the same goods or of the same kind. */
  predicate SameHeading(n: Names, index: nat, lastIndex: int, lastCatg: int) {
    index == lastIndex || n.catg(index) == lastCatg
  }

  /** What is remembered of the goods that had the last heading. */
  function LastCatg(n: Names, index: nat): int { if n.catg(index) != 0 then n.catg(index) else -1 }

  lemma SameHeadingIsCategory(n: Names, a: nat, b: nat)
    requires n.Consistent()
    ensures SameHeading(n, a, b, LastCatg(n, b)) <==> n.catgIndex(a) == n.catgIndex(b)
  {
  }

  /** Sums up a category from its first ware on, up to the next category. */
  method SumCategory(n: Names, s: seq<Ware>, j: nat, start: nat) returns (sum: nat, ghost e: nat)
    requires n.Consistent() && j < |s|
    ensures j < e <= |s|
    ensures sum == start + (Amount(n, s[..e], n.catgIndex(s[j].index)) - Amount(n, s[..j], n.catgIndex(s[j].index)))
    ensures forall i :: j <= i < e ==> n.catgIndex(s[i].index) == n.catgIndex(s[j].index)
    ensures e < |s| ==> n.catgIndex(s[e].index) != n.catgIndex(s[j].index)
  {
    ghost var c := n.catgIndex(s[j].index);
    sum := start;
    var i := j;
    while i < |s| && SameHeading(n, s[i].index, s[j].index, LastCatg(n, s[j].index))
      invariant j <= i <= |s| && sum == start + (Amount(n, s[..i], c) - Amount(n, s[..j], c))
      invariant forall k :: j <= k < i ==> n.catgIndex(s[k].index) == c
    {
      SameHeadingIsCategory(n, s[i].index, s[j].index);
      AmountAdded(n, s[..i], s[i], c);
      assert s[..i + 1] == s[..i] + [s[i]];
      sum := sum + s[i].menge;
      i := i + 1;
    }
    SameHeadingIsCategory(n, s[j].index, s[j].index);
    if i < |s| { SameHeadingIsCategory(n, s[i].index, s[j].index); }
    e := i;
  }

  function Category(n: Names, w: Ware): nat { n.catgIndex(w.index) }

  /** In a sorted list the categories come one after the other. */
  lemma CategoriesInOrder(n: Names, mode: Mode, s: seq<Ware>, i: nat, j: nat)
    requires Sorted(n, mode, s) && i <= j < |s|
    ensures Category(n, s[i]) <= Category(n, s[j])
  {
    if i < j { assert !CompareWare(n, mode, s[j], s[i]); }
  }

  lemma {:induction false} AmountOutside(n: Names, s: seq<Ware>, a: nat, b: nat, c: nat)
    requires a <= b <= |s| && forall i :: a <= i < b ==> Category(n, s[i]) != c
    ensures Amount(n, s[..b], c) == Amount(n, s[..a], c)
    decreases b
  {
    if a < b {
      AmountOutside(n, s, a, b - 1, c);
      assert s[..b][..b - 1] == s[..b - 1];
    }
  }

  /** In a sorted list, all of a category is where it first occurs. */
  lemma {:induction false} CategoryTogether(n: Names, mode: Mode, s: seq<Ware>, j: nat, e: nat)
    requires Sorted(n, mode, s) && j < e <= |s| && (forall i :: j <= i < e ==> Category(n, s[i]) == Category(n, s[j]))
    requires e < |s| ==> Category(n, s[e]) != Category(n, s[j])
    requires j > 0 ==> Category(n, s[j - 1]) != Category(n, s[j])
    ensures Amount(n, s, Category(n, s[j])) ==
              Amount(n, s[..e], Category(n, s[j])) - Amount(n, s[..j], Category(n, s[j]))
  {
    var c := Category(n, s[j]);
    forall i | 0 <= i < j
      ensures Category(n, s[i]) != c
    {
      CategoriesInOrder(n, mode, s, i, j - 1);
      CategoriesInOrder(n, mode, s, j - 1, j);
    }
    forall i | e <= i < |s|
      ensures Category(n, s[i]) != c
    {
      CategoriesInOrder(n, mode, s, j, e);
      CategoriesInOrder(n, mode, s, e, i);
    }
    AmountOutside(n, s, 0, j, c);
    AmountOutside(n, s, e, |s|, c);
    assert s[..|s|] == s && s[..0] == [];
  }

  ghost predicate HasHeading(hs: seq<Heading>, c: nat) {
    exists p :: 0 <= p < |hs| && hs[p].category == c
  }

  /** The headings of the first j wares: each category once, with all of its amount. */
  ghost predicate Headed(n: Names, s: seq<Ware>, lost: map<nat, nat>, hs: seq<Heading>, j: nat) {
    && j <= |s|
    && (forall p, q :: 0 <= p < q < |hs| ==> hs[p].category < hs[q].category)
    && (forall p :: 0 <= p < |hs| ==> hs[p].sum == Lost(lost, hs[p].category) + Amount(n, s, hs[p].category))
    && (forall c {:trigger HasHeading(hs, c)} :: HasHeading(hs, c) <==> HasCategory(n, s[..j], c))
    && (hs != [] ==> j > 0 && hs[|hs| - 1].category == Category(n, s[j - 1]))
    && (j > 0 ==> hs != [])
  }

  lemma {:induction false} NextHeading(n: Names, mode: Mode, s: seq<Ware>, lost: map<nat, nat>, hs: seq<Heading>,
                                       j: nat, sum: nat)
    requires Sorted(n, mode, s) && Headed(n, s, lost, hs, j) && j < |s|
    requires j > 0 ==> Category(n, s[j - 1]) != Category(n, s[j])
    requires sum == Lost(lost, Category(n, s[j])) + Amount(n, s, Category(n, s[j]))
    ensures Headed(n, s, lost, hs + [Heading(Category(n, s[j]), sum)], j + 1)
  {
    var ks := hs + [Heading(Category(n, s[j]), sum)];
    assert s[..j + 1] == s[..j] + [s[j]];
    if j > 0 { CategoriesInOrder(n, mode, s, j - 1, j); }
    forall c: nat
      ensures HasHeading(ks, c) <==> HasCategory(n, s[..j + 1], c)
    {
      CategoryAdded(n, s[..j], s[j], c);
      HeadingAdded(hs, Heading(Category(n, s[j]), sum), c);
    }
  }

  lemma HeadingAdded(hs: seq<Heading>, h: Heading, c: nat)
    ensures HasHeading(hs + [h], c) <==> HasHeading(hs, c) || h.category == c
  {
    var ks := hs + [h];
    if HasHeading(hs, c) {
      var p :| 0 <= p < |hs| && hs[p].category == c;
      assert ks[p] == hs[p];
    }
    assert ks[|hs|] == h;
  }

  lemma NoHeading(n: Names, s: seq<Ware>, lost: map<nat, nat>, hs: seq<Heading>, j: nat)
    requires Headed(n, s, lost, hs, j) && j < |s| && j > 0 && Category(n, s[j - 1]) == Category(n, s[j])
    ensures Headed(n, s, lost, hs, j + 1)
  {
    assert s[..j + 1] == s[..j] + [s[j]];
    forall c: nat
      ensures HasHeading(hs, c) <==> HasCategory(n, s[..j + 1], c)
    {
      CategoryAdded(n, s[..j], s[j], c);
      assert hs[|hs| - 1].category == Category(n, s[j]);
    }
  }

  /** Puts a heading before the first ware of every category. */
  method Headings(n: Names, mode: Mode, s: seq<Ware>, lost: map<nat, nat>) returns (hs: seq<Heading>)
    requires n.Consistent() && Sorted(n, mode, s)
    ensures Headed(n, s, lost, hs, |s|)
  {
    hs := [];
    var lastIndex: int, lastCatg: int := -1, -1;
    assert s[..0] == [];
    for j := 0 to |s|
      invariant Headed(n, s, lost, hs, j)
      invariant if j == 0 then lastIndex == lastCatg == -1
                else lastIndex >= 0 && lastCatg == LastCatg(n, lastIndex)
                        && n.catgIndex(lastIndex) == Category(n, s[j - 1])
    {
      var index := s[j].index;
      if j > 0 { SameHeadingIsCategory(n, index, lastIndex); }
      if !SameHeading(n, index, lastIndex, lastCatg) {
        var sum;
        ghost var e;
        sum, e := SumCategory(n, s, j, Lost(lost, n.catgIndex(index)));
        CategoryTogether(n, mode, s, j, e);
        NextHeading(n, mode, s, lost, hs, j, sum);
        hs := hs + [Heading(n.catgIndex(index), sum)];
        lastIndex, lastCatg := index, LastCatg(n, index);
      } else {
        NoHeading(n, s, lost, hs, j);
      }
    }
  }

  lemma {:induction false} AmountWithout(n: Names, s: seq<Ware>, i: nat, c: nat)
    requires i < |s|
    ensures Amount(n, s, c) == Amount(n, s[..i] + s[i + 1..], c) + if Category(n, s[i]) == c then s[i].menge else 0
  {
    var m := |s| - 1;
    var r := s[..i] + s[i + 1..];
    if i == m {
      assert r == s[..m];
    } else {
      AmountWithout(n, s[..m], i, c);
      assert r[..m - 1] == s[..m][..i] + s[..m][i + 1..] && r[m - 1] == s[m];
    }
  }

  lemma TakeOut<T>(r: seq<T>, i: nat)
    requires i < |r|
    ensures multiset(r) == multiset(r[..i] + r[i + 1..]) + multiset{r[i]}
  {
    assert r == r[..i] + [r[i]] + r[i + 1..];
  }

  lemma SameRest<T>(s: seq<T>, r: seq<T>, i: nat)
    requires multiset(s) == multiset(r) && s != [] && i < |r| && r[i] == s[|s| - 1]
    ensures multiset(s[..|s| - 1]) == multiset(r[..i] + r[i + 1..])
  {
    TakeOut(r, i);
    TakeOut(s, |s| - 1);
    assert s[..|s| - 1] + s[|s|..] == s[..|s| - 1];
    var a, b, x := multiset(s[..|s| - 1]), multiset(r[..i] + r[i + 1..]), multiset{r[i]};
    assert a == a + x - x && b == b + x - x;
  }

  lemma Somewhere<T>(s: seq<T>, r: seq<T>) returns (i: nat)
    requires multiset(s) == multiset(r) && s != []
    ensures i < |r| && r[i] == s[|s| - 1]
  {
    assert s[|s| - 1] in multiset(r);
    i :| 0 <= i < |r| && r[i] == s[|s| - 1];
  }

  /** The order of a list does not change its amounts. */
  lemma {:induction false} AmountPermuted(n: Names, s: seq<Ware>, r: seq<Ware>, c: nat)
    requires multiset(s) == multiset(r)
    ensures Amount(n, s, c) == Amount(n, r, c)
    decreases |s|
  {
    if s == [] {
      assert |multiset(r)| == |r|;
    } else {
      var i := Somewhere(s, r);
      SameRest(s, r, i);
      AmountWithout(n, r, i, c);
      AmountPermuted(n, s[..|s| - 1], r[..i] + r[i + 1..], c);
    }
  }

  lemma CategoryPermuted(n: Names, s: seq<Ware>, r: seq<Ware>, c: nat)
    requires multiset(s) == multiset(r) && HasCategory(n, s, c)
    ensures HasCategory(n, r, c)
  {
    var i :| 0 <= i < |s| && n.catgIndex(s[i].index) == c;
    assert s[i] in multiset(r);
    var j :| 0 <= j < |r| && r[j] == s[i];
  }

  /** The list of goods under headings, without a list of capacities: whatever was merged and
      whatever no longer fitted, each category present has one heading, with the total of
      that category. Below them, what was merged comes in the order of the mode. */
  method SortFreight(n: Names, input: seq<Ware>, mode: Mode)
      returns (hs: seq<Heading>, ghost merged: seq<Ware>, ghost lines: seq<Ware>)
    requires n.Consistent() && Storable(input)
    ensures Shown(input, merged, mode)
    ensures multiset(lines) == multiset(merged) && Sorted(n, mode, lines)
    ensures forall p, q :: 0 <= p < q < |hs| ==> hs[p].category < hs[q].category
    ensures forall p :: 0 <= p < |hs| ==> hs[p].sum == Total(n, input, hs[p].category)
    ensures forall c :: HasHeading(hs, c) <==> Present(n, input, c)
  {
    var list, lost := Merge(n, input, mode);
    var s := Sort(n, mode, list);
    merged, lines := list, s;
    hs := Headings(n, mode, s, lost);
    assert input[..|input|] == input && s[..|s|] == s;
    forall c: nat
      ensures Amount(n, s, c) + Lost(lost, c) == Total(n, input, c)
      ensures HasHeading(hs, c) <==> Present(n, input, c)
    {
      AmountPermuted(n, list, s, c);
      assert Total(n, input[..|input|], c) == Total(n, input, c);
      if HasCategory(n, list, c) { CategoryPermuted(n, list, s, c); }
      if HasCategory(n, s, c) { CategoryPermuted(n, s, list, c); }
      assert Present(n, input[..|input|], c) == Present(n, input, c);
    }
  }

  /** The goods a and b have the same category index exactly when they should. */
  ghost predicate Distinguished(catg: seq<nat>, ci: seq<nat>, a: nat, b: nat)
    requires a < |catg| == |ci| && b < |catg|
  {
    ci[a] == ci[b] <==> a == b || (catg[a] != 0 && catg[a] == catg[b])
  }

  /** How the goods get their category indexes. That works because there are special goods,
      so that no other category gets index 0, which also means that it has none yet. */
  method AssignCategories(catg: seq<nat>) returns (ci: seq<nat>)
    requires exists i :: 0 <= i < |catg| && catg[i] == 0
    ensures |ci| == |catg| && forall a: nat, b: nat :: a < |catg| && b < |catg| ==> Distinguished(catg, ci, a, b)
  {
    ci := seq(|catg|, _ => 0);
    var next := 0;
    for i := 0 to |catg|
      invariant |ci| == |catg| && next <= i && ((exists j :: 0 <= j < i && catg[j] == 0) ==> next > 0)
      invariant forall a :: 0 <= a < i && catg[a] == 0 ==> ci[a] < next
      invariant forall a, b :: 0 <= a < b < i && catg[a] == catg[b] == 0 ==> ci[a] != ci[b]
    {
      if catg[i] == 0 {
        ci := ci[i := next];
        next := next + 1;
      }
    }
    ci := AssignShared(catg, ci, next);
  }

  /** Gives every other category one index. */
  method AssignShared(catg: seq<nat>, special: seq<nat>, first: nat) returns (ci: seq<nat>)
    requires |special| == |catg| && first > 0
    requires forall a :: 0 <= a < |catg| && catg[a] == 0 ==> special[a] < first
    requires forall a, b :: 0 <= a < b < |catg| && catg[a] == catg[b] == 0 ==> special[a] != special[b]
    ensures |ci| == |catg| && forall a: nat, b: nat :: a < |catg| && b < |catg| ==> Distinguished(catg, ci, a, b)
  {
    ci := special;
    var next := first;
    var index: map<nat, nat> := map[];
    for i := 0 to |catg|
      invariant |ci| == |catg| && next >= first && forall a :: 0 <= a < |catg| && catg[a] == 0 ==> ci[a] == special[a]
      invariant forall c :: c in index ==> first <= index[c] < next
      invariant forall c, d :: c in index && d in index && c != d ==> index[c] != index[d]
      invariant forall a :: 0 <= a < i && catg[a] != 0 ==> catg[a] in index && ci[a] == index[catg[a]]
    {
      if catg[i] > 0 {
        if (if catg[i] in index then index[catg[i]] else 0) == 0 {
          index := index[catg[i] := next];
          next := next + 1;
        }
        ci := ci[i := index[catg[i]]];
      }
    }
  }
}
