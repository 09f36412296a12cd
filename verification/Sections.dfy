/** The parts of a schedule that a convoy may skip, and how they are found. */
module Sections {

  datatype Option<T> = None | Some(value: T)

  /** From one entry of a schedule to another, maybe around its end. */
  datatype Section = Section(start: nat, end: nat)
  {
    predicate Contains(index: nat) {
      if start <= end then start <= index <= end else index >= start || index <= end
    }
  }

  datatype Flags = Flags(start: bool, end: bool)

  /** The entry a steps after i, in a schedule of n entries. */
  function After(n: nat, i: nat, a: nat): (j: nat)
    requires i < n && a <= n
    ensures j < n
  {
    if i + a < n then i + a else i + a - n
  }

  /** How far the section that starts at s reaches: to an END, or to just before a START. */
  function Reach(f: seq<Flags>, s: nat, k: nat): (len: nat)
    requires s < |f| && 1 <= k <= |f|
    ensures k - 1 <= len < |f|
    decreases |f| - k
  {
    if k == |f| then |f| - 1
    else if f[After(|f|, s, k)].end then k
    else if f[After(|f|, s, k)].start then k - 1
    else Reach(f, s, k + 1)
  }

  /** The entry is a steps after a START, with no other START between them. */
  ghost predicate StartsBefore(f: seq<Flags>, index: nat, s: nat, a: nat) {
    && s < |f| && a < |f| && After(|f|, s, a) == index && f[s].start
    && forall k :: 1 <= k <= a ==> !f[After(|f|, s, k)].start
  }

  ghost predicate SectionAt(f: seq<Flags>, index: nat, sec: Section) {
    exists a: nat :: a < |f| && EnclosedAt(f, index, sec, a)
  }

  ghost predicate EnclosedAt(f: seq<Flags>, index: nat, sec: Section, a: nat) {
    && StartsBefore(f, index, sec.start, a)
    && if f[sec.start].end then a == 0 && sec.end == sec.start
       else a <= Reach(f, sec.start, 1) < |f| - 1 && sec.end == After(|f|, sec.start, Reach(f, sec.start, 1))
  }

  /** Finds the section that encloses an entry. */
  method GetNoGoNoUsersSection(f: seq<Flags>, index: nat) returns (r: Option<Section>)
    ensures r.Some? ==> SectionAt(f, index, r.value) && r.value.Contains(index)
    ensures r.None? ==> forall sec :: !SectionAt(f, index, sec)
  {
    var count := |f|;
    if count == 0 || index >= count {
      return None;
    }
    var start, steps := index, 0;
    while !f[start].start
      invariant 0 <= start < count && 0 <= steps < count && After(count, start, steps) == index
      invariant forall k :: 1 <= k <= steps ==> !f[After(count, start, k)].start
      decreases count - steps
    {
      ghost var was := start;
      start := if start == 0 then count - 1 else start - 1;
      steps := steps + 1;
      assert forall k :: 1 <= k <= count ==> After(count, start, k) == After(count, was, k - 1);
      if steps >= count {
        NoStart(f, start, index);
        return None;
      }
    }
    assert StartsBefore(f, index, start, steps);
    forall t: nat, b: nat | StartsBefore(f, index, t, b)
      ensures t == start && b == steps
    {
      OneStart(f, index, start, steps, t, b);
    }
    if f[start].end {
      if index != start {
        return None;
      }
      assert EnclosedAt(f, index, Section(start, start), 0);
      return Some(Section(start, start));
    }
    var end := ScanForEnd(f, start);
    OffsetInside(count, start, Reach(f, start, 1), index, steps);
    if (end + 1) % count == start {
      return None;
    }
    var sec := Section(start, end);
    if !sec.Contains(index) {
      return None;
    }
    assert EnclosedAt(f, index, sec, steps);
    return Some(sec);
  }

  method ScanForEnd(f: seq<Flags>, start: nat) returns (end: nat)
    requires start < |f|
    ensures end == After(|f|, start, Reach(f, start, 1))
    ensures (end + 1) % |f| == start <==> Reach(f, start, 1) == |f| - 1
  {
    var count := |f|;
    end := start;
    NextIs(count, start);
    var j := (start + 1) % count;
    ghost var k := 1;
    while j != start
      invariant 1 <= k <= count && j == After(count, start, k) && end == After(count, start, k - 1)
      invariant Reach(f, start, 1) == Reach(f, start, k)
      decreases count - k
    {
      if f[j].end {
        end := j;
        break;
      }
      if f[j].start {
        end := if j == 0 then count - 1 else j - 1;
        break;
      }
      end := j;
      NextIs(count, j);
      j := (j + 1) % count;
      k := k + 1;
    }
    NextIs(count, end);
  }

  lemma NextIs(n: nat, i: nat)
    requires i < n
    ensures (i + 1) % n == After(n, i, 1)
  {
    if i + 1 == n {
      assert n % n == 0;
    }
  }

  lemma NoStart(f: seq<Flags>, s: nat, index: nat)
    requires s < |f| && index < |f| && forall k :: 1 <= k <= |f| ==> !f[After(|f|, s, k)].start
    ensures forall i :: 0 <= i < |f| ==> !f[i].start
    ensures forall sec :: !SectionAt(f, index, sec)
  {
    forall i | 0 <= i < |f|
      ensures !f[i].start
    {
      var k := if i > s then i - s else i + |f| - s;
      assert After(|f|, s, k) == i;
    }
  }

  /** An entry has only one START before it. */
  lemma OneStart(f: seq<Flags>, index: nat, s: nat, a: nat, t: nat, b: nat)
    requires StartsBefore(f, index, s, a) && StartsBefore(f, index, t, b)
    ensures s == t && a == b
  {
    if a < b {
      StepsBack(|f|, t, b, s, a);
    } else if b < a {
      StepsBack(|f|, s, a, t, b);
    }
  }

  lemma StepsBack(n: nat, t: nat, b: nat, s: nat, a: nat)
    requires t < n && s < n && a <= b < n && After(n, t, b) == After(n, s, a)
    ensures After(n, t, b - a) == s
  {
  }

  lemma OffsetInside(n: nat, s: nat, len: nat, index: nat, a: nat)
    requires s < n && len < n && a < n && After(n, s, a) == index
    ensures Section(s, After(n, s, len)).Contains(index) <==> a <= len
  {
  }

  /** No START lies inside a section, and one at its end only if that entry is an END too. */
  lemma {:induction false} ReachFree(f: seq<Flags>, s: nat, k: nat, j: nat)
    requires s < |f| && 1 <= k <= |f| && k <= j <= Reach(f, s, k) && Reach(f, s, k) < |f| - 1
    ensures f[After(|f|, s, j)].start ==> j == Reach(f, s, k)
    decreases |f| - k
  {
    if k < |f| && !f[After(|f|, s, k)].end && !f[After(|f|, s, k)].start && j > k {
      ReachFree(f, s, k + 1, j);
    }
  }

  lemma OffsetOf(n: nat, s: nat, len: nat, x: nat) returns (a: nat)
    requires s < n && len < n && x < n && Section(s, After(n, s, len)).Contains(x)
    ensures a <= len && After(n, s, a) == x
  {
    a := if x >= s then x - s else x + n - s;
  }

  /** The entries of a section are enclosed by it and by no other, but for one case: where the
      END of a section is itself a section of one entry, that entry belongs to the latter. */
  lemma SameSection(f: seq<Flags>, index: nat, sec: Section, other: nat)
    requires SectionAt(f, index, sec) && other < |f| && sec.Contains(other)
    ensures SectionAt(f, other, sec) <==> other == sec.start || other != sec.end || !f[other].start
  {
    var n, s := |f|, sec.start;
    var len := if f[s].end then 0 else Reach(f, s, 1);
    var a := OffsetOf(n, s, len, other);
    forall k | 1 <= k <= a
      ensures f[After(n, s, k)].start ==> k == len
    {
      ReachFree(f, s, 1, k);
    }
    if other == s || other != sec.end || !f[other].start {
      assert EnclosedAt(f, other, sec, a);
    } else {
      assert a == len > 0;
      ClosedByStart(f, other, s, a);
    }
  }

  lemma ClosedByStart(f: seq<Flags>, index: nat, s: nat, a: nat)
    requires s < |f| && 0 < a < |f| && After(|f|, s, a) == index && f[index].start
    ensures forall b: nat :: !StartsBefore(f, index, s, b)
  {
    forall b: nat | b < |f| && After(|f|, s, b) == index
      ensures b == a
    {
    }
  }

  lemma OnlySection(f: seq<Flags>, index: nat, sec: Section, other: Section)
    requires SectionAt(f, index, sec) && SectionAt(f, index, other)
    ensures sec == other
  {
    var a: nat :| a < |f| && EnclosedAt(f, index, sec, a);
    var b: nat :| b < |f| && EnclosedAt(f, index, other, b);
    OneStart(f, index, sec.start, a, other.start, b);
  }

  /** START, a plain entry, START and END in one, a plain entry: the third entry lies in the
      section of the first and is enclosed only by its own. */
  lemma EndOfItsOwn()
    ensures var plain := Flags(false, false);
      var f := [Flags(true, false), plain, Flags(true, true), plain];
      && SectionAt(f, 0, Section(0, 2)) && Section(0, 2).Contains(2)
      && !SectionAt(f, 2, Section(0, 2)) && SectionAt(f, 2, Section(2, 2))
  {
    var plain := Flags(false, false);
    var f := [Flags(true, false), plain, Flags(true, true), plain];
    assert Reach(f, 0, 2) == 2 && Reach(f, 0, 1) == 2;
    assert EnclosedAt(f, 0, Section(0, 2), 0) && EnclosedAt(f, 2, Section(2, 2), 0);
    SameSection(f, 0, Section(0, 2), 2);
  }
}
