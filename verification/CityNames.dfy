/** Finding a name for a new city that no other city has. */
module CityNames {
  import opened SaturatedMath

  const SOME_PRIMES := [19, 31, 109, 199, 409, 571, 631, 829, 1489, 1999, 2341, 2971, 3529, 4621, 4789, 7039, 7669,
                        8779, 9721]

  ghost predicate Prime(p: nat) {
    p > 1 && forall m: nat, k: nat :: m * k == p ==> m == 1 || k == 1
  }

  /** None of d, d + 2 and so on up to e divides n. */
  predicate NoDivisor(n: nat, d: nat, e: nat)
    requires d > 1
    decreases e - d
  {
    d > e || (n % d != 0 && NoDivisor(n, d + 2, e))
  }

  lemma {:induction false} NoDivisorAt(n: nat, d: nat, e: nat, k: nat)
    requires 1 < d <= d + 2 * k <= e && NoDivisor(n, d, e)
    ensures n % (d + 2 * k) != 0
    decreases k
  {
    if k > 0 {
      NoDivisorAt(n, d + 2, e, k - 1);
      assert d + 2 + 2 * (k - 1) == d + 2 * k;
    }
  }

  lemma MultipleMod(a: nat, q: nat, n: nat)
    requires n > 0
    ensures (a + q * n) % n == a % n && q * n % n == 0
  {
    Remains(a, n);
    assert (a / n + q) * n == a / n * n + q * n;
    DividesOnce(a + q * n, n, a / n + q, a % n);
    DividesOnce(q * n, n, q, 0);
  }

  /** An odd number without an odd divisor up to e has none at all up to there. */
  lemma {:induction false} NoFactor(p: nat, e: nat, m: nat, k: nat)
    requires p % 2 == 1 && NoDivisor(p, 3, e) && m * k == p && m > 1
    ensures m > e
  {
    assert k * m == p && m * k == p;
    MultipleMod(0, k, m);
    if m % 2 == 0 {
      var h := m / 2;
      assert m == 2 * h;
      assert p == 2 * h * k == h * k * 2;
      MultipleMod(0, h * k, 2);
    } else if m <= e {
      var j := (m - 3) / 2;
      assert m == 3 + 2 * j;
      NoDivisorAt(p, 3, e, j);
    }
  }

  /** To be a prime it is enough to have no divisor up to the square root. */
  lemma {:induction false} NoSmallDivisor(p: nat, e: nat)
    requires p % 2 == 1 && p > 1 && NoDivisor(p, 3, e) && (e + 1) * (e + 1) > p
    ensures Prime(p)
  {
    forall m: nat, k: nat | m * k == p
      ensures m == 1 || k == 1
    {
      assert m > 0 && k > 0 && k * m == p;
      if m > 1 && k > 1 {
        NoFactor(p, e, m, k);
        NoFactor(p, e, k, m);
        Larger(e + 1, m, k);
      }
    }
  }

  lemma Larger(a: nat, m: nat, k: nat)
    requires a <= m && a <= k
    ensures a * a <= m * k
  {
    assert m * k == a * k + (m - a) * k;
    assert a * k == a * a + a * (k - a);
  }

  lemma Primes0()
    ensures Prime(19) && Prime(31) && Prime(109) && Prime(199) && Prime(409) && Prime(571)
  {
    assert NoDivisor(19, 3, 4);
    NoSmallDivisor(19, 4);
    assert NoDivisor(31, 3, 5);
    NoSmallDivisor(31, 5);
    assert NoDivisor(109, 3, 10);
    NoSmallDivisor(109, 10);
    assert NoDivisor(199, 3, 14);
    NoSmallDivisor(199, 14);
    assert NoDivisor(409, 17, 20) && NoDivisor(409, 3, 20);
    NoSmallDivisor(409, 20);
    assert NoDivisor(571, 17, 23) && NoDivisor(571, 3, 23);
    NoSmallDivisor(571, 23);
  }

  lemma Primes1()
    ensures Prime(631) && Prime(829) && Prime(1489)
  {
    assert NoDivisor(631, 17, 25) && NoDivisor(631, 3, 25);
    NoSmallDivisor(631, 25);
    assert NoDivisor(829, 17, 28) && NoDivisor(829, 3, 28);
    NoSmallDivisor(829, 28);
    assert NoDivisor(1489, 31, 38) && NoDivisor(1489, 17, 38) && NoDivisor(1489, 3, 38);
    NoSmallDivisor(1489, 38);
  }

  lemma Primes2()
    ensures Prime(1999) && Prime(2341)
  {
    assert NoDivisor(1999, 31, 44) && NoDivisor(1999, 17, 44) && NoDivisor(1999, 3, 44);
    NoSmallDivisor(1999, 44);
    assert NoDivisor(2341, 45, 48) && NoDivisor(2341, 31, 48) && NoDivisor(2341, 17, 48) && NoDivisor(2341, 3, 48);
    NoSmallDivisor(2341, 48);
  }

  lemma Primes3()
    ensures Prime(2971) && Prime(3529)
  {
    assert NoDivisor(2971, 45, 54) && NoDivisor(2971, 31, 54) && NoDivisor(2971, 17, 54) && NoDivisor(2971, 3, 54);
    NoSmallDivisor(2971, 54);
    assert NoDivisor(3529, 59, 59) && NoDivisor(3529, 45, 59) && NoDivisor(3529, 31, 59) && NoDivisor(3529, 17, 59)
            && NoDivisor(3529, 3, 59);
    NoSmallDivisor(3529, 59);
  }

  lemma Primes4()
    ensures Prime(4621) && Prime(4789)
  {
    assert NoDivisor(4621, 59, 67) && NoDivisor(4621, 45, 67) && NoDivisor(4621, 31, 67) && NoDivisor(4621, 17, 67)
            && NoDivisor(4621, 3, 67);
    NoSmallDivisor(4621, 67);
    assert NoDivisor(4789, 59, 69) && NoDivisor(4789, 45, 69) && NoDivisor(4789, 31, 69) && NoDivisor(4789, 17, 69)
            && NoDivisor(4789, 3, 69);
    NoSmallDivisor(4789, 69);
  }

  lemma Primes5()
    ensures Prime(7039) && Prime(7669)
  {
    assert NoDivisor(7039, 73, 83) && NoDivisor(7039, 59, 83) && NoDivisor(7039, 45, 83) && NoDivisor(7039, 31, 83)
            && NoDivisor(7039, 17, 83) && NoDivisor(7039, 3, 83);
    NoSmallDivisor(7039, 83);
    assert NoDivisor(7669, 87, 87) && NoDivisor(7669, 73, 87) && NoDivisor(7669, 59, 87) && NoDivisor(7669, 45, 87)
            && NoDivisor(7669, 31, 87) && NoDivisor(7669, 17, 87) && NoDivisor(7669, 3, 87);
    NoSmallDivisor(7669, 87);
  }

  lemma Primes6()
    ensures Prime(8779)
  {
    assert NoDivisor(8779, 87, 93) && NoDivisor(8779, 73, 93) && NoDivisor(8779, 59, 93) && NoDivisor(8779, 45, 93)
            && NoDivisor(8779, 31, 93) && NoDivisor(8779, 17, 93) && NoDivisor(8779, 3, 93);
    NoSmallDivisor(8779, 93);
  }

  lemma Primes7()
    ensures Prime(9721)
  {
    assert NoDivisor(9721, 87, 98) && NoDivisor(9721, 73, 98) && NoDivisor(9721, 59, 98) && NoDivisor(9721, 45, 98)
            && NoDivisor(9721, 31, 98) && NoDivisor(9721, 17, 98) && NoDivisor(9721, 3, 98);
    NoSmallDivisor(9721, 98);
  }

  lemma AllPrime()
    ensures forall i :: 0 <= i < |SOME_PRIMES| ==> Prime(SOME_PRIMES[i])
  {
    Primes0();
    Primes1();
    Primes2();
    Primes3();
    Primes4();
    Primes5();
    Primes6();
    Primes7();
  }

  /** A number the walk may step by without missing an index. */
  ghost predicate Coprime(offset: nat, count: nat) {
    offset == 1 || (Prime(offset) && count % offset != 0)
  }

  /** The first n of the primes divide the count. */
  ghost predicate DividesUpTo(count: nat, n: int) {
    0 <= n <= |SOME_PRIMES| && forall j :: 0 <= j < n ==> count % SOME_PRIMES[j] == 0
  }

  /** The first of the primes that does not divide the count, or 1 if they all do. */
  method Stride(count: nat) returns (offset: nat)
    requires count > 0
    ensures Coprime(offset, count) && 0 < offset
    ensures forall i :: 0 <= i < |SOME_PRIMES| && DividesUpTo(count, i) && count % SOME_PRIMES[i] != 0 ==>
              offset == SOME_PRIMES[i]
    ensures DividesUpTo(count, |SOME_PRIMES|) ==> offset == 1
  {
    AllPrime();
    offset := 1;
    var i := 0;
    while i < |SOME_PRIMES|
      invariant 0 <= i <= |SOME_PRIMES| && offset == 1
      invariant DividesUpTo(count, i)
    {
      if count % SOME_PRIMES[i] != 0 {
        offset := SOME_PRIMES[i];
        break;
      }
      i := i + 1;
    }
  }

  /** The index after n steps. */
  function Walk(idx: nat, offset: nat, count: nat, n: nat): nat
    requires count > 0
  {
    (idx + n * offset) % count
  }

  /** n steps by the offset come back to where they started. */
  predicate Round(offset: nat, count: nat, n: nat)
    requires count > 0
  {
    n * offset % count == 0
  }

  /** The least number of steps that do. */
  lemma {:induction false} LeastRound(offset: nat, count: nat, k: nat) returns (g: nat)
    requires count > 0 && k > 0 && Round(offset, count, k)
    ensures 0 < g <= k && Round(offset, count, g) && forall j :: 0 < j < g ==> !Round(offset, count, j)
    decreases k
  {
    if j :| 0 < j < k && Round(offset, count, j) {
      g := LeastRound(offset, count, j);
    } else {
      g := k;
    }
  }

  /** The least such number divides the count. */
  lemma LeastDivides(offset: nat, count: nat, g: nat)
    requires count > 0 && g > 0 && Round(offset, count, g) && forall j :: 0 < j < g ==> !Round(offset, count, j)
    ensures count % g == 0
  {
    Remains(count, g);
    Remains(g * offset, count);
    RestRound(offset, count, g, count / g, count % g, g * offset / count);
  }

  /** What is left of the count after some rounds of g steps comes back too. */
  lemma RestRound(offset: nat, count: nat, g: nat, q: nat, r: nat, t: nat)
    requires count > 0 && count == q * g + r && g * offset == t * count
    ensures Round(offset, count, r)
  {
    Distribute(q * g, r, offset);
    Group(q, g, offset);
    Group(q, t, count);
    MultipleMod(r * offset, q * t, count);
    MultipleMod(0, offset, count);
    assert r * offset + q * t * count == count * offset == offset * count;
  }

  lemma Group(x: nat, y: nat, z: nat)
    ensures x * y * z == x * (y * z)
  {
  }

  lemma Cancel(g: nat, a: nat, b: nat)
    requires g > 0 && a * g == b * g
    ensures a == b
  {
    OneMore(a, g);
    OneMore(b, g);
    if a < b {
      Scale(a + 1, b, g);
    } else if b < a {
      Scale(b + 1, a, g);
    }
  }

  /** A number of steps that divides the count and comes back is the whole count. */
  lemma WholeRound(offset: nat, count: nat, g: nat)
    requires count > 0 && g > 0 && Prime(offset) && count % offset != 0 && count % g == 0 && Round(offset, count, g)
    ensures g == count
  {
    var m, t := count / g, g * offset / count;
    Remains(count, g);
    Remains(g * offset, count);
    Factors(offset, count, g, m, t);
    assert t * m == offset;
    assert t == 1 || m == 1;
    if t == 1 {
      MultipleMod(0, g, offset);
      assert count == m * g == g * m;
    }
  }

  lemma Factors(offset: nat, count: nat, g: nat, m: nat, t: nat)
    requires g > 0 && count == m * g && g * offset == t * count
    ensures t * m == offset
  {
    assert t * (m * g) == t * m * g && g * offset == offset * g;
    Cancel(g, t * m, offset);
  }

  /** Fewer steps than there are indices never come back. */
  lemma NoShortRound(offset: nat, count: nat, k: nat)
    requires count > 0 && Coprime(offset, count) && 0 < k < count
    ensures !Round(offset, count, k)
  {
    if offset == 1 {
      assert k * offset == k;
      Remains(k, count);
      DividesOnce(k, count, 0, k);
    } else if Round(offset, count, k) {
      var g := LeastRound(offset, count, k);
      LeastDivides(offset, count, g);
      WholeRound(offset, count, g);
    }
  }

  lemma StepsApart(idx: nat, offset: nat, count: nat, i: nat, j: nat)
    requires count > 0 && i < j && Walk(idx, offset, count, i) == Walk(idx, offset, count, j)
    ensures Round(offset, count, j - i)
  {
    var a, b, d := idx + i * offset, idx + j * offset, (j - i) * offset;
    assert b == a + d;
    Remains(a, count);
    Remains(b, count);
    var q := b / count - a / count;
    assert d == q * count by {
      assert b / count * count - a / count * count == q * count;
    }
    assert q >= 0 by {
      if q < 0 { Negative(q, count); }
    }
    MultipleMod(0, q, count);
  }

  lemma Negative(q: int, count: nat)
    requires q < 0 && count > 0
    ensures q * count < 0
  {
  }

  /** The walk comes to the index x. */
  ghost predicate Visits(idx: nat, offset: nat, count: nat, x: nat)
    requires count > 0
  {
    exists i :: 0 <= i < count && Walk(idx, offset, count, i) == x
  }

  ghost function Visited(idx: nat, offset: nat, count: nat): (s: seq<nat>)
    requires count > 0
    ensures |s| == count && forall i :: 0 <= i < count ==> s[i] == Walk(idx, offset, count, i)
  {
    seq(count, i requires 0 <= i < count => Walk(idx, offset, count, i))
  }

  lemma NeverTwice(idx: nat, offset: nat, count: nat, i: nat, j: nat)
    requires count > 0 && Coprime(offset, count) && i < j < count
    ensures Walk(idx, offset, count, i) != Walk(idx, offset, count, j)
  {
    if Walk(idx, offset, count, i) == Walk(idx, offset, count, j) {
      StepsApart(idx, offset, count, i, j);
      NoShortRound(offset, count, j - i);
    }
  }

  /** The walk visits every index exactly once. */
  lemma WalkIsPermutation(idx: nat, offset: nat, count: nat)
    requires count > 0 && Coprime(offset, count)
    ensures forall i, j :: 0 <= i < j < count ==> Walk(idx, offset, count, i) != Walk(idx, offset, count, j)
    ensures forall x {:trigger Visits(idx, offset, count, x)} :: 0 <= x < count ==> Visits(idx, offset, count, x)
  {
    forall i: nat, j: nat | i < j < count
      ensures Walk(idx, offset, count, i) != Walk(idx, offset, count, j)
    {
      NeverTwice(idx, offset, count, i, j);
    }
    var s := Visited(idx, offset, count);
    Pigeons(s, count);
    forall x | 0 <= x < count
      ensures Visits(idx, offset, count, x)
    {
      assert x in s;
      var i :| 0 <= i < |s| && s[i] == x;
      assert Walk(idx, offset, count, i) == x;
    }
  }

  /** n different numbers below n are all the numbers below n. */
  lemma Pigeons(s: seq<nat>, n: nat)
    requires |s| == n && (forall i, j :: 0 <= i < j < n ==> s[i] != s[j]) && forall i :: 0 <= i < n ==> s[i] < n
    ensures forall x :: 0 <= x < n ==> x in s
  {
    MembersCount(s);
    forall x | 0 <= x < n
      ensures x in s
    {
      if x !in s {
        assert x in Below(n);
        Smaller(Members(s), Below(n));
      }
    }
  }

  lemma Smaller(a: set<nat>, b: set<nat>)
    requires a < b
    ensures |a| < |b|
  {
    assert b == a + (b - a);
  }

  ghost function Members(s: seq<nat>): (r: set<nat>)
    ensures forall x :: x in r <==> x in s
  {
    if s == [] then {} else
      assert s == s[..|s| - 1] + [s[|s| - 1]];
      Members(s[..|s| - 1]) + {s[|s| - 1]}
  }

  lemma {:induction false} MembersCount(s: seq<nat>)
    requires forall i, j :: 0 <= i < j < |s| ==> s[i] != s[j]
    ensures |Members(s)| == |s|
  {
    if s != [] {
      MembersCount(s[..|s| - 1]);
      assert s[|s| - 1] !in s[..|s| - 1];
    }
  }

  ghost function Below(n: nat): (r: set<nat>)
    ensures |r| == n && forall x: nat :: x in r <==> x < n
  {
    if n == 0 then {} else Below(n - 1) + {n - 1}
  }

  /** Walks over the names until one is not used. */
  method Probe(names: seq<string>, used: string -> bool, start: nat, offset: nat) returns (found: bool, name: string)
    requires start < |names| && Coprime(offset, |names|)
    ensures if found then name in names && !used(name) else forall n :: n in names ==> used(n)
  {
    var count := |names|;
    WalkStarts(start, offset, count);
    name := "";
    var i, idx := 0, start;
    while i < count
      invariant 0 <= i <= count && idx == Walk(start, offset, count, i)
      invariant forall j :: 0 <= j < i ==> used(names[Walk(start, offset, count, j)])
    {
      if !used(names[idx]) {
        return true, names[idx];
      }
      WalkNext(start, offset, count, i);
      idx := (idx + offset) % count;
      i := i + 1;
    }
    WalkIsPermutation(start, offset, count);
    forall n | n in names
      ensures used(n)
    {
      var x :| 0 <= x < count && names[x] == n;
      assert Visits(start, offset, count, x);
    }
    found := false;
  }

  /** Looks for a name that is not used, from a random one on. If there is one, one is found. */
  method FindName(names: seq<string>, used: string -> bool, rand: nat) returns (name: string)
    ensures if exists n :: n in names && !used(n) then name in names && !used(name) else name == "simcity"
  {
    if |names| == 0 {
      return "simcity";
    }
    var offset := Stride(|names|);
    var found;
    found, name := Probe(names, used, rand % |names|, offset);
    if !found {
      name := "simcity";
    }
  }

  lemma WalkStarts(idx: nat, offset: nat, count: nat)
    requires idx < count
    ensures Walk(idx, offset, count, 0) == idx
  {
    assert 0 * offset == 0;
    DividesOnce(idx, count, 0, idx);
  }

  lemma WalkNext(idx: nat, offset: nat, count: nat, n: nat)
    requires count > 0
    ensures Walk(idx, offset, count, n + 1) == (Walk(idx, offset, count, n) + offset) % count
  {
    var a := idx + n * offset;
    assert idx + (n + 1) * offset == a + offset;
    Remains(a, count);
    MultipleMod(a % count + offset, a / count, count);
  }
}
