/** Whether a convoy chain stops in a part of its schedule that may be skipped. To find out,
    the convoys of the chain ask each other, and themselves, over and over. */
module SkipSections {

  import opened Sections

  /** A verdict on a section; a verdict that is not locked holds for one step only. */
  datatype Decision = Decision(section: Section, demand: bool, locked: bool, step: int)

  /** What the search for reachable halts does with an entry of the line. */
  datatype Look =
    | Leave                            // the search ends before it
    | Pass                             // it is passed over
    | Take                             // it is taken without a question
    | Ask(index: nat, depot: bool)     // it is taken if the chain stops there and it is no depot

  /** All that the verdicts depend on but do not change. */
  datatype Plan = Plan(
    count: nat -> nat,                                // the length of a convoy's schedule
    current: nat -> nat,                              // its current stop
    waypoint: (nat, nat) -> bool,
    flags: nat -> seq<Flags>,                         // where the sections of its schedule start and end
    lineCount: nat -> nat,                            // the length of the line's schedule
    look: (nat, nat, nat, seq<nat>) -> Look,          // convoy, from, i-th entry after it, halts so far
    last: (nat, nat, nat, seq<nat>) -> bool,          // nothing is reachable beyond
    needs: (nat, nat) -> bool,                        // has cargo for an entry aboard
    loads: (nat, nat, seq<nat>) -> bool,              // would load there for these halts
    before: (nat, Section) -> Option<nat>,            // the stop before a section, while loading there
    loadsFor: (nat, Section, seq<nat>) -> bool)       // would load there for the section

  /** The entry `offset` entries ahead in a convoy's own schedule. */
  function At(p: Plan, c: nat, offset: nat): nat {
    if p.count(c) == 0 then 0 else (p.current(c) + offset) % p.count(c)
  }

  /** The k-th entry of the walk over a section. */
  function Walked(p: Plan, c: nat, section: Section, k: nat): nat {
    if k == 0 then section.start
    else if p.count(c) == 0 then 0 else (Walked(p, c, section, k - 1) + 1) % p.count(c)
  }

  /** The walk over the section comes to its k-th entry. */
  ghost predicate Walks(p: Plan, c: nat, section: Section, k: nat) {
    k < p.count(c) && forall j: nat :: j < k ==> Walked(p, c, section, j) != section.end
  }

  /** Whatever the convoys answer each other, there is demand at the k-th entry of the walk:
      cargo aboard for it, or something to load there for any halts. */
  ghost predicate MustStop(p: Plan, c: nat, section: Section, k: nat) {
    var index := Walked(p, c, section, k);
    Walks(p, c, section, k) && (p.needs(c, index) || forall halts :: p.loads(c, index, halts))
  }

  /** There may be demand at the k-th entry of the walk. */
  ghost predicate MayStop(p: Plan, c: nat, section: Section, k: nat) {
    var index := Walked(p, c, section, k);
    Walks(p, c, section, k) && (p.needs(c, index) || exists halts :: p.loads(c, index, halts))
  }

  /** Whatever the convoys answer each other, there is demand in the section. */
  ghost predicate MustDemand(p: Plan, c: nat, section: Section) {
    || (exists k: nat :: MustStop(p, c, section, k))
    || (p.count(c) > 0 && p.before(c, section).Some? && forall halts :: p.loadsFor(c, section, halts))
  }

  /** There may be demand in the section. */
  ghost predicate MayDemand(p: Plan, c: nat, section: Section) {
    || (exists k: nat :: MayStop(p, c, section, k))
    || (p.count(c) > 0 && p.before(c, section).Some? && exists halts :: p.loadsFor(c, section, halts))
  }

  /** What the plan alone says of an answer to the question for demand. */
  ghost predicate Answers(p: Plan, c: nat, section: Section, demand: bool) {
    (MustDemand(p, c, section) ==> demand) && (demand ==> MayDemand(p, c, section))
  }

  ghost predicate OnePerSection(s: seq<Decision>) {
    forall i, j :: 0 <= i < j < |s| ==> s[i].section != s[j].section
  }

  /** Locked verdicts stay as they are. */
  ghost predicate LockedKept(s: seq<Decision>, r: seq<Decision>) {
    forall d :: d in s && d.locked ==> d in r
  }

  /** The verdict d still counts, unchanged. */
  ghost predicate Still(r: seq<Decision>, d: Decision, now: int) {
    exists e :: e in r && e.section == d.section && e.demand == d.demand
            && if d.locked then e == d else e.locked || e.step == now
  }

  /** Verdicts that count now still count. */
  ghost predicate VerdictsKept(s: seq<Decision>, r: seq<Decision>, now: int) {
    forall d :: d in s && (d.locked || d.step == now) ==> Still(r, d, now)
  }

  lemma VerdictsLocked(s: seq<Decision>, r: seq<Decision>, now: int)
    requires VerdictsKept(s, r, now)
    ensures LockedKept(s, r)
  {
    forall d | d in s && d.locked
      ensures d in r
    {
      assert Still(r, d, now);
    }
  }

  lemma VerdictsTwice(s: seq<Decision>, r: seq<Decision>, q: seq<Decision>, now: int)
    requires VerdictsKept(s, r, now) && VerdictsKept(r, q, now)
    ensures VerdictsKept(s, q, now)
  {
    forall d | d in s && (d.locked || d.step == now)
      ensures Still(q, d, now)
    {
      assert Still(r, d, now);
      var e :| e in r && e.section == d.section && e.demand == d.demand
              && if d.locked then e == d else e.locked || e.step == now;
      assert Still(q, e, now);
    }
  }

  /** Nothing happened but the locking of fresh verdicts. */
  ghost predicate OnlyLocked(s: seq<Decision>, r: seq<Decision>, now: int) {
    && |r| == |s|
    && forall i :: 0 <= i < |s| ==> r[i] == s[i] || (s[i].step == now && !s[i].locked && r[i] == s[i].(locked := true))
  }

  /** The memo after any number of questions while the convoys in `busy` were evaluating. */
  ghost predicate Kept(m: map<nat, seq<Decision>>, n: map<nat, seq<Decision>>, busy: set<nat>, now: int) {
    && n.Keys == m.Keys
    && forall c :: c in m ==> VerdictsKept(m[c], n[c], now) && (c in busy ==> OnlyLocked(m[c], n[c], now))
  }

  lemma KeptTwice(m: map<nat, seq<Decision>>, n: map<nat, seq<Decision>>, o: map<nat, seq<Decision>>, busy: set<nat>,
                  now: int)
    requires Kept(m, n, busy, now) && Kept(n, o, busy, now)
    ensures Kept(m, o, busy, now)
  {
    forall c | c in m
      ensures VerdictsKept(m[c], o[c], now)
    {
      VerdictsTwice(m[c], n[c], o[c], now);
    }
  }

  lemma NothingAsked(m: map<nat, seq<Decision>>, busy: set<nat>, now: int)
    ensures Kept(m, m, busy, now)
  {
    forall c | c in m
      ensures VerdictsKept(m[c], m[c], now)
    {
      assert forall d :: d in m[c] && (d.locked || d.step == now) ==> Still(m[c], d, now);
    }
  }

  lemma OnlyLockedKeeps(s: seq<Decision>, r: seq<Decision>, now: int)
    requires OnlyLocked(s, r, now)
    ensures VerdictsKept(s, r, now) && (OnePerSection(s) ==> OnePerSection(r))
  {
    forall d | d in s && (d.locked || d.step == now)
      ensures Still(r, d, now)
    {
      var i :| 0 <= i < |s| && s[i] == d;
      assert r[i] in r;
    }
  }

  /** The place of the verdict on a section, or the end of the list. */
  method Find(s: seq<Decision>, section: Section) returns (i: nat)
    ensures i <= |s| && (i < |s| ==> s[i].section == section)
    ensures forall j :: 0 <= j < i ==> s[j].section != section
  {
    i := 0;
    while i < |s| && s[i].section != section
      invariant i <= |s| && forall j :: 0 <= j < i ==> s[j].section != section
    {
      i := i + 1;
    }
  }

  /** A verdict that counts now. */
  ghost predicate Holds(s: seq<Decision>, section: Section, now: int) {
    exists d :: d in s && d.section == section && (d.locked || d.step == now)
  }

  function Write(s: seq<Decision>, i: nat, d: Decision): seq<Decision>
    requires i <= |s|
  {
    if i < |s| then s[i := d] else s + [d]
  }

  lemma Written(s: seq<Decision>, r: seq<Decision>, i: nat, d: Decision, now: int)
    requires OnePerSection(s) && OnlyLocked(s, r, now) && i <= |r| && (i < |r| ==> r[i].section == d.section)
    requires forall j :: 0 <= j < i ==> r[j].section != d.section
    requires !Holds(s, d.section, now) && d.step == now
    ensures OnePerSection(Write(r, i, d)) && VerdictsKept(s, Write(r, i, d), now)
    ensures d in Write(r, i, d) && forall e :: e in Write(r, i, d) && e != d ==> e in r && e.section != d.section
  {
    OnlyLockedKeeps(s, r, now);
    var w := Write(r, i, d);
    assert w[i] == d;
    forall e | e in w && e != d
      ensures e in r && e.section != d.section
    {
      var k :| 0 <= k < |w| && w[k] == e;
      assert e == r[k];
      assert i < |r| ==> k != i && r[i].section != r[k].section;
    }
    forall e | e in s && (e.locked || e.step == now)
      ensures Still(w, e, now)
    {
      assert e.section != d.section && Still(r, e, now);
      var f :| f in r && f.section == e.section && f.demand == e.demand
              && if e.locked then f == e else f.locked || f.step == now;
      var k :| 0 <= k < |r| && r[k] == f;
      assert w[k] == f;
    }
  }

  /** The verdict on a section that counts now. */
  ghost predicate Verdict(s: seq<Decision>, section: Section, demand: bool, now: int) {
    exists d :: d in s && d.section == section && d.demand == demand && (d.locked || d.step == now)
  }

  lemma VerdictStays(s: seq<Decision>, r: seq<Decision>, section: Section, demand: bool, now: int)
    requires VerdictsKept(s, r, now) && Verdict(s, section, demand, now)
    ensures Verdict(r, section, demand, now)
  {
    var d :| d in s && d.section == section && d.demand == demand && (d.locked || d.step == now);
    assert Still(r, d, now);
  }

  ghost predicate Memos(members: seq<nat>, recs: map<nat, seq<Decision>>) {
    && (forall c :: c in members ==> c in recs)
    && forall c :: c in recs ==> OnePerSection(recs[c])
  }

  /** The convoys of a chain with their memos, in one step. */
  class Chain {
    const members: seq<nat>
    const plan: Plan
    const now: int
    var recs: map<nat, seq<Decision>>
    var busy: set<nat>                // the convoys whose guard flag is up

    constructor (members: seq<nat>, plan: Plan, now: int, recs: map<nat, seq<Decision>>)
      requires Memos(members, recs)
      ensures Sane() && busy == {} && this.recs == recs
      ensures this.members == members && this.plan == plan && this.now == now
    {
      this.members := members;
      this.plan := plan;
      this.now := now;
      this.recs := recs;
      busy := {};
    }

    ghost function Members(): set<nat> {
      set c | c in members
    }

    ghost predicate Sane()
      reads this
    {
      busy <= Members() && Memos(members, recs)
    }

    /** How many convoys are not evaluating. */
    ghost function Free(): nat
      reads this
    {
      |Members() - busy|
    }

    /** What any number of questions leave: verdicts that count, and the memos of convoys that
        are evaluating; no verdict was locked but on a section that its convoy is in, and none
        was made up that is not in accord with the demand. */
    ghost predicate Asked(m: map<nat, seq<Decision>>, n: map<nat, seq<Decision>>, b: set<nat>) {
      Kept(m, n, b, now) && Warranted(plan, now, m, n, {})
    }

    lemma AskedTwice(m: map<nat, seq<Decision>>, n: map<nat, seq<Decision>>, o: map<nat, seq<Decision>>, b: set<nat>)
      requires Asked(m, n, b) && Asked(n, o, b)
      ensures Asked(m, o, b)
    {
      KeptTwice(m, n, o, b, now);
      forall x | x in m && x in o
        ensures Grounded(plan, now, x, m[x], o[x])
      {
        GroundedTwice(plan, now, x, m[x], n[x], o[x]);
      }
    }

    lemma NothingDone(m: map<nat, seq<Decision>>, b: set<nat>)
      ensures Asked(m, m, b)
    {
      NothingAsked(m, b, now);
      forall x | x in m
        ensures Grounded(plan, now, x, m[x], m[x])
      {
        StillGrounded(plan, now, x, m[x]);
      }
    }

    method DecideSection(c: nat, section: Section, lock: bool, ghost depth: nat) returns (demand: bool)
      requires Sane() && c in members && depth == |busy| <= |Members()|
      modifies this
      ensures Sane() && busy == old(busy) && Kept(old(recs), recs, busy, now) && c in recs && c in old(recs)
      ensures Warranted(plan, now, old(recs), recs, {(c, section)})
      ensures (lock ==> section.Contains(plan.current(c))) ==> Asked(old(recs), recs, busy)
      ensures forall d :: d in old(recs)[c] && d.section == section && (d.locked || d.step == now) ==>
                demand == d.demand
      ensures Settled(old(recs)[c], section) || (c in busy && !Holds(old(recs)[c], section, now)) ==>
                recs == old(recs)
      ensures c in busy && !Holds(old(recs)[c], section, now) ==> demand
      ensures !Settled(old(recs)[c], section) && (c !in busy || Holds(old(recs)[c], section, now)) ==>
                Decision(section, demand, lock, now) in recs[c]
      ensures c !in busy && !Holds(old(recs)[c], section, now) ==> Answers(plan, c, section, demand)
      decreases Free(), 0, 1
    {
      var i := Find(recs[c], section);
      NothingDone(recs, busy);
      OnlyOne(recs[c], i, section);
      if i < |recs[c]| {
        var d := recs[c][i];
        assert d in recs[c];
        if d.locked {
          return d.demand;
        }
        if d.step == now {
          Mark(c, i, lock);
          return d.demand;
        }
      }
      NotHeld(recs[c], i, section, now);
      if c in busy {
        return true;
      }
      ghost var asked;
      demand, asked := Evaluate(c, section, lock, depth);
    }

    /** A verdict of this step counts, and is locked if it is to be. */
    method Mark(c: nat, i: nat, lock: bool)
      requires Sane() && c in members && i < |recs[c]| && !recs[c][i].locked && recs[c][i].step == now
      modifies this`recs
      ensures Sane() && Kept(old(recs), recs, busy, now) && c in recs
      ensures var d := old(recs)[c][i];
        && Warranted(plan, now, old(recs), recs, {(c, d.section)})
        && ((lock ==> d.section.Contains(plan.current(c))) ==> Asked(old(recs), recs, busy))
        && Decision(d.section, d.demand, lock, now) in recs[c]
    {
      var d := recs[c][i];
      NothingDone(recs, busy);
      Marked(recs[c], i, lock, now);
      FewerGrounded(plan, now, c, recs[c], recs[c][i := d.(locked := lock)]);
      recs := recs[c := recs[c][i := d.(locked := lock)]];
    }

    /** Works a verdict out afresh, with the guard flag up meanwhile, and keeps it. What others
        answered by then is in the memos `asked`. */
    method Evaluate(c: nat, section: Section, lock: bool, ghost depth: nat)
        returns (demand: bool, ghost asked: map<nat, seq<Decision>>)
      requires Sane() && c in members && depth == |busy| <= |Members()| && c !in busy && !Holds(recs[c], section, now)
      modifies this
      ensures Sane() && busy == old(busy) && Kept(old(recs), recs, busy, now)
      ensures Warranted(plan, now, old(recs), recs, {(c, section)})
      ensures (lock ==> section.Contains(plan.current(c))) ==> Asked(old(recs), recs, busy)
      ensures c in recs && Decision(section, demand, lock, now) in recs[c]
      ensures Answers(plan, c, section, demand)
      ensures Asked(old(recs), asked, busy + {c}) && SectionDemand(asked, busy + {c}, c, section, demand)
      ensures recs.Keys == asked.Keys && forall x :: x in recs && x != c ==> recs[x] == asked[x]
      decreases Free(), 0, 0
    {
      ghost var m, was := recs, busy;
      MoreBusy(c, depth);
      busy := busy + {c};
      demand := SectionHasDemand(c, section, depth + 1);
      asked := recs;
      busy := busy - {c};
      assert busy == was;
      DemandAnswers(asked, was + {c}, c, section, demand);
      Store(c, Decision(section, demand, lock, now), m);
    }

    method Store(c: nat, d: Decision, ghost m: map<nat, seq<Decision>>)
      requires Sane() && c in members && d.step == now && c in m && OnePerSection(m[c]) && !Holds(m[c], d.section, now)
      requires Asked(m, recs, busy + {c}) && c !in busy && Answers(plan, c, d.section, d.demand)
      modifies this`recs
      ensures Sane() && Kept(m, recs, busy, now) && Warranted(plan, now, m, recs, {(c, d.section)})
      ensures (d.locked ==> d.section.Contains(plan.current(c))) ==> Asked(m, recs, busy)
      ensures c in recs && d in recs[c] && recs.Keys == old(recs).Keys
      ensures forall x :: x in recs && x != c ==> recs[x] == old(recs)[x]
    {
      var i := Find(recs[c], d.section);
      Written(m[c], recs[c], i, d, now);
      WrittenGrounded(plan, now, c, m[c], recs[c], Write(recs[c], i, d), d);
      recs := recs[c := Write(recs[c], i, d)];
    }

    lemma MoreBusy(c: nat, depth: nat)
      requires Sane() && c in members && c !in busy && depth == |busy|
      ensures |busy + {c}| == depth + 1 <= |Members()|
      ensures |Members() - (busy + {c})| < Free()
    {
      var all := Members();
      Smaller(busy + {c}, all);
      assert all - (busy + {c}) == (all - busy) - {c} && c in all - busy;
    }

    /** The entry is in a section, and the verdict on it in `r` is not to stop there. */
    ghost predicate Declines(r: map<nat, seq<Decision>>, c: nat, index: nat) {
      && c in r
      && exists sec :: SectionAt(plan.flags(c), index, sec) && Verdict(r[c], sec, false, now)
    }

    /** The entry is in no section, or the verdict on it in `r` is to stop there, or there is none
        yet, as the convoy is among those that are evaluating. */
    ghost predicate Stops(r: map<nat, seq<Decision>>, b: set<nat>, c: nat, index: nat) {
      || (forall sec :: !SectionAt(plan.flags(c), index, sec))
      || (c in r && exists sec :: SectionAt(plan.flags(c), index, sec)
                      && (Verdict(r[c], sec, true, now) || (c in b && !Holds(r[c], sec, now))))
    }

    lemma StopsStill(m: map<nat, seq<Decision>>, r: map<nat, seq<Decision>>, b: set<nat>, c: nat, index: nat)
      requires Kept(m, r, b, now) && Stops(m, b, c, index)
      ensures Stops(r, b, c, index)
    {
      if exists sec :: SectionAt(plan.flags(c), index, sec) {
        var sec :| SectionAt(plan.flags(c), index, sec)
                   && (Verdict(m[c], sec, true, now) || (c in b && !Holds(m[c], sec, now)));
        if Verdict(m[c], sec, true, now) {
          VerdictStays(m[c], r[c], sec, true, now);
        } else {
          NotHeldStill(m[c], r[c], sec, now);
        }
      }
    }

    lemma DeclinesStill(m: map<nat, seq<Decision>>, r: map<nat, seq<Decision>>, b: set<nat>, c: nat, index: nat)
      requires Kept(m, r, b, now) && Declines(m, c, index)
      ensures Declines(r, c, index)
    {
      var sec :| SectionAt(plan.flags(c), index, sec) && Verdict(m[c], sec, false, now);
      VerdictStays(m[c], r[c], sec, false, now);
    }

    method WouldStopAtEntry(c: nat, index: nat, ghost depth: nat) returns (b: bool)
      requires Sane() && c in members && depth == |busy| <= |Members()|
      modifies this
      ensures Sane() && busy == old(busy) && Asked(old(recs), recs, busy)
      ensures if b then Stops(recs, busy, c, index) else Declines(recs, c, index)
      ensures (forall sec :: !SectionAt(plan.flags(c), index, sec)) ==> b
      ensures c in old(recs) && Binds(old(recs)[c], plan.flags(c), now, index, b)
      ensures c !in busy ==> AnswersFresh(plan, c, old(recs)[c], now, index, b)
      decreases Free(), 1
    {
      var s := GetNoGoNoUsersSection(plan.flags(c), index);
      if s.None? {
        NothingDone(recs, busy);
        return true;
      }
      b := DecideSection(c, s.value, s.value.Contains(plan.current(c)), depth);
      BindsHere(old(recs)[c], plan.flags(c), now, index, s.value, b);
      if c !in busy { FreshHere(plan, c, old(recs)[c], now, index, s.value, b); }
      VerdictHere(old(recs)[c], recs[c], s.value, s.value.Contains(plan.current(c)), b, c in busy, now);
    }

    /** Somebody in the chain has a waypoint there or stops there. */
    ghost predicate SomebodyStops(r: map<nat, seq<Decision>>, b: set<nat>, offset: nat) {
      exists i {:trigger members[i]} :: 0 <= i < |members| && plan.count(members[i]) > 0 &&
        (|| plan.waypoint(members[i], At(plan, members[i], offset))
         || Stops(r, b, members[i], At(plan, members[i], offset)))
    }

    /** The first n convoys of the chain do not stop there. */
    ghost predicate NobodyStops(r: map<nat, seq<Decision>>, offset: nat, n: int) {
      forall i {:trigger members[i]} :: 0 <= i < n && i < |members| && plan.count(members[i]) > 0 ==>
        && !plan.waypoint(members[i], At(plan, members[i], offset))
        && Declines(r, members[i], At(plan, members[i], offset))
    }

    lemma SomebodyStill(m: map<nat, seq<Decision>>, r: map<nat, seq<Decision>>, b: set<nat>, offset: nat)
      requires Kept(m, r, b, now) && SomebodyStops(m, b, offset)
      ensures SomebodyStops(r, b, offset)
    {
      var i {:trigger members[i]} :| 0 <= i < |members| && plan.count(members[i]) > 0 &&
        (|| plan.waypoint(members[i], At(plan, members[i], offset))
         || Stops(m, b, members[i], At(plan, members[i], offset)));
      if Stops(m, b, members[i], At(plan, members[i], offset)) {
        StopsStill(m, r, b, members[i], At(plan, members[i], offset));
      }
    }

    lemma NobodyStill(m: map<nat, seq<Decision>>, r: map<nat, seq<Decision>>, b: set<nat>, offset: nat, n: int)
      requires NobodyStops(m, offset, n) && Kept(m, r, b, now)
      ensures NobodyStops(r, offset, n)
    {
      forall i | 0 <= i < n && i < |members| && plan.count(members[i]) > 0
        ensures Declines(r, members[i], At(plan, members[i], offset))
      {
        DeclinesStill(m, r, b, members[i], At(plan, members[i], offset));
      }
    }

    method ChainWantsStopAtOffset(offset: nat, ghost depth: nat) returns (b: bool)
      requires Sane() && depth == |busy| <= |Members()|
      modifies this
      ensures Sane() && busy == old(busy) && Asked(old(recs), recs, busy)
      ensures if b then SomebodyStops(recs, busy, offset) else NobodyStops(recs, offset, |members|)
      decreases Free(), 3
    {
      NothingDone(recs, busy);
      for i := 0 to |members|
        invariant Sane() && busy == old(busy) && Asked(old(recs), recs, busy) && NobodyStops(recs, offset, i)
      {
        ghost var n := recs;
        b := NextWantsStop(offset, i, depth);
        AskedTwice(old(recs), n, recs, busy);
        if b {
          return;
        }
      }
      return false;
    }

    /** Asks one convoy of the chain. */
    method NextWantsStop(offset: nat, i: nat, ghost depth: nat) returns (b: bool)
      requires Sane() && depth == |busy| <= |Members()| && i < |members| && NobodyStops(recs, offset, i)
      modifies this
      ensures Sane() && busy == old(busy) && Asked(old(recs), recs, busy)
      ensures if b then SomebodyStops(recs, busy, offset) else NobodyStops(recs, offset, i + 1)
      decreases Free(), 2
    {
      NothingDone(recs, busy);
      var c := members[i];
      if plan.count(c) == 0 {
        return false;
      }
      var index := (plan.current(c) + offset) % plan.count(c);
      assert index == At(plan, c, offset);
      if plan.waypoint(c, index) {
        return true;
      }
      b := WouldStopAtEntry(c, index, depth);
      if !b {
        NobodyStill(old(recs), recs, busy, offset, i);
      }
    }

    /** How far ahead the entry is. */
    function OffsetTo(c: nat, index: nat): nat
      requires plan.count(c) > 0
    {
      (index + plan.count(c) - plan.current(c)) % plan.count(c)
    }

    /** So far ahead is that very entry. */
    lemma OffsetComesTo(c: nat, index: nat)
      requires index < plan.count(c)
      ensures At(plan, c, OffsetTo(c, index)) == index
    {
      var count, current := plan.count(c), plan.current(c);
      var q := (index + count - current) / count;
      assert OffsetTo(c, index) == index + count - current - q * count;
      Rounds(index, count, 1 - q);
      assert current + OffsetTo(c, index) == index + (1 - q) * count;
    }

    method ChainWouldStopAtEntry(c: nat, index: nat, ghost depth: nat) returns (b: bool)
      requires Sane() && c in members && plan.count(c) > 0 && depth == |busy| <= |Members()|
      modifies this
      ensures Sane() && busy == old(busy) && Asked(old(recs), recs, busy)
      ensures if b then SomebodyStops(recs, busy, OffsetTo(c, index))
              else NobodyStops(recs, OffsetTo(c, index), |members|)
      decreases Free(), 4
    {
      b := ChainWantsStopAtOffset(OffsetTo(c, index), depth);
    }

    /** The search takes the i-th entry, with what it has found so far. */
    ghost predicate Takes(r: map<nat, seq<Decision>>, b: set<nat>, c: nat, from: nat, i: nat, got: seq<nat>)
      requires plan.count(c) > 0
    {
      var look := plan.look(c, from, i, got);
      look.Take? || (look.Ask? && !look.depot && SomebodyStops(r, b, OffsetTo(c, look.index)))
    }

    /** The search passes over the i-th entry. */
    ghost predicate Skips(r: map<nat, seq<Decision>>, b: set<nat>, c: nat, from: nat, i: nat, got: seq<nat>)
      requires plan.count(c) > 0
    {
      var look := plan.look(c, from, i, got);
      || look.Pass? || (look.Ask? && look.depot && SomebodyStops(r, b, OffsetTo(c, look.index)))
      || (look.Ask? && NobodyStops(r, OffsetTo(c, look.index), |members|))
    }

    /** The search comes to the i-th entry and has found these by then. */
    ghost predicate ComesTo(r: map<nat, seq<Decision>>, b: set<nat>, c: nat, from: nat, i: nat, got: seq<nat>)
      requires plan.count(c) > 0
      decreases i
    {
      if i == 0 then false
      else if i == 1 then got == []
      else
        var p := i - 1;
        || (ComesTo(r, b, c, from, p, got) && Skips(r, b, c, from, p, got))
        || (|got| > 0 && got[|got| - 1] == p && !plan.last(c, from, p, got)
            && ComesTo(r, b, c, from, p, got[..|got| - 1]) && Takes(r, b, c, from, p, got[..|got| - 1]))
    }

    /** The search ends at the i-th entry with these. */
    ghost predicate EndsAt(r: map<nat, seq<Decision>>, b: set<nat>, c: nat, from: nat, i: nat, got: seq<nat>)
      requires plan.count(c) > 0
    {
      if i >= plan.lineCount(c) then ComesTo(r, b, c, from, i, got)
      else
        || (ComesTo(r, b, c, from, i, got) && plan.look(c, from, i, got).Leave?)
        || (|got| > 0 && got[|got| - 1] == i && plan.last(c, from, i, got)
            && ComesTo(r, b, c, from, i, got[..|got| - 1]) && Takes(r, b, c, from, i, got[..|got| - 1]))
    }

    /** These are the entries that the search finds, as the convoys answer by the memos `r`. */
    ghost predicate Reached(r: map<nat, seq<Decision>>, b: set<nat>, c: nat, from: nat, got: seq<nat>)
      requires plan.count(c) > 0
    {
      exists i: nat :: (i == 1 || 1 < i <= plan.lineCount(c)) && EndsAt(r, b, c, from, i, got)
    }

    lemma LooksStill(m: map<nat, seq<Decision>>, r: map<nat, seq<Decision>>, b: set<nat>, c: nat, from: nat, i: nat,
                     got: seq<nat>)
      requires plan.count(c) > 0 && Kept(m, r, b, now)
      ensures Takes(m, b, c, from, i, got) ==> Takes(r, b, c, from, i, got)
      ensures Skips(m, b, c, from, i, got) ==> Skips(r, b, c, from, i, got)
    {
      var look := plan.look(c, from, i, got);
      if look.Ask? {
        var offset := OffsetTo(c, look.index);
        if SomebodyStops(m, b, offset) { SomebodyStill(m, r, b, offset); }
        if NobodyStops(m, offset, |members|) { NobodyStill(m, r, b, offset, |members|); }
      }
    }

    lemma {:induction false} ComesStill(m: map<nat, seq<Decision>>, r: map<nat, seq<Decision>>, b: set<nat>, c: nat,
                                        from: nat, i: nat, got: seq<nat>)
      requires plan.count(c) > 0 && Kept(m, r, b, now) && ComesTo(m, b, c, from, i, got)
      ensures ComesTo(r, b, c, from, i, got)
      decreases i
    {
      if i > 1 {
        var p := i - 1;
        if ComesTo(m, b, c, from, p, got) && Skips(m, b, c, from, p, got) {
          ComesStill(m, r, b, c, from, p, got);
          LooksStill(m, r, b, c, from, p, got);
        } else {
          ComesStill(m, r, b, c, from, p, got[..|got| - 1]);
          LooksStill(m, r, b, c, from, p, got[..|got| - 1]);
        }
      }
    }

    lemma ReachedStill(m: map<nat, seq<Decision>>, r: map<nat, seq<Decision>>, b: set<nat>, c: nat, from: nat,
                       got: seq<nat>)
      requires plan.count(c) > 0 && Kept(m, r, b, now) && Reached(m, b, c, from, got)
      ensures Reached(r, b, c, from, got)
    {
      var i: nat :| (i == 1 || 1 < i <= plan.lineCount(c)) && EndsAt(m, b, c, from, i, got);
      if ComesTo(m, b, c, from, i, got) { ComesStill(m, r, b, c, from, i, got); }
      if |got| > 0 && ComesTo(m, b, c, from, i, got[..|got| - 1]) {
        ComesStill(m, r, b, c, from, i, got[..|got| - 1]);
        LooksStill(m, r, b, c, from, i, got[..|got| - 1]);
      }
      assert EndsAt(r, b, c, from, i, got);
    }

    /** The line's entries at which cargo loaded at `from` may be unloaded. */
    method CalcReachableHalts(c: nat, from: nat, ghost depth: nat) returns (reachable: seq<nat>)
      requires Sane() && c in members && plan.count(c) > 0 && depth == |busy| <= |Members()|
      modifies this
      ensures Sane() && busy == old(busy) && Asked(old(recs), recs, busy)
      ensures Reached(recs, busy, c, from, reachable)
      decreases Free(), 6
    {
      reachable := [];
      NothingDone(recs, busy);
      var i := 1;
      while i < plan.lineCount(c)
        invariant i == 1 || 1 < i <= plan.lineCount(c)
        invariant Sane() && busy == old(busy) && Asked(old(recs), recs, busy)
        invariant ComesTo(recs, busy, c, from, i, reachable)
      {
        ghost var n := recs;
        var done;
        reachable, done := LookAt(c, from, i, reachable, depth);
        AskedTwice(old(recs), n, recs, busy);
        if done {
          assert EndsAt(recs, busy, c, from, i, reachable);
          return;
        }
        i := i + 1;
      }
      assert EndsAt(recs, busy, c, from, i, reachable);
    }

    /** What the search does with one entry. */
    method LookAt(c: nat, from: nat, i: nat, got: seq<nat>, ghost depth: nat) returns (reachable: seq<nat>, done: bool)
      requires Sane() && c in members && plan.count(c) > 0 && depth == |busy| <= |Members()|
      requires 0 < i < plan.lineCount(c) && ComesTo(recs, busy, c, from, i, got)
      modifies this
      ensures Sane() && busy == old(busy) && Asked(old(recs), recs, busy)
      ensures if done then EndsAt(recs, busy, c, from, i, reachable) else ComesTo(recs, busy, c, from, i + 1, reachable)
      decreases Free(), 5
    {
      NothingDone(recs, busy);
      reachable, done := got, false;
      var look := plan.look(c, from, i, got);
      if look.Leave? {
        return got, true;
      }
      if look.Pass? {
        return;
      }
      if look.Ask? {
        var stops := ChainWouldStopAtEntry(c, look.index, depth);
        ComesStill(old(recs), recs, busy, c, from, i, got);
        if !stops || look.depot {
          return;
        }
      }
      reachable := got + [i];
      assert reachable[..|reachable| - 1] == got;
      done := plan.last(c, from, i, reachable);
    }

    /** The convoy has demand at the entry, as the others answer by the memos `r`, or has none. */
    ghost predicate EntryDemand(r: map<nat, seq<Decision>>, b: set<nat>, c: nat, index: nat, demand: bool)
      requires plan.count(c) > 0
    {
      if plan.needs(c, index) then demand
      else exists got {:trigger Reached(r, b, c, index, got)} ::
             Reached(r, b, c, index, got) && plan.loads(c, index, got) == demand
    }

    ghost predicate BeforeDemand(r: map<nat, seq<Decision>>, b: set<nat>, c: nat, section: Section, demand: bool)
      requires plan.count(c) > 0
    {
      var from := plan.before(c, section);
      if from.None? then !demand
      else exists got {:trigger Reached(r, b, c, from.value, got)} ::
             Reached(r, b, c, from.value, got) && plan.loadsFor(c, section, got) == demand
    }

    /** The walk over the section comes to its k-th entry, and there is demand. */
    ghost predicate DemandAt(r: map<nat, seq<Decision>>, b: set<nat>, c: nat, section: Section, k: nat)
      requires plan.count(c) > 0
    {
      Walks(plan, c, section, k) && EntryDemand(r, b, c, Walked(plan, c, section, k), true)
    }

    /** If the walk over the section comes to its k-th entry, there is no demand. */
    ghost predicate NoneAt(r: map<nat, seq<Decision>>, b: set<nat>, c: nat, section: Section, k: nat)
      requires plan.count(c) > 0
    {
      Walks(plan, c, section, k) ==> EntryDemand(r, b, c, Walked(plan, c, section, k), false)
    }

    /** There is none at any of the first n. */
    ghost predicate NoDemand(r: map<nat, seq<Decision>>, b: set<nat>, c: nat, section: Section, n: int)
      requires plan.count(c) > 0
    {
      forall k: nat {:trigger NoneAt(r, b, c, section, k)} :: k < n ==> NoneAt(r, b, c, section, k)
    }

    ghost predicate SomeDemand(r: map<nat, seq<Decision>>, b: set<nat>, c: nat, section: Section)
      requires plan.count(c) > 0
    {
      exists k: nat {:trigger DemandAt(r, b, c, section, k)} :: DemandAt(r, b, c, section, k)
    }

    /** There is demand in the section: at an entry, or at the stop before; or there is none. */
    ghost predicate SectionDemand(r: map<nat, seq<Decision>>, b: set<nat>, c: nat, section: Section, demand: bool) {
      if plan.count(c) == 0 then !demand
      else if demand then SomeDemand(r, b, c, section) || BeforeDemand(r, b, c, section, true)
      else NoDemand(r, b, c, section, plan.count(c)) && BeforeDemand(r, b, c, section, false)
    }

    lemma EntryStill(m: map<nat, seq<Decision>>, r: map<nat, seq<Decision>>, b: set<nat>, c: nat, index: nat,
                     demand: bool)
      requires plan.count(c) > 0 && Kept(m, r, b, now) && EntryDemand(m, b, c, index, demand)
      ensures EntryDemand(r, b, c, index, demand)
    {
      if !plan.needs(c, index) {
        var got {:trigger Reached(m, b, c, index, got)} :| Reached(m, b, c, index, got)
                                                           && plan.loads(c, index, got) == demand;
        ReachedStill(m, r, b, c, index, got);
      }
    }

    lemma NoDemandStill(m: map<nat, seq<Decision>>, r: map<nat, seq<Decision>>, b: set<nat>, c: nat,
                        section: Section, n: int)
      requires plan.count(c) > 0 && Kept(m, r, b, now) && NoDemand(m, b, c, section, n)
      ensures NoDemand(r, b, c, section, n)
    {
      forall k: nat | k < n
        ensures NoneAt(r, b, c, section, k)
      {
        assert NoneAt(m, b, c, section, k);
        if Walks(plan, c, section, k) { EntryStill(m, r, b, c, Walked(plan, c, section, k), false); }
      }
    }

    /** What the plan alone says follows. */
    lemma DemandAnswers(r: map<nat, seq<Decision>>, b: set<nat>, c: nat, section: Section, demand: bool)
      requires SectionDemand(r, b, c, section, demand)
      ensures Answers(plan, c, section, demand)
    {
      if plan.count(c) > 0 && demand && SomeDemand(r, b, c, section) {
        var k: nat {:trigger DemandAt(r, b, c, section, k)} :| DemandAt(r, b, c, section, k);
        assert MayStop(plan, c, section, k);
      }
      if !demand {
        forall k: nat
          ensures !MustStop(plan, c, section, k)
        {
          if Walks(plan, c, section, k) { assert NoneAt(r, b, c, section, k); }
        }
      }
    }

    method HasOwnDemandAtEntry(c: nat, index: nat, ghost depth: nat) returns (b: bool)
      requires Sane() && c in members && plan.count(c) > 0 && depth == |busy| <= |Members()|
      modifies this
      ensures Sane() && busy == old(busy) && Asked(old(recs), recs, busy) && EntryDemand(recs, busy, c, index, b)
      decreases Free(), 7
    {
      if plan.needs(c, index) {
        NothingDone(recs, busy);
        return true;
      }
      var reachable := CalcReachableHalts(c, index, depth);
      return plan.loads(c, index, reachable);
    }

    method HasDemandAtHaltBeforeSection(c: nat, section: Section, ghost depth: nat) returns (b: bool)
      requires Sane() && c in members && plan.count(c) > 0 && depth == |busy| <= |Members()|
      modifies this
      ensures Sane() && busy == old(busy) && Asked(old(recs), recs, busy) && BeforeDemand(recs, busy, c, section, b)
      decreases Free(), 7
    {
      var from := plan.before(c, section);
      if from.None? {
        NothingDone(recs, busy);
        return false;
      }
      var reachable := CalcReachableHalts(c, from.value, depth);
      return plan.loadsFor(c, section, reachable);
    }

    method SectionHasDemand(c: nat, section: Section, ghost depth: nat) returns (b: bool)
      requires Sane() && c in members && depth == |busy| <= |Members()|
      modifies this
      ensures Sane() && busy == old(busy) && Asked(old(recs), recs, busy) && SectionDemand(recs, busy, c, section, b)
      decreases Free(), 9
    {
      if plan.count(c) == 0 {
        NothingDone(recs, busy);
        return false;
      }
      b := AnyEntryHasDemand(c, section, depth);
      if !b {
        ghost var n := recs;
        b := HasDemandAtHaltBeforeSection(c, section, depth);
        AskedTwice(old(recs), n, recs, busy);
        NoDemandStill(n, recs, busy, c, section, plan.count(c));
      }
    }

    method AnyEntryHasDemand(c: nat, section: Section, ghost depth: nat) returns (b: bool)
      requires Sane() && c in members && plan.count(c) > 0 && depth == |busy| <= |Members()|
      modifies this
      ensures Sane() && busy == old(busy) && Asked(old(recs), recs, busy)
      ensures if b then SomeDemand(recs, busy, c, section) else NoDemand(recs, busy, c, section, plan.count(c))
      decreases Free(), 8
    {
      NothingDone(recs, busy);
      var count := plan.count(c);
      var index := section.start;
      for steps := 0 to count
        invariant Sane() && busy == old(busy) && Asked(old(recs), recs, busy)
        invariant index == Walked(plan, c, section, steps) && NoDemand(recs, busy, c, section, steps)
        invariant steps < count ==> Walks(plan, c, section, steps)
      {
        ghost var n := recs;
        b := HasOwnDemandAtEntry(c, index, depth);
        AskedTwice(old(recs), n, recs, busy);
        NoDemandStill(n, recs, busy, c, section, steps);
        DemandNext(recs, busy, c, section, steps, b);
        if b {
          return;
        }
        if index == section.end {
          return false;
        }
        index := (index + 1) % count;
      }
      return false;
    }

    /** The walk over a section comes to its n-th entry. */
    lemma DemandNext(r: map<nat, seq<Decision>>, b: set<nat>, c: nat, section: Section, n: nat, demand: bool)
      requires n < plan.count(c) && NoDemand(r, b, c, section, n) && Walks(plan, c, section, n)
      requires EntryDemand(r, b, c, Walked(plan, c, section, n), demand)
      ensures demand ==> SomeDemand(r, b, c, section)
      ensures !demand ==> NoDemand(r, b, c, section, n + 1)
      ensures Walked(plan, c, section, n) != section.end && n + 1 < plan.count(c) ==> Walks(plan, c, section, n + 1)
      ensures !demand && Walked(plan, c, section, n) == section.end ==> NoDemand(r, b, c, section, plan.count(c))
    {
      if demand {
        assert DemandAt(r, b, c, section, n);
      } else {
        assert NoneAt(r, b, c, section, n);
        if Walked(plan, c, section, n) == section.end {
          forall k: nat | k < plan.count(c)
            ensures NoneAt(r, b, c, section, k)
          {
            assert k > n ==> !Walks(plan, c, section, k);
          }
        }
      }
    }

    /** On departure, settles the section that comes next, unless that has been settled. */
    method LockUpcomingSectionDecision(c: nat)
      requires Sane() && c in members && busy == {}
      modifies this
      ensures Sane() && busy == {} && recs.Keys == old(recs).Keys && c in recs
      ensures forall x :: x in old(recs) ==> LockedKept(old(recs)[x], recs[x])
      ensures forall k :: 1 <= k < plan.count(c) && NextStopAt(plan, c, k) ==>
                SettledFor(recs[c], plan.flags(c), At(plan, c, k))
      ensures || recs == old(recs)
              || exists k, sec :: 1 <= k < plan.count(c) && NextStopAt(plan, c, k)
                   && SectionAt(plan.flags(c), At(plan, c, k), sec) && LockedNow(plan, now, old(recs), recs, c, sec)
    {
      var count := plan.count(c);
      var k := 1;
      while k < count
        invariant 1 <= k && Sane() && busy == {} && recs == old(recs)
        invariant forall j :: 1 <= j < k ==> plan.waypoint(c, At(plan, c, j))
      {
        var index := (plan.current(c) + k) % count;
        assert index == At(plan, c, k);
        if !plan.waypoint(c, index) {
          var s := GetNoGoNoUsersSection(plan.flags(c), index);
          if s.Some? {
            LockSection(c, s.value);
            OneToSettle(recs[c], plan.flags(c), index, s.value);
          }
          return;
        }
        k := k + 1;
      }
    }

    method LockSection(c: nat, section: Section)
      requires Sane() && c in members && busy == {}
      modifies this
      ensures Sane() && busy == {} && recs.Keys == old(recs).Keys && c in recs && Settled(recs[c], section)
      ensures forall x :: x in old(recs) ==> LockedKept(old(recs)[x], recs[x])
      ensures c in old(recs)
      ensures if Settled(old(recs)[c], section) then recs == old(recs)
              else LockedNow(plan, now, old(recs), recs, c, section)
    {
      ghost var m := recs;
      var i := Find(recs[c], section);
      OnlyOne(recs[c], i, section);
      if i < |recs[c]| {
        if recs[c][i].locked {
          assert recs[c][i] in recs[c];
          return;
        }
        Removed(recs[c], i);
        recs := recs[c := recs[c][..i] + recs[c][i + 1..]];
      }
      ghost var n := recs;
      var demand := DecideSection(c, section, true, 0);
      forall x | x in m
        ensures LockedKept(m[x], recs[x])
      {
        VerdictsLocked(n[x], recs[x], now);
        assert LockedKept(m[x], n[x]);
      }
      RemovedWarranted(m, n, recs, c, section);
    }

    /** What was forgotten first needs no reason. */
    lemma RemovedWarranted(m: map<nat, seq<Decision>>, n: map<nat, seq<Decision>>, r: map<nat, seq<Decision>>, c: nat,
                           section: Section)
      requires c in m && c in n && n == m[c := n[c]] && (forall d :: d in n[c] ==> d in m[c])
      requires Warranted(plan, now, n, r, {(c, section)})
      ensures Warranted(plan, now, m, r, {(c, section)})
    {
      forall x | x in m && x in r
        ensures Grounded(plan, now, x, m[x], r[x])
      {
        if x == c {
          FewerGrounded(plan, now, c, m[c], n[c]);
          GroundedTwice(plan, now, c, m[c], n[c], r[c]);
        } else {
          assert n[x] == m[x] && Grounded(plan, now, x, n[x], r[x]);
        }
      }
    }

    /** At a stop, forgets the verdicts on sections that the stop is not part of. */
    method ForgetLeftSectionDecisions(c: nat)
      requires Sane() && c in members && busy == {}
      modifies this`recs
      ensures Sane() && recs == old(recs)[c := StillIn(old(recs)[c], plan.current(c))]
    {
      var i := 0;
      ghost var s := recs[c];
      while i < |recs[c]|
        invariant 0 <= i && c in recs && i <= |recs[c]| && recs == old(recs)[c := recs[c]]
        invariant recs[c][..i] + StillIn(recs[c][i..], plan.current(c)) == StillIn(s, plan.current(c))
        invariant OnePerSection(recs[c])
        decreases |recs[c]| - i
      {
        assert recs[c][i..][1..] == recs[c][i + 1..] && recs[c][i..][0] == recs[c][i];
        if recs[c][i].section.Contains(plan.current(c)) {
          assert recs[c][..i + 1] == recs[c][..i] + [recs[c][i]];
          i := i + 1;
        } else {
          Removed(recs[c], i);
          ghost var r := recs[c];
          recs := recs[c := recs[c][..i] + recs[c][i + 1..]];
          assert recs[c][..i] == r[..i] && recs[c][i..] == r[i + 1..];
        }
      }
      assert recs[c][i..] == [] && recs[c][..i] + [] == recs[c];
    }
  }

  /** This verdict was given before, locked or not. */
  ghost predicate Said(s: seq<Decision>, d: Decision) {
    exists e :: e in s && e.section == d.section && e.demand == d.demand && e.step == d.step
  }

  /** Every verdict was given before, or is new and in accord with the demand. */
  ghost predicate Grounded(p: Plan, now: int, c: nat, s: seq<Decision>, r: seq<Decision>) {
    forall d :: d in r ==> Said(s, d) || (d.step == now && Answers(p, c, d.section, d.demand))
  }

  /** No verdict was locked or made up without a reason. */
  ghost predicate Warranted(p: Plan, now: int, m: map<nat, seq<Decision>>, n: map<nat, seq<Decision>>,
                            own: set<(nat, Section)>)
  {
    && LocksDue(m, n, p.current, own)
    && forall x {:trigger Grounded(p, now, x, m[x], n[x])} :: x in m && x in n ==> Grounded(p, now, x, m[x], n[x])
  }

  lemma GroundedTwice(p: Plan, now: int, c: nat, s: seq<Decision>, r: seq<Decision>, q: seq<Decision>)
    requires Grounded(p, now, c, s, r) && Grounded(p, now, c, r, q)
    ensures Grounded(p, now, c, s, q)
  {
    forall d | d in q && !Said(s, d)
      ensures d.step == now && Answers(p, c, d.section, d.demand)
    {
      if Said(r, d) {
        var e :| e in r && e.section == d.section && e.demand == d.demand && e.step == d.step;
        assert Said(s, e) ==> Said(s, d);
      }
    }
  }

  /** A new verdict is written; what else there is was there before. */
  lemma WrittenGrounded(p: Plan, now: int, c: nat, s: seq<Decision>, r: seq<Decision>, q: seq<Decision>, d: Decision)
    requires Grounded(p, now, c, s, r) && d.step == now && Answers(p, c, d.section, d.demand)
    requires forall e :: e in q && e != d ==> e in r
    ensures Grounded(p, now, c, s, q)
  {
  }

  /** Some verdicts are gone, or one is locked now. */
  lemma FewerGrounded(p: Plan, now: int, c: nat, s: seq<Decision>, r: seq<Decision>)
    requires forall d :: d in r ==> d in s || d.(locked := false) in s
    ensures Grounded(p, now, c, s, r)
  {
    forall d | d in r
      ensures Said(s, d)
    {
      var e := if d in s then d else d.(locked := false);
      assert e in s;
    }
  }

  lemma StillGrounded(p: Plan, now: int, c: nat, s: seq<Decision>)
    ensures Grounded(p, now, c, s, s)
  {
    assert forall d :: d in s ==> Said(s, d);
  }

  /** The first of the entries ahead that is no waypoint. */
  ghost predicate NextStopAt(p: Plan, c: nat, k: nat) {
    !p.waypoint(c, At(p, c, k)) && forall j :: 1 <= j < k ==> p.waypoint(c, At(p, c, j))
  }

  /** The verdict on this section was worked out afresh and locked, and no other on a section
      that its convoy is not in. */
  ghost predicate LockedNow(p: Plan, now: int, m: map<nat, seq<Decision>>, r: map<nat, seq<Decision>>, c: nat,
                            section: Section) {
    && Warranted(p, now, m, r, {(c, section)}) && c in m && c in r && !Settled(m[c], section)
    && exists demand :: Decision(section, demand, true, now) in r[c] && Answers(p, c, section, demand)
  }

  /** Nothing was locked but verdicts on sections that their convoys are in, and on `own`. */
  ghost predicate LocksDue(m: map<nat, seq<Decision>>, n: map<nat, seq<Decision>>, current: nat -> nat,
                           own: set<(nat, Section)>)
  {
    forall x, d :: x in n && d in n[x] && d.locked && !d.section.Contains(current(x)) && (x, d.section) !in own ==>
      x in m && d in m[x]
  }

  lemma NotHeldStill(s: seq<Decision>, r: seq<Decision>, section: Section, now: int)
    requires OnlyLocked(s, r, now) && !Holds(s, section, now)
    ensures !Holds(r, section, now)
  {
    forall d | d in r && d.section == section
      ensures !d.locked && d.step != now
    {
      var i :| 0 <= i < |r| && r[i] == d;
      assert s[i] in s;
    }
  }

  lemma OnlyOne(s: seq<Decision>, i: nat, section: Section)
    requires OnePerSection(s) && i <= |s| && (forall j :: 0 <= j < i ==> s[j].section != section)
    requires i < |s| ==> s[i].section == section
    ensures forall d :: d in s && d.section == section ==> i < |s| && d == s[i]
  {
  }

  /** The verdict that an answer rests on. */
  lemma VerdictHere(s: seq<Decision>, r: seq<Decision>, section: Section, lock: bool, demand: bool, busy: bool,
                    now: int)
    requires forall d :: d in s && d.section == section && (d.locked || d.step == now) ==> demand == d.demand
    requires Settled(s, section) || (busy && !Holds(s, section, now)) ==> r == s
    requires busy && !Holds(s, section, now) ==> demand
    requires !Settled(s, section) && (!busy || Holds(s, section, now)) ==> Decision(section, demand, lock, now) in r
    ensures Verdict(r, section, demand, now) || (demand && busy && !Holds(r, section, now))
  {
    if Settled(s, section) {
      var d :| d in s && d.section == section && d.locked;
    }
  }

  /** Without a verdict that counts, the answer is what there is demand for. */
  ghost predicate AnswersFresh(p: Plan, c: nat, s: seq<Decision>, now: int, index: nat, answer: bool) {
    forall sec :: SectionAt(p.flags(c), index, sec) && !Holds(s, sec, now) ==> Answers(p, c, sec, answer)
  }

  lemma FreshHere(p: Plan, c: nat, s: seq<Decision>, now: int, index: nat, sec: Section, answer: bool)
    requires SectionAt(p.flags(c), index, sec) && (!Holds(s, sec, now) ==> Answers(p, c, sec, answer))
    ensures AnswersFresh(p, c, s, now, index, answer)
  {
    forall other | SectionAt(p.flags(c), index, other)
      ensures other == sec
    {
      OnlySection(p.flags(c), index, sec, other);
    }
  }

  /** A verdict that counts, on the section that the entry is in, is the answer. */
  ghost predicate Binds(s: seq<Decision>, f: seq<Flags>, now: int, index: nat, answer: bool) {
    forall d :: d in s && (d.locked || d.step == now) && SectionAt(f, index, d.section) ==> answer == d.demand
  }

  lemma BindsHere(s: seq<Decision>, f: seq<Flags>, now: int, index: nat, sec: Section, answer: bool)
    requires SectionAt(f, index, sec)
    requires forall d :: d in s && d.section == sec && (d.locked || d.step == now) ==> answer == d.demand
    ensures Binds(s, f, now, index, answer)
  {
    forall d | d in s && (d.locked || d.step == now) && SectionAt(f, index, d.section)
      ensures answer == d.demand
    {
      OnlySection(f, index, sec, d.section);
    }
  }

  ghost predicate Settled(s: seq<Decision>, section: Section) {
    exists d :: d in s && d.section == section && d.locked
  }

  /** The section that the entry is in, if it is in one, has a locked verdict. */
  ghost predicate SettledFor(s: seq<Decision>, f: seq<Flags>, index: nat) {
    forall sec :: SectionAt(f, index, sec) ==> Settled(s, sec)
  }

  lemma OneToSettle(s: seq<Decision>, f: seq<Flags>, index: nat, sec: Section)
    requires SectionAt(f, index, sec) && Settled(s, sec)
    ensures SettledFor(s, f, index)
  {
    forall other | SectionAt(f, index, other)
      ensures Settled(s, other)
    {
      OnlySection(f, index, sec, other);
    }
  }

  function StillIn(s: seq<Decision>, current: nat): seq<Decision> {
    if s == [] then []
    else if s[0].section.Contains(current) then [s[0]] + StillIn(s[1..], current)
    else StillIn(s[1..], current)
  }

  /** Forgetting takes exactly the verdicts on sections that were left. */
  lemma {:induction false} StillInExact(s: seq<Decision>, current: nat)
    ensures forall d :: d in StillIn(s, current) <==> d in s && d.section.Contains(current)
  {
    if s != [] {
      StillInExact(s[1..], current);
      assert s == [s[0]] + s[1..];
    }
  }

  lemma Removed(s: seq<Decision>, i: nat)
    requires OnePerSection(s) && i < |s|
    ensures OnePerSection(s[..i] + s[i + 1..])
    ensures forall d :: d in s && d != s[i] ==> d in s[..i] + s[i + 1..]
    ensures forall d :: d in s[..i] + s[i + 1..] ==> d in s && d.section != s[i].section
    ensures !s[i].locked ==> LockedKept(s, s[..i] + s[i + 1..])
  {
    var r := s[..i] + s[i + 1..];
    forall d | d in s && d != s[i]
      ensures d in r
    {
      var k :| 0 <= k < |s| && s[k] == d;
      assert r[if k < i then k else k - 1] == d;
    }
    assert forall k :: 0 <= k < |r| ==> r[k] == s[if k < i then k else k + 1];
  }

  lemma Rounds(x: int, n: nat, k: int)
    requires 0 <= x < n
    ensures (x + k * n) % n == x
  {
    var y := x + k * n;
    assert y == y / n * n + y % n;
    var d := y / n - k;
    assert d * n == x - y % n;
    assert 0 - n < d * n < n;
  }

  lemma Smaller(a: set<nat>, b: set<nat>)
    requires a <= b
    ensures |a| <= |b|
  {
    assert b == a + (b - a);
  }

  lemma Marked(s: seq<Decision>, i: nat, lock: bool, now: int)
    requires OnePerSection(s) && i < |s| && !s[i].locked && s[i].step == now
    ensures var r := s[i := s[i].(locked := lock)];
      && OnePerSection(r) && OnlyLocked(s, r, now) && VerdictsKept(s, r, now)
      && Decision(s[i].section, s[i].demand, lock, now) in r
      && (forall d :: d in r && d.section != s[i].section ==> d in s)
      && forall d :: d in r ==> d in s || d.(locked := false) in s
  {
    var r := s[i := s[i].(locked := lock)];
    assert r[i] in r;
    OnlyLockedKeeps(s, r, now);
  }

  lemma NotHeld(s: seq<Decision>, i: nat, section: Section, now: int)
    requires OnePerSection(s) && i <= |s| && forall j :: 0 <= j < i ==> s[j].section != section
    requires i < |s| ==> s[i].section == section && !s[i].locked && s[i].step != now
    ensures !Holds(s, section, now)
  {
  }

  /** What is done with the memos, and when. */
  datatype Deed = Ask(index: nat) | Lock | Forget
  datatype Act = Act(plan: Plan, now: int, convoy: nat, deed: Deed)

  /** The convoy c is at no stop outside the section when it forgets. */
  ghost predicate StaysIn(acts: seq<Act>, c: nat, section: Section) {
    forall a :: a in acts && a.convoy == c && a.deed.Forget? ==> section.Contains(a.plan.current(c))
  }

  /** Locked verdicts are kept for as long as the convoys stay in their sections. */
  ghost predicate KeptWithin(members: seq<nat>, m: map<nat, seq<Decision>>, r: map<nat, seq<Decision>>,
                             acts: seq<Act>) {
    Memos(members, m) && Memos(members, r) &&
    forall c, d :: c in members && d in m[c] && d.locked && StaysIn(acts, c, d.section) ==> d in r[c]
  }

  lemma KeptWithinNext(members: seq<nat>, m: map<nat, seq<Decision>>, r: map<nat, seq<Decision>>,
                       q: map<nat, seq<Decision>>, acts: seq<Act>, a: Act)
    requires KeptWithin(members, m, r, acts) && KeptWithin(members, r, q, [a])
    ensures KeptWithin(members, m, q, acts + [a])
  {
    forall c, d | c in members && d in m[c] && d.locked && StaysIn(acts + [a], c, d.section)
      ensures d in q[c]
    {
      assert forall b :: b in acts || b in [a] ==> b in acts + [a];
      assert StaysIn(acts, c, d.section) && StaysIn([a], c, d.section);
    }
  }

  /** What asking, locking and forgetting are to do. */
  ghost predicate Did(members: seq<nat>, m: map<nat, seq<Decision>>, r: map<nat, seq<Decision>>, a: Act, answer: bool)
  {
    && Memos(members, m) && Memos(members, r)
    && if a.convoy !in members then r == m
       else match a.deed
         case Ask(index) => WasAsked(m, r, a.plan, a.now, a.convoy, index, answer)
         case Lock => WasLocked(members, m, r, a.plan, a.now, a.convoy)
         case Forget => r == m[a.convoy := StillIn(m[a.convoy], a.plan.current(a.convoy))]
  }

  /** A question leaves all verdicts that count, locks none but on sections that convoys are in,
      and is answered by the verdict that counts, or else by the demand. */
  ghost predicate WasAsked(m: map<nat, seq<Decision>>, r: map<nat, seq<Decision>>, p: Plan, now: int, c: nat,
                           index: nat, answer: bool)
    requires c in m
  {
    && Kept(m, r, {}, now) && Warranted(p, now, m, r, {})
    && Binds(m[c], p.flags(c), now, index, answer) && AnswersFresh(p, c, m[c], now, index, answer)
    && ((forall sec :: !SectionAt(p.flags(c), index, sec)) ==> answer)
  }

  /** The section of the next stop, if it is in one, has a locked verdict, old or fresh. */
  ghost predicate WasLocked(members: seq<nat>, m: map<nat, seq<Decision>>, r: map<nat, seq<Decision>>, p: Plan,
                            now: int, c: nat)
    requires Memos(members, m) && Memos(members, r) && c in members
  {
    && (forall x :: x in members ==> LockedKept(m[x], r[x]))
    && (forall k :: 1 <= k < p.count(c) && NextStopAt(p, c, k) ==> SettledFor(r[c], p.flags(c), At(p, c, k)))
    && (|| r == m
        || exists k, sec :: 1 <= k < p.count(c) && NextStopAt(p, c, k) && SectionAt(p.flags(c), At(p, c, k), sec)
             && LockedNow(p, now, m, r, c, sec))
  }

  /** One thing that is done in a step. */
  method Do(members: seq<nat>, recs: map<nat, seq<Decision>>, a: Act)
        returns (next: map<nat, seq<Decision>>, answer: bool)
    requires Memos(members, recs)
    ensures Did(members, recs, next, a, answer)
  {
    answer := false;
    if a.convoy !in members {
      return recs, answer;
    }
    var chain := new Chain(members, a.plan, a.now, recs);
    match a.deed {
      case Ask(index) =>
        answer := chain.WouldStopAtEntry(a.convoy, index, 0);
      case Lock =>
        chain.LockUpcomingSectionDecision(a.convoy);
      case Forget =>
        chain.ForgetLeftSectionDecisions(a.convoy);
    }
    next := chain.recs;
  }

  /** Whatever is done in a step, a locked verdict is kept unless its convoy forgets it at a stop
      outside the section. */
  lemma DidWithin(members: seq<nat>, m: map<nat, seq<Decision>>, r: map<nat, seq<Decision>>, a: Act, answer: bool)
    requires Did(members, m, r, a, answer)
    ensures KeptWithin(members, m, r, [a])
  {
    if a.convoy in members && a.deed.Forget? {
      StillInExact(m[a.convoy], a.plan.current(a.convoy));
      assert a in [a];
    } else if a.convoy in members && a.deed.Ask? {
      forall c | c in members
        ensures LockedKept(m[c], r[c])
      {
        VerdictsLocked(m[c], r[c], a.now);
      }
    }
  }

  /** The n-th step of a run does what it is to do. */
  ghost predicate StepAt(members: seq<nat>, trace: seq<map<nat, seq<Decision>>>, acts: seq<Act>, answers: seq<bool>,
                         n: int) {
    && 0 <= n < |acts| && n < |answers| && n + 1 < |trace|
    && Did(members, trace[n], trace[n + 1], acts[n], answers[n])
  }

  ghost predicate Traced(members: seq<nat>, trace: seq<map<nat, seq<Decision>>>, acts: seq<Act>, answers: seq<bool>) {
    && |answers| == |acts| && |trace| == |acts| + 1 && Memos(members, trace[0]) && Memos(members, trace[|acts|])
    && forall n {:trigger StepAt(members, trace, acts, answers, n)} :: 0 <= n < |acts| ==>
         StepAt(members, trace, acts, answers, n)
  }

  lemma TracedNext(members: seq<nat>, trace: seq<map<nat, seq<Decision>>>, acts: seq<Act>, answers: seq<bool>,
                   r: map<nat, seq<Decision>>, a: Act, answer: bool)
    requires Traced(members, trace, acts, answers) && Did(members, trace[|acts|], r, a, answer)
    ensures Traced(members, trace + [r], acts + [a], answers + [answer])
  {
    var next, all, given := trace + [r], acts + [a], answers + [answer];
    forall n | 0 <= n < |all|
      ensures StepAt(members, next, all, given, n)
    {
      assert n < |acts| ==> StepAt(members, trace, acts, answers, n);
      assert n == |acts| ==> next[n] == trace[n] && next[n + 1] == r;
    }
  }

  /** Any number of steps, whatever happens to schedules and cargo meanwhile. */
  method Run(members: seq<nat>, first: map<nat, seq<Decision>>, acts: seq<Act>)
      returns (recs: map<nat, seq<Decision>>, answers: seq<bool>, ghost trace: seq<map<nat, seq<Decision>>>)
    requires Memos(members, first)
    ensures Traced(members, trace, acts, answers) && trace[0] == first && trace[|acts|] == recs
  {
    recs, answers, trace := first, [], [first];
    for n := 0 to |acts|
      invariant Traced(members, trace, acts[..n], answers) && trace[0] == first && trace[n] == recs
    {
      var next, answer := Do(members, recs, acts[n]);
      TracedNext(members, trace, acts[..n], answers, next, acts[n], answer);
      assert acts[..n + 1] == acts[..n] + [acts[n]];
      recs, answers, trace := next, answers + [answer], trace + [next];
    }
    assert acts[..|acts|] == acts;
  }

  /** Over any run, a locked verdict stands until its convoy forgets it at a stop outside the
      section. */
  lemma {:induction false} LockedStands(members: seq<nat>, trace: seq<map<nat, seq<Decision>>>, acts: seq<Act>,
                                        answers: seq<bool>, n: nat)
    requires Traced(members, trace, acts, answers) && n <= |acts|
    ensures KeptWithin(members, trace[0], trace[n], acts[..n])
  {
    if n > 0 {
      var k := n - 1;
      LockedStands(members, trace, acts, answers, k);
      assert StepAt(members, trace, acts, answers, k);
      DidWithin(members, trace[k], trace[n], acts[k], answers[k]);
      KeptWithinNext(members, trace[0], trace[k], trace[n], acts[..k], acts[k]);
      assert acts[..n] == acts[..k] + [acts[k]];
    }
  }

  /** Until then it is the answer to every question about an entry of its section. */
  lemma LockedAnswers(members: seq<nat>, trace: seq<map<nat, seq<Decision>>>, acts: seq<Act>, answers: seq<bool>,
                      n: nat, d: Decision)
    requires Traced(members, trace, acts, answers) && n < |acts|
    requires var a := acts[n];
      && a.convoy in members && a.deed.Ask? && d in trace[0][a.convoy] && d.locked
      && StaysIn(acts[..n], a.convoy, d.section) && SectionAt(a.plan.flags(a.convoy), a.deed.index, d.section)
    ensures answers[n] == d.demand
  {
    LockedStands(members, trace, acts, answers, n);
    assert StepAt(members, trace, acts, answers, n);
  }
}
