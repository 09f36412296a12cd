/** What a carrier's schedule says of a convoy aboard, and what becomes of it at each call. */
module Voyages {
  import opened Convois
  import opened Landing
  import opened Rescue
  import opened BoardingPromise

  /** The call at the current entry of a schedule, for convoys that want to go to `dest`. */
  ghost function CallOf(s: Schedule, h: Halts, cur: nat, dest: Handle -> Halt, tileOk: Handle -> bool,
                        top: Handle -> nat,
                        depot: Handle -> bool): Call
    requires cur < |s|
  {
    Call(
      !s[cur].noUnload,
      s[cur].unloadAll,
      (c: Handle) => dest(c) != NO_HALT && h(s[cur].pos) == dest(c),
      (c: Handle) => dest(c) != NO_HALT && CanDeliver(s, h, cur, dest(c)),
      tileOk, top, depot)
  }

  /** The carrier decides as its schedule says: who rides on, who wants to land, and who has to
      be rescued. */
  lemma DecidesAlike(s: Schedule, h: Halts, cur: nat, dest: Handle -> Halt, tileOk: Handle -> bool, top: Handle -> nat,
                     depot: Handle -> bool, c: Handle)
    requires cur < |s| && dest(c) != NO_HALT
    ensures var call := CallOf(s, h, cur, dest, tileOk, top, depot);
      && (call.Rides(c) <==> CallAt(s, h, cur, dest(c)) == RidesOn)
      && (call.canUnload && call.destHere(c) <==> CallAt(s, h, cur, dest(c)) == Lands)
  {
  }

  /** The boarding promise, kept aboard: if the carrier does not come back to a stop it made
      before, a convoy that is delivered at the d-th entry stays as it is at every stop before;
      at that entry it gets off, or waits for room, if its tile can take it at all. */
  lemma KeptAboard(s: Schedule, h: Halts, cur: nat, d: nat, k: nat, call: Call, dest: Handle -> Halt,
                   t: Table, m: Chains, u: Table, m': Chains, filed: seq<Handle>, self: Handle, c: Handle)
    requires cur < |s| && dest(c) != NO_HALT && DeliversFirst(s, h, cur, d, dest(c)) && NoReturn(s, h, cur, d)
    requires 1 <= k <= d && StopsAt(s, h, cur, k)
    requires call == CallOf(s, h, Ahead(s, cur, k), dest, call.tileOk, call.top, call.depot)
    requires c in t && c in m && Served(t, m, u, m', filed, self, call, c)
    ensures k < d ==> c in u && u[c] == t[c] && c in m' && m'[c] == m[c]
    ensures k == d && Landable(t, call, c) ==> c in m' && GotOff(t, u, m', m[c], self, call, c)
  {
    DecidesAlike(s, h, Ahead(s, cur, k), dest, call.tileOk, call.top, call.depot, c);
    if k < d {
      NotBack(s, h, cur, k, d);
      CallBefore(s, h, cur, d, dest(c), k);
    } else {
      assert DeliversAt(s, h, cur, d, dest(c));
    }
  }

  lemma NotBack(s: Schedule, h: Halts, cur: nat, k: nat, d: nat)
    requires cur < |s| && 1 <= k < d <= |s| && NoReturn(s, h, cur, d) && StopsAt(s, h, cur, k)
    ensures !ComesBack(s, h, cur, k, d)
  {
  }
}
