/**
 Settling: after an event, the accessibility of every destination is announced
 where it changed, and every adjacent point is sent what it does not know yet. It
 should believe prohibited whatever this node cannot reach, or reaches by way of
 that point itself.
 */
module Settling {
  import opened Options
  import opened RouteChoice
  import opened Signalling
  import opened Observer
  import opened Invariants
  import opened NodeState

  /** What was said and timed of the destinations is what is known. */
  ghost predicate Known(n: Node) {
    && n.past.world.accessible == n.accessible && n.past.world.limited == n.restricted <= n.accessible
    && n.past.world.guards == n.guarded
  }

  /** T8 starts for what is lost, unless this node restarts. */
  function Guarding(n: Node, lost: set<PointCode>): set<PointCode> { if n.restarting then n.guarded else n.guarded + lost }

  /** A destination was found to be accessible, or not (section 13.2.2 ii of ITU-T Q.704 for T8). */
  method SettleReach(t: Topology, n: Node, d: PointCode, reached: bool) returns (m: Node)
    requires Recorded(t, n) && Known(n)
    ensures Recorded(t, m) && m.guarded == if d in n.accessible && !reached then Guarding(n, {d}) else n.guarded
    ensures Logs(n.(accessible := Put(n.accessible, d, reached), guarded := m.guarded), m,
                 n.past.world.(accessible := m.accessible, limited := if reached then n.restricted else n.restricted - {d},
                               guards := m.guarded, flips := m.past.world.flips))
    ensures (d in n.accessible) == reached ==> m == n
  {
    m := n;
    if (d in n.accessible) != reached {
      m := Announce(t, n.(accessible := Put(n.accessible, d, reached)), d, reached);
      if !reached && !n.restarting {
        m := Guard(t, m, d);
      }
    }
  }

  /** A destination was found to be reached by restricted routes only, or not. */
  method SettleRestricted(t: Topology, n: Node, d: PointCode, reached: bool, limited: bool) returns (m: Node)
    requires Recorded(t, n) && (limited ==> reached)
    requires n.past.world.limited == if reached then n.restricted else n.restricted - {d}
    ensures Recorded(t, m)
    ensures Logs(n.(restricted := Put(n.restricted, d, limited)), m, n.past.world.(limited := m.restricted))
    ensures (d in n.restricted) == limited ==> m == n
  {
    m := n;
    if !reached {
      m := n.(restricted := n.restricted - {d});
    } else if (d in n.restricted) != limited {
      m := AnnounceLimit(t, n.(restricted := Put(n.restricted, d, limited)), d, limited);
    }
  }

  method SettleDestination(t: Topology, n: Node, d: PointCode, reached: bool, limited: bool) returns (m: Node)
    requires Recorded(t, n) && Known(n) && (limited ==> reached)
    ensures Recorded(t, m) && Known(m) && m.guarded == if d in n.accessible && !reached then Guarding(n, {d}) else n.guarded
    ensures Logs(n.(accessible := Put(n.accessible, d, reached), restricted := Put(n.restricted, d, limited), guarded := m.guarded), m,
                 n.past.world.(accessible := m.accessible, limited := m.restricted, guards := m.guarded, flips := m.past.world.flips))
    ensures (d in n.accessible) == reached ==> m.accessible == n.accessible && m.past.world.flips == n.past.world.flips
    ensures (d in n.accessible) == reached && (d in n.restricted) == limited ==> m == n
  {
    m := SettleReach(t, n, d, reached);
    m := SettleRestricted(t, m, d, reached, limited);
  }

  /** Bring the accessibility of every destination in line with what was found. */
  method SettleDestinations(t: Topology, n: Node, reached: set<PointCode>, limited: set<PointCode>) returns (m: Node)
    requires Recorded(t, n) && t.Valid() && Known(n)
    requires limited <= reached <= t.routes.Keys && n.accessible <= t.routes.Keys && n.restricted <= t.routes.Keys
    ensures Recorded(t, m) && m.guarded == Guarding(n, n.accessible - reached)
    ensures Logs(n.(accessible := reached, restricted := limited, guarded := m.guarded), m,
                 n.past.world.(accessible := reached, limited := limited, guards := m.guarded, flips := m.past.world.flips))
    ensures n.accessible == reached ==> m.past.world.flips == n.past.world.flips
    ensures n.accessible == reached && n.restricted == limited ==> m == n
  {
    m := n;
    var i := 0;
    while i < |t.dpcs|
      invariant 0 <= i <= |t.dpcs|
      invariant Recorded(t, m) && Known(m)
      invariant Logs(n.(accessible := m.accessible, restricted := m.restricted, guarded := m.guarded), m,
                     n.past.world.(accessible := m.accessible, limited := m.restricted, guards := m.guarded, flips := m.past.world.flips))
      invariant m.accessible <= t.routes.Keys && m.restricted <= t.routes.Keys
      invariant Found(t.dpcs, i, n.accessible, m.accessible, reached) && Found(t.dpcs, i, n.restricted, m.restricted, limited)
      invariant m.guarded == Guarding(n, n.accessible - m.accessible)
      invariant n.accessible == reached ==> m.accessible == reached && m.past.world.flips == n.past.world.flips
      invariant n.accessible == reached && n.restricted == limited ==> m == n
    {
      m := SettleNext(t, n, m, i, reached, limited);
      i := i + 1;
    }
    AllFound(t, n.accessible, m.accessible, reached);
    AllFound(t, n.restricted, m.restricted, limited);
  }

  /** The first `count` destinations are as found, the others as they were. */
  ghost predicate Found(dpcs: seq<PointCode>, count: nat, was: set<PointCode>, now: set<PointCode>, found: set<PointCode>)
    requires count <= |dpcs|
  {
    forall d :: d in now <==> if d in dpcs[..count] then d in found else d in was
  }

  lemma OneMoreFound(dpcs: seq<PointCode>, count: nat, was: set<PointCode>, now: set<PointCode>, found: set<PointCode>)
    requires count < |dpcs| && Found(dpcs, count, was, now, found)
    ensures Found(dpcs, count + 1, was, Put(now, dpcs[count], dpcs[count] in found), found)
  {
    assert dpcs[..count + 1] == dpcs[..count] + [dpcs[count]];
  }

  lemma AllFound(t: Topology, was: set<PointCode>, now: set<PointCode>, found: set<PointCode>)
    requires t.Valid() && Found(t.dpcs, |t.dpcs|, was, now, found) && was <= t.routes.Keys && now <= t.routes.Keys && found <= t.routes.Keys
    ensures now == found
  {
    assert t.dpcs[..|t.dpcs|] == t.dpcs;
  }

  method SettleNext(t: Topology, ghost n: Node, before: Node, i: nat, reached: set<PointCode>, limited: set<PointCode>) returns (m: Node)
    requires Recorded(t, before) && Known(before) && i < |t.dpcs| && limited <= reached
    requires Found(t.dpcs, i, n.accessible, before.accessible, reached) && Found(t.dpcs, i, n.restricted, before.restricted, limited)
    requires before.guarded == Guarding(n, n.accessible - before.accessible) && before.restarting == n.restarting
    ensures Recorded(t, m) && Known(m)
    ensures Logs(before.(accessible := m.accessible, restricted := m.restricted, guarded := m.guarded), m,
                 before.past.world.(accessible := m.accessible, limited := m.restricted, guards := m.guarded, flips := m.past.world.flips))
    ensures m.accessible == Put(before.accessible, t.dpcs[i], t.dpcs[i] in reached)
    ensures m.restricted == Put(before.restricted, t.dpcs[i], t.dpcs[i] in limited)
    ensures Found(t.dpcs, i + 1, n.accessible, m.accessible, reached) && Found(t.dpcs, i + 1, n.restricted, m.restricted, limited)
    ensures m.guarded == Guarding(n, n.accessible - m.accessible)
    ensures before.accessible == reached ==> m.accessible == reached && m.past.world.flips == before.past.world.flips
    ensures before.accessible == reached && before.restricted == limited ==> m == before
  {
    var d := t.dpcs[i];
    OneMoreFound(t.dpcs, i, n.accessible, before.accessible, reached);
    OneMoreFound(t.dpcs, i, n.restricted, before.restricted, limited);
    m := SettleDestination(t, before, d, d in reached, d in limited);
    GuardedSoFar(n, before, t.dpcs, i, reached);
  }

  lemma GuardedSoFar(n: Node, before: Node, dpcs: seq<PointCode>, i: nat, reached: set<PointCode>)
    requires i < |dpcs| && Found(dpcs, i, n.accessible, before.accessible, reached) && before.restarting == n.restarting
    requires before.guarded == Guarding(n, n.accessible - before.accessible)
    ensures var d := dpcs[i];
            (if d in before.accessible && d !in reached then Guarding(before, {d}) else before.guarded)
            == Guarding(n, n.accessible - Put(before.accessible, d, d in reached))
  {
    var d := dpcs[i];
    assert d in before.accessible ==> d in n.accessible || d in reached;
    assert d in n.accessible && d !in before.accessible ==> d !in reached;
  }

  /** Have one adjacent point believe a destination prohibited, or allowed. */
  method SettleBelief(t: Topology, n: Node, ls: LinksetId, d: PointCode, want: bool) returns (m: Node)
    requires Recorded(t, n) && ToldIsBelieved(t.routes.Keys, n.told, n.past.world.believes)
    requires ls < |t.linksets| && t.linksets[ls].adjacent.Some?
    ensures Recorded(t, m) && ToldIsBelieved(t.routes.Keys, m.told, m.past.world.believes)
    ensures Logs(n.(told := Put(n.told, (ls, d), want)), m, n.past.world.(believes := m.past.world.believes))
    ensures ((ls, d) in n.told) == want ==> m == n
  {
    m := n;
    TellingIsBelieved(t.routes.Keys, n.told, n.past.world.believes, ls, d, want);
    if ((ls, d) in n.told) != want {
      m := n.(told := Put(n.told, (ls, d), want));
      if Sayable(d) {
        m := TellAbout(t, m, ls, d, want);
      }
    }
  }

  /** Of the first `count` destinations one adjacent point was told what it should. */
  ghost predicate InformedTo(dpcs: seq<PointCode>, count: nat, adjacent: PointCode, told: Pairs, ls: LinksetId, prohibited: set<PointCode>)
    requires count <= |dpcs|
  {
    forall k | 0 <= k < count && dpcs[k] != adjacent :: (ls, dpcs[k]) in told <==> dpcs[k] in prohibited
  }

  /** A point is no destination to itself. */
  function Wanted(told: Pairs, ls: LinksetId, adjacent: PointCode, prohibited: set<PointCode>, d: PointCode): bool {
    if d == adjacent then (ls, d) in told else d in prohibited
  }

  lemma OneMoreInformed(dpcs: seq<PointCode>, i: nat, adjacent: PointCode, told: Pairs, ls: LinksetId, prohibited: set<PointCode>)
    requires i < |dpcs| && InformedTo(dpcs, i, adjacent, told, ls, prohibited)
    ensures var after := Put(told, (ls, dpcs[i]), Wanted(told, ls, adjacent, prohibited, dpcs[i]));
            InformedTo(dpcs, i + 1, adjacent, after, ls, prohibited) && ToldOthers(told, after, ls)
  {}

  /** Have one adjacent point believe what it should of every destination but itself. */
  method SettleBeliefs(t: Topology, n: Node, ls: LinksetId, adjacent: PointCode, prohibited: set<PointCode>) returns (m: Node)
    requires Recorded(t, n) && t.Valid() && ToldIsBelieved(t.routes.Keys, n.told, n.past.world.believes)
    requires ls < |t.linksets| && t.linksets[ls].adjacent == Some(adjacent)
    ensures Recorded(t, m) && ToldIsBelieved(t.routes.Keys, m.told, m.past.world.believes)
    ensures Logs(n.(told := m.told), m, n.past.world.(believes := m.past.world.believes))
    ensures Informed(t.routes.Keys, adjacent, m.told, ls, prohibited)
    ensures ToldOthers(n.told, m.told, ls)
    ensures Informed(t.routes.Keys, adjacent, n.told, ls, prohibited) ==> m == n
  {
    m := n;
    var i := 0;
    while i < |t.dpcs|
      invariant 0 <= i <= |t.dpcs|
      invariant Recorded(t, m) && ToldIsBelieved(t.routes.Keys, m.told, m.past.world.believes)
      invariant Logs(n.(told := m.told), m, n.past.world.(believes := m.past.world.believes))
      invariant InformedTo(t.dpcs, i, adjacent, m.told, ls, prohibited)
      invariant ToldOthers(n.told, m.told, ls)
      invariant Informed(t.routes.Keys, adjacent, n.told, ls, prohibited) ==> m == n
    {
      var d := t.dpcs[i];
      OneMoreInformed(t.dpcs, i, adjacent, m.told, ls, prohibited);
      m := SettleBelief(t, m, ls, d, Wanted(m.told, ls, adjacent, prohibited, d));
      i := i + 1;
    }
    AllInformed(t, adjacent, m.told, ls, prohibited);
  }

  lemma AllInformed(t: Topology, adjacent: PointCode, told: Pairs, ls: LinksetId, prohibited: set<PointCode>)
    requires t.Valid() && InformedTo(t.dpcs, |t.dpcs|, adjacent, told, ls, prohibited)
    ensures Informed(t.routes.Keys, adjacent, told, ls, prohibited)
  {
    forall d | d in t.routes.Keys && d != adjacent ensures (ls, d) in told <==> d in prohibited {
      var k :| 0 <= k < |t.dpcs| && t.dpcs[k] == d;
    }
  }

  /** An adjacent point that could not be reached, or restarted, takes every route to be allowed. */
  method Synchronise(t: Topology, n: Node, ls: LinksetId) returns (m: Node)
    requires Recorded(t, n) && ToldIsBelieved(t.routes.Keys, n.told, n.past.world.believes)
    ensures Recorded(t, m) && ToldIsBelieved(t.routes.Keys, m.told, m.past.world.believes)
    ensures Logs(n.(told := m.told, synced := n.synced + {ls}), m, n.past.world.(believes := m.past.world.believes))
    ensures ToldOthers(n.told, m.told, ls)
    ensures ls in n.synced ==> m == n
  {
    m := n;
    if ls !in n.synced {
      var past := Record(t, n, Resynced(ls));
      m := n.(synced := n.synced + {ls}, told := Resync(n.told, ls), past := past);
    }
  }

  /** What an adjacent point that can be told is owed. */
  method Inform(t: Topology, n: Node, ls: LinksetId, adjacent: PointCode, prohibited: set<PointCode>) returns (m: Node)
    requires Recorded(t, n) && t.Valid() && ToldIsBelieved(t.routes.Keys, n.told, n.past.world.believes)
    requires ls < |t.linksets| && t.linksets[ls].adjacent == Some(adjacent)
    ensures Recorded(t, m) && ToldIsBelieved(t.routes.Keys, m.told, m.past.world.believes)
    ensures Logs(n.(told := m.told, synced := n.synced + {ls}), m, n.past.world.(believes := m.past.world.believes))
    ensures ToldOthers(n.told, m.told, ls)
    ensures Informed(t.routes.Keys, adjacent, m.told, ls, prohibited)
    ensures ls in n.synced && Informed(t.routes.Keys, adjacent, n.told, ls, prohibited) ==> m == n
  {
    m := Synchronise(t, n, ls);
    m := SettleBeliefs(t, m, ls, adjacent, prohibited);
  }

  /** What one adjacent point is owed. */
  method SettleLinkset(t: Topology, n: Node, ls: LinksetId, reached: set<PointCode>, prohibited: set<PointCode>) returns (m: Node)
    requires Recorded(t, n) && t.Valid() && |n.links| == |t.links| && ToldIsBelieved(t.routes.Keys, n.told, n.past.world.believes)
    requires ls < |t.linksets|
    ensures Recorded(t, m) && ToldIsBelieved(t.routes.Keys, m.told, m.past.world.believes)
    ensures Logs(n.(told := m.told, synced := m.synced), m, n.past.world.(believes := m.past.world.believes))
    ensures m.synced - {ls} == n.synced - {ls}
    ensures ToldOthers(n.told, m.told, ls)
    ensures LinksetTidy(t, n.links, reached, m.synced, m.told, ls, prohibited)
    ensures LinksetTidy(t, n.links, reached, n.synced, n.told, ls, prohibited) ==> m == n
  {
    m := n;
    if t.linksets[ls].adjacent.Some? {
      if !CanTell(t, n.links, reached, ls) {
        m := n.(synced := n.synced - {ls});
      } else {
        m := Inform(t, n, ls, t.linksets[ls].adjacent.value, prohibited);
      }
    }
  }

  /** What every adjacent point is owed; a restarting node says nothing yet. */
  method SettleLinksets(t: Topology, n: Node, reached: set<PointCode>, plan: seq<set<PointCode>>) returns (m: Node)
    requires Recorded(t, n) && t.Valid() && |n.links| == |t.links| && ToldIsBelieved(t.routes.Keys, n.told, n.past.world.believes)
    requires |plan| == |t.linksets|
    ensures Recorded(t, m) && ToldIsBelieved(t.routes.Keys, m.told, m.past.world.believes)
    ensures Logs(n.(told := m.told, synced := m.synced), m, n.past.world.(believes := m.past.world.believes))
    ensures !n.restarting ==> AllTidy(t, n.links, reached, m.synced, m.told, plan)
    ensures n.restarting || AllTidy(t, n.links, reached, n.synced, n.told, plan) ==> m == n
  {
    m := n;
    if n.restarting {
      return;
    }
    var ls := 0;
    while ls < |t.linksets|
      invariant 0 <= ls <= |t.linksets|
      invariant Recorded(t, m) && ToldIsBelieved(t.routes.Keys, m.told, m.past.world.believes)
      invariant Logs(n.(told := m.told, synced := m.synced), m, n.past.world.(believes := m.past.world.believes))
      invariant forall k: nat | k < ls :: LinksetTidy(t, n.links, reached, m.synced, m.told, k, plan[k])
      invariant AllTidy(t, n.links, reached, n.synced, n.told, plan) ==> m == n
    {
      var before := m;
      m := SettleLinkset(t, m, ls, reached, plan[ls]);
      forall k: nat | k < ls
        ensures LinksetTidy(t, n.links, reached, m.synced, m.told, k, plan[k])
      {
        TidyKept(t, n.links, reached, before.synced, before.told, m.synced, m.told, ls, k, plan[k]);
      }
      ls := ls + 1;
    }
  }

  /** The destinations that can be reached, and what each adjacent point should believe. */
  method Look(t: Topology, n: Node) returns (reached: set<PointCode>, limited: set<PointCode>, plan: seq<set<PointCode>>)
    requires Shaped(t, n)
    ensures reached == ReachedNow(t, n) && limited == RestrictedNow(t, n) && plan == ToTell(t, n)
    ensures limited <= reached <= t.routes.Keys
  {
    var carrying := CarryingNow(t, n);
    reached := ReachedSet(carrying, n.servers, n.paused, n.routes);
    limited := RestrictedSet(carrying, n.servers, n.paused, n.routes);
    plan := Plan(t, carrying, n.servers, n.paused, n.routes);
  }

  /** Settling changes no more than what is said and known of the destinations. */
  ghost predicate OnlySettled(n: Node, m: Node) {
    Logs(n.(accessible := m.accessible, restricted := m.restricted, guarded := m.guarded, told := m.told, synced := m.synced), m,
         n.past.world.(accessible := m.past.world.accessible, limited := m.past.world.limited, guards := m.past.world.guards,
                       flips := m.past.world.flips, believes := m.past.world.believes))
  }

  /**
   Announce and send all that is due (sections 13.2.2 and 13.3.2 of ITU-T Q.704).
   Where nothing is due, nothing happens.
   */
  method Settle(t: Topology, n: Node) returns (m: Node)
    requires Core(t, n)
    ensures Core(t, m) && OnlySettled(n, m)
    ensures Settled(t, m) && m.guarded == Guarding(n, n.accessible - ReachedNow(t, n))
    ensures n.accessible == ReachedNow(t, n) ==> m.past.world.flips == n.past.world.flips
    ensures Settled(t, n) ==> m == n
  {
    var reached, limited, plan := Look(t, n);
    m := SettleDestinations(t, n, reached, limited);
    m := SettleLinksets(t, m, reached, plan);
  }
}
