/**
 What holds in every reachable state of signalling network management. Each
 statement is about the log replayed from the beginning, not about what the
 node says of itself.
 */
module Guarantees {
  import opened Options
  import opened RouteChoice
  import opened Signalling
  import opened Observer
  import opened Invariants
  import opened NodeState
  import opened LinkFacts
  import opened RouteMarks
  import opened Events
  import opened Handling

  lemma PresentIsReplayed(t: Topology, n: Node)
    requires Recorded(t, n)
    ensures n.past.world == Replay(t, n.past.log)
  {
    TraceIsReplay(t, n.past.log, n.past.trace, |n.past.log|);
    assert n.past.log[..|n.past.log|] == n.past.log;
  }

  // ── Timers ─────────────────────────────────────────────────────────────────

  /** The timers that run, by the state alone. */
  predicate Runs(n: Node, timer: Timer) {
    match timer
    case Changeover(l) => l < |n.links| && ChangingOver(n.links[l].phase)
    case Changeback(l) => l < |n.links| && ChangingBack(n.links[l].phase)
    case InhibitTest(l) => l < |n.links| && n.links[l].inhibited
    case Uninhibit(l) => l < |n.links| && n.links[l].uninhibitAttempts > 0
    case ForceUninhibit(l) => l < |n.links| && n.links[l].forceAttempts > 0
    case AdjacentRestart(ls) => ls in n.adjacentRestarting
    case RestartAllowed(ls) => ls in n.guardedLinksets
    case Rerouting(d) => d in n.holding
    case Prohibiting(d) => d in n.guarded
    case RouteSetTest(d, ls) => d in n.routes && StatusVia(n.routes[d], ls) != Allowed
    case Restart | RestartOverall => n.restarting
    case Isolation => false
  }

  /** Replaying every start, stop and expiry leaves running exactly the timers that the state calls for. */
  lemma TimersFollowState(t: Topology, n: Node, timer: Timer)
    requires Valid(t, n) && !timer.Isolation?
    ensures Armed(Replay(t, n.past.log), timer) <==> Runs(n, timer)
  {
    PresentIsReplayed(t, n);
    if OfLink(timer) {
      LinkTimersFollow(n, n.past.world, timer);
    }
  }

  lemma LinkTimersFollow(n: Node, w: World, timer: Timer)
    requires LinksTimed(n.links, w.links) && OfLink(timer)
    ensures Armed(w, timer) <==> Runs(n, timer)
  {
    if timer.link < |n.links| {
      assert LinkTimed(n.links[timer.link], timer.link, w.links);
    }
  }

  /** A timed isolation, by the replayed log. */
  lemma IsolationByReplay(t: Topology, n: Node)
    requires Recorded(t, n)
    ensures Armed(Replay(t, n.past.log), Isolation) == n.past.world.node.isolation
  {
    PresentIsReplayed(t, n);
  }

  /** An isolated node times its isolation, or will restart with its first link; no other node times one. */
  lemma IsolationIsTimed(t: Topology, n: Node)
    requires Valid(t, n)
    ensures n.isolated <==> NothingUp(n.links, n.servers)
    ensures n.isolated ==> Armed(Replay(t, n.past.log), Isolation) || n.restartDue
    ensures Armed(Replay(t, n.past.log), Isolation) ==> n.isolated
  {
    IsolationByReplay(t, n);
  }

  // ── Links ──────────────────────────────────────────────────────────────────

  /** Traffic of a link is buffered exactly while the link changes over or back. */
  lemma BufferedWhileChanging(t: Topology, n: Node, l: LinkId)
    requires Valid(t, n)
    ensures l in Replay(t, n.past.log).links.held <==>
              l < |n.links| && (ChangingOver(n.links[l].phase) || ChangingBack(n.links[l].phase))
  {
    PresentIsReplayed(t, n);
    if l < |n.links| {
      assert LinkTimed(n.links[l], l, n.past.world.links);
    }
  }

  /** At most one timer has run out for the traffic of a link that is buffered still. */
  lemma LateAtMostOnce(t: Topology, n: Node, l: LinkId)
    requires Valid(t, n)
    ensures Replay(t, n.past.log).sound && Replay(t, n.past.log).links.late[l] <= 1
  {
    PresentIsReplayed(t, n);
    NobodyIsLate(n.links, n.past.world.links);
  }

  /** How often a timer ran out that the traffic of a link waited for, among the entries `i..j` of the log. */
  ghost function Waits(t: Topology, n: Node, l: LinkId, i: nat, j: nat): nat
    requires i <= j <= |n.past.log|
  {
    Count(WaitsOf(t, n.past.log, l), i, j)
  }

  lemma Counted(t: Topology, n: Node, l: LinkId)
    requires Valid(t, n)
    ensures InTime(n.past.log, l, CountsOf(t, n.past.log, l), WaitsOf(t, n.past.log, l))
  {
    var log := n.past.log;
    LateAtMostOnce(t, n, l);
    LateCounts(t, log, l);
    assert log[..|log|] == log && Replay(t, log[..0]) == Beginning;
    forall h | 0 <= h < |log| && log[h].Expired? ensures CountsOf(t, log, l)[h] < 2 {
      NeverLate(t, log, l, h);
    }
  }

  /**
   Over the whole log, whatever happens in between: while the traffic of a link is
   not let go, the timers it waits for run out twice at most.
   */
  lemma AtMostTwoExpiries(t: Topology, n: Node, l: LinkId, i: nat, j: nat)
    requires Valid(t, n) && i <= j <= |n.past.log| && forall k | i <= k < j :: !Releases(n.past.log[k], l)
    ensures Waits(t, n, l, i, j) <= 2
  {
    var log := n.past.log;
    Counted(t, n, l);
    CountGrows(CountsOf(t, log, l), ReleasesOf(log, l), WaitsOf(t, log, l), i, j);
    CountBound(CountsOf(t, log, l), ReleasesOf(log, l), WaitsOf(t, log, l), j);
  }

  /** And the second time is answered: the link is diverted or opened before any timer runs out again. */
  lemma SecondExpiryReleases(t: Topology, n: Node, l: LinkId, i: nat, k: nat)
    requires Valid(t, n) && i <= k <= |n.past.log| && (forall h | i <= h < k :: !Releases(n.past.log[h], l))
    requires Waits(t, n, l, i, k) == 2
    ensures exists j :: k <= j < |n.past.log| && Releases(n.past.log[j], l) && forall h | k <= h < j :: !n.past.log[h].Expired?
  {
    Counted(t, n, l);
    SecondIsAnswered(t, n.past.log, l, i, k);
  }

  /** No link is stuck, and none carries traffic before it may. */
  lemma NoLinkStuckOrEarly(t: Topology, n: Node, l: LinkId)
    requires Valid(t, n) && l < |n.links|
    ensures n.links[l].up && !n.links[l].inhibited ==>
              !n.links[l].phase.Closed? && (ChangingOver(n.links[l].phase) ==> n.links[l].back)
    ensures n.links[l].inhibited ==> !Available(n.links[l].phase)
    ensures Available(n.links[l].phase) || n.links[l].phase.AwaitRestart? ==> n.links[l].up
    ensures n.links[l].phase.AwaitRestart? ==> n.restarting || t.links[l].linkset in n.adjacentRestarting
    ensures n.restarting || t.links[l].linkset in n.adjacentRestarting ==> !Available(n.links[l].phase)
    ensures n.links[l].declared != [] <==> n.links[l].phase.ChangebackDeclared?
  {
    assert LinkOk(n.links[l], Waiting(t, n.adjacentRestarting, n.restarting, l));
  }

  /** Every action ever asked for was legal where it stands in the log. */
  lemma EveryActionWasLegal(t: Topology, n: Node, k: nat)
    requires Valid(t, n) && k < |n.past.log| && n.past.log[k].Did?
    ensures Legal(t, Replay(t, n.past.log[..k]), n.past.log[k].action, n.past.log[k].traffic)
  {
    PresentIsReplayed(t, n);
    SoundEverywhere(t, n.past.log, k);
  }

  /** Wherever a link was opened, its adjacent point had been told of every destination with a route through it in use at the time. */
  lemma PreventiveBeforeTraffic(t: Topology, n: Node, k: nat, l: LinkId, d: PointCode)
    requires Valid(t, n) && k < |n.past.log| && n.past.log[k].Did? && n.past.log[k].action == Open(l)
    requires l < |t.links| && t.linksets[t.links[l].linkset].adjacent.Some?
    requires Sayable(d) && d != t.linksets[t.links[l].linkset].adjacent.value
    ensures n.past.log[k].traffic.Some?
    ensures var traffic := n.past.log[k].traffic.value;
            d in traffic.routes && RoutedThrough(traffic.carrying, traffic.servers, d in traffic.paused, traffic.routes[d], t.links[l].linkset) ==>
              (t.links[l].linkset, d) in Replay(t, n.past.log[..k]).believes
  {
    EveryActionWasLegal(t, n, k);
  }

  /** Traffic of a destination is held exactly while marks for its routes wait, and T6 runs. */
  lemma HeldWhileDeferred(t: Topology, n: Node, d: PointCode)
    requires Valid(t, n)
    ensures d in Replay(t, n.past.log).dests.held <==> d in n.holding
    ensures d in Replay(t, n.past.log).dests.held <==> d in n.deferred && n.deferred[d] != []
    ensures d in Replay(t, n.past.log).dests.held <==> Armed(Replay(t, n.past.log), Rerouting(d))
  {
    PresentIsReplayed(t, n);
  }

  // ── What is believed, and what is known ────────────────────────────────────

  /** An adjacent point believes a destination prohibited exactly when it cannot be reached or is routed through that point. */
  lemma BeliefIsTruth(t: Topology, n: Node, ls: LinksetId, d: PointCode)
    requires Valid(t, n) && Settled(t, n) && !n.restarting
    requires ls < |t.linksets| && t.linksets[ls].adjacent.Some? && CanTell(t, n.links, ReachedNow(t, n), ls)
    requires d in t.routes && Sayable(d) && d != t.linksets[ls].adjacent.value
    ensures (ls, d) in Replay(t, n.past.log).believes <==>
              || !Reachable(CarryingNow(t, n), n.servers, d in n.paused, n.routes[d])
              || RoutedThrough(CarryingNow(t, n), n.servers, d in n.paused, n.routes[d], ls)
  {
    PresentIsReplayed(t, n);
    assert LinksetTidy(t, n.links, ReachedNow(t, n), n.synced, n.told, ls, ToTell(t, n)[ls]);
    assert (ls, d) in n.told <==> d in ToTell(t, n)[ls];
  }

  /** What was last said of a destination's accessibility is that some route of it is usable. */
  lemma AccessibilityIsTruth(t: Topology, n: Node, d: PointCode)
    requires Valid(t, n)
    ensures d in Replay(t, n.past.log).accessible <==>
              && d in n.routes
              && (exists i :: 0 <= i < |n.routes[d]| && UsableRoute(CarryingNow(t, n), n.servers, d in n.paused, n.routes[d][i]) != No)
    ensures d in n.restricted ==> d in n.accessible
  {
    PresentIsReplayed(t, n);
    if d in n.routes {
      var grades := Grades(CarryingNow(t, n), n.servers, d in n.paused, n.routes[d]);
      InUseIffUsable(grades);
      assert d in ReachedNow(t, n) <==> RoutesInUse(grades) != [];
      if i :| 0 <= i < |n.routes[d]| && UsableRoute(CarryingNow(t, n), n.servers, d in n.paused, n.routes[d][i]) != No {
        assert grades[i].usable != No;
      }
      if i :| 0 <= i < |grades| && grades[i].usable != No {
        assert UsableRoute(CarryingNow(t, n), n.servers, d in n.paused, n.routes[d][i]) != No;
      }
    }
  }

  /** What was last said of a destination's restriction is that it is reached by restricted routes alone. */
  lemma RestrictionIsTruth(t: Topology, n: Node, d: PointCode)
    requires Valid(t, n)
    ensures d in Replay(t, n.past.log).limited <==>
              d in n.routes && OnlyRestricted(CarryingNow(t, n), n.servers, d in n.paused, n.routes[d])
  {
    PresentIsReplayed(t, n);
  }

  // ── Route marks ────────────────────────────────────────────────────────────

  /** The marks asked for, the deferred ones applied, give each route its status, except for exactly the stale ones. */
  lemma MarksFollowState(t: Topology, n: Node, d: PointCode, ls: LinksetId)
    requires Valid(t, n) && d in n.routes
    ensures (d, ls) !in n.past.stale <==>
              LastMark(DeferredOf(n.deferred, d), ls, MarkOf(Replay(t, n.past.log).marks, d, ls)) == StatusVia(n.routes[d], ls)
    ensures (d, ls) !in n.past.stale && d !in n.holding ==>
              MarkOf(Replay(t, n.past.log).marks, d, ls) == StatusVia(n.routes[d], ls)
  {
    PresentIsReplayed(t, n);
    assert PairRight(n.routes, n.deferred, n.past.world.marks, n.past.stale, d, ls);
  }

  /** Once nothing is held, a stale route is allowed, and marked otherwise. */
  lemma StaleIsMarkedWrong(t: Topology, n: Node, d: PointCode, ls: LinksetId)
    requires Valid(t, n) && d in n.routes && (d, ls) in n.past.stale && d !in n.holding
    ensures StatusVia(n.routes[d], ls) == Allowed && MarkOf(Replay(t, n.past.log).marks, d, ls) != Allowed
  {
    PresentIsReplayed(t, n);
    assert PairRight(n.routes, n.deferred, n.past.world.marks, n.past.stale, d, ls);
    assert DeferredOf(n.deferred, d) == [];
  }

  /** Allowing the routes through a linkset keeps every mark right if and only if none of those it allows has a mark still to be applied. */
  lemma AllowingKeepsMarksIff(routes: Routes, deferred: Deferred, marks: Marks, ls: LinksetId, after: Marks)
    requires MarksRefine(routes, deferred, marks, {})
    requires forall d, other: nat | d in routes ::
               MarkOf(after, d, other) == if other == ls && StatusVia(routes[d], ls) != Allowed then Allowed else MarkOf(marks, d, other)
    ensures MarksRefine(AllReopened(routes, ls), deferred, after, {}) <==>
              forall d | d in routes :: !(StatusVia(routes[d], ls) != Allowed && HasMark(DeferredOf(deferred, d), ls))
  {
    var over := Overtaken(routes, deferred, ls);
    RefineReopened(routes, deferred, marks, {}, ls, after);
    if forall d | d in routes :: !(StatusVia(routes[d], ls) != Allowed && HasMark(DeferredOf(deferred, d), ls)) {
      assert over == {};
      assert {} + over == {};
    } else {
      var d :| d in routes && StatusVia(routes[d], ls) != Allowed && HasMark(DeferredOf(deferred, d), ls);
      assert (d, ls) in over;
      assert PairRight(AllReopened(routes, ls), deferred, after, {} + over, d, ls);
      assert !PairRight(AllReopened(routes, ls), deferred, after, {}, d, ls);
    }
  }
}
