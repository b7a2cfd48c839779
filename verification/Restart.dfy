/** The MTP restart of this node and of the points beside it (clause 9 of ITU-T Q.704). */
module RestartProcedure {
  import opened Options
  import opened RouteChoice
  import opened Signalling
  import opened Observer
  import opened Invariants
  import opened NodeState
  import opened LinkFacts
  import opened RouteMarks
  import opened RouteManagement
  import opened Settling
  import opened Links

  /** What a restart never changes. */
  ghost predicate Kept(n: Node, m: Node) {
    && m.servers == n.servers && m.paused == n.paused && m.isolated == n.isolated
    && m.past.given == n.past.given && m.past.exempt == n.past.exempt && n.past.deeds <= m.past.deeds
    && m.past.world.node.isolation == n.past.world.node.isolation && m.past.world.expired == n.past.world.expired
    && n.past.world.released <= m.past.world.released
  }

  // ── Its beginning ──────────────────────────────────────────────────────────

  /** Every route through each of the first `count` linksets is allowed. */
  ghost predicate AllowedThrough(routes: Routes, count: nat) {
    forall d, ls: nat | d in routes && ls < count :: StatusVia(routes[d], ls) == Allowed
  }

  lemma OneMoreAllowed(routes: Routes, count: nat)
    requires AllowedThrough(routes, count)
    ensures AllowedThrough(AllReopened(routes, count), count + 1)
  {
    forall d, ls: nat | d in routes && ls < count + 1
      ensures StatusVia(AllReopened(routes, count)[d], ls) == Allowed
    {
      StatusOfReopened(routes[d], count, ls);
    }
  }

  /** Section 9.6.1 of ITU-T Q.704: all signalling routes are considered allowed. */
  method AllowAllRoutes(t: Topology, n: Node) returns (m: Node)
    requires Recorded(t, n) && RoutesRight(n) && t.Valid() && Configured(t, n.routes)
    ensures Recorded(t, m) && RoutesRight(m) && OnlyRoutes(n, m)
    ensures Configured(t, m.routes) && AllowedThrough(m.routes, |t.linksets|)
    ensures m.holding == n.holding && m.deferred == n.deferred
  {
    m := n;
    var ls := 0;
    while ls < |t.linksets|
      invariant 0 <= ls <= |t.linksets|
      invariant Recorded(t, m) && RoutesRight(m) && OnlyRoutes(n, m)
      invariant Configured(t, m.routes) && AllowedThrough(m.routes, ls) && m.holding == n.holding && m.deferred == n.deferred
    {
      OneMoreAllowed(m.routes, ls);
      m := AllowRoutesThrough(t, m, ls);
      ls := ls + 1;
    }
  }

  /** With no link up, no link carries traffic or waits, and no adjacent point restarts. */
  lemma NothingRestarts(t: Topology, links: seq<Link>, adjacentRestarting: set<LinksetId>)
    requires t.Valid() && |links| == |t.links|
    requires LinksOk(t, links, adjacentRestarting, false, {}) && LinksetsOk(t, links, adjacentRestarting, false, {})
    requires forall l | 0 <= l < |links| :: !links[l].up
    ensures LinksOk(t, links, adjacentRestarting, true, {}) && LinksetsOk(t, links, adjacentRestarting, true, {})
  {
    forall l | 0 <= l < |links|
      ensures LinkOk(links[l], Waiting(t, adjacentRestarting, true, l))
    {
      assert LinkOk(links[l], Waiting(t, adjacentRestarting, false, l));
    }
    if ls :| ls in adjacentRestarting {
      assert false;
    }
  }

  /** This node says that it restarts, and times it. */
  ghost predicate RestartAnnounced(acts: set<Action>) {
    Restarting(true) in acts && Start(Restart, T18) in acts && Start(RestartOverall, T20) in acts
  }

  method AnnounceBeginning(t: Topology, n: Node) returns (m: Node)
    requires Recorded(t, n) && !n.past.world.node.restarting
    ensures Recorded(t, m)
    ensures Logs(n, m, n.past.world.(node := n.past.world.node.(restarting := true, restart := true, restartOverall := true,
                                                               begun := n.past.world.node.begun + 1)))
    ensures RestartAnnounced(m.past.deeds)
  {
    m := AnnounceRestart(t, n, true);
    m := NodeTimer(t, m, Restart, Some(T18));
    m := NodeTimer(t, m, RestartOverall, Some(T20));
    m := Say(t, m, Note(RestartBegun, TheNode));
  }

  /** The first link of an isolated node is in service (section 9.2.1 of ITU-T Q.704). */
  method BeginRestart(t: Topology, n: Node) returns (m: Node)
    requires Core(t, n) && n.past.loose == {} && n.past.exempt == {} && !n.restarting && !n.past.world.node.restarting
    requires forall l | 0 <= l < |n.links| :: !n.links[l].up
    ensures Core(t, m) && Kept(n, m) && m.past.loose == {}
    ensures m.restarting && m.past.world.node.restarting && !m.restartDue && m.links == n.links && m.traReceived == {}
    ensures AllowedThrough(m.routes, |t.linksets|)
    ensures RestartAnnounced(m.past.deeds) && m.past.world.node.begun == n.past.world.node.begun + 1
    ensures m.adjacentRestarting == n.adjacentRestarting && m.holding == n.holding && m.deferred == n.deferred
  {
    m := AllowAllRoutes(t, n);
    m := AnnounceBeginning(t, m);
    m := m.(restarting := true, restartDue := false, traReceived := {});
    NothingRestarts(t, n.links, n.adjacentRestarting);
  }

  // ── Its end ────────────────────────────────────────────────────────────────

  /** The links that waited for the restart carry traffic. */
  function Released(links: seq<Link>): (after: seq<Link>)
    ensures |after| == |links|
    ensures forall l | 0 <= l < |links| ::
              after[l] == if links[l].phase == AwaitRestart then links[l].(phase := Phase.Carrying) else links[l]
  {
    seq(|links|, l requires 0 <= l < |links| =>
      if links[l].phase == AwaitRestart then links[l].(phase := Phase.Carrying) else links[l])
  }

  lemma ReleasedIsOk(t: Topology, links: seq<Link>, adjacentRestarting: set<LinksetId>, exempt: set<LinksetId>)
    requires t.Valid() && |links| == |t.links|
    requires LinksOk(t, links, adjacentRestarting, true, {}) && LinksetsOk(t, links, adjacentRestarting, true, exempt)
    ensures LinksOk(t, Released(links), adjacentRestarting, false, {}) && LinksetsOk(t, Released(links), adjacentRestarting, false, exempt)
  {
    forall l | 0 <= l < |links|
      ensures LinkOk(Released(links)[l], Waiting(t, adjacentRestarting, false, l))
    {
      assert LinkOk(links[l], Waiting(t, adjacentRestarting, true, l));
    }
  }

  lemma ReleasedIsTimed(links: seq<Link>, v: LinkView)
    requires LinksTimed(links, v)
    ensures LinksTimed(Released(links), v)
  {
    forall l | 0 <= l < |links|
      ensures LinkTimed(Released(links)[l], l, v)
    {
      assert LinkTimed(links[l], l, v);
    }
  }

  method StopRestartTimers(t: Topology, n: Node) returns (m: Node)
    requires Recorded(t, n)
    ensures Recorded(t, m)
    ensures Logs(n, m, n.past.world.(node := n.past.world.node.(restart := false, restartOverall := false)))
    ensures Stop(Restart) in m.past.deeds && Stop(RestartOverall) in m.past.deeds
  {
    m := NodeTimer(t, n, Restart, None);
    m := NodeTimer(t, m, RestartOverall, None);
  }

  /** The links are given to traffic, and every adjacent point is taken to know nothing. */
  method LeaveFirstPhase(t: Topology, n: Node, ghost w: World) returns (m: Node)
    requires CoreAs(t, n, w) && n.past.loose == {} && n.past.exempt == {} && n.restarting
    requires n.past.world == w.(node := n.past.world.node)
    ensures Core(t, m) && Kept(n, m) && m.past.loose == {} && !m.restarting && m.restartDue == n.restartDue
    ensures m.past.world.node.restarting == n.past.world.node.restarting && m.past.world.node.begun == n.past.world.node.begun
    ensures m.links == Released(n.links) && m.past.world.released == n.past.world.released
    ensures Stop(Restart) in m.past.deeds && Stop(RestartOverall) in m.past.deeds && SameMarks(n, m)
  {
    m := StopRestartTimers(t, n);
    m := m.(restarting := false, links := Released(n.links), synced := {});
    ReleasedIsOk(t, n.links, n.adjacentRestarting, n.past.exempt);
    ReleasedIsTimed(n.links, w.links);
  }

  /** The links that waited for the restart, in order. */
  function Waited(links: seq<Link>, count: nat): (picked: seq<LinkId>)
    requires count <= |links|
    ensures forall l: nat :: l in picked <==> l < count && links[l].phase == AwaitRestart
  {
    if count == 0 then []
    else if links[count - 1].phase == AwaitRestart then Waited(links, count - 1) + [count - 1]
    else Waited(links, count - 1)
  }

  /** The links are opened, once every adjacent point was told what it needs (section 9.2.2 of ITU-T Q.704). */
  method OpenAll(t: Topology, n: Node, waited: seq<LinkId>) returns (m: Node)
    requires Core(t, n) && AllWarned(t, n.links, ReachedNow(t, n), n.told, ToTell(t, n))
    requires forall i | 0 <= i < |waited| :: waited[i] < |n.links| && n.links[waited[i]].up && n.links[waited[i]].phase.Carrying?
    ensures Core(t, m) && OnlyLinks(n, m) && m.links == n.links && m.past.loose == n.past.loose
    ensures m.past.world.released == n.past.world.released + multiset(waited)
    ensures forall l | l in waited :: Open(l) in m.past.deeds
  {
    m := n;
    var i := 0;
    while i < |waited|
      invariant 0 <= i <= |waited|
      invariant Core(t, m) && OnlyLinks(n, m) && m.links == n.links && m.past.loose == n.past.loose
      invariant m.past.world.released == n.past.world.released + multiset(waited[..i])
      invariant forall l | l in waited[..i] :: Open(l) in m.past.deeds
    {
      m := OpenOne(t, m, waited[i]);
      assert waited[..i + 1] == waited[..i] + [waited[i]];
      i := i + 1;
    }
    assert waited[..i] == waited;
  }

  /** One adjacent point is told that traffic may restart, and T19 starts (section 9.2.4 of ITU-T Q.704). */
  method AllowTraffic(t: Topology, n: Node, ls: LinksetId) returns (m: Node)
    requires Core(t, n) && ls < |t.linksets|
    ensures Core(t, m)
    ensures Logs(n.(traSent := n.traSent + {ls}, guardedLinksets := n.guardedLinksets + {ls}), m,
                        n.past.world.(linksets := m.past.world.linksets))
    ensures SentTo(t, m.past.deeds, ls, 0, Tra, Adjacent(ls, None)) && Start(RestartAllowed(ls), T19) in m.past.deeds
  {
    m := SendTo(t, n, ls, 0, Tra, Adjacent(ls, None));
    m := LinksetTimer(t, m, RestartAllowed(ls), Some(T19));
    m := m.(traSent := n.traSent + {ls}, guardedLinksets := n.guardedLinksets + {ls});
  }

  /** Of the first `count` linksets, each with a link up was sent a traffic restart allowed, and T19 started. */
  ghost predicate AllowedTraffic(t: Topology, links: seq<Link>, traSent: set<LinksetId>, guarded: set<LinksetId>, acts: set<Action>, count: nat)
    requires t.Valid() && |links| == |t.links| && count <= |t.linksets|
  {
    forall ls: nat | ls < count && LinksetSignalling(t, links, ls) ::
      ls in traSent && ls in guarded && SentTo(t, acts, ls, 0, Tra, Adjacent(ls, None)) && Start(RestartAllowed(ls), T19) in acts
  }

  lemma OneMoreTold(t: Topology, links: seq<Link>, traSent: set<LinksetId>, guarded: set<LinksetId>, acts: set<Action>, more: set<Action>, ls: LinksetId)
    requires t.Valid() && |links| == |t.links| && ls < |t.linksets| && AllowedTraffic(t, links, traSent, guarded, acts, ls) && acts <= more
    requires SentTo(t, more, ls, 0, Tra, Adjacent(ls, None)) && Start(RestartAllowed(ls), T19) in more
    ensures AllowedTraffic(t, links, traSent + {ls}, guarded + {ls}, more, ls + 1)
  {}

  method AllowNext(t: Topology, n: Node, ls: LinksetId) returns (m: Node)
    requires Core(t, n) && ls < |t.linksets| && AllowedTraffic(t, n.links, n.traSent, n.guardedLinksets, n.past.deeds, ls)
    ensures Core(t, m) && Steady(n, m) && m.past.loose == n.past.loose && m.links == n.links && SameMarks(n, m)
    ensures AllowedTraffic(t, n.links, m.traSent, m.guardedLinksets, m.past.deeds, ls + 1)
  {
    m := AllowTraffic(t, n, ls);
    OneMoreTold(t, n.links, n.traSent, n.guardedLinksets, n.past.deeds, m.past.deeds, ls);
  }

  /** Every adjacent point beside a link that is up is told that traffic may restart. */
  method AllowTrafficEverywhere(t: Topology, n: Node) returns (m: Node)
    requires Core(t, n)
    ensures Core(t, m) && Steady(n, m) && m.past.loose == n.past.loose && m.links == n.links
    ensures AllowedTraffic(t, n.links, m.traSent, m.guardedLinksets, m.past.deeds, |t.linksets|) && SameMarks(n, m)
  {
    m := n;
    var ls := 0;
    while ls < |t.linksets|
      invariant 0 <= ls <= |t.linksets|
      invariant Core(t, m) && Steady(n, m) && m.past.loose == n.past.loose && m.links == n.links
      invariant AllowedTraffic(t, n.links, m.traSent, m.guardedLinksets, m.past.deeds, ls) && SameMarks(n, m)
    {
      if LinksetSignalling(t, n.links, ls) {
        m := AllowNext(t, m, ls);
      }
      ls := ls + 1;
    }
  }

  method AnnounceEnd(t: Topology, n: Node) returns (m: Node)
    requires Core(t, n) && n.past.world.node.restarting
    ensures Core(t, m)
    ensures Logs(n, m, n.past.world.(node := n.past.world.node.(restarting := false)))
    ensures Restarting(false) in m.past.deeds
  {
    m := AnnounceRestart(t, n, false);
    m := Say(t, m, Note(RestartEnded, TheNode));
  }

  method Broadcast(t: Topology, n: Node) returns (m: Node)
    requires Core(t, n) && !n.restarting
    ensures Core(t, m) && Steady(n, m) && m.past.loose == n.past.loose && m.links == n.links
    ensures AllWarned(t, m.links, ReachedNow(t, m), m.told, ToTell(t, m))
    ensures m.past.world.released == n.past.world.released
    ensures SameMarks(n, m)
  {
    m := Settle(t, n);
    TidyIsWarned(t, m);
  }

  /** What is sent and opened once traffic may restart: the links only after what every adjacent point needs. */
  method SecondPhase(t: Topology, n: Node, waited: seq<LinkId>) returns (m: Node)
    requires Core(t, n) && !n.restarting
    requires forall i | 0 <= i < |waited| :: waited[i] < |n.links| && n.links[waited[i]].up && n.links[waited[i]].phase.Carrying?
    ensures Core(t, m) && Steady(n, m) && m.past.loose == n.past.loose && m.links == n.links
    ensures m.past.world.released >= n.past.world.released + multiset(waited)
    ensures forall l | l in waited :: Open(l) in m.past.deeds
    ensures AllowedTraffic(t, n.links, m.traSent, m.guardedLinksets, m.past.deeds, |t.linksets|) && SameMarks(n, m)
  {
    m := Broadcast(t, n);
    m := OpenAll(t, m, waited);
    m := AllowTrafficEverywhere(t, m);
  }

  lemma WaitedAreUp(t: Topology, links: seq<Link>, adjacentRestarting: set<LinksetId>, restarting: bool)
    requires t.Valid() && |links| == |t.links| && LinksOk(t, links, adjacentRestarting, restarting, {})
    ensures var waited := Waited(links, |links|);
            && (forall i | 0 <= i < |waited| ::
                  waited[i] < |links| && Released(links)[waited[i]].up && Released(links)[waited[i]].phase.Carrying?)
            && forall l | 0 <= l < |links| && links[l].phase == AwaitRestart :: l in multiset(waited)
  {
    var waited := Waited(links, |links|);
    forall i | 0 <= i < |waited|
      ensures waited[i] < |links| && Released(links)[waited[i]].up && Released(links)[waited[i]].phase.Carrying?
    {
      assert waited[i] in waited;
      assert LinkOk(links[waited[i]], Waiting(t, adjacentRestarting, restarting, waited[i]));
    }
  }

  /** The restart of this node is over: links that waited are open, and adjacent points told that traffic may restart. */
  ghost predicate RestartOver(t: Topology, n: Node, m: Node, acts: set<Action>)
    requires t.Valid() && |n.links| == |t.links|
  {
    && m.links == Released(n.links) && SameMarks(n, m) && !m.restarting
    && Restarting(false) in acts && Stop(Restart) in acts && Stop(RestartOverall) in acts
    && (forall l: nat | l < |n.links| && n.links[l].phase == AwaitRestart :: Open(l) in acts)
    && AllowedTraffic(t, Released(n.links), m.traSent, m.guardedLinksets, acts, |t.linksets|)
  }

  /** The restart of this node goes through what is left of it (sections 9.2.2 and 9.2.4 of ITU-T Q.704). */
  method EndRestart(t: Topology, n: Node, ghost w: World) returns (m: Node)
    requires CoreAs(t, n, w) && n.past.loose == {} && n.past.exempt == {} && n.restarting
    requires n.past.world == w.(node := n.past.world.node) && n.past.world.node.restarting
    ensures Core(t, m) && Kept(n, m) && m.past.loose == {}
    ensures !m.restarting && !m.past.world.node.restarting && m.restartDue == n.restartDue
    ensures m.links == Released(n.links)
    ensures n.past.world.released + multiset(Waited(n.links, |n.links|)) <= m.past.world.released
    ensures m.past.world.node.begun == n.past.world.node.begun && RestartOver(t, n, m, m.past.deeds)
  {
    var waited := Waited(n.links, |n.links|);
    WaitedAreUp(t, n.links, n.adjacentRestarting, n.restarting);
    m := LeaveFirstPhase(t, n, w);
    m := SecondPhase(t, m, waited);
    m := AnnounceEnd(t, m);
  }

  /** The restart ends early once every adjacent point allowed traffic (section 9.2.2 of ITU-T Q.704). */
  predicate Complete(t: Topology, n: Node)
    requires Shaped(t, n)
  {
    CompleteWith(t, n.links, n.traReceived)
  }

  /** Every adjacent point that is known has allowed traffic, and a link to it is up. */
  predicate CompleteWith(t: Topology, links: seq<Link>, traReceived: set<LinksetId>)
    requires t.Valid() && |links| == |t.links|
  {
    forall ls: nat | ls < |t.linksets| && t.linksets[ls].adjacent.Some? :: ls in traReceived && LinksetSignalling(t, links, ls)
  }

  method RestartProgress(t: Topology, n: Node) returns (m: Node)
    requires Core(t, n) && n.past.loose == {} && n.past.exempt == {} && n.restarting && n.past.world.node.restarting
    ensures Core(t, m) && Kept(n, m) && m.past.loose == {} && m.restartDue == n.restartDue
    ensures m.restarting == m.past.world.node.restarting == !Complete(t, n)
    ensures m.links == if Complete(t, n) then Released(n.links) else n.links
    ensures m.past.world.node.begun == n.past.world.node.begun
    ensures Complete(t, n) ==> RestartOver(t, n, m, m.past.deeds)
    ensures !Complete(t, n) ==> m == n
  {
    m := n;
    if Complete(t, n) {
      m := EndRestart(t, n, n.past.world);
    }
  }

  // ── The restart of an adjacent point ───────────────────────────────────────

  /** The links of a linkset that wait. */
  function WaitingOf(links: seq<Link>, members: seq<LinkId>): (waiting: seq<LinkId>)
    requires forall i | 0 <= i < |members| :: members[i] < |links|
    ensures forall l :: l in waiting <==> l in members && links[l].phase == AwaitRestart
    ensures NoRepeats(members) ==> NoRepeats(waiting)
  {
    if members == [] then []
    else
      var before := WaitingOf(links, members[..|members| - 1]);
      var last := members[|members| - 1];
      assert members == members[..|members| - 1] + [last];
      assert NoRepeats(members) ==> last !in members[..|members| - 1];
      if links[last].phase == AwaitRestart then before + [last] else before
  }

  function Members(links: seq<LinkId>): set<LinkId> { set l | l in links }

  /** The links of `waiting` from `i` on are still to start traffic. */
  ghost predicate StillWait(t: Topology, links: seq<Link>, ls: LinksetId, waiting: seq<LinkId>, i: nat)
    requires |links| == |t.links|
  {
    forall k | i <= k < |waiting| :: waiting[k] < |links| && Late(links[waiting[k]]) && t.links[waiting[k]].linkset == ls
  }

  lemma OneStarted(t: Topology, links: seq<Link>, ls: LinksetId, waiting: seq<LinkId>, i: nat, k: Link)
    requires |links| == |t.links| && StillWait(t, links, ls, waiting, i) && NoRepeats(waiting) && i < |waiting|
    ensures StillWait(t, links[waiting[i] := k], ls, waiting, i + 1)
    ensures Members(waiting[i..]) - {waiting[i]} == Members(waiting[i + 1..])
  {
    assert waiting[i..] == [waiting[i]] + waiting[i + 1..];
    assert waiting[i] !in waiting[i + 1..];
  }

  lemma AdjacentRestartOver(t: Topology, links: seq<Link>, adjacentRestarting: set<LinksetId>, exempt: set<LinksetId>,
                            ls: LinksetId, waiting: seq<LinkId>)
    requires t.Valid() && |links| == |t.links| && ls in adjacentRestarting
    requires LinksOk(t, links, adjacentRestarting, false, {}) && LinksetsOk(t, links, adjacentRestarting, false, exempt)
    requires ls < |t.linksets| && forall l :: l in waiting <==> l in t.linksets[ls].links && links[l].phase == AwaitRestart
    ensures LinksOk(t, links, adjacentRestarting - {ls}, false, Members(waiting))
    ensures LinksetsOk(t, links, adjacentRestarting - {ls}, false, exempt)
    ensures StillWait(t, links, ls, waiting, 0)
  {
    forall l | 0 <= l < |links| && l !in waiting
      ensures LinkOk(links[l], Waiting(t, adjacentRestarting - {ls}, false, l))
    {
      assert LinkOk(links[l], Waiting(t, adjacentRestarting, false, l));
    }
    forall i | 0 <= i < |waiting|
      ensures waiting[i] < |links| && Late(links[waiting[i]]) && t.links[waiting[i]].linkset == ls
    {
      assert waiting[i] in waiting;
      assert LinkOk(links[waiting[i]], Waiting(t, adjacentRestarting, false, waiting[i]));
    }
  }

  /** T21 stops: the adjacent point is no longer taken to restart. */
  method StopWaiting(t: Topology, n: Node, ghost w: World, ls: LinksetId, how: Procedure) returns (m: Node, waiting: seq<LinkId>)
    requires CoreAs(t, n, w) && n.past.loose == {} && !n.restarting && ls in n.adjacentRestarting
    requires n.past.world == w.(linksets := n.past.world.linksets)
    requires n.past.world.linksets.adjacentRestart - {ls} == n.adjacentRestarting - {ls}
    requires n.past.world.linksets.restartAllowed == n.guardedLinksets
    ensures Core(t, m) && Steady(n, m) && m.past.loose == Members(waiting)
    ensures m.links == n.links && m.adjacentRestarting == n.adjacentRestarting - {ls}
    ensures NoRepeats(waiting) && StillWait(t, n.links, ls, waiting, 0) && SameMarks(n, m)
    ensures forall l :: l in waiting <==> l in t.linksets[ls].links && n.links[l].phase == AwaitRestart
    ensures Stop(AdjacentRestart(ls)) in m.past.deeds && m.accessible == n.accessible
    ensures forall i: nat | FirstWaiting(n.links, t.linksets[ls].links, i) :: waiting != [] && waiting[0] == t.linksets[ls].links[i]
  {
    var members := t.linksets[ls].links;
    assert forall i | 0 <= i < |members| :: members[i] in members;
    waiting := WaitingOf(n.links, members);
    m := LinksetTimer(t, n, AdjacentRestart(ls), None);
    m := Say(t, m, Note(how, ALinkset(ls)));
    m := m.(adjacentRestarting := n.adjacentRestarting - {ls}, past := m.past.(loose := Members(waiting)));
    WaitingFirst(n.links, members);
    AdjacentRestartOver(t, n.links, n.adjacentRestarting, n.past.exempt, ls, waiting);
  }

  /** A link that waited starts traffic, under T3 or at once. */
  ghost predicate StartsTraffic(t: Topology, acts: set<Action>, l: LinkId, before: Link, after: Link)
    requires t.Valid() && l < |t.links|
  {
    && (after == before.(phase := ChangebackTimed) || after == before.(phase := Phase.Carrying)) && Announced(t, acts, l, after, false)
  }

  /** Of the links of a linkset those that waited start traffic, and no other link changed. */
  ghost predicate Started(t: Topology, before: seq<Link>, after: seq<Link>, acts: set<Action>, ls: LinksetId, diverted: bool)
    requires t.Valid() && |before| == |after| == |t.links|
  {
    && (forall l: nat | l < |before| ::
          if before[l].phase == AwaitRestart && t.links[l].linkset == ls then StartsTraffic(t, acts, l, before[l], after[l]) else after[l] == before[l])
    && (diverted ==> forall l: nat | l < |before| && before[l].phase == AwaitRestart && t.links[l].linkset == ls :: after[l].phase == ChangebackTimed)
    && (!diverted && ls < |t.linksets| ==>
          forall i: nat | i < |t.linksets[ls].links| && FirstWaiting(before, t.linksets[ls].links, i) ::
            after[t.linksets[ls].links[i]].phase == Phase.Carrying)
  }

  /** The first of `members` that waits. */
  ghost predicate FirstWaiting(links: seq<Link>, members: seq<LinkId>, i: nat) {
    && i < |members| && members[i] < |links| && links[members[i]].phase == AwaitRestart
    && forall k | 0 <= k < i :: members[k] < |links| ==> links[members[k]].phase != AwaitRestart
  }

  /** So far: the first `i` of those that waited. */
  ghost predicate StartedTo(t: Topology, before: seq<Link>, after: seq<Link>, acts: set<Action>, waiting: seq<LinkId>, i: nat, diverted: bool)
    requires t.Valid() && |before| == |after| == |t.links| && i <= |waiting|
  {
    && (forall l: nat | l < |before| :: if l in waiting[..i] then StartsTraffic(t, acts, l, before[l], after[l]) else after[l] == before[l])
    && (forall k: nat | k < i :: waiting[k] < |after| && (diverted ==> after[waiting[k]].phase == ChangebackTimed))
    && (!diverted && i > 0 ==> after[waiting[0]].phase == Phase.Carrying)
  }

  lemma OneMoreStarted(t: Topology, before: seq<Link>, after: seq<Link>, acts: set<Action>, more: set<Action>, waiting: seq<LinkId>, i: nat, k: Link,
                       diverted: bool)
    requires t.Valid() && |before| == |after| == |t.links| && i < |waiting| && NoRepeats(waiting)
    requires StartedTo(t, before, after, acts, waiting, i, diverted) && acts <= more
    requires waiting[i] < |after| && StartsTraffic(t, more, waiting[i], after[waiting[i]], k)
    requires (diverted ==> k.phase == ChangebackTimed) && (!diverted && i == 0 ==> k.phase == Phase.Carrying)
    ensures StartedTo(t, before, after[waiting[i] := k], more, waiting, i + 1, diverted)
  {
    assert waiting[..i + 1] == waiting[..i] + [waiting[i]];
    assert waiting[i] !in waiting[..i];
    forall l: nat | l < |before| && l in waiting[..i] ensures StartsTraffic(t, more, l, before[l], after[l]) {
      StillAnnounced(t, acts, more, l, after[l], false);
    }
  }

  lemma AllStarted(t: Topology, before: seq<Link>, after: seq<Link>, acts: set<Action>, ls: LinksetId, waiting: seq<LinkId>, diverted: bool)
    requires t.Valid() && |before| == |after| == |t.links| && ls < |t.linksets|
    requires StartedTo(t, before, after, acts, waiting, |waiting|, diverted)
    requires forall l :: l in waiting <==> l in t.linksets[ls].links && before[l].phase == AwaitRestart
    requires forall i: nat | FirstWaiting(before, t.linksets[ls].links, i) :: waiting != [] && waiting[0] == t.linksets[ls].links[i]
    ensures Started(t, before, after, acts, ls, diverted)
  {
    assert waiting[..|waiting|] == waiting;
    forall l: nat | l < |before| && before[l].phase == AwaitRestart && t.links[l].linkset == ls
      ensures l in waiting && (diverted ==> after[l].phase == ChangebackTimed)
    {
      assert l in t.linksets[ls].links;
      var k :| 0 <= k < |waiting| && waiting[k] == l;
    }
  }

  /** The first of the links that wait. */
  lemma {:induction false} WaitingStarts(links: seq<Link>, members: seq<LinkId>, i: nat)
    requires (forall k | 0 <= k < |members| :: members[k] < |links|) && FirstWaiting(links, members, i)
    ensures WaitingOf(links, members) != [] && WaitingOf(links, members)[0] == members[i]
    decreases |members|
  {
    var front := members[..|members| - 1];
    if i < |front| {
      WaitingStarts(links, front, i);
    } else {
      NoneWaits(links, front);
    }
  }

  lemma {:induction false} NoneWaits(links: seq<Link>, members: seq<LinkId>)
    requires forall k | 0 <= k < |members| :: members[k] < |links| && links[members[k]].phase != AwaitRestart
    ensures WaitingOf(links, members) == []
    decreases |members|
  {
    if members != [] {
      NoneWaits(links, members[..|members| - 1]);
    }
  }

  lemma WaitingFirst(links: seq<Link>, members: seq<LinkId>)
    requires forall k | 0 <= k < |members| :: members[k] < |links|
    ensures forall i: nat | FirstWaiting(links, members, i) :: WaitingOf(links, members) != [] && WaitingOf(links, members)[0] == members[i]
  {
    forall i: nat | FirstWaiting(links, members, i) ensures WaitingOf(links, members) != [] && WaitingOf(links, members)[0] == members[i] {
      WaitingStarts(links, members, i);
    }
  }

  /** The links of `waiting` up to number `i` have started, and the others wait. */
  ghost predicate StartingAt(t: Topology, was: seq<Link>, links: seq<Link>, acts: set<Action>, ls: LinksetId, waiting: seq<LinkId>, i: nat, diverted: bool)
    requires t.Valid() && |was| == |links| == |t.links| && i <= |waiting|
  {
    && StillWait(t, links, ls, waiting, i) && NoRepeats(waiting)
    && StartedTo(t, was, links, acts, waiting, i, diverted)
  }

  /** The next link that waited starts traffic. */
  method StartNext(t: Topology, ghost was: seq<Link>, before: Node, ls: LinksetId, waiting: seq<LinkId>, i: nat, ghost diverted: bool) returns (m: Node)
    requires Core(t, before) && |was| == |t.links| && i < |waiting| && StartingAt(t, was, before.links, before.past.deeds, ls, waiting, i, diverted)
    requires !before.restarting && ls !in before.adjacentRestarting && before.past.loose == Members(waiting[i..])
    requires (diverted ==> Diverted(before, ls)) && (!diverted && i == 0 ==> !Diverted(before, ls))
    ensures Core(t, m) && Steady(before, m) && m.adjacentRestarting == before.adjacentRestarting && SameMarks(before, m)
    ensures m.past.loose == Members(waiting[i + 1..]) && StartingAt(t, was, m.links, m.past.deeds, ls, waiting, i + 1, diverted)
    ensures diverted ==> m.accessible == before.accessible
  {
    m := StartTraffic(t, before, waiting[i]);
    OneStarted(t, before.links, ls, waiting, i, m.links[waiting[i]]);
    OneMoreStarted(t, was, before.links, before.past.deeds, m.past.deeds, waiting, i, m.links[waiting[i]], diverted);
  }

  /** The links that waited start traffic, one after the other. */
  method StartAll(t: Topology, ghost was: seq<Link>, before: Node, ls: LinksetId, waiting: seq<LinkId>, ghost diverted: bool) returns (m: Node)
    requires Core(t, before) && |was| == |t.links| && StartingAt(t, was, before.links, before.past.deeds, ls, waiting, 0, diverted)
    requires !before.restarting && ls !in before.adjacentRestarting && before.past.loose == Members(waiting[0..]) && diverted == Diverted(before, ls)
    ensures Core(t, m) && Steady(before, m) && m.past.loose == {} && m.adjacentRestarting == before.adjacentRestarting && SameMarks(before, m)
    ensures StartedTo(t, was, m.links, m.past.deeds, waiting, |waiting|, diverted)
  {
    m := before;
    var i := 0;
    while i < |waiting|
      invariant 0 <= i <= |waiting|
      invariant Core(t, m) && Steady(before, m) && m.past.loose == Members(waiting[i..])
      invariant m.adjacentRestarting == before.adjacentRestarting && SameMarks(before, m) && StartingAt(t, was, m.links, m.past.deeds, ls, waiting, i, diverted)
      invariant diverted || i == 0 ==> m.accessible == before.accessible
    {
      m := StartNext(t, was, m, ls, waiting, i, diverted);
      i := i + 1;
    }
  }

  /** The restart of an adjacent point is over: its links start traffic, the first one perhaps at once, the others after it. */
  method EndAdjacentRestart(t: Topology, n: Node, ghost w: World, ls: LinksetId, how: Procedure) returns (m: Node)
    requires CoreAs(t, n, w) && n.past.loose == {} && !n.restarting && ls in n.adjacentRestarting
    requires n.past.world == w.(linksets := n.past.world.linksets)
    requires n.past.world.linksets.adjacentRestart - {ls} == n.adjacentRestarting - {ls}
    requires n.past.world.linksets.restartAllowed == n.guardedLinksets
    ensures Core(t, m) && Steady(n, m) && m.past.loose == {}
    ensures m.adjacentRestarting == n.adjacentRestarting - {ls}
    ensures Started(t, n.links, m.links, m.past.deeds, ls, Diverted(n, ls)) && SameMarks(n, m) && Stop(AdjacentRestart(ls)) in m.past.deeds
  {
    var waiting;
    m, waiting := StopWaiting(t, n, w, ls, how);
    assert waiting[0..] == waiting;
    m := StartAll(t, n.links, m, ls, waiting, Diverted(n, ls));
    AllStarted(t, n.links, m.links, m.past.deeds, ls, waiting, Diverted(n, ls));
  }

  // ── Traffic restart allowed ────────────────────────────────────────────────

  /** An adjacent point restarted unnoticed: it is told anew what it needs (section 9.5.1 of ITU-T Q.704). */
  method TellAnew(t: Topology, n: Node, ls: LinksetId) returns (m: Node)
    requires Core(t, n) && ls < |t.linksets|
    ensures Core(t, m) && Steady(n, m) && m.past.loose == n.past.loose && m.links == n.links
    ensures ls in m.guardedLinksets && m.adjacentRestarting == n.adjacentRestarting
    ensures SentTo(t, m.past.deeds, ls, 0, Tra, Adjacent(ls, None)) && Start(RestartAllowed(ls), T19) in m.past.deeds && SameMarks(n, m)
  {
    m := Settle(t, n.(synced := n.synced - {ls}));
    m := SendTo(t, m, ls, 0, Tra, Adjacent(ls, None));
    m := LinksetTimer(t, m, RestartAllowed(ls), Some(T19));
    m := m.(guardedLinksets := m.guardedLinksets + {ls});
  }

  /** What a traffic restart allowed does: it counts for the restart that runs, ends the sender's, or is answered by one, unless T19 runs. */
  ghost predicate TrafficAllowed(t: Topology, n: Node, m: Node, acts: set<Action>, ls: LinksetId)
    requires Shaped(t, n) && ls < |t.linksets|
  {
    if n.restarting then
      if Complete(t, n.(traReceived := n.traReceived + {ls})) then RestartOver(t, n, m, acts)
      else m.links == n.links && SameMarks(n, m) && m.restarting && m.traReceived == n.traReceived + {ls}
    else if ls in n.adjacentRestarting && ls in n.traSent then
      && |m.links| == |n.links| && Started(t, n.links, m.links, acts, ls, Diverted(n, ls)) && SameMarks(n, m)
      && m.adjacentRestarting == n.adjacentRestarting - {ls} && Stop(AdjacentRestart(ls)) in acts
    else
      && m.links == n.links && SameMarks(n, m) && m.adjacentRestarting == n.adjacentRestarting
      && if ls in n.adjacentRestarting then m.traReceived == n.traReceived + {ls}
         else ls in m.guardedLinksets &&
              (ls !in n.guardedLinksets ==> SentTo(t, acts, ls, 0, Tra, Adjacent(ls, None)) && Start(RestartAllowed(ls), T19) in acts)
  }

  method AdjacentAllows(t: Topology, n: Node, ls: LinksetId) returns (m: Node)
    requires Core(t, n) && n.past.loose == {} && !n.restarting && ls < |t.linksets|
    ensures Core(t, m) && Steady(n, m) && m.past.loose == {}
    ensures TrafficAllowed(t, n, m, m.past.deeds, ls)
  {
    if ls in n.adjacentRestarting {
      m := n.(traReceived := n.traReceived + {ls});
      if ls in n.traSent {
        m := EndAdjacentRestart(t, m, m.past.world, ls, AdjacentRestartEnded);
      }
    } else if ls in n.guardedLinksets {
      m := Say(t, n, Ignored(Tra));
    } else {
      m := TellAnew(t, n, ls);
    }
  }

  /** An adjacent point is ready for traffic. */
  method TrafficRestartAllowed(t: Topology, n: Node, ls: LinksetId) returns (m: Node)
    requires Core(t, n) && n.past.loose == {} && n.past.exempt == {} && ls < |t.linksets| && n.past.world.node.restarting == n.restarting
    ensures Core(t, m) && Kept(n, m) && m.past.loose == {} && m.restartDue == n.restartDue
    ensures m.past.world.node.restarting == m.restarting
    ensures TrafficAllowed(t, n, m, m.past.deeds, ls) && m.past.world.node.begun == n.past.world.node.begun
  {
    if n.restarting {
      m := RestartProgress(t, n.(traReceived := n.traReceived + {ls}));
    } else {
      m := AdjacentAllows(t, n, ls);
    }
  }
}
