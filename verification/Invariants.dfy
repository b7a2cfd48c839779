/**
 The invariants of signalling network management, as predicates on values: what
 ties the links, linksets and destinations to each other and to the surroundings
 that the action log produced.
 */
module Invariants {
  import opened Options
  import opened RouteChoice
  import opened Signalling
  import opened Observer

  // ── Links ──────────────────────────────────────────────────────────────────

  /** A link waits while this node or the point at its other end restarts. */
  predicate Waiting(t: Topology, adjacentRestarting: set<LinksetId>, restarting: bool, l: LinkId)
    requires l < |t.links|
  {
    restarting || t.links[l].linkset in adjacentRestarting
  }

  /** No link is stuck, and none carries traffic before it may. */
  ghost predicate LinkOk(k: Link, waiting: bool) {
    && (Available(k.phase) ==> k.up && !k.inhibited && !waiting)
    && (k.phase.AwaitRestart? ==> k.up && !k.inhibited && waiting)
    && (k.up && !k.inhibited ==> !k.phase.Closed?)
    && (k.up && !k.inhibited && ChangingOver(k.phase) ==> k.back)
    && (k.declared != [] <==> k.phase.ChangebackDeclared?)
  }

  /** A link that is to be given back to traffic. */
  ghost predicate Late(k: Link) {
    k.up && !k.inhibited && (k.phase.Closed? || k.phase.AwaitRestart?) && k.declared == []
  }

  /** Its timers run, and its traffic is buffered, exactly as its state says. */
  ghost predicate LinkTimed(k: Link, l: LinkId, v: LinkView) {
    && (l in v.changeover <==> ChangingOver(k.phase))
    && (l in v.changeback <==> ChangingBack(k.phase))
    && (l in v.inhibitTest <==> k.inhibited)
    && (l in v.uninhibit <==> k.uninhibitAttempts > 0)
    && (l in v.forceUninhibit <==> k.forceAttempts > 0)
    && (l in v.held <==> ChangingOver(k.phase) || ChangingBack(k.phase))
    && v.late[l] <= 1 && (v.late[l] == 1 ==> ChangingOver(k.phase) || k.phase == ChangebackDeclared(true))
  }

  /** Every link is where it should be, but the `loose` ones, which are being moved. */
  ghost predicate LinksOk(t: Topology, links: seq<Link>, adjacentRestarting: set<LinksetId>, restarting: bool, loose: set<LinkId>)
    requires |links| == |t.links|
  {
    forall l | 0 <= l < |links| && l !in loose :: LinkOk(links[l], Waiting(t, adjacentRestarting, restarting, l))
  }

  ghost predicate LinksTimed(links: seq<Link>, v: LinkView) {
    && (forall l | 0 <= l < |links| :: LinkTimed(links[l], l, v))
    && (forall l | l in v.changeover || l in v.changeback || l in v.inhibitTest || l in v.uninhibit
                   || l in v.forceUninhibit || l in v.held || l in v.late :: l < |links|)
  }

  // ── Linksets ───────────────────────────────────────────────────────────────

  /** An adjacent point restarts only beside a link that is up, and never while this node does. */
  ghost predicate LinksetsOk(t: Topology, links: seq<Link>, adjacentRestarting: set<LinksetId>, restarting: bool, exempt: set<LinksetId>)
    requires t.Valid() && |links| == |t.links|
  {
    && (restarting ==> adjacentRestarting == {})
    && forall ls | ls in adjacentRestarting ::
         ls < |t.linksets| && t.linksets[ls].adjacent.Some? && (ls in exempt || LinksetSignalling(t, links, ls))
  }

  // ── Destinations ───────────────────────────────────────────────────────────

  /** Traffic is held, T6 runs and marks are deferred for the same destinations. */
  ghost predicate HoldsTimed(holding: set<PointCode>, deferred: Deferred, v: DestView) {
    && v.rerouting == v.held == holding == deferred.Keys
    && forall d | d in deferred :: deferred[d] != [] && forall a | a in deferred[d] :: a.Route? && a.dpc == d
  }

  /** The route set test runs for exactly the routes that are not allowed. */
  ghost predicate RoutesTested(routes: Routes, tests: set<(PointCode, LinksetId)>) {
    && (forall d | d in routes :: MarkedFirstOnly(routes[d]))
    && (forall d, ls: nat | d in routes :: (d, ls) in tests <==> StatusVia(routes[d], ls) != Allowed)
    && (forall d, ls: nat | (d, ls) in tests :: d in routes && Sayable(d))
  }

  /** What a node says it told is what its adjacent points believe. */
  ghost predicate ToldIsBelieved(dpcs: set<PointCode>, told: Pairs, believes: Pairs) {
    forall ls: nat, d | d in dpcs && Sayable(d) :: (ls, d) in told <==> (ls, d) in believes
  }

  lemma TellingIsBelieved(dpcs: set<PointCode>, told: Pairs, believes: Pairs, ls: LinksetId, d: PointCode, want: bool)
    requires ToldIsBelieved(dpcs, told, believes)
    ensures ToldIsBelieved(dpcs, Put(told, (ls, d), want), Put(believes, (ls, d), want))
    ensures !Sayable(d) ==> ToldIsBelieved(dpcs, Put(told, (ls, d), want), believes)
  {}

  function DeferredOf(deferred: Deferred, d: PointCode): seq<Action> { if d in deferred then deferred[d] else [] }

  /** The mark a route ends up with once the deferred ones are applied. */
  function LastMark(deferred: seq<Action>, ls: LinksetId, base: RouteStatus): RouteStatus {
    if deferred == [] then base
    else
      var last := deferred[|deferred| - 1];
      if last.Route? && last.linkset == ls then last.status else LastMark(deferred[..|deferred| - 1], ls, base)
  }

  predicate HasMark(deferred: seq<Action>, ls: LinksetId) {
    exists a :: a in deferred && a.Route? && a.linkset == ls
  }

  /** The mark of a route in the routing tables, the deferred ones applied, is what its adjacent point said. */
  ghost predicate MarkedRight(routes: seq<RouteState>, deferred: seq<Action>, ls: LinksetId, mark: RouteStatus) {
    LastMark(deferred, ls, mark) == StatusVia(routes, ls)
  }

  /** One route is marked right, unless it is stale, and then it was allowed. */
  ghost predicate PairRight(routes: Routes, deferred: Deferred, marks: Marks, stale: set<(PointCode, LinksetId)>,
                            d: PointCode, ls: LinksetId)
    requires d in routes
  {
    && ((d, ls) !in stale <==> MarkedRight(routes[d], DeferredOf(deferred, d), ls, MarkOf(marks, d, ls)))
    && ((d, ls) in stale ==> StatusVia(routes[d], ls) == Allowed)
  }

  /** Every route is marked right, except exactly the stale ones. */
  ghost predicate MarksRefine(routes: Routes, deferred: Deferred, marks: Marks, stale: set<(PointCode, LinksetId)>) {
    forall d, ls: nat | d in routes :: PairRight(routes, deferred, marks, stale, d, ls)
  }

  // ── What settling establishes ──────────────────────────────────────────────

  /** One adjacent point was told exactly what it should be. */
  ghost predicate Informed(dpcs: set<PointCode>, adjacent: PointCode, told: Pairs, ls: LinksetId, prohibited: set<PointCode>) {
    forall d | d in dpcs && d != adjacent :: (ls, d) in told <==> d in prohibited
  }

  /** One adjacent point was told at least of all that is prohibited. */
  ghost predicate Warned(dpcs: set<PointCode>, adjacent: PointCode, told: Pairs, ls: LinksetId, prohibited: set<PointCode>) {
    forall d | d in dpcs && d != adjacent && d in prohibited :: (ls, d) in told
  }

  /** Nothing is left to say to a linkset's adjacent point. */
  ghost predicate LinksetTidy(t: Topology, links: seq<Link>, reached: set<PointCode>, synced: set<LinksetId>, told: Pairs,
                              ls: LinksetId, prohibited: set<PointCode>)
    requires t.Valid() && |links| == |t.links| && ls < |t.linksets|
  {
    t.linksets[ls].adjacent.Some? ==>
      if CanTell(t, links, reached, ls)
      then ls in synced && Informed(t.routes.Keys, t.linksets[ls].adjacent.value, told, ls, prohibited)
      else ls !in synced
  }

  /** What the other adjacent points were told is as before. */
  ghost predicate ToldOthers(a: Pairs, b: Pairs, ls: LinksetId) {
    forall p: (LinksetId, PointCode) | p.0 != ls :: p in a <==> p in b
  }

  ghost predicate AllTidy(t: Topology, links: seq<Link>, reached: set<PointCode>, synced: set<LinksetId>, told: Pairs,
                          plan: seq<set<PointCode>>)
    requires t.Valid() && |links| == |t.links| && |plan| == |t.linksets|
  {
    forall ls: nat | ls < |plan| :: LinksetTidy(t, links, reached, synced, told, ls, plan[ls])
  }

  lemma TidyKept(t: Topology, links: seq<Link>, reached: set<PointCode>, synced: set<LinksetId>, told: Pairs,
                 after: set<LinksetId>, toldAfter: Pairs, ls: LinksetId, k: LinksetId, prohibited: set<PointCode>)
    requires t.Valid() && |links| == |t.links| && k < |t.linksets| && k != ls
    requires synced - {ls} == after - {ls} && ToldOthers(told, toldAfter, ls)
    requires LinksetTidy(t, links, reached, synced, told, k, prohibited)
    ensures LinksetTidy(t, links, reached, after, toldAfter, k, prohibited)
  {
    assert k in synced <==> k in synced - {ls};
    assert k in after <==> k in after - {ls};
  }

  /** Every adjacent point that can be told was told of all that is prohibited. */
  ghost predicate AllWarned(t: Topology, links: seq<Link>, reached: set<PointCode>, told: Pairs, plan: seq<set<PointCode>>)
    requires t.Valid() && |links| == |t.links| && |plan| == |t.linksets|
  {
    forall ls: nat | ls < |plan| && t.linksets[ls].adjacent.Some? && CanTell(t, links, reached, ls) ::
      Warned(t.routes.Keys, t.linksets[ls].adjacent.value, told, ls, plan[ls])
  }
}
