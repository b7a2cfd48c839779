/**
 Two runs of the management object, from its construction, after which the
 routing tables and management disagree: what the general statements about marks
 leave out does happen.
 */
module Scenarios {
  import opened Options
  import opened RouteChoice
  import opened Signalling
  import opened Observer
  import opened Invariants
  import opened NodeState
  import opened RouteMarks
  import opened RouteManagement
  import opened Links
  import opened RestartProcedure
  import opened Events
  import opened Timeouts
  import opened Handling
  import opened Guarantees
  import opened ManagementObject
  import opened RouteTable

  // ── One link beside a server ───────────────────────────────────────────────

  /** One link to the adjacent point 2, one application server, and the routes to point 7. */
  function Domain(specs: seq<RouteSpec>): Topology {
    Topology(1, [LinksetSpec(Some(2), [0])], [LinkSpec(0, 0)], 1, [7], map[7 := specs])
  }

  ghost predicate OnOneLink(specs: seq<RouteSpec>) { InRange(specs, 1) }

  lemma DomainIsValid(specs: seq<RouteSpec>)
    requires OnOneLink(specs)
    ensures Domain(specs).Valid()
  {}

  /** What the whole of both runs has in common: the server is up, nothing is paused, and this node does not restart. */
  ghost predicate Serving(specs: seq<RouteSpec>, n: Node) {
    && OnOneLink(specs) && Handling.Valid(Domain(specs), n)
    && !n.restarting && n.servers == [true] && n.paused == {} && !n.links[0].inhibited
  }

  /** No route was ever restricted or prohibited. */
  ghost predicate Untouched(specs: seq<RouteSpec>, n: Node) {
    n.routes == FreshRoutes(Domain(specs)) && n.holding == {} && n.deferred == map[] && n.past.stale == {}
  }

  /** One event led from one state to the other. */
  ghost predicate Led(specs: seq<RouteSpec>, n: Node, m: Node, input: Input) {
    && OnOneLink(specs) && Handling.Valid(Domain(specs), n) && Handling.Valid(Domain(specs), m)
    && (exists acts :: TakenIn(Domain(specs), n, m, acts, input)) && OthersKept(n, m, input)
  }

  /** The server comes up: the node is not isolated any more. */
  lemma ServerComesUp(specs: seq<RouteSpec>, m: Node)
    requires OnOneLink(specs) && Led(specs, Fresh(Domain(specs)), m, Server(0, true))
    ensures Serving(specs, m) && Untouched(specs, m) && m.links[0].phase == Closed && !m.links[0].up
  {
    assert m.servers == [true];
  }

  lemma NotIsolated(specs: seq<RouteSpec>, n: Node)
    requires Serving(specs, n)
    ensures !n.isolated
  {
    assert n.servers[0];
  }

  /** A link that is down and out of traffic comes up: point 2, which is no destination, is taken to restart. */
  lemma LinkReturns(specs: seq<RouteSpec>, n: Node, m: Node)
    requires Serving(specs, n) && Led(specs, n, m, LinkUp(0)) && n.links[0].phase == Closed && !n.links[0].up
    ensures Serving(specs, m) && m.links[0].phase == AwaitRestart && AllowedAgain(n, m, 0)
  {
    var t := Domain(specs);
    NotIsolated(specs, n);
    BeginsHere(specs, n);
    assert LinkOk(m.links[0], Waiting(t, m.adjacentRestarting, m.restarting, 0));
  }

  lemma BeginsHere(specs: seq<RouteSpec>, n: Node)
    requires Serving(specs, n) && n.links[0].phase == Closed && !n.links[0].up
    ensures BeginsBeside(Domain(specs), Raised(n, 0), 0) && Restored(Domain(specs), Raised(n, 0), 0) == AwaitRestart
  {
    var t := Domain(specs);
    assert !LinksetSignalling(t, n.links, 0);
    assert !LinksetAvailable(t, Raised(n, 0).links, None, 0);
    assert ReachedNow(t, Raised(n, 0)) <= n.routes.Keys;
  }

  lemma NothingToAllow(specs: seq<RouteSpec>, n: Node, m: Node)
    requires Untouched(specs, n) && AllowedAgain(n, m, 0)
    ensures Untouched(specs, m)
  {
    var routes := n.routes;
    forall d | d in routes ensures Reopened(routes[d], 0) == routes[d] {}
    assert Overtaken(n.routes, n.deferred, 0) == {};
  }

  /** T21 runs out: the link carries traffic. */
  lemma LinkStarts(specs: seq<RouteSpec>, n: Node, m: Node)
    requires Serving(specs, n) && Led(specs, n, m, Timeout(AdjacentRestart(0))) && n.links[0].phase == AwaitRestart
    ensures Serving(specs, m) && Available(m.links[0].phase) && SameMarks(n, m)
  {
    var t := Domain(specs);
    assert LinkOk(n.links[0], Waiting(t, n.adjacentRestarting, n.restarting, 0));
    assert 0 in n.adjacentRestarting;
    assert LinkOk(m.links[0], Waiting(t, m.adjacentRestarting, m.restarting, 0));
  }

  lemma Carries(specs: seq<RouteSpec>, n: Node)
    requires Serving(specs, n) && Available(n.links[0].phase)
    ensures CarryingNow(Domain(specs), n) == {0}
  {
    var t := Domain(specs);
    assert LinkAvailable(n.links, None, 0);
    assert 0 in t.linksets[0].links;
    assert LinksetAvailable(t, n.links, None, 0);
  }

  /** A new status decides over what is held, where only linkset 0 carries traffic. */
  ghost predicate HeldAs(before: seq<RouteState>, after: seq<RouteState>, was: set<PointCode>, holding: set<PointCode>, status: RouteStatus) {
    var used, uses := InUse({0}, [true], false, before), InUse({0}, [true], false, after);
    if after == before then holding == was
    else if status == Prohibited then holding == was - {7}
    else holding == if used != uses && used != [] && uses != [] then was + {7} else was
  }

  /** Route `p` to point 7 is the first through linkset 0, and takes the status. */
  ghost predicate ToldAs(n: Node, m: Node, status: RouteStatus, p: nat) {
    && 7 in n.routes && FirstVia(n.routes[7], 0) == Some(p) && m.routes == n.routes[7 := WithStatus(n.routes[7], p, status)]
    && HeldAs(n.routes[7], m.routes[7], n.holding, m.holding, status) && m.past.stale <= n.past.stale
    && (7 in m.holding && StatusVia(n.routes[7], 0) != status ==> Route(7, 0, status) in DeferredOf(m.deferred, 7))
  }

  /** Point 2 sends a message about the route to point 7. */
  lemma RouteIsTold(specs: seq<RouteSpec>, n: Node, m: Node, message: Message, p: nat)
    requires Serving(specs, n) && Led(specs, n, m, Received(0, 2, 0, message)) && Available(n.links[0].phase)
    requires Said(message).Some? && message.destination == 7 && 7 in n.routes && FirstVia(n.routes[7], 0) == Some(p)
    ensures Serving(specs, m) && m.links == n.links && ToldAs(n, m, Said(message).value, p)
  {
    LedIsHeard(specs, n, m, message);
    StillServing(specs, n, m, message);
    Carries(specs, n);
    HeldAsHeard(specs, n, m, Said(message).value, p);
  }

  lemma LedIsHeard(specs: seq<RouteSpec>, n: Node, m: Node, message: Message)
    requires OnOneLink(specs) && Shaped(Domain(specs), n) && (exists acts :: TakenIn(Domain(specs), n, m, acts, Received(0, 2, 0, message)))
    requires Said(message).Some? && message.destination == 7 && 7 in n.routes && FirstVia(n.routes[7], 0).Some?
    ensures Heard(Domain(specs), n, m, 0, 7, Said(message).value) && m.links == n.links && m.restarting == n.restarting
  {
    var acts :| TakenIn(Domain(specs), n, m, acts, Received(0, 2, 0, message));
    RouteIsHeard(specs, n, m, acts, message);
  }

  lemma StillServing(specs: seq<RouteSpec>, n: Node, m: Node, message: Message)
    requires Serving(specs, n) && Led(specs, n, m, Received(0, 2, 0, message)) && m.links == n.links && m.restarting == n.restarting
    ensures Serving(specs, m)
  {}

  lemma HeldAsHeard(specs: seq<RouteSpec>, n: Node, m: Node, status: RouteStatus, p: nat)
    requires OnOneLink(specs) && Shaped(Domain(specs), n) && 7 in n.routes && FirstVia(n.routes[7], 0) == Some(p)
    requires Heard(Domain(specs), n, m, 0, 7, status) && CarryingNow(Domain(specs), n) == {0} && n.servers == [true] && n.paused == {}
    ensures ToldAs(n, m, status, p)
  {}

  lemma RouteIsHeard(specs: seq<RouteSpec>, n: Node, m: Node, acts: set<Action>, message: Message)
    requires OnOneLink(specs) && Shaped(Domain(specs), n) && MessageTaken(Domain(specs), n, m, acts, 0, 2, 0, message)
    requires Said(message).Some? && message.destination == 7 && 7 in n.routes && FirstVia(n.routes[7], 0).Some?
    ensures Heard(Domain(specs), n, m, 0, 7, Said(message).value) && m.links == n.links && m.restarting == n.restarting
  {
    assert LinksetOf(Domain(specs), 2, 0) == Some(0);
    assert AdjacentTold(Domain(specs), n, m, acts, 0, 0, message);
  }

  // ── A mark that stays wrong ────────────────────────────────────────────────

  /** The routes to point 7 share its traffic: one through the link, one by the server. */
  const Shared := [RouteSpec(ViaLinkset(0), 0), RouteSpec(ViaServer(0), 0)]

  function SharedRoutes(status: RouteStatus): seq<RouteState> {
    [RouteState(ViaLinkset(0), 0, status), RouteState(ViaServer(0), 0, Allowed)]
  }

  lemma SharedInUse()
    ensures 0 in InUse({0}, [true], false, SharedRoutes(Allowed))
    ensures 0 !in InUse({0}, [true], false, SharedRoutes(Restricted)) && 1 in InUse({0}, [true], false, SharedRoutes(Restricted))
  {
    var g, h := Grades({0}, [true], false, SharedRoutes(Allowed)), Grades({0}, [true], false, SharedRoutes(Restricted));
    assert g == [Grade(0, Yes), Grade(0, Yes)] && h == [Grade(0, Limited), Grade(0, Yes)];
    InUseIsBest(g, 0);
    InUseIsBest(h, 0);
    InUseIsBest(h, 1);
  }

  lemma SharedRestricted(was: set<PointCode>, holding: set<PointCode>)
    requires HeldAs(SharedRoutes(Allowed), SharedRoutes(Restricted), was, holding, Restricted)
    ensures 7 in holding
  {
    SharedInUse();
    assert SharedRoutes(Allowed)[0] != SharedRoutes(Restricted)[0];
  }

  lemma SharedFirst(status: RouteStatus)
    ensures FirstVia(SharedRoutes(status), 0) == Some(0) && StatusVia(SharedRoutes(status), 0) == status
    ensures WithStatus(SharedRoutes(status), 0, Restricted) == SharedRoutes(Restricted)
    ensures Reopened(SharedRoutes(status), 0) == SharedRoutes(Allowed)
  {}

  lemma SharedFresh()
    ensures FreshRoutes(Domain(Shared)) == map[7 := SharedRoutes(Allowed)]
  {
    assert FreshRoutes(Domain(Shared))[7] == SharedRoutes(Allowed);
  }

  /** A transfer-restricted moves the traffic of point 7 to the server, so it is held and the mark waits. */
  lemma MarkWaits(routes: Routes, after: Routes, was: set<PointCode>, holding: set<PointCode>, deferred: Deferred)
    requires routes == map[7 := SharedRoutes(Allowed)] && after == routes[7 := WithStatus(routes[7], 0, Restricted)]
    requires HeldAs(routes[7], after[7], was, holding, Restricted)
    requires 7 in holding ==> Route(7, 0, Restricted) in DeferredOf(deferred, 7)
    ensures after == map[7 := SharedRoutes(Restricted)] && 7 in holding && HasMark(DeferredOf(deferred, 7), 0)
  {
    SharedFirst(Allowed);
    SharedRestricted(was, holding);
    assert Route(7, 0, Restricted) in DeferredOf(deferred, 7);
  }

  /** The link fails, its changeover ends, and it returns. */
  lemma LinkFails(n: Node, m: Node, bsnt: nat)
    requires Serving(Shared, n) && Led(Shared, n, m, LinkDown(0, bsnt))
    ensures Serving(Shared, m) && !m.links[0].up && SameMarks(n, m)
  {}

  lemma ChangeoverEnds(n: Node, m: Node)
    requires Serving(Shared, n) && !n.links[0].up && Led(Shared, n, m, Timeout(Changeover(0)))
    ensures Serving(Shared, m) && !m.links[0].up && m.links[0].phase == Closed && SameMarks(n, m)
  {
    assert LinkOk(n.links[0], Waiting(Domain(Shared), n.adjacentRestarting, n.restarting, 0));
  }

  /** All routes through the link are allowed again while the mark waits. */
  lemma MarkIsOvertaken(n: Node, m: Node)
    requires Serving(Shared, n) && Led(Shared, n, m, LinkUp(0)) && n.links[0].phase == Closed && !n.links[0].up
    requires n.routes == map[7 := SharedRoutes(Restricted)] && HasMark(DeferredOf(n.deferred, 7), 0)
    ensures Serving(Shared, m) && m.routes == map[7 := SharedRoutes(Allowed)] && (7, 0) in m.past.stale
  {
    LinkReturns(Shared, n, m);
    OvertakenHere(n.routes, n.deferred);
  }

  lemma OvertakenHere(routes: Routes, deferred: Deferred)
    requires routes == map[7 := SharedRoutes(Restricted)] && HasMark(DeferredOf(deferred, 7), 0)
    ensures AllReopened(routes, 0) == map[7 := SharedRoutes(Allowed)] && (7, 0) in Overtaken(routes, deferred, 0)
  {
    SharedFirst(Restricted);
  }

  lemma ReroutingEnds(n: Node, m: Node)
    requires Shaped(Domain(Shared), n) && exists acts :: TakenIn(Domain(Shared), n, m, acts, Timeout(Rerouting(7)))
    ensures 7 !in m.holding && m.routes == n.routes && m.past.stale == n.past.stale
  {}

  /** T6 runs out, and the mark is applied. */
  lemma MarkIsApplied(n: Node, m: Node)
    requires Serving(Shared, n) && n.routes == map[7 := SharedRoutes(Allowed)] && (7, 0) in n.past.stale
    requires Led(Shared, n, m, Timeout(Rerouting(7)))
    ensures 7 in m.routes && 7 !in m.holding && StatusVia(m.routes[7], 0) == Allowed
    ensures MarkOf(Replay(Domain(Shared), m.past.log).marks, 7, 0) != Allowed
  {
    ReroutingEnds(n, m);
    StaleIsMarkedWrong(Domain(Shared), m, 7, 0);
  }

  // ── The runs ───────────────────────────────────────────────────────────────

  /** A new management object takes in three events, after which the link carries traffic. */
  method Carrying(specs: seq<RouteSpec>, tfpUnknown: bool) returns (management: Management)
    requires OnOneLink(specs)
    ensures fresh(management) && management.topology == Domain(specs)
    ensures Serving(specs, management.State()) && Untouched(specs, management.State()) && Available(management.links[0].phase)
  {
    DomainIsValid(specs);
    management := new Management(Domain(specs), tfpUnknown);
    var actions := management.Handle(Server(0, true));
    ServerComesUp(specs, management.State());
    ghost var n := management.State();
    actions := management.Handle(LinkUp(0));
    LinkReturns(specs, n, management.State());
    NothingToAllow(specs, n, management.State());
    n := management.State();
    actions := management.Handle(Timeout(AdjacentRestart(0)));
    LinkStarts(specs, n, management.State());
  }

  /**
   Then point 2 restricts the route, the link fails and returns before T6 runs out.
   At the end nothing is held and the route is allowed, and for the routing tables
   it is not: no later action is on its way to put that right.
   */
  method MarkStaysWrong(bsnt: nat, tfpUnknown: bool) returns (management: Management)
    ensures fresh(management) && management.Valid() && management.topology == Domain(Shared)
    ensures 7 in management.routes && 7 !in management.holding && StatusVia(management.routes[7], 0) == Allowed
    ensures MarkOf(Replay(management.topology, management.past.log).marks, 7, 0) != Allowed
  {
    management := MarkIsHeld(tfpUnknown);
    LinkGoes(management, bsnt);
    ghost var n := management.State();
    var actions := management.Handle(LinkUp(0));
    MarkIsOvertaken(n, management.State());
    n := management.State();
    actions := management.Handle(Timeout(Rerouting(7)));
    MarkIsApplied(n, management.State());
  }

  /** The link carries traffic, and a restriction waits to be marked. */
  method MarkIsHeld(tfpUnknown: bool) returns (management: Management)
    ensures fresh(management) && management.topology == Domain(Shared) && Serving(Shared, management.State())
    ensures management.routes == map[7 := SharedRoutes(Restricted)] && HasMark(DeferredOf(management.deferred, 7), 0)
  {
    management := Carrying(Shared, tfpUnknown);
    ghost var n := management.State();
    SharedFresh();
    SharedFirst(Allowed);
    var actions := management.Handle(Received(0, 2, 0, Tfr(7)));
    RouteIsTold(Shared, n, management.State(), Tfr(7), 0);
    MarkWaits(n.routes, management.routes, n.holding, management.holding, management.deferred);
  }

  /** The link goes down, and its changeover runs out. */
  method LinkGoes(management: Management, bsnt: nat)
    requires management.topology == Domain(Shared) && Serving(Shared, management.State())
    modifies management
    ensures Serving(Shared, management.State()) && !management.links[0].up && management.links[0].phase == Closed
    ensures management.routes == old(management.routes) && management.deferred == old(management.deferred)
  {
    ghost var n := management.State();
    var actions := management.Handle(LinkDown(0, bsnt));
    LinkFails(n, management.State(), bsnt);
    n := management.State();
    actions := management.Handle(Timeout(Changeover(0)));
    ChangeoverEnds(n, management.State());
  }

  // ── A mark that two routes share ───────────────────────────────────────────

  /** The routes to point 7 both go through the link. */
  const Doubled := [RouteSpec(ViaLinkset(0), 0), RouteSpec(ViaLinkset(0), 1)]

  function DoubledRoutes(status: RouteStatus): seq<RouteState> {
    [RouteState(ViaLinkset(0), 0, status), RouteState(ViaLinkset(0), 1, Allowed)]
  }

  lemma DoubledInUse()
    ensures 1 in InUse({0}, [true], false, DoubledRoutes(Prohibited))
  {
    var g := Grades({0}, [true], false, DoubledRoutes(Prohibited));
    assert g == [Grade(0, No), Grade(1, Yes)];
    InUseIsBest(g, 1);
  }

  lemma DoubledFirst(status: RouteStatus)
    ensures FirstVia(DoubledRoutes(status), 0) == Some(0) && StatusVia(DoubledRoutes(status), 0) == status
    ensures WithStatus(DoubledRoutes(status), 0, Prohibited) == DoubledRoutes(Prohibited)
  {}

  lemma DoubledFresh()
    ensures FreshRoutes(Domain(Doubled)) == map[7 := DoubledRoutes(Allowed)]
  {
    assert FreshRoutes(Domain(Doubled))[7] == DoubledRoutes(Allowed);
  }

  /** A transfer-prohibited takes the first route away; nothing is held. */
  lemma SecondRouteStays(routes: Routes, after: Routes, holding: set<PointCode>)
    requires routes == map[7 := DoubledRoutes(Allowed)] && after == routes[7 := WithStatus(routes[7], 0, Prohibited)]
    requires HeldAs(routes[7], after[7], {}, holding, Prohibited)
    ensures after == map[7 := DoubledRoutes(Prohibited)] && holding == {}
  {
    DoubledFirst(Allowed);
  }

  /** Management goes on by the second route. */
  lemma SecondRouteServes(m: Node)
    requires Serving(Doubled, m) && m.routes == map[7 := DoubledRoutes(Prohibited)] && Available(m.links[0].phase)
    ensures 7 in m.accessible && CarryingNow(Domain(Doubled), m) == {0}
  {
    DoubledInUse();
    Carries(Doubled, m);
    assert 7 in ReachedNow(Domain(Doubled), m);
  }

  /** The resolver, told all that management asked for, has nowhere to send to. */
  lemma ResolverIsLost(n: Node, a: Availability, table: Candidates, sls: Byte)
    requires Serving(Doubled, n) && n.routes == map[7 := DoubledRoutes(Prohibited)] && 7 !in n.holding && n.past.stale == {}
    requires CarryingNow(Domain(Doubled), n) == {0} && Follows(Domain(Doubled), n, a, table, 7)
    ensures Resolved(table, a, 7, sls, None).None?
  {
    FollowsIsSameView(Domain(Doubled), n, a, table, 7);
    DoubledFirst(Prohibited);
    assert StatusOf(a.marks, 7, ViaLinkset(0)) == Prohibited;
    ChosenIsInUse(CandidateGrades(a, 7, None, table[7]), sls);
  }

  /** At the end point 7 is called accessible, and the resolver, fed with every action, sends nothing there. */
  method SharedMarkLoses(tfpUnknown: bool) returns (management: Management)
    ensures fresh(management) && management.Valid() && management.topology == Domain(Doubled)
    ensures 7 in management.accessible && 7 !in management.holding
    ensures forall a, table, sls | Follows(management.topology, management.State(), a, table, 7) :: Resolved(table, a, 7, sls, None).None?
  {
    management := Carrying(Doubled, tfpUnknown);
    ghost var n := management.State();
    DoubledFresh();
    DoubledFirst(Allowed);
    var actions := management.Handle(Received(0, 2, 0, Tfp(7)));
    RouteIsTold(Doubled, n, management.State(), Tfp(7), 0);
    SecondRouteStays(n.routes, management.routes, management.holding);
    SecondRouteServes(management.State());
    forall a, table, sls | Follows(management.topology, management.State(), a, table, 7)
      ensures Resolved(table, a, 7, sls, None).None?
    {
      ResolverIsLost(management.State(), a, table, sls);
    }
  }
}
