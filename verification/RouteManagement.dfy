/**
 Signalling route management: what an adjacent point says about a route, forced
 and controlled rerouting, the route set test and the response method (clauses
 7, 8 and 13 of ITU-T Q.704).
 */
module RouteManagement {
  import opened Options
  import opened RouteChoice
  import opened Signalling
  import opened Observer
  import opened Invariants
  import opened NodeState
  import opened RouteMarks

  /** Only the routes, and what is held for them, changed. */
  ghost predicate OnlyRoutes(n: Node, m: Node) {
    Logs(n.(routes := m.routes, holding := m.holding, deferred := m.deferred, past := n.past.(stale := m.past.stale)), m,
                n.past.world.(tests := m.past.world.tests, marks := m.past.world.marks, dests := m.past.world.dests))
  }

  /** No route has another status, and no mark waits that did not. */
  ghost predicate SameMarks(n: Node, m: Node) {
    m.routes == n.routes && m.holding == n.holding && m.deferred == n.deferred && m.past.stale == n.past.stale
  }

  /** No route by way of the linkset is barred any more; those with a mark that waits are marked wrongly from now on. */
  ghost predicate AllowedAgain(n: Node, m: Node, ls: LinksetId) {
    && m.routes == AllReopened(n.routes, ls) && m.holding == n.holding && m.deferred == n.deferred
    && m.past.stale == n.past.stale + Overtaken(n.routes, n.deferred, ls)
  }

  // ── Allowing every route through a linkset ─────────────────────────────────

  /** The destinations with a route through `ls` that is not allowed, once for each such route. */
  method BarredDestinations(t: Topology, routes: Routes, ls: LinksetId) returns (cleared: seq<PointCode>)
    requires t.Valid() && routes.Keys == t.routes.Keys
    ensures forall d :: d in cleared <==> d in routes && Barred(routes[d], ls) > 0
  {
    cleared := [];
    var i := 0;
    while i < |t.dpcs|
      invariant 0 <= i <= |t.dpcs|
      invariant forall d | d in cleared :: d in routes && Barred(routes[d], ls) > 0
      invariant forall k | 0 <= k < i :: t.dpcs[k] in routes && (Barred(routes[t.dpcs[k]], ls) > 0 ==> t.dpcs[k] in cleared)
    {
      var d := t.dpcs[i];
      var again := seq(Barred(routes[d], ls), _ => d);
      assert Barred(routes[d], ls) > 0 ==> again[0] == d;
      cleared := cleared + again;
      i := i + 1;
    }
  }

  method LiftMark(t: Topology, n: Node, d: PointCode, ls: LinksetId) returns (m: Node)
    requires Recorded(t, n)
    ensures Recorded(t, m)
    ensures Logs(n, m, n.past.world.(tests := n.past.world.tests - {(d, ls)}, marks := n.past.world.marks[(d, ls) := Allowed]))
  {
    m := TestTimer(t, n, d, ls, None);
    m := MarkRoute(t, m, d, ls, Allowed);
  }

  /** Stop the tests and lift the marks of routes through `ls`. */
  method LiftMarks(t: Topology, n: Node, ls: LinksetId, cleared: seq<PointCode>) returns (m: Node)
    requires Recorded(t, n)
    ensures Recorded(t, m)
    ensures Logs(n, m, n.past.world.(tests := m.past.world.tests, marks := m.past.world.marks))
    ensures forall p: (PointCode, LinksetId) :: p in m.past.world.tests <==> p in n.past.world.tests && !(p.1 == ls && p.0 in cleared)
    ensures forall d, other: nat ::
              MarkOf(m.past.world.marks, d, other) == if other == ls && d in cleared then Allowed else MarkOf(n.past.world.marks, d, other)
  {
    m := n;
    var i := 0;
    while i < |cleared|
      invariant 0 <= i <= |cleared|
      invariant Recorded(t, m)
      invariant Logs(n, m, n.past.world.(tests := m.past.world.tests, marks := m.past.world.marks))
      invariant forall p: (PointCode, LinksetId) :: p in m.past.world.tests <==> p in n.past.world.tests && !(p.1 == ls && p.0 in cleared[..i])
      invariant forall d, other: nat ::
                  MarkOf(m.past.world.marks, d, other) == if other == ls && d in cleared[..i] then Allowed else MarkOf(n.past.world.marks, d, other)
    {
      var before := m.past.world.marks;
      m := LiftMark(t, m, cleared[i], ls);
      forall d, other: nat
        ensures MarkOf(m.past.world.marks, d, other) ==
                if other == ls && d in cleared[..i + 1] then Allowed else MarkOf(n.past.world.marks, d, other)
      {
        assert MarkOf(before, d, other) == if other == ls && d in cleared[..i] then Allowed else MarkOf(n.past.world.marks, d, other);
        assert cleared[..i + 1] == cleared[..i] + [cleared[i]];
      }
      assert cleared[..i + 1] == cleared[..i] + [cleared[i]];
      i := i + 1;
    }
    assert cleared[..|cleared|] == cleared;
  }

  /** Forget what the adjacent point of a linkset said: statuses, marks and route set tests. */
  method AllowRoutesThrough(t: Topology, n: Node, ls: LinksetId) returns (m: Node)
    requires Recorded(t, n) && RoutesRight(n) && t.Valid() && Configured(t, n.routes)
    ensures Recorded(t, m) && RoutesRight(m) && OnlyRoutes(n, m) && Configured(t, m.routes)
    ensures AllowedAgain(n, m, ls)
  {
    var cleared := BarredDestinations(t, n.routes, ls);
    ConfiguredReopened(t, n.routes, ls);
    m := n.(routes := AllReopened(n.routes, ls),
            past := n.past.(stale := n.past.stale + Overtaken(n.routes, n.deferred, ls)));
    m := LiftMarks(t, m, ls, cleared);
    Reopening(n.routes, n.deferred, n.past.world.tests, n.past.world.marks, n.past.stale, ls, cleared,
              m.past.world.tests, m.past.world.marks);
  }

  lemma Reopening(routes: Routes, deferred: Deferred, tests: set<(PointCode, LinksetId)>, marks: Marks,
                  stale: set<(PointCode, LinksetId)>, ls: LinksetId, cleared: seq<PointCode>,
                  testsAfter: set<(PointCode, LinksetId)>, marksAfter: Marks)
    requires RoutesTested(routes, tests) && MarksRefine(routes, deferred, marks, stale)
    requires forall d :: d in cleared <==> d in routes && Barred(routes[d], ls) > 0
    requires forall p: (PointCode, LinksetId) :: p in testsAfter <==> p in tests && !(p.1 == ls && p.0 in cleared)
    requires forall d, other: nat ::
               MarkOf(marksAfter, d, other) == if other == ls && d in cleared then Allowed else MarkOf(marks, d, other)
    ensures RoutesTested(AllReopened(routes, ls), testsAfter)
    ensures MarksRefine(AllReopened(routes, ls), deferred, marksAfter, stale + Overtaken(routes, deferred, ls))
  {
    forall d | d in routes
      ensures d in cleared <==> StatusVia(routes[d], ls) != Allowed
    {
      BarredIsMarked(routes[d], ls);
    }
    RefineReopened(routes, deferred, marks, stale, ls, marksAfter);
    forall p: (PointCode, LinksetId)
      ensures p in testsAfter <==> p in tests && p.1 != ls
    {
      if p in tests && p.1 == ls {
        assert (p.0, ls) == p;
      }
    }
    TestedReopened(routes, tests, ls, testsAfter);
  }

  // ── Deferred marks ─────────────────────────────────────────────────────────

  /** Apply the marks deferred for a destination. */
  method ApplyMarks(t: Topology, n: Node, d: PointCode, held: seq<Action>) returns (m: Node)
    requires Recorded(t, n) && forall a | a in held :: a.Route? && a.dpc == d
    ensures Recorded(t, m)
    ensures Logs(n, m, n.past.world.(marks := m.past.world.marks))
    ensures forall e, other: nat | e != d :: MarkOf(m.past.world.marks, e, other) == MarkOf(n.past.world.marks, e, other)
    ensures forall other: nat :: MarkOf(m.past.world.marks, d, other) == LastMark(held, other, MarkOf(n.past.world.marks, d, other))
  {
    m := n;
    var i := 0;
    while i < |held|
      invariant 0 <= i <= |held|
      invariant Recorded(t, m)
      invariant Logs(n, m, n.past.world.(marks := m.past.world.marks))
      invariant forall e, other: nat | e != d :: MarkOf(m.past.world.marks, e, other) == MarkOf(n.past.world.marks, e, other)
      invariant forall other: nat :: MarkOf(m.past.world.marks, d, other) == LastMark(held[..i], other, MarkOf(n.past.world.marks, d, other))
    {
      var a := held[i];
      assert held[..i + 1] == held[..i] + [a];
      forall other: nat
        ensures LastMark(held[..i + 1], other, MarkOf(n.past.world.marks, d, other)) ==
                if a.linkset == other then a.status else LastMark(held[..i], other, MarkOf(n.past.world.marks, d, other))
      {
        LastOfOneMore(held[..i], a, other, MarkOf(n.past.world.marks, d, other));
      }
      m := MarkRoute(t, m, d, a.linkset, a.status);
      i := i + 1;
    }
    assert held[..|held|] == held;
  }

  /** T6 ran out: the deferred marks are applied and the traffic of the destination is sent. */
  method ReleaseOnTimeout(t: Topology, n: Node, d: PointCode) returns (m: Node)
    requires Recorded(t, n) && d in n.holding
    requires RoutesTested(n.routes, n.past.world.tests) && MarksRefine(n.routes, n.deferred, n.past.world.marks, n.past.stale)
    requires HoldsTimed(n.holding, n.deferred, n.past.world.dests.(rerouting := n.past.world.dests.rerouting + {d}))
    requires d !in n.past.world.dests.rerouting
    ensures Recorded(t, m) && RoutesRight(m) && OnlyRoutes(n, m)
    ensures m.routes == n.routes && m.holding == n.holding - {d} && m.past.stale == n.past.stale
  {
    m := ApplyMarks(t, n.(holding := n.holding - {d}, deferred := n.deferred - {d}), d, n.deferred[d]);
    RefineReleased(n.routes, n.deferred, n.past.world.marks, n.past.stale, d, m.past.world.marks);
    m := BufferDestination(t, m, d, false);
  }

  // ── Transfer-prohibited, -restricted and -allowed ──────────────────────────

  /**
   Between the moment the first route of `d` through `ls` gets its new status and
   the moment it is marked: `was` are the routes before.
   */
  ghost predicate Remarking(n: Node, was: Routes, d: PointCode, ls: LinksetId, p: nat, status: RouteStatus) {
    && d in was && FirstVia(was[d], ls) == Some(p)
    && n.routes == was[d := WithStatus(was[d], p, status)]
    && HoldsTimed(n.holding, n.deferred, n.past.world.dests)
    && RoutesTested(n.routes, n.past.world.tests)
    && MarksRefine(was, n.deferred, n.past.world.marks, n.past.stale)
  }

  /** The new status, and the route set test that runs until the route is allowed. */
  method ChangeStatus(t: Topology, n: Node, d: PointCode, ls: LinksetId, p: nat, status: RouteStatus) returns (m: Node)
    requires Recorded(t, n) && RoutesRight(n) && d in n.routes && Sayable(d) && FirstVia(n.routes[d], ls) == Some(p)
    ensures Recorded(t, m) && Remarking(m, n.routes, d, ls, p, status)
    ensures Logs(n.(routes := m.routes), m, n.past.world.(tests := m.past.world.tests))
  {
    TestedMarked(n.routes, n.past.world.tests, d, ls, p, status);
    m := n.(routes := n.routes[d := WithStatus(n.routes[d], p, status)]);
    m := TestTimer(t, m, d, ls, if status == Allowed then None else Some(T10));
  }

  /** The route is marked at once. */
  method MarkNow(t: Topology, n: Node, ghost was: Routes, d: PointCode, ls: LinksetId, ghost p: nat, status: RouteStatus) returns (m: Node)
    requires Recorded(t, n) && Remarking(n, was, d, ls, p, status) && d !in n.deferred
    ensures Recorded(t, m) && RoutesRight(m) && OnlyRoutes(n, m)
    ensures m.routes == n.routes && m.past.stale == n.past.stale - {(d, ls)} && m.holding == n.holding
  {
    m := MarkRoute(t, n.(past := n.past.(stale := n.past.stale - {(d, ls)})), d, ls, status);
    RefineMarked(was, n.deferred, n.past.world.marks, n.past.stale, d, ls, p, status, m.deferred, m.past.world.marks);
  }

  /** The mark waits for T6. */
  method MarkLater(t: Topology, n: Node, ghost was: Routes, d: PointCode, ls: LinksetId, ghost p: nat, status: RouteStatus) returns (m: Node)
    requires Recorded(t, n) && Remarking(n, was, d, ls, p, status) && d in n.holding
    ensures Recorded(t, m) && RoutesRight(m) && OnlyRoutes(n, m)
    ensures m.routes == n.routes && m.past.stale == n.past.stale - {(d, ls)} && m.holding == n.holding
    ensures Route(d, ls, status) in DeferredOf(m.deferred, d)
  {
    var mark := Route(d, ls, status);
    m := n.(deferred := n.deferred[d := n.deferred[d] + [mark]], past := n.past.(stale := n.past.stale - {(d, ls)}));
    forall other: nat
      ensures LastMark(n.deferred[d] + [mark], other, MarkOf(n.past.world.marks, d, other)) ==
              if other == ls then status else LastMark(n.deferred[d], other, MarkOf(n.past.world.marks, d, other))
    {
      LastOfOneMore(n.deferred[d], mark, other, MarkOf(n.past.world.marks, d, other));
    }
    RefineMarked(was, n.deferred, n.past.world.marks, n.past.stale, d, ls, p, status, m.deferred, m.past.world.marks);
  }

  /** Clause 8: the traffic of the destination is held for T6, and the mark waits. */
  method HoldAndMarkLater(t: Topology, n: Node, ghost was: Routes, d: PointCode, ls: LinksetId, ghost p: nat, status: RouteStatus) returns (m: Node)
    requires Recorded(t, n) && Remarking(n, was, d, ls, p, status) && d !in n.holding
    ensures Recorded(t, m) && RoutesRight(m) && OnlyRoutes(n, m)
    ensures m.routes == n.routes && m.past.stale == n.past.stale - {(d, ls)} && m.holding == n.holding + {d}
    ensures Route(d, ls, status) in DeferredOf(m.deferred, d)
  {
    var mark := Route(d, ls, status);
    m := n.(holding := n.holding + {d}, deferred := n.deferred[d := [mark]], past := n.past.(stale := n.past.stale - {(d, ls)}));
    forall other: nat
      ensures LastMark([mark], other, MarkOf(n.past.world.marks, d, other)) ==
              if other == ls then status else MarkOf(n.past.world.marks, d, other)
    {
      assert [mark] == [] + [mark];
      LastOfOneMore([], mark, other, MarkOf(n.past.world.marks, d, other));
    }
    RefineMarked(was, n.deferred, n.past.world.marks, n.past.stale, d, ls, p, status, m.deferred, n.past.world.marks);
    m := BufferDestination(t, m, d, true);
    m := ReroutingTimer(t, m, d, Some(T6));
    m := Say(t, m, Note(ControlledRerouting, ADestination(d)));
  }

  /** The deferred marks of the destination and then the new one are applied. */
  method MarkAll(t: Topology, n: Node, ghost was: Routes, d: PointCode, ls: LinksetId, ghost p: nat, status: RouteStatus) returns (m: Node)
    requires Recorded(t, n) && Remarking(n, was, d, ls, p, status)
    ensures Recorded(t, m)
    ensures Logs(n.(deferred := n.deferred - {d}, past := n.past.(stale := n.past.stale - {(d, ls)})), m,
                        n.past.world.(marks := m.past.world.marks))
    ensures MarksRefine(m.routes, m.deferred, m.past.world.marks, m.past.stale)
  {
    var held := DeferredOf(n.deferred, d);
    m := n.(deferred := n.deferred - {d}, past := n.past.(stale := n.past.stale - {(d, ls)}));
    m := ApplyMarks(t, m, d, held);
    m := MarkRoute(t, m, d, ls, status);
    RefineMarked(was, n.deferred, n.past.world.marks, n.past.stale, d, ls, p, status, m.deferred, m.past.world.marks);
  }

  /** Clause 7: the traffic leaves the route at once; whatever was held goes by the new routing. */
  method ForceRerouting(t: Topology, n: Node, ghost was: Routes, d: PointCode, ls: LinksetId, ghost p: nat, moved: bool) returns (m: Node)
    requires Recorded(t, n) && Remarking(n, was, d, ls, p, Prohibited)
    ensures Recorded(t, m) && RoutesRight(m) && OnlyRoutes(n, m)
    ensures m.routes == n.routes && m.past.stale == n.past.stale - {(d, ls)} && m.holding == n.holding - {d}
  {
    m := MarkAll(t, n, was, d, ls, p, Prohibited);
    if d in n.holding {
      m := m.(holding := m.holding - {d});
      m := ReroutingTimer(t, m, d, None);
      m := BufferDestination(t, m, d, false);
    }
    if moved {
      m := Say(t, m, Note(ForcedRerouting, ADestination(d)));
    }
  }

  /** The new status of a route decides whether its traffic moves at once, after T6, or not at all. */
  method Reroute(t: Topology, n: Node, d: PointCode, ls: LinksetId, p: nat, status: RouteStatus, before: seq<nat>, after: seq<nat>) returns (m: Node)
    requires Recorded(t, n) && RoutesRight(n) && d in n.routes && Sayable(d) && FirstVia(n.routes[d], ls) == Some(p)
    ensures Recorded(t, m) && RoutesRight(m) && OnlyRoutes(n, m)
    ensures m.routes == n.routes[d := WithStatus(n.routes[d], p, status)]
    ensures m.past.stale == n.past.stale - {(d, ls)}
    ensures status == Prohibited ==> m.holding == n.holding - {d}
    ensures status != Prohibited ==>
              m.holding == if before != after && before != [] && after != [] then n.holding + {d} else n.holding
    ensures status != Prohibited && d in m.holding ==> Route(d, ls, status) in DeferredOf(m.deferred, d)
  {
    m := ChangeStatus(t, n, d, ls, p, status);
    if status == Prohibited {
      m := ForceRerouting(t, m, n.routes, d, ls, p, before != after && before != []);
    } else if d in n.holding {
      assert n.holding + {d} == n.holding;
      m := MarkLater(t, m, n.routes, d, ls, p, status);
    } else if before != after && before != [] && after != [] {
      m := HoldAndMarkLater(t, m, n.routes, d, ls, p, status);
    } else {
      m := MarkNow(t, m, n.routes, d, ls, p, status);
    }
  }

  /**
   After a new status of one of its routes: a prohibition releases a destination,
   a change of the routes in use from some to others holds it.
   */
  ghost predicate HeldAfter(t: Topology, n: Node, m: Node, d: PointCode, status: RouteStatus)
    requires Shaped(t, n) && d in n.routes && d in m.routes
  {
    var before := InUse(CarryingNow(t, n), n.servers, d in n.paused, n.routes[d]);
    var after := InUse(CarryingNow(t, n), n.servers, d in n.paused, m.routes[d]);
    if m.routes[d] == n.routes[d] then m.holding == n.holding
    else if status == Prohibited then m.holding == n.holding - {d}
    else m.holding == if before != after && before != [] && after != [] then n.holding + {d} else n.holding
  }

  /** The route has the new status, and unless it is a repeated one, its mark is set or waits. */
  ghost predicate Heard(t: Topology, n: Node, m: Node, ls: LinksetId, d: PointCode, status: RouteStatus)
    requires Shaped(t, n) && d in n.routes
  {
    var p := FirstVia(n.routes[d], ls);
    p.Some? ==>
      && m.routes == n.routes[d := WithStatus(n.routes[d], p.value, status)] && HeldAfter(t, n, m, d, status)
      && m.past.stale <= n.past.stale
      && (d in m.holding && StatusVia(n.routes[d], ls) != status ==> Route(d, ls, status) in DeferredOf(m.deferred, d))
  }

  method NewStatus(t: Topology, n: Node, ls: LinksetId, d: PointCode, p: nat, status: RouteStatus) returns (m: Node)
    requires Recorded(t, n) && Shaped(t, n) && RoutesRight(n)
    requires d in n.routes && Sayable(d) && FirstVia(n.routes[d], ls) == Some(p)
    ensures Recorded(t, m) && RoutesRight(m) && OnlyRoutes(n, m)
    ensures Heard(t, n, m, ls, d, status)
  {
    if n.routes[d][p].status == status {
      // A repeated message.
      assert WithStatus(n.routes[d], p, status) == n.routes[d];
      assert n.routes[d := n.routes[d]] == n.routes;
      return n;
    }
    var carrying := CarryingNow(t, n);
    var before := InUse(carrying, n.servers, d in n.paused, n.routes[d]);
    var after := InUse(carrying, n.servers, d in n.paused, WithStatus(n.routes[d], p, status));
    m := Reroute(t, n, d, ls, p, status, before, after);
    assert m.routes[d][p].status != n.routes[d][p].status;
  }

  /** A TFP, TFR or TFA: the route it is about, if there is one, gets the status it says. */
  method RouteMessage(t: Topology, n: Node, ls: LinksetId, d: ItuCode, status: RouteStatus, message: Message) returns (m: Node)
    requires Recorded(t, n) && Shaped(t, n) && RoutesRight(n)
    ensures Recorded(t, m) && Shaped(t, m) && RoutesRight(m) && OnlyRoutes(n, m)
    ensures d in n.routes ==> Heard(t, n, m, ls, d, status)
    ensures d !in n.routes || FirstVia(n.routes[d], ls).None? ==> SameMarks(n, m) && Ignored(message) in m.past.deeds
  {
    if d !in n.routes || FirstVia(n.routes[d], ls).None? {
      // A message about a route there is none of is not acted on.
      m := Say(t, n, Ignored(message));
    } else {
      ConfiguredMarked(t, n.routes, d, FirstVia(n.routes[d], ls).value, status);
      m := NewStatus(t, n, ls, d, FirstVia(n.routes[d], ls).value, status);
    }
  }

  // ── The route set test and the response method ─────────────────────────────

  /** Only what was said about the destinations changed. */
  ghost predicate OnlyTold(n: Node, m: Node) {
    Logs(n.(told := m.told, guarded := m.guarded), m,
                n.past.world.(believes := m.past.world.believes, guards := m.past.world.guards))
  }

  /** Tell an adjacent point about a destination, known or not. */
  method TellAndKeep(t: Topology, n: Node, ls: LinksetId, d: PointCode, prohibited: bool) returns (m: Node)
    requires Recorded(t, n) && ToldIsBelieved(t.routes.Keys, n.told, n.past.world.believes)
    requires n.routes.Keys == t.routes.Keys && ls < |t.linksets| && t.linksets[ls].adjacent.Some? && Sayable(d)
    ensures Recorded(t, m) && ToldIsBelieved(t.routes.Keys, m.told, m.past.world.believes)
    ensures Logs(n.(told := if d in n.routes then Put(n.told, (ls, d), prohibited) else n.told), m,
                        n.past.world.(believes := Put(n.past.world.believes, (ls, d), prohibited)))
    ensures m.out == n.out + [Send(t.linksets[ls].adjacent.value, 0, if prohibited then Tfp(d) else Tfa(d), Adjacent(ls, None))]
    ensures Send(t.linksets[ls].adjacent.value, 0, if prohibited then Tfp(d) else Tfa(d), Adjacent(ls, None)) in m.past.deeds
  {
    TellingIsBelieved(t.routes.Keys, n.told, n.past.world.believes, ls, d, prohibited);
    m := n.(told := if d in n.routes then Put(n.told, (ls, d), prohibited) else n.told);
    m := TellAbout(t, m, ls, d, prohibited);
  }

  /** What a test of a route through this node should find. */
  function ActualStatus(t: Topology, n: Node, ls: LinksetId, d: PointCode): RouteStatus
    requires Shaped(t, n)
  {
    if d !in n.routes || d in ProhibitedSet(CarryingNow(t, n), n.servers, n.paused, n.routes, ls) then Prohibited else Allowed
  }

  /** Answer a route set test, unless its sender knows already (section 13.5.4 of ITU-T Q.704). */
  method AnswerTest(t: Topology, n: Node, ls: LinksetId, d: PointCode, believed: RouteStatus) returns (m: Node)
    requires Recorded(t, n) && Shaped(t, n) && ToldIsBelieved(t.routes.Keys, n.told, n.past.world.believes)
    requires ls < |t.linksets| && t.linksets[ls].adjacent.Some?
    ensures Recorded(t, m) && Shaped(t, m) && ToldIsBelieved(t.routes.Keys, m.told, m.past.world.believes)
    ensures OnlyTold(n, m) && m.guarded == n.guarded && m.past.world.guards == n.past.world.guards
    ensures ActualStatus(t, n, ls, d) == believed || !Sayable(d) ==> m == n
    ensures ActualStatus(t, n, ls, d) != believed && Sayable(d) ==>
              && m.past.world.believes == Put(n.past.world.believes, (ls, d), ActualStatus(t, n, ls, d) == Prohibited)
              && Send(t.linksets[ls].adjacent.value, 0, if ActualStatus(t, n, ls, d) == Prohibited then Tfp(d) else Tfa(d), Adjacent(ls, None)) in m.past.deeds
  {
    var actual := ActualStatus(t, n, ls, d);
    if actual == believed || !Sayable(d) {
      return n;
    }
    m := TellAndKeep(t, n, ls, d, actual == Prohibited);
  }

  /** The response method (section 13.2.2 iii of ITU-T Q.704): whoever sent what cannot be passed on is told to send no more. */
  method AnswerUnroutable(t: Topology, n: Node, tfpUnknown: bool, d: PointCode, l: LinkId) returns (m: Node)
    requires Recorded(t, n) && Shaped(t, n) && ToldIsBelieved(t.routes.Keys, n.told, n.past.world.believes)
    requires n.past.world.guards == n.guarded && l < |t.links|
    ensures Recorded(t, m) && Shaped(t, m) && ToldIsBelieved(t.routes.Keys, m.told, m.past.world.believes)
    ensures OnlyTold(n, m) && m.past.world.guards == m.guarded && n.told <= m.told
    ensures Answered(t, n, tfpUnknown, d, t.links[l].linkset) <==> m.out != n.out
    ensures Answered(t, n, tfpUnknown, d, t.links[l].linkset) ==>
              && m.guarded == n.guarded + {d}
              && m.out == n.out + [Send(t.linksets[t.links[l].linkset].adjacent.value, 0, Tfp(d), Adjacent(t.links[l].linkset, None)),
                                   Start(Prohibiting(d), T8)]
    ensures !Answered(t, n, tfpUnknown, d, t.links[l].linkset) ==> m == n
  {
    var ls := t.links[l].linkset;
    if !Answered(t, n, tfpUnknown, d, ls) {
      return n;
    }
    m := TellAndKeep(t, n, ls, d, true);
    m := Guard(t, m, d);
  }

  /** A transfer-prohibited goes to the point a message came from, once per T8, if there is somebody to send it to and something to say. */
  predicate Answered(t: Topology, n: Node, tfpUnknown: bool, d: PointCode, ls: LinksetId)
    requires ls < |t.linksets|
  {
    && !n.restarting && d != t.ownPc && d !in n.guarded && t.linksets[ls].adjacent.Some? && Sayable(d)
    && (d in n.routes || tfpUnknown)
  }
}
