/** What the expiry of a timer leads to. */
module Timeouts {
  import opened Options
  import opened RouteChoice
  import opened Signalling
  import opened Observer
  import opened Invariants
  import opened NodeState
  import opened LinkFacts
  import opened RouteManagement
  import opened Links
  import opened Inhibiting
  import opened RestartProcedure
  import opened Events

  /** Stopping a timer that does not run changes nothing. */
  lemma StopUnarmed(w: World, timer: Timer)
    requires !Armed(w, timer)
    ensures RunOut(w, timer) == w
  {
    match timer
    case Changeover(l) => assert w.links.changeover - {l} == w.links.changeover;
    case Changeback(l) => assert w.links.changeback - {l} == w.links.changeback;
    case InhibitTest(l) => assert w.links.inhibitTest - {l} == w.links.inhibitTest;
    case Uninhibit(l) => assert w.links.uninhibit - {l} == w.links.uninhibit;
    case ForceUninhibit(l) => assert w.links.forceUninhibit - {l} == w.links.forceUninhibit;
    case AdjacentRestart(ls) => assert w.linksets.adjacentRestart - {ls} == w.linksets.adjacentRestart;
    case RestartAllowed(ls) => assert w.linksets.restartAllowed - {ls} == w.linksets.restartAllowed;
    case Rerouting(d) => assert w.dests.rerouting - {d} == w.dests.rerouting;
    case Prohibiting(d) => assert w.guards - {d} == w.guards;
    case RouteSetTest(d, ls) => assert w.tests - {(d, ls)} == w.tests;
    case _ =>
  }

  /** A timer of `w` ran out, and no more happened yet. */
  ghost predicate RanOut(t: Topology, n: Node, w: World, timer: Timer) {
    && CoreAs(t, n, w) && n.past.world == RunOut(w, timer)
    && n.past.loose == {} && n.past.exempt == {} && w.node.restarting == n.restarting
  }

  /** A timer that the state has no use for ran out. */
  lemma SpuriousExpiry(t: Topology, n: Node, w: World, timer: Timer)
    requires RanOut(t, n, w, timer) && !Armed(w, timer)
    ensures Ready(t, n)
  {
    StopUnarmed(w, timer);
  }

  /** A changeover that runs is completed without a number; otherwise nothing happens. */
  ghost predicate ChangeoverOver(t: Topology, n: Node, m: Node, acts: set<Action>, l: LinkId)
    requires Shaped(t, n)
  {
    if l < |n.links| && ChangingOver(n.links[l].phase) then Completed(t, n, m, acts, l, None) && m.restarting == n.restarting else NothingMoved(n, m)
  }

  method ChangeoverExpired(t: Topology, n: Node, ghost w: World, l: LinkId) returns (m: Node)
    requires RanOut(t, n, w, Changeover(l))
    ensures Ready(t, m) && Handled(n, m)
    ensures l < |n.links| && ChangingOver(n.links[l].phase) ==> n.past.world.released + multiset{l} <= m.past.world.released
    ensures ChangeoverOver(t, n, m, m.past.deeds, l)
  {
    if l < |n.links| && ChangingOver(n.links[l].phase) {
      assert LinkOk(n.links[l], Waiting(t, n.adjacentRestarting, n.restarting, l));
      m := CompleteChangeover(t, n, w, l, None,
                              Some(if n.links[l].phase == ChangeoverOrdered then ChangeoverUnacknowledged else ChangeoverTimeControlled));
    } else {
      SpuriousExpiry(t, n, w, Changeover(l));
      m := n;
    }
  }

  /** The changeback declarations of a link are repeated. */
  method RepeatDeclarations(t: Topology, n: Node, ls: LinksetId, slc: Byte, declared: seq<(Byte, LinkId)>) returns (m: Node)
    requires Recorded(t, n) && ls < |t.linksets|
    ensures Recorded(t, m) && Logs(n, m, n.past.world) && AllDeclared(t, m.past.deeds, ls, slc, declared)
  {
    m := n;
    var i := 0;
    while i < |declared|
      invariant 0 <= i <= |declared|
      invariant Recorded(t, m) && Logs(n, m, n.past.world) && AllDeclared(t, m.past.deeds, ls, slc, declared[..i])
    {
      assert declared[..i + 1] == declared[..i] + [declared[i]];
      m := SendTo(t, m, ls, slc, Cbd(declared[i].0), Behind(declared[i].1));
      i := i + 1;
    }
    assert declared[..i] == declared;
  }

  /** T4 ran out: the declarations are repeated under T5 (section 6.5.3 of ITU-T Q.704). */
  method DeclareAgain(t: Topology, n: Node, ghost w: World, l: LinkId) returns (m: Node)
    requires CoreAs(t, n, w) && n.past.loose == {} && l < |n.links| && n.links[l].phase == ChangebackDeclared(false)
    requires n.past.world == w.(links := SetLinkTimer(w.links, Changeback(l), false).(late := w.links.late + multiset{l}))
    ensures Core(t, m) && OnlyLinks(n, m) && m.past.loose == {} && m.past.world.released == n.past.world.released
    ensures m.links == n.links[l := n.links[l].(phase := ChangebackDeclared(true))]
    ensures AllDeclared(t, m.past.deeds, t.links[l].linkset, t.links[l].slc, n.links[l].declared) && Start(Changeback(l), T5) in m.past.deeds
  {
    var k := n.links[l].(phase := ChangebackDeclared(true));
    m := RepeatDeclarations(t, n, t.links[l].linkset, t.links[l].slc, k.declared);
    ghost var acts := m.past.deeds;
    m := LinkTimer(t, m, Changeback(l), Some(T5));
    StillDeclared(t, acts, m.past.deeds, t.links[l].linkset, t.links[l].slc, k.declared);
    m := m.(links := n.links[l := k], past := m.past.(loose := n.past.loose - {l}));
    OneMoved(t, n.links, n.adjacentRestarting, n.restarting, n.past.loose, n.past.exempt, l, k);
    OneTimed(n.links, w.links, l, k, m.past.world.links);
  }

  /** A declared changeback is declared once more under T5; any other changeback is over, and the link opened. */
  ghost predicate ChangebackOver(t: Topology, n: Node, m: Node, acts: set<Action>, l: LinkId)
    requires Shaped(t, n)
  {
    && SameMarks(n, m) && m.restarting == n.restarting && m.adjacentRestarting == n.adjacentRestarting
    && if l < |n.links| && n.links[l].phase == ChangebackDeclared(false) then
         && m.links == n.links[l := n.links[l].(phase := ChangebackDeclared(true))] && Start(Changeback(l), T5) in acts
         && AllDeclared(t, acts, t.links[l].linkset, t.links[l].slc, n.links[l].declared)
       else if l < |n.links| && ChangingBack(n.links[l].phase) then
         m.links == n.links[l := n.links[l].(declared := [], phase := Phase.Carrying)] && Open(l) in acts
       else m.links == n.links
  }

  method ChangebackExpired(t: Topology, n: Node, ghost w: World, l: LinkId) returns (m: Node)
    requires RanOut(t, n, w, Changeback(l)) && Preventive(t, n)
    ensures Ready(t, m) && Handled(n, m)
    ensures l < |n.links| && ChangingBack(n.links[l].phase) ==>
              if n.links[l].phase == ChangebackDeclared(false) then m.links[l].phase == ChangebackDeclared(true)
              else m.past.world.released == n.past.world.released + multiset{l}
    ensures ChangebackOver(t, n, m, m.past.deeds, l)
  {
    if l < |n.links| && n.links[l].phase == ChangebackDeclared(false) {
      m := DeclareAgain(t, n, w, l);
    } else if l < |n.links| && ChangingBack(n.links[l].phase) {
      assert LinkOk(n.links[l], Waiting(t, n.adjacentRestarting, n.restarting, l));
      m := FinishChangeback(t, n, w, l, if n.links[l].phase == ChangebackTimed then ChangebackTimeControlled else ChangebackUnacknowledged);
    } else {
      SpuriousExpiry(t, n, w, Changeback(l));
      m := n;
    }
  }

  method ReroutingExpired(t: Topology, n: Node, ghost w: World, d: PointCode) returns (m: Node)
    requires RanOut(t, n, w, Rerouting(d))
    ensures Ready(t, m) && Handled(n, m) && m.holding == n.holding - {d}
    ensures m.routes == n.routes && m.past.stale == n.past.stale && m.restarting == n.restarting
    ensures m.links == n.links && m.adjacentRestarting == n.adjacentRestarting
  {
    if d in n.holding {
      m := ReleaseOnTimeout(t, n, d);
    } else {
      SpuriousExpiry(t, n, w, Rerouting(d));
      m := n;
    }
  }

  method ProhibitingExpired(t: Topology, n: Node, ghost w: World, d: PointCode) returns (m: Node)
    requires RanOut(t, n, w, Prohibiting(d))
    ensures Ready(t, m) && Handled(n, m)
    ensures m == n.(guarded := n.guarded - {d})
  {
    m := n.(guarded := n.guarded - {d});
  }

  /** T10 starts again for a route that is not allowed. */
  method KeepTesting(t: Topology, n: Node, ghost w: World, d: PointCode, ls: LinksetId) returns (m: Node)
    requires RanOut(t, n, w, RouteSetTest(d, ls)) && (d, ls) in w.tests
    ensures Ready(t, m) && Handled(n, m)
    ensures NothingMoved(n, m) && Start(RouteSetTest(d, ls), T10) in m.past.deeds
  {
    m := TestTimer(t, n, d, ls, Some(T10));
    assert Put(w.tests - {(d, ls)}, (d, ls), true) == w.tests;
  }

  /** Something was said that changes nothing, after a timer ran out. */
  lemma SaidBefore(t: Topology, n: Node, w: World, m: Node, timer: Timer)
    requires RanOut(t, n, w, timer) && Recorded(t, m) && Logs(n, m, n.past.world) && timer.RouteSetTest?
    ensures RanOut(t, m, w.(asked := m.past.world.asked), timer)
  {}

  /** T10 ran out: the route is tested again, as long as it is not allowed. */
  method TestRouteSet(t: Topology, n: Node, ghost w: World, d: PointCode, ls: LinksetId, message: Message) returns (m: Node)
    requires RanOut(t, n, w, RouteSetTest(d, ls)) && ls < |t.linksets| && (d, ls) in w.tests && !message.Tfp? && !message.Tfa?
    ensures Ready(t, m) && Handled(n, m)
    ensures NothingMoved(n, m) && Start(RouteSetTest(d, ls), T10) in m.past.deeds
    ensures !n.restarting && CanTell(t, n.links, ReachedNow(t, n), ls) ==> SentTo(t, m.past.deeds, ls, 0, message, Adjacent(ls, None))
  {
    if !n.restarting && CanTell(t, n.links, ReachedNow(t, n), ls) {
      m := SendTo(t, n, ls, 0, message, Adjacent(ls, None));
      SaidBefore(t, n, w, m, RouteSetTest(d, ls));
      m := KeepTesting(t, m, w.(asked := m.past.world.asked), d, ls);
    } else {
      m := KeepTesting(t, n, w, d, ls);
    }
  }

  /** A route that is not allowed is tested again, if its point can be told anything, and timed anew. */
  ghost predicate Tested(t: Topology, n: Node, m: Node, acts: set<Action>, d: PointCode, ls: LinksetId)
    requires Shaped(t, n)
  {
    && NothingMoved(n, m)
    && (ls < |t.linksets| && d in n.routes && StatusVia(n.routes[d], ls) != Allowed && Sayable(d) ==>
          && Start(RouteSetTest(d, ls), T10) in acts
          && (!n.restarting && CanTell(t, n.links, ReachedNow(t, n), ls) ==>
                SentTo(t, acts, ls, 0, if StatusVia(n.routes[d], ls) == Prohibited then Rst(d) else Rsr(d), Adjacent(ls, None))))
  }

  method RouteSetTestExpired(t: Topology, n: Node, ghost w: World, d: PointCode, ls: LinksetId) returns (m: Node)
    requires RanOut(t, n, w, RouteSetTest(d, ls))
    ensures Ready(t, m) && Handled(n, m)
    ensures Tested(t, n, m, m.past.deeds, d, ls)
  {
    if ls < |t.linksets| && d in n.routes && StatusVia(n.routes[d], ls) != Allowed && Sayable(d) {
      m := TestRouteSet(t, n, w, d, ls, if StatusVia(n.routes[d], ls) == Prohibited then Rst(d) else Rsr(d));
    } else {
      if d in n.routes && StatusVia(n.routes[d], ls) != Allowed {
        RouteMarks.MarkedInRange(t, n.routes, d, ls);
      }
      SpuriousExpiry(t, n, w, RouteSetTest(d, ls));
      m := n;
    }
  }

  /** A message of the inhibiting procedures is repeated once, the test of an inhibition as long as it lasts. */
  ghost predicate Repeated(t: Topology, n: Node, m: Node, acts: set<Action>, timer: Timer)
    requires Shaped(t, n) && (timer.Uninhibit? || timer.ForceUninhibit? || timer.InhibitTest?)
  {
    var l := timer.link;
    && SameMarks(n, m) && m.restarting == n.restarting && m.adjacentRestarting == n.adjacentRestarting
    && if l >= |n.links| then m.links == n.links
       else
         var ls, slc, path, k := t.links[l].linkset, t.links[l].slc, LinkOrRoute(t, n, l), n.links[l];
         match timer
         case Uninhibit(_) =>
           && m.links == n.links[l := k.(uninhibitAttempts := if k.uninhibitAttempts == 1 then 2 else 0)]
           && (k.uninhibitAttempts == 1 ==> SentTo(t, acts, ls, slc, Lun, path) && Start(Uninhibit(l), T12) in acts)
         case ForceUninhibit(_) =>
           && m.links == n.links[l := k.(forceAttempts := if k.forceAttempts == 1 then 2 else 0)]
           && (k.forceAttempts == 1 ==> SentTo(t, acts, ls, slc, Lfu, path) && Start(ForceUninhibit(l), T13) in acts)
         case _ => m.links == n.links && (k.inhibited ==> SentTo(t, acts, ls, slc, Lrt, path) && Start(InhibitTest(l), T23) in acts)
  }

  method InhibitionTimerExpired(t: Topology, n: Node, ghost w: World, timer: Timer) returns (m: Node)
    requires timer.Uninhibit? || timer.ForceUninhibit? || timer.InhibitTest?
    requires RanOut(t, n, w, timer)
    ensures Ready(t, m) && Handled(n, m)
    ensures Repeated(t, n, m, m.past.deeds, timer)
  {
    if timer.link >= |n.links| {
      SpuriousExpiry(t, n, w, timer);
      return n;
    }
    match timer {
      case Uninhibit(l) => m := RepeatUninhibit(t, n, w, l);
      case ForceUninhibit(l) => m := RepeatForce(t, n, w, l);
      case InhibitTest(l) => m := TestInhibition(t, n, w, l);
    }
  }

  method RestartExpired(t: Topology, n: Node, ghost w: World, timer: Timer) returns (m: Node)
    requires timer.Restart? || timer.RestartOverall?
    requires RanOut(t, n, w, timer)
    ensures Ready(t, m) && Handled(n, m) && !m.restarting
    ensures if n.restarting then RestartOver(t, n, m, m.past.deeds) else NothingMoved(n, m)
    ensures m.past.world.node.begun == n.past.world.node.begun
  {
    if n.restarting {
      m := EndRestart(t, n, w);
    } else {
      SpuriousExpiry(t, n, w, timer);
      m := n;
    }
  }

  method LinksetTimerExpired(t: Topology, n: Node, ghost w: World, timer: Timer) returns (m: Node)
    requires timer.RestartAllowed? || timer.AdjacentRestart?
    requires RanOut(t, n, w, timer)
    ensures Ready(t, m) && Handled(n, m)
    ensures timer.AdjacentRestart? ==> timer.linkset !in m.adjacentRestarting
    ensures timer.AdjacentRestart? && timer.linkset in n.adjacentRestarting ==>
              && Started(t, n.links, m.links, m.past.deeds, timer.linkset, Diverted(n, timer.linkset)) && SameMarks(n, m)
              && m.restarting == n.restarting && m.adjacentRestarting == n.adjacentRestarting - {timer.linkset}
    ensures timer.RestartAllowed? ==> NothingMoved(n, m) && m.guardedLinksets == n.guardedLinksets - {timer.linkset}
    ensures timer.AdjacentRestart? && timer.linkset !in n.adjacentRestarting ==> NothingMoved(n, m)
  {
    var ls := timer.linkset;
    if timer.RestartAllowed? {
      // A linkset there is none of has no T19 to stop.
      m := n.(guardedLinksets := n.guardedLinksets - {ls});
    } else if ls in n.adjacentRestarting {
      m := EndAdjacentRestart(t, n, w, ls, AdjacentRestartExpired);
    } else {
      SpuriousExpiry(t, n, w, timer);
      m := n;
    }
  }

  /** The isolation lasted: the next link that comes up calls for a restart (section 9.4.1 of ITU-T Q.704). */
  method IsolationExpired(t: Topology, n: Node, ghost w: World) returns (m: Node)
    requires RanOut(t, n, w, Isolation)
    ensures Ready(t, m) && Kept(n, m) && m.links == n.links
    ensures m.restartDue == (n.restartDue || n.isolated)
    ensures NothingMoved(n, m) && m.past.world.node.begun == n.past.world.node.begun
  {
    m := if n.isolated then n.(restartDue := true) else n;
  }
}
