/**
 The state of signalling network management, its past, and the invariant that
 ties the two together throughout the handling of an event.
 */
module NodeState {
  import opened Options
  import opened RouteChoice
  import opened Signalling
  import opened Observer
  import opened Invariants

  /**
   The log of the node, the surroundings before, between and after its entries,
   the actions handed out with earlier events, and the present surroundings.
   `stale` holds the routes that were allowed again while a mark for them was
   deferred, until they are marked anew. `loose` holds the links that are being
   moved, and `exempt` the linksets whose last link may just have gone down. `deeds`
   holds what was asked for with the present event.
   */
  datatype Past = Past(
    log: seq<Event>,
    trace: seq<World>,
    given: seq<Action>,
    world: World,
    stale: set<(PointCode, LinksetId)>,
    loose: set<LinkId>,
    exempt: set<LinksetId>,
    deeds: set<Action>)

  /** The fields of the management object; per-linkset and per-destination flags are sets. */
  datatype Node = Node(
    links: seq<Link>,
    adjacentRestarting: set<LinksetId>,
    traSent: set<LinksetId>,
    traReceived: set<LinksetId>,
    guardedLinksets: set<LinksetId>,
    synced: set<LinksetId>,
    servers: seq<bool>,
    routes: Routes,
    paused: set<PointCode>,
    accessible: set<PointCode>,
    restricted: set<PointCode>,
    told: Pairs,
    holding: set<PointCode>,
    deferred: Deferred,
    guarded: set<PointCode>,
    restarting: bool,
    restartDue: bool,
    isolated: bool,
    nextCode: Byte,
    out: seq<Action>,
    past: Past)

  /** The log led to the present surroundings, every action in it was legal, and it holds all that was asked for. */
  ghost predicate Recorded(t: Topology, n: Node) {
    && Traces(t, n.past.log, n.past.trace)
    && n.past.trace[|n.past.log|] == n.past.world
    && n.past.world.sound
    && n.past.world.asked == n.past.given + n.out
    && n.past.deeds == Deeds(n.out)
  }

  /** The actions of a list. */
  function Deeds(actions: seq<Action>): set<Action> { set a | a in actions }

  lemma OneMoreDeed(actions: seq<Action>, a: Action)
    ensures Deeds(actions + [a]) == Deeds(actions) + {a}
  {}

  ghost predicate Shaped(t: Topology, n: Node) {
    && t.Valid()
    && |n.links| == |t.links|
    && Configured(t, n.routes)
    && n.accessible <= t.routes.Keys && n.restricted <= t.routes.Keys
  }

  /** The invariants of the routes and the marks on them. */
  ghost predicate RoutesRight(n: Node) {
    && HoldsTimed(n.holding, n.deferred, n.past.world.dests)
    && RoutesTested(n.routes, n.past.world.tests)
    && MarksRefine(n.routes, n.deferred, n.past.world.marks, n.past.stale)
  }

  /** As `Core`, with the timers as they were before one of them expired, in the surroundings `w`. */
  ghost predicate CoreAs(t: Topology, n: Node, w: World) {
    && Recorded(t, n)
    && Shaped(t, n)
    && LinksOk(t, n.links, n.adjacentRestarting, n.restarting, n.past.loose)
    && LinksetsOk(t, n.links, n.adjacentRestarting, n.restarting, n.past.exempt)
    && LinksTimed(n.links, w.links)
    && w.linksets == LinksetView(n.adjacentRestarting, n.guardedLinksets)
    && HoldsTimed(n.holding, n.deferred, w.dests)
    && RoutesTested(n.routes, w.tests)
    && MarksRefine(n.routes, n.deferred, w.marks, n.past.stale)
    && ToldIsBelieved(t.routes.Keys, n.told, w.believes)
    && w.accessible == n.accessible && w.limited == n.restricted <= n.accessible
    && w.guards == n.guarded
    && w.node.restart == w.node.restartOverall == n.restarting
  }

  /** What holds throughout the handling of an event. */
  ghost predicate Core(t: Topology, n: Node) {
    && Recorded(t, n)
    && Shaped(t, n)
    && LinksOk(t, n.links, n.adjacentRestarting, n.restarting, n.past.loose)
    && LinksetsOk(t, n.links, n.adjacentRestarting, n.restarting, n.past.exempt)
    && LinksTimed(n.links, n.past.world.links)
    && n.past.world.linksets == LinksetView(n.adjacentRestarting, n.guardedLinksets)
    && RoutesRight(n)
    && ToldIsBelieved(t.routes.Keys, n.told, n.past.world.believes)
    && n.past.world.accessible == n.accessible && n.past.world.limited == n.restricted <= n.accessible
    && n.past.world.guards == n.guarded
    && n.past.world.node.restart == n.past.world.node.restartOverall == n.restarting
  }

  // ── What is ────────────────────────────────────────────────────────────────

  function CarryingNow(t: Topology, n: Node): set<LinksetId>
    requires Shaped(t, n)
  {
    CarryingLinksets(t, n.links, None)
  }

  /** How traffic is routed at the moment. */
  function TrafficNow(t: Topology, n: Node): Traffic
    requires Shaped(t, n)
  {
    Traffic(CarryingNow(t, n), n.servers, n.paused, n.routes)
  }

  function ReachedNow(t: Topology, n: Node): set<PointCode>
    requires Shaped(t, n)
  {
    ReachedSet(CarryingNow(t, n), n.servers, n.paused, n.routes)
  }

  function RestrictedNow(t: Topology, n: Node): set<PointCode>
    requires Shaped(t, n)
  {
    RestrictedSet(CarryingNow(t, n), n.servers, n.paused, n.routes)
  }

  /** What every adjacent point should believe prohibited. */
  function ToTell(t: Topology, n: Node): (plan: seq<set<PointCode>>)
    requires Shaped(t, n)
    ensures |plan| == |t.linksets|
  {
    Plan(t, CarryingNow(t, n), n.servers, n.paused, n.routes)
  }

  /** Accessibility is known, and nothing is left to say to any adjacent point. */
  ghost predicate Settled(t: Topology, n: Node)
    requires Shaped(t, n)
  {
    && n.accessible == ReachedNow(t, n)
    && n.restricted == RestrictedNow(t, n)
    && (!n.restarting ==> AllTidy(t, n.links, ReachedNow(t, n), n.synced, n.told, ToTell(t, n)))
  }

  /** `n` with the log of `m` and the surroundings `w`. */
  ghost function Logged(n: Node, m: Node, w: World): Node {
    n.(out := m.out,
       past := n.past.(log := m.past.log, trace := m.past.trace, deeds := m.past.deeds, world := w.(asked := m.past.world.asked)))
  }

  /** `m` is `n` with more in its log and the surroundings `w`; what was asked for with the event stays asked for. */
  ghost predicate Logs(n: Node, m: Node, w: World) { m == Logged(n, m, w) && n.past.deeds <= m.past.deeds }

  // ── Actions, by what they change in the surroundings ───────────────────────

  /** Enter an action or a happening into the log. */
  method Record(t: Topology, n: Node, e: Event) returns (past: Past)
    requires Recorded(t, n)
    ensures Traces(t, past.log, past.trace) && past.trace[|past.log|] == past.world
    ensures past.log == n.past.log + [e]
    ensures past == n.past.(log := past.log, trace := past.trace, world := past.world)
    ensures past.world == Observe(t, n.past.world, e)
  {
    TraceOneMore(t, n.past.log, n.past.trace, e);
    var w := Observe(t, n.past.world, e);
    past := n.past.(log := n.past.log + [e], trace := n.past.trace + [w], world := w);
  }

  method Emit(t: Topology, n: Node, a: Action, traffic: Option<Traffic>) returns (m: Node)
    requires Recorded(t, n) && Legal(t, n.past.world, a, traffic)
    ensures Recorded(t, m)
    ensures m.out == n.out + [a] && m.past.log == n.past.log + [Did(a, traffic)] && m.past.deeds == n.past.deeds + {a}
    ensures Logs(n, m, After(n.past.world, a))
  {
    var past := Record(t, n, Did(a, traffic));
    m := n.(out := n.out + [a], past := past.(deeds := past.deeds + {a}));
    OneMoreDeed(n.out, a);
    assert n.past.given + m.out == (n.past.given + n.out) + [a];
  }

  /** An action that changes nothing the surroundings keep track of. */
  method Say(t: Topology, n: Node, a: Action) returns (m: Node)
    requires Recorded(t, n)
    requires a.Note? || a.Ignored? || a.Fail? || a.Congestion?
             || (a.Send? && !a.message.Tfp? && !a.message.Tfa?)
    ensures Recorded(t, m)
    ensures Logs(n, m, n.past.world)
    ensures a in m.past.deeds
  {
    m := Emit(t, n, a, None);
  }

  /** The adjacent point of a linkset, where it is known, is sent this. */
  ghost predicate SentTo(t: Topology, acts: set<Action>, ls: LinksetId, slc: Byte, message: Message, path: Path)
    requires ls < |t.linksets|
  {
    t.linksets[ls].adjacent.Some? ==> Send(t.linksets[ls].adjacent.value, slc, message, path) in acts
  }

  /** Send something to an adjacent point, other than that a destination is prohibited or allowed. */
  method SendTo(t: Topology, n: Node, ls: LinksetId, slc: Byte, message: Message, path: Path) returns (m: Node)
    requires Recorded(t, n) && ls < |t.linksets|
    requires !message.Tfp? && !message.Tfa?
    ensures Recorded(t, m)
    ensures Logs(n, m, n.past.world)
    ensures SentTo(t, m.past.deeds, ls, slc, message, path)
  {
    m := n;
    if t.linksets[ls].adjacent.Some? {
      m := Say(t, n, Send(t.linksets[ls].adjacent.value, slc, message, path));
    }
  }

  method LinkTimer(t: Topology, n: Node, timer: Timer, on: Option<Delay>) returns (m: Node)
    requires Recorded(t, n) && OfLink(timer)
    ensures Recorded(t, m)
    ensures Logs(n, m, n.past.world.(links := SetLinkTimer(n.past.world.links, timer, on.Some?)))
    ensures TimerAction(timer, on) in m.past.deeds
  {
    m := Emit(t, n, TimerAction(timer, on), None);
  }

  method LinksetTimer(t: Topology, n: Node, timer: Timer, on: Option<Delay>) returns (m: Node)
    requires Recorded(t, n) && OfLinkset(timer)
    ensures Recorded(t, m)
    ensures Logs(n, m, n.past.world.(linksets := SetLinksetTimer(n.past.world.linksets, timer, on.Some?)))
    ensures TimerAction(timer, on) in m.past.deeds
  {
    m := Emit(t, n, TimerAction(timer, on), None);
  }

  method NodeTimer(t: Topology, n: Node, timer: Timer, on: Option<Delay>) returns (m: Node)
    requires Recorded(t, n) && OfNode(timer)
    ensures Recorded(t, m)
    ensures Logs(n, m, n.past.world.(node := SetNodeTimer(n.past.world.node, timer, on.Some?)))
    ensures TimerAction(timer, on) in m.past.deeds
  {
    m := Emit(t, n, TimerAction(timer, on), None);
  }

  method TestTimer(t: Topology, n: Node, d: PointCode, ls: LinksetId, on: Option<Delay>) returns (m: Node)
    requires Recorded(t, n)
    ensures Recorded(t, m)
    ensures Logs(n, m, n.past.world.(tests := Put(n.past.world.tests, (d, ls), on.Some?)))
    ensures TimerAction(RouteSetTest(d, ls), on) in m.past.deeds
  {
    m := Emit(t, n, TimerAction(RouteSetTest(d, ls), on), None);
  }

  method ReroutingTimer(t: Topology, n: Node, d: PointCode, on: Option<Delay>) returns (m: Node)
    requires Recorded(t, n)
    ensures Recorded(t, m)
    ensures Logs(n, m, n.past.world.(dests := n.past.world.dests.(rerouting := Put(n.past.world.dests.rerouting, d, on.Some?))))
    ensures TimerAction(Rerouting(d), on) in m.past.deeds
  {
    m := Emit(t, n, TimerAction(Rerouting(d), on), None);
  }

  method BufferLink(t: Topology, n: Node, l: LinkId) returns (m: Node)
    requires Recorded(t, n)
    ensures Recorded(t, m)
    ensures Logs(n, m, n.past.world.(links := n.past.world.links.(held := n.past.world.links.held + {l})))
    ensures Hold(l) in m.past.deeds
  {
    m := Emit(t, n, Hold(l), None);
  }

  method DivertLink(t: Topology, n: Node, l: LinkId, fsnc: Option<nat>) returns (m: Node)
    requires Recorded(t, n) && l in n.past.world.links.held
    ensures Recorded(t, m)
    ensures Logs(n, m, n.past.world.(links := Freed(n.past.world.links, l), released := n.past.world.released + multiset{l}))
    ensures Divert(l, fsnc) in m.past.deeds
  {
    m := Emit(t, n, Divert(l, fsnc), None);
  }

  /** Open a link, recording how traffic is routed. */
  method OpenLink(t: Topology, n: Node, l: LinkId) returns (m: Node)
    requires Recorded(t, n) && Shaped(t, n) && l < |t.links|
    requires Prevented(t, n.past.world.believes, t.links[l].linkset, ThroughIn(TrafficNow(t, n), t.links[l].linkset))
    ensures Recorded(t, m)
    ensures Logs(n, m, n.past.world.(links := Freed(n.past.world.links, l), released := n.past.world.released + multiset{l}))
    ensures m.past.log == n.past.log + [Did(Open(l), Some(TrafficNow(t, n)))]
    ensures Open(l) in m.past.deeds
  {
    m := Emit(t, n, Open(l), Some(TrafficNow(t, n)));
  }

  method MarkRoute(t: Topology, n: Node, d: PointCode, ls: LinksetId, status: RouteStatus) returns (m: Node)
    requires Recorded(t, n)
    ensures Recorded(t, m)
    ensures Logs(n, m, n.past.world.(marks := n.past.world.marks[(d, ls) := status]))
    ensures Route(d, ls, status) in m.past.deeds
  {
    m := Emit(t, n, Route(d, ls, status), None);
  }

  method BufferDestination(t: Topology, n: Node, d: PointCode, hold: bool) returns (m: Node)
    requires Recorded(t, n) && (hold <==> d !in n.past.world.dests.held)
    ensures Recorded(t, m)
    ensures Logs(n, m, n.past.world.(dests := n.past.world.dests.(held := Put(n.past.world.dests.held, d, hold))))
  {
    m := Emit(t, n, if hold then HoldDestination(d) else ReleaseDestination(d), None);
  }

  method Announce(t: Topology, n: Node, d: PointCode, reached: bool) returns (m: Node)
    requires Recorded(t, n) && reached != (d in n.past.world.accessible)
    ensures Recorded(t, m)
    ensures Logs(n, m, n.past.world.(accessible := Put(n.past.world.accessible, d, reached),
                                     limited := if reached then n.past.world.limited else n.past.world.limited - {d},
                                     flips := n.past.world.flips + 1))
  {
    m := Emit(t, n, Accessibility(d, reached), None);
  }

  method AnnounceLimit(t: Topology, n: Node, d: PointCode, limited: bool) returns (m: Node)
    requires Recorded(t, n)
    ensures Recorded(t, m)
    ensures Logs(n, m, n.past.world.(limited := Put(n.past.world.limited, d, limited)))
  {
    m := Emit(t, n, RestrictedTo(d, limited), None);
  }

  method AnnounceRestart(t: Topology, n: Node, running: bool) returns (m: Node)
    requires Recorded(t, n) && running != n.past.world.node.restarting
    ensures Recorded(t, m)
    ensures Logs(n, m, n.past.world.(node := n.past.world.node.(restarting := running,
                                                               begun := n.past.world.node.begun + if running then 1 else 0)))
    ensures Restarting(running) in m.past.deeds
  {
    m := Emit(t, n, Restarting(running), None);
  }

  /** Tell the adjacent point of a linkset that a destination is prohibited, or allowed. */
  method TellAbout(t: Topology, n: Node, ls: LinksetId, d: PointCode, prohibited: bool) returns (m: Node)
    requires Recorded(t, n) && ls < |t.linksets| && t.linksets[ls].adjacent.Some? && Sayable(d)
    ensures Recorded(t, m)
    ensures Logs(n, m, n.past.world.(believes := Put(n.past.world.believes, (ls, d), prohibited)))
    ensures m.out == n.out + [Send(t.linksets[ls].adjacent.value, 0, if prohibited then Tfp(d) else Tfa(d), Adjacent(ls, None))]
    ensures Send(t.linksets[ls].adjacent.value, 0, if prohibited then Tfp(d) else Tfa(d), Adjacent(ls, None)) in m.past.deeds
  {
    var message := if prohibited then Tfp(d) else Tfa(d);
    m := Emit(t, n, Send(t.linksets[ls].adjacent.value, 0, message, Adjacent(ls, None)), None);
  }

  /** T8 starts concerning a destination. */
  method Guard(t: Topology, n: Node, d: PointCode) returns (m: Node)
    requires Recorded(t, n)
    ensures Recorded(t, m)
    ensures Logs(n.(guarded := n.guarded + {d}), m, n.past.world.(guards := n.past.world.guards + {d}))
    ensures m.out == n.out + [Start(Prohibiting(d), T8)]
    ensures Start(Prohibiting(d), T8) in m.past.deeds
  {
    m := Emit(t, n.(guarded := n.guarded + {d}), Start(Prohibiting(d), T8), None);
  }
}
