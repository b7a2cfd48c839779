/**
 The data of signalling network management: the domain as configured, the
 events reported to it, the actions it asks for and the state it keeps.
 */
module Signalling {
  import opened Options
  import opened RouteChoice

  type LinkId = nat
  type LinksetId = nat
  type PointCode = nat

  /** A 14-bit point code, as messages carry it. */
  type ItuCode = d: nat | d < 0x4000

  // ── The domain ─────────────────────────────────────────────────────────────

  datatype Via = ViaLinkset(linkset: LinksetId) | ViaServer(index: nat)

  datatype LinksetSpec = LinksetSpec(adjacent: Option<PointCode>, links: seq<LinkId>)

  ghost predicate InRange(routes: seq<RouteSpec>, linksets: nat) {
    forall i | 0 <= i < |routes| && routes[i].via.ViaLinkset? :: routes[i].via.linkset < linksets
  }

  ghost predicate NoRepeats(links: seq<LinkId>) {
    forall i, j | 0 <= i < j < |links| :: links[i] != links[j]
  }

  datatype LinkSpec = LinkSpec(linkset: LinksetId, slc: Byte)

  datatype RouteSpec = RouteSpec(via: Via, priority: Byte)

  /** `dpcs` lists the keys of `routes` in the order they are visited. */
  datatype Topology = Topology(
    ownPc: PointCode,
    linksets: seq<LinksetSpec>,
    links: seq<LinkSpec>,
    servers: nat,
    dpcs: seq<PointCode>,
    routes: map<PointCode, seq<RouteSpec>>)
  {
    /** What building a domain from a configuration guarantees. */
    ghost predicate Valid() {
      && (forall l | 0 <= l < |links| :: links[l].linkset < |linksets| && l in linksets[links[l].linkset].links)
      && (forall ls: nat | ls < |linksets| :: forall l | l in linksets[ls].links :: l < |links| && links[l].linkset == ls)
      && (forall ls: nat | ls < |linksets| :: NoRepeats(linksets[ls].links))
      && (forall d :: d in routes <==> d in dpcs)
      && (forall d | d in routes :: InRange(routes[d], |linksets|))
    }
  }

  // ── Timers and messages ────────────────────────────────────────────────────

  /** The timers of section 16.8 of ITU-T Q.704 that run here, by their numbers. */
  datatype Delay = T1 | T2 | T3 | T4 | T5 | T6 | T8 | T10 | T12 | T13 | T18 | T19 | T20 | T21 | T23

  datatype Timer =
    | Changeover(link: LinkId)
    | Changeback(link: LinkId)
    | Rerouting(dpc: PointCode)
    | Prohibiting(dpc: PointCode)
    | RouteSetTest(dpc: PointCode, linkset: LinksetId)
    | Uninhibit(link: LinkId)
    | ForceUninhibit(link: LinkId)
    | Restart
    | RestartAllowed(linkset: LinksetId)
    | RestartOverall
    | AdjacentRestart(linkset: LinksetId)
    | InhibitTest(link: LinkId)
    | Isolation

  datatype Message =
    | Tfp(destination: ItuCode) | Tfr(destination: ItuCode) | Tfa(destination: ItuCode)
    | Rst(destination: ItuCode) | Rsr(destination: ItuCode)
    | Tra
    | Cbd(code: Byte) | Cba(code: Byte)
    | Xco(fsn: nat) | Coo(fsn: nat) | Eco
    | Xca(fsn: nat) | Coa(fsn: nat) | Eca
    | Lin | Lun | Lia | Lua | Lid | Lfu | Llt | Lrt
    | Dlc | Css | Cns | Cnp
    | Tfc(destination: ItuCode, status: Byte) | Upu | Rct

  // ── Inputs ─────────────────────────────────────────────────────────────────

  datatype Input =
    | LinkUp(link: LinkId)
    | LinkDown(link: LinkId, bsnt: nat)
    | Received(link: LinkId, opc: PointCode, slc: Byte, message: Message)
    | Timeout(timer: Timer)
    | Unroutable(dpc: PointCode, link: LinkId)
    | Server(index: nat, up: bool)
    | Paused(dpc: PointCode, paused: bool)

  // ── Actions ────────────────────────────────────────────────────────────────

  datatype Path =
    | OnLink(link: LinkId)
    | Behind(link: LinkId)
    | Adjacent(linkset: LinksetId, avoid: Option<LinkId>)

  datatype Procedure =
    | ChangeoverAcknowledged | ChangeoverEmergency | ChangeoverUnacknowledged | ChangeoverTimeControlled
    | ChangebackAcknowledged | ChangebackUnacknowledged | ChangebackTimeControlled
    | ForcedRerouting | ControlledRerouting
    | RestartBegun | RestartEnded
    | AdjacentRestartBegun | AdjacentRestartEnded | AdjacentRestartExpired
    | LinkInhibited | LinkInhibitDenied | LinkUninhibited | UninhibitAbandoned

  datatype Subject = TheNode | ALink(link: LinkId) | ALinkset(linkset: LinksetId) | ADestination(dpc: PointCode)

  datatype Action =
    | Send(dpc: PointCode, slc: Byte, message: Message, path: Path)
    | Start(timer: Timer, delay: Delay)
    | Stop(timer: Timer)
    | Hold(link: LinkId)
    | Divert(link: LinkId, fsnc: Option<nat>)
    | Open(link: LinkId)
    | Fail(link: LinkId)
    | Route(dpc: PointCode, linkset: LinksetId, status: RouteStatus)
    | HoldDestination(dpc: PointCode)
    | ReleaseDestination(dpc: PointCode)
    | Accessibility(dpc: PointCode, accessible: bool)
    | RestrictedTo(dpc: PointCode, restricted: bool)
    | Restarting(running: bool)
    | Congestion(dpc: PointCode, level: Byte)
    | Note(procedure: Procedure, subject: Subject)
    | Ignored(message: Message)

  // ── State ──────────────────────────────────────────────────────────────────

  datatype Phase =
    | Closed
    | Carrying
    | ChangeoverOrdered
    | ChangeoverTimed
    | ChangebackDeclared(second: bool)
    | ChangebackTimed
    | AwaitRestart

  datatype Ordered = Ordered(fsnc: Option<nat>, emergency: bool)

  datatype Link = Link(
    up: bool,
    phase: Phase,
    inhibited: bool,
    bsnt: nat,
    back: bool,
    ordered: Option<Ordered>,
    declared: seq<(Byte, LinkId)>,
    uninhibitAttempts: nat,
    forceAttempts: nat)

  datatype RouteState = RouteState(via: Via, priority: Byte, status: RouteStatus)

  /**
   What is kept of the destinations, each field by destination point code: the
   routes, the destinations that are paused, accessible, accessible only by
   restricted routes, which adjacent points were last told transfer-prohibited,
   the destinations whose traffic is held, and the route marks to apply then.
   */
  type Routes = map<PointCode, seq<RouteState>>
  type Pairs = set<(LinksetId, PointCode)>
  type Deferred = map<PointCode, seq<Action>>

  // ── Phases ─────────────────────────────────────────────────────────────────

  predicate Available(p: Phase) { p.Carrying? || p.ChangebackDeclared? || p.ChangebackTimed? }

  predicate ChangingOver(p: Phase) { p.ChangeoverOrdered? || p.ChangeoverTimed? }

  predicate ChangingBack(p: Phase) { p.ChangebackDeclared? || p.ChangebackTimed? }

  // ── Availability ───────────────────────────────────────────────────────────

  /** The linksets with a link that carries traffic, leaving `without` out. */
  function CarryingLinksets(t: Topology, links: seq<Link>, without: Option<LinkId>): (c: set<LinksetId>)
    requires t.Valid() && |links| == |t.links|
  {
    set ls | 0 <= ls < |t.linksets| && LinksetAvailable(t, links, without, ls)
  }

  predicate LinksetAvailable(t: Topology, links: seq<Link>, without: Option<LinkId>, ls: LinksetId)
    requires t.Valid() && |links| == |t.links| && ls < |t.linksets|
  {
    exists l :: l in t.linksets[ls].links && LinkAvailable(links, without, l)
  }

  predicate LinkAvailable(links: seq<Link>, without: Option<LinkId>, l: LinkId)
    requires l < |links|
  {
    without != Some(l) && Available(links[l].phase)
  }

  /** The linkset can pass management messages: one of its links is in service. */
  predicate LinksetSignalling(t: Topology, links: seq<Link>, ls: LinksetId)
    requires t.Valid() && |links| == |t.links| && ls < |t.linksets|
  {
    exists l :: l in t.linksets[ls].links && links[l].up
  }

  function UsableRoute(carrying: set<LinksetId>, servers: seq<bool>, paused: bool, r: RouteState): Usable {
    if paused then No
    else match r.via
      case ViaServer(index) => if index < |servers| && servers[index] then Yes else No
      case ViaLinkset(ls) =>
        if ls !in carrying then No
        else match r.status
          case Allowed => Yes
          case Restricted => Limited
          case Prohibited => No
  }

  function Grades(carrying: set<LinksetId>, servers: seq<bool>, paused: bool, routes: seq<RouteState>): (g: seq<Grade>)
    ensures |g| == |routes|
    ensures forall i | 0 <= i < |routes| ::
              g[i] == Grade(routes[i].priority, UsableRoute(carrying, servers, paused, routes[i]))
  {
    seq(|routes|, i requires 0 <= i < |routes| =>
      Grade(routes[i].priority, UsableRoute(carrying, servers, paused, routes[i])))
  }

  /** Which routes to a destination some message takes, as far as management knows. */
  function InUse(carrying: set<LinksetId>, servers: seq<bool>, paused: bool, routes: seq<RouteState>): (used: seq<nat>)
    ensures forall i | i in used :: i < |routes|
  {
    RoutesInUse(Grades(carrying, servers, paused, routes))
  }

  predicate Reachable(carrying: set<LinksetId>, servers: seq<bool>, paused: bool, routes: seq<RouteState>) {
    InUse(carrying, servers, paused, routes) != []
  }

  /** Reached, and by restricted routes alone (section 13.4 of ITU-T Q.704). */
  predicate OnlyRestricted(carrying: set<LinksetId>, servers: seq<bool>, paused: bool, routes: seq<RouteState>) {
    var used := InUse(carrying, servers, paused, routes);
    used != [] && forall i | i in used :: UsableRoute(carrying, servers, paused, routes[i]) == Limited
  }

  /** Some route in use goes through this linkset. */
  predicate RoutedThrough(carrying: set<LinksetId>, servers: seq<bool>, paused: bool, routes: seq<RouteState>, ls: LinksetId) {
    exists i :: i in InUse(carrying, servers, paused, routes) && routes[i].via == ViaLinkset(ls)
  }

  /** The destinations that can be reached. */
  function ReachedSet(carrying: set<LinksetId>, servers: seq<bool>, paused: set<PointCode>, routes: Routes): set<PointCode> {
    set d | d in routes && Reachable(carrying, servers, d in paused, routes[d])
  }

  function RestrictedSet(carrying: set<LinksetId>, servers: seq<bool>, paused: set<PointCode>, routes: Routes): set<PointCode> {
    set d | d in routes && OnlyRestricted(carrying, servers, d in paused, routes[d])
  }

  function ThroughSet(carrying: set<LinksetId>, servers: seq<bool>, paused: set<PointCode>, routes: Routes, ls: LinksetId): set<PointCode> {
    set d | d in routes && RoutedThrough(carrying, servers, d in paused, routes[d], ls)
  }

  /** What the adjacent point of `ls` should believe prohibited (section 13.2.2 i and ii of ITU-T Q.704). */
  function ProhibitedSet(carrying: set<LinksetId>, servers: seq<bool>, paused: set<PointCode>, routes: Routes, ls: LinksetId): set<PointCode> {
    routes.Keys - ReachedSet(carrying, servers, paused, routes) + ThroughSet(carrying, servers, paused, routes, ls)
  }

  /** What every adjacent point should believe prohibited, by linkset. */
  function Plan(t: Topology, carrying: set<LinksetId>, servers: seq<bool>, paused: set<PointCode>, routes: Routes): (plan: seq<set<PointCode>>)
    ensures |plan| == |t.linksets|
  {
    seq(|t.linksets|, ls requires 0 <= ls < |t.linksets| => ProhibitedSet(carrying, servers, paused, routes, ls))
  }

  /** There is a way to the adjacent point of a linkset, directly or round about. */
  predicate CanTell(t: Topology, links: seq<Link>, reached: set<PointCode>, ls: LinksetId)
    requires t.Valid() && |links| == |t.links| && ls < |t.linksets|
  {
    || LinksetSignalling(t, links, ls)
    || (t.linksets[ls].adjacent.Some? && t.linksets[ls].adjacent.value in reached)
  }

  /** A message about a destination exists only for a 14-bit point code. */
  predicate Sayable(d: PointCode) { d < 0x4000 }

  // ── The status of a route ──────────────────────────────────────────────────

  /** The first route through a linkset: the one its adjacent point's messages mark. */
  function FirstVia(routes: seq<RouteState>, ls: LinksetId): (p: Option<nat>)
    ensures p.Some? ==> p.value < |routes| && routes[p.value].via == ViaLinkset(ls)
    ensures p.Some? ==> forall i | 0 <= i < p.value :: routes[i].via != ViaLinkset(ls)
    ensures p.None? ==> forall i | 0 <= i < |routes| :: routes[i].via != ViaLinkset(ls)
  {
    FirstViaFrom(routes, ls, 0)
  }

  function FirstViaFrom(routes: seq<RouteState>, ls: LinksetId, from: nat): (p: Option<nat>)
    requires from <= |routes|
    requires forall i | 0 <= i < from :: routes[i].via != ViaLinkset(ls)
    ensures p.Some? ==> p.value < |routes| && routes[p.value].via == ViaLinkset(ls)
    ensures p.Some? ==> forall i | 0 <= i < p.value :: routes[i].via != ViaLinkset(ls)
    ensures p.None? ==> forall i | 0 <= i < |routes| :: routes[i].via != ViaLinkset(ls)
    decreases |routes| - from
  {
    if from == |routes| then None
    else if routes[from].via == ViaLinkset(ls) then Some(from)
    else FirstViaFrom(routes, ls, from + 1)
  }

  function StatusVia(routes: seq<RouteState>, ls: LinksetId): RouteStatus {
    match FirstVia(routes, ls)
    case Some(p) => routes[p].status
    case None => Allowed
  }

  /** The routes of a destination are those of the configuration. */
  ghost predicate AsConfigured(specs: seq<RouteSpec>, routes: seq<RouteState>) {
    |specs| == |routes| && forall i | 0 <= i < |specs| :: routes[i].via == specs[i].via && routes[i].priority == specs[i].priority
  }

  ghost predicate Configured(t: Topology, routes: Routes) {
    routes.Keys == t.routes.Keys && forall d | d in t.routes :: AsConfigured(t.routes[d], routes[d])
  }

  /** Only the first route through a linkset is ever marked. */
  ghost predicate MarkedFirstOnly(routes: seq<RouteState>) {
    forall i, j | 0 <= i < j < |routes| && routes[i].via.ViaLinkset? && routes[i].via == routes[j].via ::
      routes[j].status == Allowed
  }
}
