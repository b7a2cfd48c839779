/**
 The management object: the state of a node in the fields of an instance, with the
 constructor, the queries and the one method that takes an event in.
 */
module ManagementObject {
  import opened Options
  import opened RouteChoice
  import opened Signalling
  import opened Observer
  import opened Invariants
  import opened NodeState
  import opened RouteManagement
  import opened Settling
  import opened Events
  import opened Handling

  const Down := Link(false, Closed, false, 0xFFFFFF, false, None, [], 0, 0)

  /** The routes as configured, all allowed. */
  function FreshRoutes(t: Topology): (routes: Routes)
    ensures routes.Keys == t.routes.Keys
    ensures forall d | d in routes :: |routes[d]| == |t.routes[d]|
    ensures forall d, i | d in routes && 0 <= i < |routes[d]| ::
              routes[d][i] == RouteState(t.routes[d][i].via, t.routes[d][i].priority, Allowed)
  {
    map d | d in t.routes :: seq(|t.routes[d]|, i requires 0 <= i < |t.routes[d]| =>
      RouteState(t.routes[d][i].via, t.routes[d][i].priority, Allowed))
  }

  /** The state to begin with. */
  function Fresh(t: Topology): Node {
    Node(seq(|t.links|, _ => Down), {}, {}, {}, {}, {}, seq(t.servers, _ => false), FreshRoutes(t), {}, {}, {}, {}, {}, map[], {},
         false, true, true, 0, [],
         Past([], [Beginning], [], Beginning, {}, {}, {}, {}))
  }

  lemma FreshReachesNothing(t: Topology)
    requires t.Valid() && Shaped(t, Fresh(t))
    ensures ReachedNow(t, Fresh(t)) == {} && RestrictedNow(t, Fresh(t)) == {}
  {
    var n := Fresh(t);
    assert CarryingNow(t, n) == {};
    forall d | d in n.routes
      ensures !Reachable({}, n.servers, false, n.routes[d])
    {
      InUseIffUsable(Grades({}, n.servers, false, n.routes[d]));
    }
  }

  lemma FreshMarks(t: Topology)
    ensures RoutesTested(FreshRoutes(t), {}) && MarksRefine(FreshRoutes(t), map[], map[], {})
  {}

  lemma FreshIsReady(t: Topology)
    requires t.Valid()
    ensures Ready(t, Fresh(t))
  {
    FreshMarks(t);
  }

  /** Nobody can be told anything yet. */
  lemma FreshIsPreventive(t: Topology)
    requires t.Valid() && Shaped(t, Fresh(t))
    ensures Preventive(t, Fresh(t))
  {
    FreshReachesNothing(t);
  }

  lemma FreshIsValid(t: Topology)
    requires t.Valid()
    ensures Valid(t, Fresh(t))
  {
    FreshIsReady(t);
    FreshReachesNothing(t);
    FreshIsPreventive(t);
  }

  class Management {
    const topology: Topology
    const tfpUnknown: bool
    var links: seq<Link>
    var adjacentRestarting: set<LinksetId>
    var traSent: set<LinksetId>
    var traReceived: set<LinksetId>
    var guardedLinksets: set<LinksetId>
    var synced: set<LinksetId>
    var servers: seq<bool>
    var routes: Routes
    var paused: set<PointCode>
    var accessible: set<PointCode>
    var restricted: set<PointCode>
    var told: Pairs
    var holding: set<PointCode>
    var deferred: Deferred
    var guarded: set<PointCode>
    var restarting: bool
    var restartDue: bool
    var isolated: bool
    var nextCode: Byte
    var past: Past

    /** The fields as one value; `out` is empty between events. */
    function State(): Node
      reads this
    {
      Node(links, adjacentRestarting, traSent, traReceived, guardedLinksets, synced, servers, routes, paused, accessible,
           restricted, told, holding, deferred, guarded, restarting, restartDue, isolated, nextCode, [], past)
    }

    ghost predicate Valid()
      reads this
    {
      Handling.Valid(topology, State())
    }

    constructor (t: Topology, tfpForUnknownDestination: bool)
      requires t.Valid()
      ensures Valid() && topology == t && State() == Fresh(t)
    {
      topology, tfpUnknown := t, tfpForUnknownDestination;
      var n := Fresh(t);
      links, adjacentRestarting, traSent, traReceived := n.links, n.adjacentRestarting, n.traSent, n.traReceived;
      guardedLinksets, synced, servers, routes, paused := n.guardedLinksets, n.synced, n.servers, n.routes, n.paused;
      accessible, restricted, told, holding, deferred := n.accessible, n.restricted, n.told, n.holding, n.deferred;
      guarded, restarting, restartDue, isolated, nextCode := n.guarded, n.restarting, n.restartDue, n.isolated, n.nextCode;
      past := n.past;
      FreshIsValid(t);
    }

    method BecomeLinks(n: Node)
      modifies this`links, this`adjacentRestarting, this`traSent, this`traReceived
      ensures links == n.links && adjacentRestarting == n.adjacentRestarting && traSent == n.traSent && traReceived == n.traReceived
    {
      links, adjacentRestarting, traSent, traReceived := n.links, n.adjacentRestarting, n.traSent, n.traReceived;
    }

    method BecomeTold(n: Node)
      modifies this`guardedLinksets, this`synced, this`told
      ensures guardedLinksets == n.guardedLinksets && synced == n.synced && told == n.told
    {
      guardedLinksets, synced, told := n.guardedLinksets, n.synced, n.told;
    }

    method BecomeKnown(n: Node)
      modifies this`servers, this`routes, this`paused, this`accessible, this`restricted
      ensures servers == n.servers && routes == n.routes && paused == n.paused && accessible == n.accessible && restricted == n.restricted
    {
      servers, routes, paused, accessible, restricted := n.servers, n.routes, n.paused, n.accessible, n.restricted;
    }

    method BecomeHeld(n: Node)
      modifies this`holding, this`deferred, this`guarded
      ensures holding == n.holding && deferred == n.deferred && guarded == n.guarded
    {
      holding, deferred, guarded := n.holding, n.deferred, n.guarded;
    }

    method BecomeFlags(n: Node)
      modifies this`restarting, this`restartDue, this`isolated, this`nextCode, this`past
      ensures restarting == n.restarting && restartDue == n.restartDue && isolated == n.isolated && nextCode == n.nextCode && past == n.past
    {
      restarting, restartDue, isolated, nextCode, past := n.restarting, n.restartDue, n.isolated, n.nextCode, n.past;
    }

    method BecomeNetwork(n: Node)
      modifies this`links, this`adjacentRestarting, this`traSent, this`traReceived, this`guardedLinksets, this`synced, this`told
      ensures links == n.links && adjacentRestarting == n.adjacentRestarting && traSent == n.traSent && traReceived == n.traReceived
      ensures guardedLinksets == n.guardedLinksets && synced == n.synced && told == n.told
    {
      BecomeLinks(n);
      BecomeTold(n);
    }

    method Become(n: Node)
      requires n.out == []
      modifies this
      ensures State() == n
    {
      BecomeNetwork(n);
      BecomeKnown(n);
      BecomeHeld(n);
      BecomeFlags(n);
    }

    /** Whether messages for a destination get anywhere. */
    method IsAccessible(d: PointCode) returns (yes: bool)
      requires Valid()
      ensures yes <==> d in ReachedNow(topology, State())
    {
      yes := d in accessible;
    }

    /** Whether a link is available to traffic, be it only once its changeback is over. */
    method Carries(l: LinkId) returns (yes: bool)
      requires Valid()
      ensures yes <==> l < |links| && Available(links[l].phase)
      ensures yes ==> links[l].up && !links[l].inhibited && !restarting
    {
      yes := l < |links| && Available(links[l].phase);
      assert yes ==> LinkOk(links[l], Waiting(topology, adjacentRestarting, restarting, l));
    }

    /** Take an event in; the result is everything that is asked for because of it. */
    method Handle(input: Input) returns (actions: seq<Action>)
      requires Valid()
      modifies this
      ensures Valid()
      ensures past.given == old(past.given) + actions
      ensures past.world.expired == old(past.world.expired) + Expiries(input)
      ensures !input.Unroutable? ==> Settled(topology, State())
      ensures TakenIn(topology, old(State()), State(), Deeds(actions), input) && OthersKept(old(State()), State(), input)
      ensures input.Unroutable? || (input.Received? && input.message.Lin?) ==> past.world.flips == old(past.world.flips)
      ensures input.Timeout? ==> ReleasedInTime(old(State()), State(), input.timer)
      ensures input.Unroutable? && input.link < |topology.links| ==>
                var ls := topology.links[input.link].linkset;
                actions == if Answered(topology, old(State()), tfpUnknown, input.dpc, ls)
                           then [Send(topology.linksets[ls].adjacent.value, 0, Tfp(input.dpc), Adjacent(ls, None)), Start(Prohibiting(input.dpc), T8)]
                           else []
      ensures NothingAsked(topology, old(State()), input) && old(Settled(topology, State())) ==> actions == []
    {
      var m;
      if input.Unroutable? && input.link < |links| {
        m, actions := HandleUnroutable(topology, State(), tfpUnknown, input.dpc, input.link);
      } else {
        m, actions := HandleEvent(topology, State(), input);
      }
      Become(m);
    }
  }
}
