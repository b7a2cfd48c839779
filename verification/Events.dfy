/** What one event leads to, before what is said to the adjacent points is settled. */
module Events {
  import opened Options
  import opened RouteChoice
  import opened Signalling
  import opened Observer
  import opened Invariants
  import opened NodeState
  import opened LinkFacts
  import opened RouteManagement
  import opened Links
  import opened Inhibiting
  import opened RestartProcedure

  /** No link is being moved, and the restart that runs, if one does, was announced. */
  ghost predicate Ready(t: Topology, n: Node) {
    Core(t, n) && n.past.loose == {} && n.past.exempt == {} && n.past.world.node.restarting == n.restarting
  }

  /** Every adjacent point that can be told was told of all that is prohibited. */
  ghost predicate Preventive(t: Topology, n: Node)
    requires Shaped(t, n)
  {
    !n.restarting ==> AllWarned(t, n.links, ReachedNow(t, n), n.told, ToTell(t, n))
  }

  /** What no message and hardly a timer changes. */
  ghost predicate Handled(n: Node, m: Node) {
    Kept(n, m) && m.restartDue == n.restartDue && m.past.world.node.begun == n.past.world.node.begun
  }

  /** Links, routes and marks are as they were. */
  ghost predicate NothingMoved(n: Node, m: Node) {
    m.links == n.links && SameMarks(n, m) && m.restarting == n.restarting && m.adjacentRestarting == n.adjacentRestarting
  }

  // ── Level 2 ────────────────────────────────────────────────────────────────

  /** The next link that comes up begins a restart. */
  predicate Due(n: Node) { n.restartDue && n.isolated && !n.restarting }

  /** A restart that is due begins with the first link; a link beside others that serve makes none due (section 9.4). */
  method RestartIfDue(t: Topology, n: Node) returns (m: Node)
    requires Ready(t, n) && (n.isolated ==> forall l | 0 <= l < |n.links| :: !n.links[l].up)
    ensures Ready(t, m) && Kept(n, m) && m.links == n.links && m.adjacentRestarting == n.adjacentRestarting
    ensures m.restarting <==> n.restarting || Due(n)
    ensures m.restartDue <==> n.restartDue && n.restarting && n.isolated
    ensures m.past.world.node.begun == n.past.world.node.begun + if Due(n) then 1 else 0
    ensures Due(n) ==>
              && RestartAnnounced(m.past.deeds) && AllowedThrough(m.routes, |t.linksets|) && m.traReceived == {}
              && m.holding == n.holding && m.deferred == n.deferred
    ensures !Due(n) ==> m == n.(restartDue := m.restartDue)
  {
    m := n;
    if n.restartDue && !n.restarting && n.isolated {
      m := BeginRestart(t, n);
    }
    if !n.isolated {
      m := m.(restartDue := false);
    }
  }

  /** The links once one came up in a node that restarts: it waits, unless it is inhibited or still changes over. */
  ghost function WaitingUp(n: Node, l: LinkId): seq<Link>
    requires l < |n.links|
  {
    var k := Raised(n, l).links[l];
    n.links[l := if k.phase == Closed && !k.inhibited then k.(phase := AwaitRestart) else k]
  }

  /** The restart goes on with one link more, or ends with it. */
  ghost predicate RestartGoesOn(t: Topology, links: seq<Link>, traReceived: set<LinksetId>, m: Node, acts: set<Action>)
    requires t.Valid() && |links| == |t.links|
  {
    if CompleteWith(t, links, traReceived) then
      && m.links == Released(links) && !m.restarting && Restarting(false) in acts
      && forall l: nat | l < |links| && links[l].phase == AwaitRestart :: Open(l) in acts
    else m.links == links && m.restarting
  }

  /** All that follows when a link comes up. */
  ghost predicate LinkTaken(t: Topology, n: Node, m: Node, acts: set<Action>, l: LinkId)
    requires Shaped(t, n) && l < |n.links|
  {
    if n.restarting then RestartGoesOn(t, WaitingUp(n, l), n.traReceived, m, acts) && SameMarks(n, m)
    else if Due(n) then
      && RestartAnnounced(acts) && AllowedThrough(m.routes, |t.linksets|) && m.holding == n.holding && m.deferred == n.deferred
      && RestartGoesOn(t, WaitingUp(n, l), {}, m, acts)
    else !m.restarting && CameBack(t, n, m, acts, l)
  }

  /** A link is raised while this node restarts, and the restart may end with it. */
  method RaiseAndProgress(t: Topology, n: Node, l: LinkId) returns (m: Node)
    requires Ready(t, n) && l < |n.links| && n.restarting
    ensures Ready(t, m) && Kept(n, m) && m.links[l].up && m.restartDue == n.restartDue
    ensures m.past.world.node.begun == n.past.world.node.begun
    ensures RestartGoesOn(t, WaitingUp(n, l), n.traReceived, m, m.past.deeds) && SameMarks(n, m)
  {
    m := RaiseWaiting(t, n, l);
    m := RestartProgress(t, m);
  }

  method RaiseWaiting(t: Topology, n: Node, l: LinkId) returns (m: Node)
    requires Ready(t, n) && l < |n.links| && n.restarting
    ensures Ready(t, m) && Steady(n, m) && m.links == WaitingUp(n, l) && SameMarks(n, m) && m.traReceived == n.traReceived
  {
    RaisedWaits(t, n, l);
    m := RaiseLink(t, n, l);
  }

  lemma RaisedWaits(t: Topology, n: Node, l: LinkId)
    requires Ready(t, n) && l < |n.links| && n.restarting
    ensures n.links[l].phase == Closed && !n.links[l].inhibited ==>
              && Raised(n, l).links[l := RestoredLink(t, Raised(n, l), l)] == WaitingUp(n, l) && !BeginsBeside(t, Raised(n, l), l)
    ensures !(n.links[l].phase == Closed && !n.links[l].inhibited) ==> Raised(n, l).links == WaitingUp(n, l)
  {
    assert LinkOk(n.links[l], Waiting(t, n.adjacentRestarting, n.restarting, l));
  }

  method LinkCameUp(t: Topology, n: Node, l: LinkId) returns (m: Node)
    requires Ready(t, n) && (n.isolated ==> forall k | 0 <= k < |n.links| :: !n.links[k].up) && l < |n.links|
    ensures Ready(t, m) && Kept(n, m) && m.links[l].up && LinkTaken(t, n, m, m.past.deeds, l)
    ensures m.past.world.node.begun == n.past.world.node.begun + if Due(n) then 1 else 0
    ensures m.restartDue <==> n.restartDue && n.restarting && n.isolated
  {
    m := RestartIfDue(t, n);
    ghost var begun := m;
    if m.restarting {
      m := RaiseAndProgress(t, m, l);
      assert WaitingUp(begun, l) == WaitingUp(n, l);
    } else {
      m := RaiseLink(t, m, l);
      CameBackAlike(t, n, begun.restartDue, m, m.past.deeds, l);
    }
  }

  method LinkWentDown(t: Topology, n: Node, l: LinkId, bsnt: nat) returns (m: Node)
    requires Ready(t, n) && l < |n.links|
    ensures Ready(t, m) && Handled(n, m) && !m.links[l].up && m.links[l].bsnt == bsnt
    ensures WentDown(t, n, m, m.past.deeds, l, bsnt) && SameMarks(n, m) && m.restarting == n.restarting
  {
    m := LowerLink(t, n, l, bsnt);
  }

  // ── Messages ───────────────────────────────────────────────────────────────

  /** What can be reached did not change, nor what was said of it. */
  ghost predicate SameReachable(t: Topology, n: Node, m: Node)
    requires Shaped(t, n) && Shaped(t, m)
  {
    ReachedNow(t, m) == ReachedNow(t, n) && m.accessible == n.accessible && m.past.world.flips == n.past.world.flips
  }

  /** Something is said that changes nothing. */
  method Comment(t: Topology, n: Node, a: Action) returns (m: Node)
    requires Ready(t, n)
    requires a.Note? || a.Ignored? || a.Congestion? || (a.Send? && !a.message.Tfp? && !a.message.Tfa?)
    ensures Ready(t, m) && Handled(n, m) && SameReachable(t, n, m)
    ensures m.out == n.out + [a] && NothingMoved(n, m) && a in m.past.deeds
  {
    m := Emit(t, n, a, None);
  }

  function FirstAdjacent(linksets: seq<LinksetSpec>, opc: PointCode, from: nat): (p: Option<LinksetId>)
    requires from <= |linksets|
    ensures p.Some? ==> p.value < |linksets| && linksets[p.value].adjacent == Some(opc)
    ensures p.None? ==> forall ls | from <= ls < |linksets| :: linksets[ls].adjacent != Some(opc)
    ensures p.Some? ==> forall ls | from <= ls < p.value :: linksets[ls].adjacent != Some(opc)
    decreases |linksets| - from
  {
    if from == |linksets| then None
    else if linksets[from].adjacent == Some(opc) then Some(from)
    else FirstAdjacent(linksets, opc, from + 1)
  }

  /** The linkset a message of point `opc` counts for: that of its link, should `opc` be at the other end, or else the first with `opc` there. */
  function LinksetOf(t: Topology, opc: PointCode, l: LinkId): (p: Option<LinksetId>)
    requires t.Valid() && l < |t.links|
    ensures p.Some? ==> p.value < |t.linksets| && t.linksets[p.value].adjacent == Some(opc)
    ensures p.None? <==> forall ls | 0 <= ls < |t.linksets| :: t.linksets[ls].adjacent != Some(opc)
    ensures t.linksets[t.links[l].linkset].adjacent == Some(opc) ==> p == Some(t.links[l].linkset)
    ensures p.Some? && p != Some(t.links[l].linkset) ==> forall ls | 0 <= ls < p.value :: t.linksets[ls].adjacent != Some(opc)
  {
    var arrived := t.links[l].linkset;
    if t.linksets[arrived].adjacent == Some(opc) then Some(arrived) else FirstAdjacent(t.linksets, opc, 0)
  }

  /** The link of a linkset with a given code. */
  function WithCode(t: Topology, members: seq<LinkId>, slc: Byte, from: nat): (p: Option<LinkId>)
    requires from <= |members| && forall i | 0 <= i < |members| :: members[i] < |t.links|
    ensures p.Some? ==> p.value in members && p.value < |t.links| && t.links[p.value].slc == slc
    ensures p.None? ==> forall i | from <= i < |members| :: t.links[members[i]].slc != slc
    ensures p.Some? ==> exists i :: from <= i < |members| && members[i] == p.value && forall k | from <= k < i :: t.links[members[k]].slc != slc
    decreases |members| - from
  {
    if from == |members| then None
    else if t.links[members[from]].slc == slc then Some(members[from])
    else WithCode(t, members, slc, from + 1)
  }

  /** The first link of a linkset with this code. */
  ghost predicate FirstWithCode(t: Topology, ls: LinksetId, slc: Byte, i: nat)
    requires t.Valid() && ls < |t.linksets|
  {
    var members := t.linksets[ls].links;
    && i < |members| && members[i] in members && t.links[members[i]].slc == slc
    && forall k | 0 <= k < i :: members[k] in members && t.links[members[k]].slc != slc
  }

  method Concerning(t: Topology, ls: LinksetId, slc: Byte) returns (p: Option<LinkId>)
    requires t.Valid() && ls < |t.linksets|
    ensures p.Some? ==> p.value < |t.links| && t.links[p.value].linkset == ls && t.links[p.value].slc == slc
    ensures p.None? ==> forall l | l in t.linksets[ls].links :: t.links[l].slc != slc
    ensures forall i: nat | FirstWithCode(t, ls, slc, i) :: p == Some(t.linksets[ls].links[i])
  {
    var members := t.linksets[ls].links;
    assert forall i | 0 <= i < |members| :: members[i] in members;
    p := WithCode(t, members, slc, 0);
  }

  /** The declarations still out after one with this code was acknowledged. */
  function Without(declared: seq<(Byte, LinkId)>, code: Byte): (rest: seq<(Byte, LinkId)>)
    ensures forall p :: p in rest <==> p in declared && p.0 != code
    ensures |rest| <= |declared|
    ensures |rest| == |declared| ==> rest == declared
    ensures |rest| == |declared| <==> forall p | p in declared :: p.0 != code
  {
    if declared == [] then []
    else
      var last := declared[|declared| - 1];
      var before := Without(declared[..|declared| - 1], code);
      assert declared == declared[..|declared| - 1] + [last];
      if last.0 == code then before else before + [last]
  }

  /** The declaration with this code is no longer out; without one nothing changed, and without any more the link is opened. */
  ghost predicate Acknowledged(n: Node, m: Node, acts: set<Action>, l: LinkId, code: Byte)
    requires l < |n.links|
  {
    && SameMarks(n, m)
    && if forall p | p in n.links[l].declared :: p.0 != code then m.links == n.links
       else
         var rest := Without(n.links[l].declared, code);
         if rest != [] then m.links == n.links[l := n.links[l].(declared := rest)]
         else m.links == n.links[l := n.links[l].(declared := [], phase := Phase.Carrying)] && Open(l) in acts
  }

  /** A changeback acknowledgement that some declaration still waits for. */
  method OneDeclarationLess(t: Topology, n: Node, l: LinkId, rest: seq<(Byte, LinkId)>) returns (m: Node)
    requires Ready(t, n) && Preventive(t, n) && l < |n.links| && n.links[l].phase.ChangebackDeclared?
    ensures Ready(t, m) && Handled(n, m)
    ensures rest == [] ==> m.links == n.links[l := n.links[l].(declared := [], phase := Phase.Carrying)] && Open(l) in m.past.deeds
    ensures rest != [] ==> m.links == n.links[l := n.links[l].(declared := rest)]
    ensures SameMarks(n, m) && m.restarting == n.restarting && m.adjacentRestarting == n.adjacentRestarting
  {
    if rest != [] {
      m := PlaceLink(t, n, l, n.links[l].(declared := rest));
    } else {
      assert LinkOk(n.links[l], Waiting(t, n.adjacentRestarting, n.restarting, l));
      m := FinishChangeback(t, n, n.past.world, l, ChangebackAcknowledged);
    }
  }

  /** An acknowledgement counts only for a declaration that is out; the last one ends the changeback (section 6.5.1). */
  method ChangebackAcknowledgement(t: Topology, n: Node, l: LinkId, code: Byte) returns (m: Node)
    requires Ready(t, n) && Preventive(t, n) && l < |n.links|
    ensures Ready(t, m) && Handled(n, m)
    ensures Acknowledged(n, m, m.past.deeds, l, code)
  {
    var rest := Without(n.links[l].declared, code);
    if |rest| == |n.links[l].declared| {
      m := Say(t, n, Ignored(Cba(code)));
    } else {
      assert LinkOk(n.links[l], Waiting(t, n.adjacentRestarting, n.restarting, l));
      m := OneDeclarationLess(t, n, l, rest);
    }
  }

  /**
   What the far end asks for with a changeover order. M2PA numbers messages with 24
   bits, so an order with seven is as good as one without (section 4.2.3 of RFC 4165).
   */
  function OrderOf(message: Message): Option<Ordered> {
    match message
    case Xco(fsn) => Some(Ordered(Some(fsn), false))
    case Coo(_) => Some(Ordered(None, true))
    case Eco => Some(Ordered(None, false))
    case _ => None
  }

  /** What each message about a link does. */
  ghost predicate LinkTold(t: Topology, n: Node, m: Node, acts: set<Action>, l: LinkId, message: Message)
    requires Shaped(t, n) && l < |n.links|
  {
    match message
    case Xco(fsn) => OrderTaken(t, n, m, acts, l, Some(fsn), false)
    case Coo(_) => OrderTaken(t, n, m, acts, l, None, true)
    case Eco => OrderTaken(t, n, m, acts, l, None, false)
    case Xca(fsn) => AcknowledgementTaken(t, n, m, acts, l, Some(fsn))
    case Coa(_) | Eca => AcknowledgementTaken(t, n, m, acts, l, None)
    case Cba(code) => Acknowledged(n, m, acts, l, code)
    case Lin => RequestTaken(t, n, m, acts, l)
    case Lun => ReleaseTaken(t, n, m, acts, l)
    case Lia | Lid | Lfu | Lua | Llt | Lrt => AnswerTaken(t, n, m, acts, l, message)
    case _ => NothingMoved(n, m) && Ignored(message) in acts
  }

  method ChangeoverMessage(t: Topology, n: Node, l: LinkId, message: Message) returns (m: Node)
    requires Ready(t, n) && l < |n.links|
    requires OfChangeover(message)
    ensures Ready(t, m) && Handled(n, m)
    ensures LinkTold(t, n, m, m.past.deeds, l, message)
  {
    var order := OrderOf(message);
    if order.Some? {
      m := ChangeoverOrder(t, n, l, order.value.fsnc, order.value.emergency);
    } else {
      m := ChangeoverAcknowledgement(t, n, l, if message.Xca? then Some(message.fsn) else None, message);
    }
  }

  method InhibitEvent(t: Topology, n: Node, l: LinkId) returns (m: Node)
    requires Ready(t, n) && l < |n.links|
    ensures Ready(t, m) && Handled(n, m) && SameReachable(t, n, m)
    ensures RequestTaken(t, n, m, m.past.deeds, l)
  {
    m := Inhibit(t, n, l);
  }

  method InhibitMessage(t: Topology, n: Node, l: LinkId, message: Message) returns (m: Node)
    requires Ready(t, n) && l < |n.links|
    requires OfInhibiting(message)
    ensures Ready(t, m) && Handled(n, m)
    ensures message.Lin? ==> SameReachable(t, n, m)
    ensures LinkTold(t, n, m, m.past.deeds, l, message)
  {
    if message.Lin? {
      m := InhibitEvent(t, n, l);
    } else if message.Lun? {
      m := UninhibitLink(t, n, l);
    } else {
      m := InhibitAnswer(t, n, l, message);
    }
  }

  /** A message about one link. */
  method LinkMessage(t: Topology, n: Node, l: LinkId, message: Message) returns (m: Node)
    requires Ready(t, n) && Preventive(t, n) && l < |n.links|
    ensures Ready(t, m) && Handled(n, m)
    ensures LinkTold(t, n, m, m.past.deeds, l, message) && (message.Lin? ==> SameReachable(t, n, m))
  {
    if OfChangeover(message) {
      m := ChangeoverMessage(t, n, l, message);
    } else if message.Cba? {
      m := ChangebackAcknowledgement(t, n, l, message.code);
    } else if OfInhibiting(message) {
      m := InhibitMessage(t, n, l, message);
    } else {
      m := Comment(t, n, Ignored(message));
    }
  }

  /** What a message says about the route to a destination through its sender. */
  function Said(message: Message): Option<RouteStatus> {
    match message
    case Tfp(_) => Some(Prohibited)
    case Tfr(_) => Some(Restricted)
    case Tfa(_) => Some(Allowed)
    case _ => None
  }

  /**
   The first route to the destination through the sender has the status the message
   says, and is marked so or will be; a message about a route there is none of is ignored.
   */
  ghost predicate Learned(t: Topology, n: Node, m: Node, acts: set<Action>, ls: LinksetId, message: Message)
    requires Shaped(t, n) && Said(message).Some?
  {
    var d := message.destination;
    && m.links == n.links && m.restarting == n.restarting && m.adjacentRestarting == n.adjacentRestarting
    && if d in n.routes && FirstVia(n.routes[d], ls).Some? then
         d in m.routes && StatusVia(m.routes[d], ls) == Said(message).value && Heard(t, n, m, ls, d, Said(message).value)
       else SameMarks(n, m) && Ignored(message) in acts
  }

  method RouteEvent(t: Topology, n: Node, ls: LinksetId, message: Message) returns (m: Node)
    requires Ready(t, n) && Said(message).Some?
    ensures Ready(t, m) && Handled(n, m) && Learned(t, n, m, m.past.deeds, ls, message)
  {
    var d := message.destination;
    m := RouteMessage(t, n, ls, d, Said(message).value, message);
    if d in n.routes && FirstVia(n.routes[d], ls).Some? {
      RouteMarks.StatusOfMarked(n.routes[d], ls, FirstVia(n.routes[d], ls).value, Said(message).value, ls);
    }
  }

  /** A test that finds its sender mistaken is answered with what is. */
  ghost predicate TestTaken(t: Topology, n: Node, acts: set<Action>, ls: LinksetId, d: ItuCode, believed: RouteStatus)
    requires Shaped(t, n) && ls < |t.linksets| && t.linksets[ls].adjacent.Some?
  {
    var actual := ActualStatus(t, n, ls, d);
    actual != believed ==> Send(t.linksets[ls].adjacent.value, 0, if actual == Prohibited then Tfp(d) else Tfa(d), Adjacent(ls, None)) in acts
  }

  method TestEvent(t: Topology, n: Node, ls: LinksetId, d: ItuCode, believed: RouteStatus) returns (m: Node)
    requires Ready(t, n) && ls < |t.linksets| && t.linksets[ls].adjacent.Some?
    ensures Ready(t, m) && Handled(n, m)
    ensures NothingMoved(n, m) && TestTaken(t, n, m.past.deeds, ls, d, believed)
    ensures ActualStatus(t, n, ls, d) == believed || !Sayable(d) ==> m == n
  {
    m := AnswerTest(t, n, ls, d, believed);
  }

  /** A test that finds its sender right. */
  ghost predicate NothingToAnswer(t: Topology, n: Node, ls: LinksetId, message: Message)
    requires Shaped(t, n)
  {
    (message.Rst? && ActualStatus(t, n, ls, message.destination) == Prohibited) || (message.Rsr? && ActualStatus(t, n, ls, message.destination) == Restricted)
  }

  /** A route set test, or a traffic restart allowed. */
  method TestOrRestart(t: Topology, n: Node, ls: LinksetId, message: Message) returns (m: Node)
    requires Ready(t, n) && ls < |t.linksets| && t.linksets[ls].adjacent.Some? && (message.Rst? || message.Rsr? || message.Tra?)
    ensures Ready(t, m) && Handled(n, m)
    ensures message.Rst? ==> NothingMoved(n, m) && TestTaken(t, n, m.past.deeds, ls, message.destination, Prohibited)
    ensures message.Rsr? ==> NothingMoved(n, m) && TestTaken(t, n, m.past.deeds, ls, message.destination, Restricted)
    ensures message.Tra? ==> TrafficAllowed(t, n, m, m.past.deeds, ls)
    ensures NothingToAnswer(t, n, ls, message) ==> m == n
  {
    match message {
      case Rst(d) => m := TestEvent(t, n, ls, d, Prohibited);
      case Rsr(d) => m := TestEvent(t, n, ls, d, Restricted);
      case Tra => m := TrafficRestartAllowed(t, n, ls);
    }
  }

  predicate OfRoutes(message: Message) {
    message.Tfp? || message.Tfr? || message.Tfa? || message.Rst? || message.Rsr? || message.Tra?
  }

  predicate OfInhibiting(message: Message) {
    message.Lin? || message.Lun? || message.Lia? || message.Lid? || message.Lfu? || message.Lua? || message.Llt? || message.Lrt?
  }

  predicate OfChangeover(message: Message) {
    message.Xco? || message.Coo? || message.Eco? || message.Xca? || message.Coa? || message.Eca?
  }

  /** What a message from an adjacent point about routes, or of the restart procedure, does. */
  ghost predicate RouteTold(t: Topology, n: Node, m: Node, acts: set<Action>, ls: LinksetId, message: Message)
    requires Shaped(t, n) && ls < |t.linksets| && t.linksets[ls].adjacent.Some?
  {
    match message
    case Tfp(d) => Learned(t, n, m, acts, ls, message)
    case Tfr(d) => Learned(t, n, m, acts, ls, message)
    case Tfa(d) => Learned(t, n, m, acts, ls, message)
    case Rst(d) => NothingMoved(n, m) && TestTaken(t, n, acts, ls, d, Prohibited)
    case Rsr(d) => NothingMoved(n, m) && TestTaken(t, n, acts, ls, d, Restricted)
    case Tra => TrafficAllowed(t, n, m, acts, ls)
    case _ => true
  }

  /** A message of signalling route management or of the restart procedure that came from an adjacent point. */
  method RouteOrRestart(t: Topology, n: Node, ls: LinksetId, message: Message) returns (m: Node)
    requires Ready(t, n) && ls < |t.linksets| && t.linksets[ls].adjacent.Some?
    requires OfRoutes(message)
    ensures Ready(t, m) && Handled(n, m) && RouteTold(t, n, m, m.past.deeds, ls, message)
    ensures NothingToAnswer(t, n, ls, message) ==> m == n
  {
    if Said(message).Some? {
      m := RouteEvent(t, n, ls, message);
    } else {
      m := TestOrRestart(t, n, ls, message);
    }
  }

  /** A message about a link concerns the first of the sender's linkset that has the code. */
  ghost predicate AboutTold(t: Topology, n: Node, m: Node, acts: set<Action>, ls: LinksetId, slc: Byte, message: Message)
    requires Shaped(t, n) && ls < |t.linksets|
  {
    && (forall i: nat | FirstWithCode(t, ls, slc, i) :: t.linksets[ls].links[i] < |n.links| && LinkTold(t, n, m, acts, t.linksets[ls].links[i], message))
    && ((forall l | l in t.linksets[ls].links :: t.links[l].slc != slc) ==> NothingMoved(n, m) && Ignored(message) in acts)
  }

  method AboutLink(t: Topology, n: Node, ls: LinksetId, slc: Byte, message: Message) returns (m: Node)
    requires Ready(t, n) && Preventive(t, n) && ls < |t.linksets|
    ensures Ready(t, m) && Handled(n, m) && AboutTold(t, n, m, m.past.deeds, ls, slc, message)
    ensures message.Lin? ==> SameReachable(t, n, m)
  {
    var l := Concerning(t, ls, slc);
    if l.Some? {
      m := LinkMessage(t, n, l.value, message);
    } else {
      m := Comment(t, n, Ignored(message));
    }
  }

  /** What a message from an adjacent point does. */
  ghost predicate AdjacentTold(t: Topology, n: Node, m: Node, acts: set<Action>, ls: LinksetId, slc: Byte, message: Message)
    requires Shaped(t, n) && ls < |t.linksets| && t.linksets[ls].adjacent.Some?
  {
    if OfRoutes(message) then RouteTold(t, n, m, acts, ls, message)
    else if message.Cbd? then NothingMoved(n, m) && Send(t.linksets[ls].adjacent.value, slc, Cba(message.code), Adjacent(ls, None)) in acts
    else AboutTold(t, n, m, acts, ls, slc, message)
  }

  /** A message that came from an adjacent point. */
  method FromAdjacent(t: Topology, n: Node, ls: LinksetId, slc: Byte, message: Message) returns (m: Node)
    requires Ready(t, n) && Preventive(t, n) && ls < |t.linksets| && t.linksets[ls].adjacent.Some?
    ensures Ready(t, m) && Handled(n, m) && AdjacentTold(t, n, m, m.past.deeds, ls, slc, message)
    ensures message.Lin? ==> SameReachable(t, n, m)
    ensures NothingToAnswer(t, n, ls, message) ==> m == n
  {
    if OfRoutes(message) {
      m := RouteOrRestart(t, n, ls, message);
    } else if message.Cbd? {
      m := Comment(t, n, Send(t.linksets[ls].adjacent.value, slc, Cba(message.code), Adjacent(ls, None)));
    } else {
      m := AboutLink(t, n, ls, slc, message);
    }
  }

  /** The only messages that count while this node restarts (section 9.6.6). */
  predicate WhileRestarting(message: Message) { message.Tfp? || message.Tfr? || message.Tfa? || message.Tra? }

  /** Messages that are not from the adjacent point of any linkset in particular. */
  predicate FromAnywhere(message: Message) { message.Tfc? || message.Upu? || message.Rct? }

  /** What a message does: by what it is, whom it is from, and whether this node restarts. */
  ghost predicate MessageTaken(t: Topology, n: Node, m: Node, acts: set<Action>, l: LinkId, opc: PointCode, slc: Byte, message: Message)
    requires Shaped(t, n) && l < |n.links|
  {
    var ls := LinksetOf(t, opc, l);
    if message.Tfc? && !n.restarting then NothingMoved(n, m) && Congestion(message.destination, message.status) in acts
    else if FromAnywhere(message) || ls.None? || (n.restarting && !WhileRestarting(message)) then NothingMoved(n, m) && Ignored(message) in acts
    else AdjacentTold(t, n, m, acts, ls.value, slc, message)
  }

  method FromSomewhere(t: Topology, n: Node, l: LinkId, opc: PointCode, slc: Byte, message: Message) returns (m: Node)
    requires Ready(t, n) && Preventive(t, n) && l < |n.links| && !FromAnywhere(message)
    ensures Ready(t, m) && Handled(n, m) && MessageTaken(t, n, m, m.past.deeds, l, opc, slc, message)
    ensures message.Lin? ==> SameReachable(t, n, m)
    ensures !n.restarting && LinksetOf(t, opc, l).Some? && NothingToAnswer(t, n, LinksetOf(t, opc, l).value, message) ==> m == n
  {
    var ls := LinksetOf(t, opc, l);
    if ls.None? || (n.restarting && !WhileRestarting(message)) {
      m := Comment(t, n, Ignored(message));
    } else {
      m := FromAdjacent(t, n, ls.value, slc, message);
    }
  }

  method MessageCame(t: Topology, n: Node, l: LinkId, opc: PointCode, slc: Byte, message: Message) returns (m: Node)
    requires Ready(t, n) && Preventive(t, n) && l < |n.links|
    ensures Ready(t, m) && Handled(n, m) && MessageTaken(t, n, m, m.past.deeds, l, opc, slc, message)
    ensures message.Lin? ==> SameReachable(t, n, m)
    ensures !n.restarting && LinksetOf(t, opc, l).Some? && NothingToAnswer(t, n, LinksetOf(t, opc, l).value, message) ==> m == n
  {
    if message.Tfc? && !n.restarting {
      m := Comment(t, n, Congestion(message.destination, message.status));
    } else if FromAnywhere(message) {
      m := Comment(t, n, Ignored(message));
    } else {
      m := FromSomewhere(t, n, l, opc, slc, message);
    }
  }
}
