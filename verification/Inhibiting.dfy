/**
 Management inhibiting (clause 10 of ITU-T Q.704). All requests come
 from the far end, and are granted or denied here.
 */
module Inhibiting {
  import opened Options
  import opened RouteChoice
  import opened Signalling
  import opened Observer
  import opened Invariants
  import opened NodeState
  import opened LinkFacts
  import opened RouteManagement
  import opened Links

  /** On the link while it is up, by any other route otherwise. */
  function LinkOrRoute(t: Topology, n: Node, l: LinkId): Path
    requires l < |n.links| == |t.links|
  {
    if n.links[l].up then OnLink(l) else Adjacent(t.links[l].linkset, Some(l))
  }

  /** Some destination is reached at present that would not be without this link (section 10.2 c). */
  predicate WouldIsolate(t: Topology, n: Node, l: LinkId)
    requires Shaped(t, n)
  {
    exists d :: d in ReachedNow(t, n) && d !in ReachedSet(CarryingLinksets(t, n.links, Some(l)), n.servers, n.paused, n.routes)
  }

  /** Asking what would be without the link foretells what is once the link is out of traffic. */
  lemma GrantKeepsReach(t: Topology, n: Node, l: LinkId, k: Link)
    requires Shaped(t, n) && l < |n.links| && !Available(k.phase)
    requires Available(n.links[l].phase) ==> !WouldIsolate(t, n, l)
    ensures ReachedNow(t, n.(links := n.links[l := k])) == ReachedNow(t, n)
  {
    if Available(n.links[l].phase) {
      WithoutIsClosed(t, n.links, l, k);
      FewerCarry(t, n.links, l);
      FewerReached(CarryingLinksets(t, n.links, Some(l)), CarryingNow(t, n), n.servers, n.paused, n.routes);
    } else {
      SameCarrying(t, n.links, l, k);
    }
  }

  /** Say something to the far end of a link, and note what it was about. */
  method Answer(t: Topology, n: Node, l: LinkId, message: Message, noted: Option<Procedure>) returns (m: Node)
    requires Recorded(t, n) && t.Valid() && l < |n.links| == |t.links| && !message.Tfp? && !message.Tfa?
    ensures Recorded(t, m) && Logs(n, m, n.past.world)
    ensures SentTo(t, m.past.deeds, t.links[l].linkset, t.links[l].slc, message, LinkOrRoute(t, n, l))
  {
    m := SendTo(t, n, t.links[l].linkset, t.links[l].slc, message, LinkOrRoute(t, n, l));
    if noted.Some? {
      m := Say(t, m, Note(noted.value, ALink(l)));
    }
  }

  /** A link without traffic is inhibited. */
  method GrantIdle(t: Topology, n: Node, l: LinkId) returns (m: Node)
    requires Core(t, n) && l < |n.links| && n.past.loose == {} && !n.links[l].inhibited && !Available(n.links[l].phase)
    ensures Core(t, m) && OnlyLinks(n, m) && m.past.loose == {} && m.past.world.released == n.past.world.released
    ensures m.links == n.links[l := n.links[l].(inhibited := true, phase := if n.links[l].phase == AwaitRestart then Closed else n.links[l].phase)]
    ensures SentTo(t, m.past.deeds, t.links[l].linkset, t.links[l].slc, Lia, LinkOrRoute(t, n, l)) && Start(InhibitTest(l), T23) in m.past.deeds
  {
    var phase := n.links[l].phase;
    m := Answer(t, n, l, Lia, Some(LinkInhibited));
    m := Adjust(t, m, m.past.world, l, n.links[l].(inhibited := true, phase := if phase == AwaitRestart then Closed else phase),
                None, OnLink(l), InhibitTest(l), Some(T23));
  }

  /** A link that carries traffic is inhibited: its traffic is diverted under T1 (section 10.2 d). */
  method GrantCarrying(t: Topology, n: Node, l: LinkId) returns (m: Node)
    requires Core(t, n) && l < |n.links| && n.past.loose == {} && !n.links[l].inhibited && Available(n.links[l].phase)
    ensures Core(t, m) && OnlyLinks(n, m) && m.past.loose == {} && m.past.world.released == n.past.world.released
    ensures m.links == n.links[l := n.links[l].(inhibited := true, declared := [], phase := ChangeoverTimed)]
    ensures SentTo(t, m.past.deeds, t.links[l].linkset, t.links[l].slc, Lia, LinkOrRoute(t, n, l)) && Start(InhibitTest(l), T23) in m.past.deeds
    ensures Hold(l) in m.past.deeds && Start(Changeover(l), T1) in m.past.deeds
  {
    var k := n.links[l].(inhibited := true, declared := [], phase := ChangeoverTimed);
    m := Answer(t, n, l, Lia, Some(LinkInhibited));
    m := AskForChangeover(t, m, l, None, T1);
    m := LinkTimer(t, m, InhibitTest(l), Some(T23));
    m := m.(links := n.links[l := k]);
    OneMoved(t, n.links, n.adjacentRestarting, n.restarting, {}, n.past.exempt, l, k);
    OneTimed(n.links, n.past.world.links, l, k, m.past.world.links);
  }

  /** A link that is inhibited: one that carried traffic changes over, one that waits for a restart does so no longer. */
  function GrantedLink(k: Link): Link {
    if Available(k.phase) then k.(inhibited := true, declared := [], phase := ChangeoverTimed)
    else k.(inhibited := true, phase := if k.phase == AwaitRestart then Closed else k.phase)
  }

  /** The request is acknowledged, the test of it timed, and traffic diverted under T1. */
  ghost predicate Granted(t: Topology, n: Node, acts: set<Action>, l: LinkId)
    requires t.Valid() && l < |n.links| == |t.links|
  {
    && SentTo(t, acts, t.links[l].linkset, t.links[l].slc, Lia, LinkOrRoute(t, n, l)) && Start(InhibitTest(l), T23) in acts
    && (Available(n.links[l].phase) ==> Hold(l) in acts && Start(Changeover(l), T1) in acts)
  }

  /** An inhibition is granted. */
  method Grant(t: Topology, n: Node, l: LinkId) returns (m: Node)
    requires Core(t, n) && l < |n.links| && n.past.loose == {} && !n.links[l].inhibited
    ensures Core(t, m) && OnlyLinks(n, m) && m.past.loose == {} && m.past.world.released == n.past.world.released
    ensures m.links == n.links[l := GrantedLink(n.links[l])] && Granted(t, n, m.past.deeds, l)
  {
    if Available(n.links[l].phase) {
      m := GrantCarrying(t, n, l);
    } else {
      m := GrantIdle(t, n, l);
    }
  }

  method GrantSafely(t: Topology, n: Node, l: LinkId) returns (m: Node)
    requires Core(t, n) && l < |n.links| && n.past.loose == {} && !n.links[l].inhibited
    requires Available(n.links[l].phase) ==> !WouldIsolate(t, n, l)
    ensures Core(t, m) && OnlyLinks(n, m) && m.past.loose == {} && m.past.world.released == n.past.world.released
    ensures m.links == n.links[l := GrantedLink(n.links[l])] && Granted(t, n, m.past.deeds, l)
    ensures ReachedNow(t, m) == ReachedNow(t, n)
  {
    m := Grant(t, n, l);
    GrantKeepsReach(t, n, l, m.links[l]);
  }

  /** The far end is answered, and nothing else changes. */
  method OnlyAnswer(t: Topology, n: Node, l: LinkId, message: Message, noted: Option<Procedure>) returns (m: Node)
    requires Core(t, n) && l < |n.links| && n.past.loose == {} && !message.Tfp? && !message.Tfa?
    ensures Core(t, m) && OnlyLinks(n, m) && m.past.loose == {} && m.past.world.released == n.past.world.released && m.links == n.links
    ensures SentTo(t, m.past.deeds, t.links[l].linkset, t.links[l].slc, message, LinkOrRoute(t, n, l))
  {
    m := Answer(t, n, l, message, noted);
  }

  /** A request to inhibit is acknowledged and granted, or denied. */
  ghost predicate RequestTaken(t: Topology, n: Node, m: Node, acts: set<Action>, l: LinkId)
    requires Shaped(t, n) && l < |n.links|
  {
    var ls, slc, path := t.links[l].linkset, t.links[l].slc, LinkOrRoute(t, n, l);
    && SameMarks(n, m)
    && if n.links[l].inhibited then m.links == n.links && SentTo(t, acts, ls, slc, Lia, path)
       else if Available(n.links[l].phase) && WouldIsolate(t, n, l) then m.links == n.links && SentTo(t, acts, ls, slc, Lid, path)
       else m.links == n.links[l := GrantedLink(n.links[l])] && Granted(t, n, acts, l)
  }

  /** The far end asks that a link be inhibited: granted unless that would isolate a destination. */
  method Inhibit(t: Topology, n: Node, l: LinkId) returns (m: Node)
    requires Core(t, n) && l < |n.links| && n.past.loose == {}
    ensures Core(t, m) && OnlyLinks(n, m) && m.past.loose == {} && m.past.world.released == n.past.world.released
    ensures m.links[l].inhibited <==> n.links[l].inhibited || !Available(n.links[l].phase) || !WouldIsolate(t, n, l)
    ensures ReachedNow(t, m) == ReachedNow(t, n) && RequestTaken(t, n, m, m.past.deeds, l)
  {
    if n.links[l].inhibited {
      m := OnlyAnswer(t, n, l, Lia, None);
    } else if Available(n.links[l].phase) && WouldIsolate(t, n, l) {
      m := OnlyAnswer(t, n, l, Lid, Some(LinkInhibitDenied));
    } else {
      m := GrantSafely(t, n, l);
    }
  }

  /** An inhibition is lifted. */
  method LiftInhibition(t: Topology, n: Node, l: LinkId, k: Link) returns (m: Node)
    requires Core(t, n) && l < |n.links| && n.past.loose == {} && k == n.links[l].(inhibited := false, back := k.back)
    ensures Core(t, m) && Steady(n, m) && m.past.loose == {l}
    ensures m.links == n.links[l := k] && m.adjacentRestarting == n.adjacentRestarting
    ensures SameMarks(n, m) && Likewise(n.(links := n.links[l := k]), m)
  {
    m := LinkTimer(t, n, InhibitTest(l), None);
    m := Say(t, m, Note(LinkUninhibited, ALink(l)));
    m := m.(links := n.links[l := k], past := m.past.(loose := {l}));
    LooseLink(t, n.links, n.adjacentRestarting, n.restarting, {}, n.past.exempt, l, k);
    OneTimed(n.links, n.past.world.links, l, k, m.past.world.links);
  }

  function Returned(k: Link): Link { k.(inhibited := false, back := k.back || (ChangingOver(k.phase) && k.up)) }

  lemma ReturnedIsOk(k: Link, waiting: bool)
    requires LinkOk(k, waiting) && k.inhibited
    ensures if k.phase == Closed && k.up then Late(Returned(k)) else LinkOk(Returned(k), waiting)
  {}

  /** It goes to its place in traffic if it is up and out of traffic, and stays where it is otherwise. */
  ghost predicate WentBack(t: Topology, n: Node, m: Node, acts: set<Action>, l: LinkId)
    requires Shaped(t, n) && l < |n.links|
  {
    if n.links[l].phase == Closed && n.links[l].up then
      && m.links == n.links[l := RestoredLink(t, n, l)] && RoutesRestored(t, n, m, l)
      && Announced(t, acts, l, RestoredLink(t, n, l), BeginsBeside(t, n, l))
    else m.links == n.links && SameMarks(n, m)
  }

  lemma WentBackAlike(t: Topology, a: Node, b: Node, m: Node, acts: set<Action>, l: LinkId)
    requires Shaped(t, a) && Shaped(t, b) && Likewise(a, b) && l < |a.links| && WentBack(t, b, m, acts, l)
    ensures WentBack(t, a, m, acts, l)
  {
    LinksAlike(t, a, b, m, l);
  }

  /** A link whose inhibition was lifted goes back to traffic, unless something else keeps it out. */
  method GoBack(t: Topology, n: Node, l: LinkId) returns (m: Node)
    requires Core(t, n) && l < |n.links| && n.past.loose <= {l}
    requires if n.links[l].phase == Closed && n.links[l].up then Late(n.links[l])
             else LinkOk(n.links[l], Waiting(t, n.adjacentRestarting, n.restarting, l))
    ensures Core(t, m) && Steady(n, m) && m.past.loose == {}
    ensures !n.links[l].inhibited ==> !m.links[l].inhibited
    ensures WentBack(t, n, m, m.past.deeds, l)
  {
    if n.links[l].phase == Closed && n.links[l].up {
      m := Restore(t, n, l);
      assert LinkOk(m.links[l], Waiting(t, m.adjacentRestarting, m.restarting, l));
    } else {
      m := PlaceLink(t, n, l, n.links[l]);
    }
  }

  method ReturnLink(t: Topology, n: Node, l: LinkId) returns (m: Node)
    requires Core(t, n) && l < |n.links| && n.past.loose == {} && n.links[l].inhibited
    ensures Core(t, m) && Steady(n, m) && m.past.loose == {}
    ensures !m.links[l].inhibited
    ensures WentBack(t, n.(links := n.links[l := Returned(n.links[l])]), m, m.past.deeds, l)
  {
    ReturnedIsOk(n.links[l], Waiting(t, n.adjacentRestarting, n.restarting, l));
    m := LiftInhibition(t, n, l, Returned(n.links[l]));
    ghost var lifted := m;
    m := GoBack(t, m, l);
    WentBackAlike(t, n.(links := n.links[l := Returned(n.links[l])]), lifted, m, m.past.deeds, l);
  }

  /** A release is acknowledged, asking for it ends, and a link that was inhibited goes back to traffic. */
  ghost predicate ReleaseTaken(t: Topology, n: Node, m: Node, acts: set<Action>, l: LinkId)
    requires Shaped(t, n) && l < |n.links|
  {
    var k := n.links[l].(forceAttempts := 0);
    && SentTo(t, acts, t.links[l].linkset, t.links[l].slc, Lua, LinkOrRoute(t, n, l))
    && if n.links[l].inhibited then WentBack(t, n.(links := n.links[l := Returned(k)]), m, acts, l)
       else m.links == n.links[l := k] && SameMarks(n, m)
  }

  /** The release is acknowledged, and asking for it ends. */
  method AcknowledgeRelease(t: Topology, n: Node, l: LinkId) returns (m: Node)
    requires Core(t, n) && l < |n.links| && n.past.loose == {}
    ensures Core(t, m) && Steady(n, m) && m.past.loose == {} && Likewise(Asked(n, l), m)
    ensures SentTo(t, m.past.deeds, t.links[l].linkset, t.links[l].slc, Lua, LinkOrRoute(t, n, l))
  {
    m := Adjust(t, n, n.past.world, l, n.links[l].(forceAttempts := 0), Some(Lua), LinkOrRoute(t, n, l), ForceUninhibit(l), None);
  }

  /** Nothing is asked of the far end any more. */
  ghost function Asked(n: Node, l: LinkId): Node
    requires l < |n.links|
  {
    n.(links := n.links[l := n.links[l].(forceAttempts := 0)])
  }

  lemma ReturnedAlike(t: Topology, n: Node, asked: Node, m: Node, acts: set<Action>, l: LinkId)
    requires Shaped(t, n) && l < |n.links| && Shaped(t, asked) && Likewise(Asked(n, l), asked)
    requires WentBack(t, asked.(links := asked.links[l := Returned(asked.links[l])]), m, acts, l)
    ensures WentBack(t, n.(links := n.links[l := Returned(n.links[l].(forceAttempts := 0))]), m, acts, l)
  {
    var k := Returned(n.links[l].(forceAttempts := 0));
    assert asked.links[l := Returned(asked.links[l])] == n.links[l := k];
    WentBackAlike(t, n.(links := n.links[l := k]), asked.(links := asked.links[l := Returned(asked.links[l])]), m, acts, l);
  }

  /** The far end lifts an inhibition, or thinks it does (section 10.4 b). */
  method UninhibitLink(t: Topology, n: Node, l: LinkId) returns (m: Node)
    requires Core(t, n) && l < |n.links| && n.past.loose == {}
    ensures Core(t, m) && Steady(n, m) && m.past.loose == {} && !m.links[l].inhibited
    ensures ReleaseTaken(t, n, m, m.past.deeds, l)
  {
    m := AcknowledgeRelease(t, n, l);
    if n.links[l].inhibited {
      ghost var asked := m;
      m := ReturnLink(t, m, l);
      ReturnedAlike(t, n, asked, m, m.past.deeds, l);
    }
  }

  /** The far end answers that it uninhibited a link. */
  method Uninhibited(t: Topology, n: Node, l: LinkId) returns (m: Node)
    requires Core(t, n) && l < |n.links| && n.past.loose == {}
    ensures Core(t, m) && OnlyLinks(n, m) && m.past.loose == {} && m.past.world.released == n.past.world.released
    ensures m.links == n.links[l := n.links[l].(uninhibitAttempts := 0)]
  {
    if n.links[l].uninhibitAttempts > 0 {
      m := Adjust(t, n, n.past.world, l, n.links[l].(uninhibitAttempts := 0), None, OnLink(l), Uninhibit(l), None);
    } else {
      assert n.links[l := n.links[l].(uninhibitAttempts := 0)] == n.links;
      m := Say(t, n, Ignored(Lua));
    }
  }

  /** The far end has the link inhibited on its own account: it is asked to let go (section 10.6.1 ii). */
  method AskToForce(t: Topology, n: Node, l: LinkId) returns (m: Node)
    requires Core(t, n) && l < |n.links| && n.past.loose == {}
    ensures Core(t, m) && OnlyLinks(n, m) && m.past.loose == {} && m.past.world.released == n.past.world.released
    ensures m.links == if !n.links[l].inhibited && n.links[l].forceAttempts == 0 then n.links[l := n.links[l].(forceAttempts := 1)] else n.links
    ensures !n.links[l].inhibited && n.links[l].forceAttempts == 0 ==> SentTo(t, m.past.deeds, t.links[l].linkset, t.links[l].slc, Lfu, LinkOrRoute(t, n, l)) && Start(ForceUninhibit(l), T13) in m.past.deeds
  {
    m := n;
    if !n.links[l].inhibited && n.links[l].forceAttempts == 0 {
      m := Adjust(t, n, n.past.world, l, n.links[l].(forceAttempts := 1), Some(Lfu), LinkOrRoute(t, n, l), ForceUninhibit(l), Some(T13));
    }
  }

  /** The far end takes this node to have the link inhibited, which it never asked for (section 10.6.2 ii). */
  method AskToLift(t: Topology, n: Node, l: LinkId) returns (m: Node)
    requires Core(t, n) && l < |n.links| && n.past.loose == {}
    ensures Core(t, m) && OnlyLinks(n, m) && m.past.loose == {} && m.past.world.released == n.past.world.released
    ensures m.links == if n.links[l].uninhibitAttempts == 0 then n.links[l := n.links[l].(uninhibitAttempts := 1)] else n.links
    ensures n.links[l].uninhibitAttempts == 0 ==> SentTo(t, m.past.deeds, t.links[l].linkset, t.links[l].slc, Lun, LinkOrRoute(t, n, l)) && Start(Uninhibit(l), T12) in m.past.deeds
  {
    m := n;
    if n.links[l].uninhibitAttempts == 0 {
      m := Adjust(t, n, n.past.world, l, n.links[l].(uninhibitAttempts := 1), Some(Lun), LinkOrRoute(t, n, l), Uninhibit(l), Some(T12));
    }
  }

  /** What any other message of the inhibiting procedures does. */
  ghost predicate AnswerTaken(t: Topology, n: Node, m: Node, acts: set<Action>, l: LinkId, message: Message)
    requires Shaped(t, n) && l < |n.links|
  {
    var ls, slc, path, k := t.links[l].linkset, t.links[l].slc, LinkOrRoute(t, n, l), n.links[l];
    && SameMarks(n, m)
    && match message
       case Lfu => m.links == n.links && SentTo(t, acts, ls, slc, Lun, path)
       case Lua => m.links == n.links[l := k.(uninhibitAttempts := 0)]
       case Llt =>
         if !k.inhibited && k.forceAttempts == 0 then
           m.links == n.links[l := k.(forceAttempts := 1)] && SentTo(t, acts, ls, slc, Lfu, path) && Start(ForceUninhibit(l), T13) in acts
         else m.links == n.links
       case Lrt =>
         if k.uninhibitAttempts == 0 then
           m.links == n.links[l := k.(uninhibitAttempts := 1)] && SentTo(t, acts, ls, slc, Lun, path) && Start(Uninhibit(l), T12) in acts
         else m.links == n.links
       case _ => m.links == n.links
  }

  /** A message of the inhibiting procedures that is not a request to inhibit. */
  method InhibitAnswer(t: Topology, n: Node, l: LinkId, message: Message) returns (m: Node)
    requires Core(t, n) && l < |n.links| && n.past.loose == {}
    requires message.Lia? || message.Lid? || message.Lfu? || message.Lua? || message.Llt? || message.Lrt?
    ensures Core(t, m) && OnlyLinks(n, m) && m.past.loose == {} && m.past.world.released == n.past.world.released
    ensures AnswerTaken(t, n, m, m.past.deeds, l, message)
  {
    match message {
      case Lfu => m := OnlyAnswer(t, n, l, Lun, None);
      case Lua => m := Uninhibited(t, n, l);
      case Llt => m := AskToForce(t, n, l);
      case Lrt => m := AskToLift(t, n, l);
      // Answers to a request: this node made none.
      case _ => m := Say(t, n, Ignored(message));
    }
  }

  // ── Timers ─────────────────────────────────────────────────────────────────

  /** T12 ran out: the uninhibit message once more, then it is given up (section 10.3.1 e). */
  method RepeatUninhibit(t: Topology, n: Node, ghost w: World, l: LinkId) returns (m: Node)
    requires CoreAs(t, n, w) && l < |n.links| && n.past.loose == {}
    requires n.past.world == w.(links := SetLinkTimer(w.links, Uninhibit(l), false))
    ensures Core(t, m) && OnlyLinks(n, m) && m.past.loose == {} && m.past.world.released == n.past.world.released
    ensures m.links == n.links[l := n.links[l].(uninhibitAttempts := if n.links[l].uninhibitAttempts == 1 then 2 else 0)]
    ensures n.links[l].uninhibitAttempts == 1 ==> SentTo(t, m.past.deeds, t.links[l].linkset, t.links[l].slc, Lun, LinkOrRoute(t, n, l)) && Start(Uninhibit(l), T12) in m.past.deeds
  {
    var k := n.links[l].(uninhibitAttempts := if n.links[l].uninhibitAttempts == 1 then 2 else 0);
    OneTimerOthers(w.links, w.links, Uninhibit(l), false);
    if n.links[l].uninhibitAttempts == 1 {
      m := Adjust(t, n, w, l, k, Some(Lun), LinkOrRoute(t, n, l), Uninhibit(l), Some(T12));
    } else {
      m := GiveUp(t, n, w, l, k, n.links[l].uninhibitAttempts > 0);
    }
  }

  /** T13 ran out: the force uninhibit message once more, then it is given up (section 10.3.2 e). */
  method RepeatForce(t: Topology, n: Node, ghost w: World, l: LinkId) returns (m: Node)
    requires CoreAs(t, n, w) && l < |n.links| && n.past.loose == {}
    requires n.past.world == w.(links := SetLinkTimer(w.links, ForceUninhibit(l), false))
    ensures Core(t, m) && OnlyLinks(n, m) && m.past.loose == {} && m.past.world.released == n.past.world.released
    ensures m.links == n.links[l := n.links[l].(forceAttempts := if n.links[l].forceAttempts == 1 then 2 else 0)]
    ensures n.links[l].forceAttempts == 1 ==> SentTo(t, m.past.deeds, t.links[l].linkset, t.links[l].slc, Lfu, LinkOrRoute(t, n, l)) && Start(ForceUninhibit(l), T13) in m.past.deeds
  {
    var k := n.links[l].(forceAttempts := if n.links[l].forceAttempts == 1 then 2 else 0);
    OneTimerOthers(w.links, w.links, ForceUninhibit(l), false);
    if n.links[l].forceAttempts == 1 {
      m := Adjust(t, n, w, l, k, Some(Lfu), LinkOrRoute(t, n, l), ForceUninhibit(l), Some(T13));
    } else {
      m := GiveUp(t, n, w, l, k, n.links[l].forceAttempts > 0);
    }
  }

  /** An attempt is over, and nothing is repeated: its timer ran out. */
  method GiveUp(t: Topology, n: Node, ghost w: World, l: LinkId, k: Link, noted: bool) returns (m: Node)
    requires CoreAs(t, n, w) && l < |n.links| && n.past.loose == {}
    requires n.past.world == w.(links := n.past.world.links) && OthersAsBefore(w.links, n.past.world.links, l)
    requires k.up == n.links[l].up && LinkOk(k, Waiting(t, n.adjacentRestarting, n.restarting, l))
    requires LinkTimed(k, l, n.past.world.links)
    ensures Core(t, m)
    ensures OnlyLinks(n, m) && m.links == n.links[l := k] && m.past.loose == n.past.loose - {l}
    ensures m.past.world.released == n.past.world.released
  {
    m := n;
    if noted {
      m := Say(t, n, Note(UninhibitAbandoned, ALink(l)));
    }
    m := m.(links := n.links[l := k], past := m.past.(loose := n.past.loose - {l}));
    OneMoved(t, n.links, n.adjacentRestarting, n.restarting, n.past.loose, n.past.exempt, l, k);
    OneTimed(n.links, w.links, l, k, n.past.world.links);
  }

  /** T23 ran out: the inhibition is tested, while it lasts (section 10.6.2 of ITU-T Q.704). */
  method TestInhibition(t: Topology, n: Node, ghost w: World, l: LinkId) returns (m: Node)
    requires CoreAs(t, n, w) && l < |n.links| && n.past.loose == {}
    requires n.past.world == w.(links := SetLinkTimer(w.links, InhibitTest(l), false))
    ensures Core(t, m) && OnlyLinks(n, m) && m.past.loose == {} && m.past.world.released == n.past.world.released
    ensures m.links == n.links
    ensures n.links[l].inhibited ==> SentTo(t, m.past.deeds, t.links[l].linkset, t.links[l].slc, Lrt, LinkOrRoute(t, n, l)) && Start(InhibitTest(l), T23) in m.past.deeds
  {
    assert n.links[l := n.links[l]] == n.links;
    OneTimerOthers(w.links, w.links, InhibitTest(l), false);
    if n.links[l].inhibited {
      m := Adjust(t, n, w, l, n.links[l], Some(Lrt), LinkOrRoute(t, n, l), InhibitTest(l), Some(T23));
    } else {
      m := GiveUp(t, n, w, l, n.links[l], false);
    }
  }
}
