/** The handling of one event, and what holds between events. */
module Handling {
  import opened Options
  import opened RouteChoice
  import opened Signalling
  import opened Observer
  import opened Invariants
  import opened NodeState
  import opened LinkFacts
  import opened RouteManagement
  import opened Settling
  import opened Links
  import opened Inhibiting
  import opened RestartProcedure
  import opened Events
  import opened Timeouts

  /** No link is up, and no application server. */
  predicate NothingUp(links: seq<Link>, servers: seq<bool>) {
    (forall l | 0 <= l < |links| :: !links[l].up) && (forall s | 0 <= s < |servers| :: !servers[s])
  }

  /** An isolation is timed until a restart is due, unless a link came up just now. */
  ghost predicate Watched(n: Node) {
    && (n.past.world.node.isolation ==> n.isolated)
    && (n.isolated ==> n.past.world.node.isolation || n.restartDue || exists l :: 0 <= l < |n.links| && n.links[l].up)
  }

  /** The invariant between events. */
  ghost predicate Valid(t: Topology, n: Node) {
    && Ready(t, n) && Preventive(t, n)
    && n.accessible == ReachedNow(t, n) && n.restricted == RestrictedNow(t, n)
    && n.out == []
    && (n.isolated <==> NothingUp(n.links, n.servers))
    && (n.past.world.node.isolation ==> n.isolated)
    && (n.isolated ==> n.past.world.node.isolation || n.restartDue)
  }

  /** What an event, before it is settled, must keep. */
  ghost predicate Reacted(n: Node, m: Node) {
    && Watched(m) && m.past.given == n.past.given && n.past.deeds <= m.past.deeds && m.servers == n.servers && m.paused == n.paused && n.past.world.released <= m.past.world.released
  }

  // ── Timers ─────────────────────────────────────────────────────────────────

  lemma NobodyIsLate(links: seq<Link>, v: LinkView)
    requires LinksTimed(links, v)
    ensures Punctual(v)
  {
    forall l | l in v.late ensures v.late[l] < 2 {
      assert LinkTimed(links[l], l, v);
    }
  }

  method Expire(t: Topology, n: Node, timer: Timer) returns (m: Node, ghost w: World)
    requires Ready(t, n)
    ensures RanOut(t, m, w, timer)
    ensures w == n.past.world.(expired := n.past.world.expired + [timer])
    ensures m == n.(past := n.past.(log := m.past.log, trace := m.past.trace, world := m.past.world))
  {
    NobodyIsLate(n.links, n.past.world.links);
    var past := Record(t, n, Expired(timer));
    m := n.(past := past);
    w := n.past.world.(expired := n.past.world.expired + [timer]);
  }

  /** What the expiry of each timer does. */
  ghost predicate TimedOut(t: Topology, n: Node, m: Node, acts: set<Action>, timer: Timer)
    requires Shaped(t, n)
  {
    match timer
    case Changeover(l) => ChangeoverOver(t, n, m, acts, l)
    case Changeback(l) => ChangebackOver(t, n, m, acts, l)
    case Uninhibit(_) | ForceUninhibit(_) | InhibitTest(_) => Repeated(t, n, m, acts, timer)
    case AdjacentRestart(ls) =>
      if ls in n.adjacentRestarting then
        && |m.links| == |n.links| && Started(t, n.links, m.links, acts, ls, Diverted(n, ls)) && SameMarks(n, m)
        && m.restarting == n.restarting && m.adjacentRestarting == n.adjacentRestarting - {ls}
      else NothingMoved(n, m)
    case RestartAllowed(ls) => NothingMoved(n, m) && m.guardedLinksets == n.guardedLinksets - {ls}
    case Rerouting(d) =>
      && m.links == n.links && m.adjacentRestarting == n.adjacentRestarting && m.restarting == n.restarting
      && m.holding == n.holding - {d} && m.routes == n.routes && m.past.stale == n.past.stale
    case Prohibiting(d) => NothingMoved(n, m) && m.guarded == n.guarded - {d}
    case RouteSetTest(d, ls) => Tested(t, n, m, acts, d, ls)
    case Restart | RestartOverall => if n.restarting then RestartOver(t, n, m, acts) else NothingMoved(n, m)
    case Isolation => NothingMoved(n, m) && m.restartDue == (n.restartDue || n.isolated)
  }

  method LinkTimerExpired(t: Topology, n: Node, ghost w: World, timer: Timer) returns (m: Node)
    requires OfLink(timer) && RanOut(t, n, w, timer) && Preventive(t, n)
    ensures Ready(t, m) && Handled(n, m)
    ensures timer.link < |n.links| && timer.Changeover? && ChangingOver(n.links[timer.link].phase) ==>
              n.past.world.released + multiset{timer.link} <= m.past.world.released
    ensures timer.link < |n.links| && timer.Changeback? && ChangingBack(n.links[timer.link].phase) ==>
              if n.links[timer.link].phase == ChangebackDeclared(false) then m.links[timer.link].phase == ChangebackDeclared(true)
              else m.past.world.released == n.past.world.released + multiset{timer.link}
    ensures TimedOut(t, n, m, m.past.deeds, timer)
  {
    match timer {
      case Changeover(l) => m := ChangeoverExpired(t, n, w, l);
      case Changeback(l) => m := ChangebackExpired(t, n, w, l);
      case _ => m := InhibitionTimerExpired(t, n, w, timer);
    }
  }

  method OtherTimerExpired(t: Topology, n: Node, ghost w: World, timer: Timer) returns (m: Node)
    requires !OfLink(timer) && !timer.Isolation? && RanOut(t, n, w, timer)
    ensures Ready(t, m) && Handled(n, m) && TimedOut(t, n, m, m.past.deeds, timer)
    ensures timer.Prohibiting? ==> m.accessible == n.accessible && NothingMoved(n, m)
  {
    match timer {
      case Rerouting(d) => m := ReroutingExpired(t, n, w, d);
      case Prohibiting(d) => m := ProhibitingExpired(t, n, w, d);
      case RouteSetTest(d, ls) => m := RouteSetTestExpired(t, n, w, d, ls);
      case Restart | RestartOverall => m := RestartExpired(t, n, w, timer);
      case _ => m := LinksetTimerExpired(t, n, w, timer);
    }
  }

  /** What an expiry does hangs on the state alone, not on the log. */
  lemma ExpiredAlike(t: Topology, n: Node, past: Past, m: Node, acts: set<Action>, timer: Timer)
    requires Shaped(t, n) && Shaped(t, n.(past := past)) && past.stale == n.past.stale && TimedOut(t, n.(past := past), m, acts, timer)
    ensures TimedOut(t, n, m, acts, timer)
  {
    match timer
    case Changeover(l) =>
      if l < |n.links| && ChangingOver(n.links[l].phase) {
        CompletedAlike(t, n, n.(past := past), m, acts, l, None);
      }
    case _ =>
  }

  method LinkTimerRanOut(t: Topology, n: Node, timer: Timer) returns (m: Node)
    requires Valid(t, n) && OfLink(timer)
    ensures Ready(t, m) && Reacted(n, m) && m.past.world.expired == n.past.world.expired + [timer]
    ensures ReleasedInTime(n, m, timer) && TimedOut(t, n, m, m.past.deeds, timer)
    ensures OthersKept(n, m, Timeout(timer))
  {
    var expired, w := Expire(t, n, timer);
    m := LinkTimerExpired(t, expired, w, timer);
    ExpiredAlike(t, n, expired.past, m, m.past.deeds, timer);
  }

  method OtherTimerRanOut(t: Topology, n: Node, timer: Timer) returns (m: Node)
    requires Valid(t, n) && !OfLink(timer)
    ensures Ready(t, m) && Reacted(n, m) && m.past.world.expired == n.past.world.expired + [timer]
    ensures TimedOut(t, n, m, m.past.deeds, timer)
    ensures OthersKept(n, m, Timeout(timer))
    ensures timer.Prohibiting? ==> m.accessible == n.accessible && NothingMoved(n, m)
  {
    var expired, w := Expire(t, n, timer);
    if timer.Isolation? {
      m := IsolationExpired(t, expired, w);
    } else {
      m := OtherTimerExpired(t, expired, w, timer);
    }
    ExpiredAlike(t, n, expired.past, m, m.past.deeds, timer);
  }

  method TimerRanOut(t: Topology, n: Node, timer: Timer) returns (m: Node)
    requires Valid(t, n)
    ensures Ready(t, m) && Reacted(n, m) && m.past.world.expired == n.past.world.expired + [timer]
    ensures ReleasedInTime(n, m, timer) && TimedOut(t, n, m, m.past.deeds, timer)
    ensures OthersKept(n, m, Timeout(timer))
    ensures timer.Prohibiting? ==> m.accessible == n.accessible && NothingMoved(n, m)
  {
    if OfLink(timer) {
      m := LinkTimerRanOut(t, n, timer);
    } else {
      m := OtherTimerRanOut(t, n, timer);
    }
  }

  /** The timer of a link that buffers traffic ran out: the traffic is released, unless a declared changeback is repeated first. */
  ghost predicate ReleasedInTime(n: Node, m: Node, timer: Timer) {
    OfLink(timer) && timer.link < |n.links| ==>
      && (timer.Changeover? && ChangingOver(n.links[timer.link].phase) ==>
            n.past.world.released + multiset{timer.link} <= m.past.world.released)
      && (timer.Changeback? && ChangingBack(n.links[timer.link].phase) ==>
            if n.links[timer.link].phase == ChangebackDeclared(false)
            then timer.link < |m.links| && m.links[timer.link].phase == ChangebackDeclared(true)
            else m.past.world.released == n.past.world.released + multiset{timer.link})
  }

  // ── One event ──────────────────────────────────────────────────────────────

  method ServerChanged(t: Topology, n: Node, index: nat, up: bool) returns (m: Node)
    requires Ready(t, n)
    ensures Ready(t, m) && m == n.(servers := if index < |n.servers| then n.servers[index := up] else n.servers)
  {
    m := if index < |n.servers| then n.(servers := n.servers[index := up]) else n;
  }

  method DestinationPaused(t: Topology, n: Node, d: PointCode, paused: bool) returns (m: Node)
    requires Ready(t, n)
    ensures Ready(t, m) && m == n.(paused := if d in n.routes then Put(n.paused, d, paused) else n.paused)
  {
    m := if d in n.routes then n.(paused := Put(n.paused, d, paused)) else n;
  }

  /**
   All that an event does to links, routes, holds, marks and restarts, and the actions
   that come of it; `acts` are those handed out with it.
   */
  ghost predicate TakenIn(t: Topology, n: Node, m: Node, acts: set<Action>, input: Input)
    requires Shaped(t, n)
  {
    match input
    case LinkUp(l) => if l < |n.links| then LinkTaken(t, n, m, acts, l) else NothingMoved(n, m)
    case LinkDown(l, bsnt) =>
      if l < |n.links| then WentDown(t, n, m, acts, l, bsnt) && SameMarks(n, m) && m.restarting == n.restarting else NothingMoved(n, m)
    case Received(l, opc, slc, message) => if l < |n.links| then MessageTaken(t, n, m, acts, l, opc, slc, message) else NothingMoved(n, m)
    case Server(index, up) => m.servers == (if index < |n.servers| then n.servers[index := up] else n.servers) && NothingMoved(n, m)
    case Paused(d, paused) => m.paused == (if d in n.routes then Put(n.paused, d, paused) else n.paused) && NothingMoved(n, m)
    case Unroutable(_, _) => NothingMoved(n, m)
    case Timeout(timer) => TimedOut(t, n, m, acts, timer)
  }

  /** Nothing that an event decides is decided otherwise. */
  ghost predicate Undisturbed(m: Node, after: Node) {
    && NothingMoved(m, after) && after.servers == m.servers && after.paused == m.paused && after.restartDue == m.restartDue
    && SameRestarts(m, after) && after.guardedLinksets == m.guardedLinksets
  }

  lemma StillLinkTaken(t: Topology, n: Node, m: Node, after: Node, acts: set<Action>, more: set<Action>, l: LinkId)
    requires Shaped(t, n) && l < |n.links| && LinkTaken(t, n, m, acts, l) && Undisturbed(m, after) && acts <= more
    ensures LinkTaken(t, n, after, more, l)
  {
    if !n.restarting && !Due(n) && n.links[l].phase == Closed && !n.links[l].inhibited {
      StillAnnounced(t, acts, more, l, RestoredLink(t, Raised(n, l), l), BeginsBeside(t, Raised(n, l), l));
    }
  }

  lemma StillDown(t: Topology, n: Node, m: Node, after: Node, acts: set<Action>, more: set<Action>, l: LinkId, bsnt: nat)
    requires Shaped(t, n) && l < |n.links| && WentDown(t, n, m, acts, l, bsnt) && Undisturbed(m, after) && acts <= more
    ensures WentDown(t, n, after, more, l, bsnt)
  {
    StillLeft(t, acts, more, l, n.links[l].phase, LeftLink(t, Down(n, l, bsnt), l, n.links[l].ordered.Some?), n.links[l].ordered);
  }

  lemma StillCompleted(t: Topology, n: Node, m: Node, after: Node, acts: set<Action>, more: set<Action>, l: LinkId, fsnc: Option<nat>)
    requires Shaped(t, n) && l < |n.links| && Completed(t, n, m, acts, l, fsnc) && Undisturbed(m, after) && acts <= more
    ensures Completed(t, n, after, more, l, fsnc)
  {
    if n.links[l].back && n.links[l].up && !n.links[l].inhibited {
      StillAnnounced(t, acts, more, l, RestoredLink(t, OutOfTraffic(n, l), l), BeginsBeside(t, OutOfTraffic(n, l), l));
    }
  }

  lemma StillOrdered(t: Topology, n: Node, m: Node, after: Node, acts: set<Action>, more: set<Action>, l: LinkId, fsnc: Option<nat>, emergency: bool)
    requires Shaped(t, n) && l < |n.links| && OrderTaken(t, n, m, acts, l, fsnc, emergency) && Undisturbed(m, after) && acts <= more
    ensures OrderTaken(t, n, after, more, l, fsnc, emergency)
  {
    if !n.links[l].up && ChangingOver(n.links[l].phase) {
      StillCompleted(t, n, m, after, acts, more, l, fsnc);
    }
  }

  lemma StillAcknowledged(t: Topology, n: Node, m: Node, after: Node, acts: set<Action>, more: set<Action>, l: LinkId, fsnc: Option<nat>)
    requires Shaped(t, n) && l < |n.links| && AcknowledgementTaken(t, n, m, acts, l, fsnc) && Undisturbed(m, after) && acts <= more
    ensures AcknowledgementTaken(t, n, after, more, l, fsnc)
  {
    if n.links[l].phase == ChangeoverOrdered {
      StillCompleted(t, n, m, after, acts, more, l, fsnc);
    }
  }

  lemma StillBack(t: Topology, n: Node, m: Node, after: Node, acts: set<Action>, more: set<Action>, l: LinkId)
    requires Shaped(t, n) && l < |n.links| && WentBack(t, n, m, acts, l) && Undisturbed(m, after) && acts <= more
    ensures WentBack(t, n, after, more, l)
  {
    if n.links[l].phase == Closed && n.links[l].up {
      StillAnnounced(t, acts, more, l, RestoredLink(t, n, l), BeginsBeside(t, n, l));
    }
  }

  lemma StillReleased(t: Topology, n: Node, m: Node, after: Node, acts: set<Action>, more: set<Action>, l: LinkId)
    requires Shaped(t, n) && l < |n.links| && ReleaseTaken(t, n, m, acts, l) && Undisturbed(m, after) && acts <= more
    ensures ReleaseTaken(t, n, after, more, l)
  {
    if n.links[l].inhibited {
      StillBack(t, n.(links := n.links[l := Returned(n.links[l].(forceAttempts := 0))]), m, after, acts, more, l);
    }
  }

  lemma StillLinkTold(t: Topology, n: Node, m: Node, after: Node, acts: set<Action>, more: set<Action>, l: LinkId, message: Message)
    requires Shaped(t, n) && l < |n.links| && LinkTold(t, n, m, acts, l, message) && Undisturbed(m, after) && acts <= more
    ensures LinkTold(t, n, after, more, l, message)
  {
    match message
    case Xco(fsn) => StillOrdered(t, n, m, after, acts, more, l, Some(fsn), false);
    case Coo(_) => StillOrdered(t, n, m, after, acts, more, l, None, true);
    case Eco => StillOrdered(t, n, m, after, acts, more, l, None, false);
    case Xca(fsn) => StillAcknowledged(t, n, m, after, acts, more, l, Some(fsn));
    case Coa(_) | Eca => StillAcknowledged(t, n, m, after, acts, more, l, None);
    case Lun => StillReleased(t, n, m, after, acts, more, l);
    case _ =>
  }

  lemma StillStarted(t: Topology, before: seq<Link>, links: seq<Link>, acts: set<Action>, more: set<Action>, ls: LinksetId, diverted: bool)
    requires t.Valid() && |before| == |links| == |t.links| && Started(t, before, links, acts, ls, diverted) && acts <= more
    ensures Started(t, before, links, more, ls, diverted)
  {
    forall l: nat | l < |before| && before[l].phase == AwaitRestart && t.links[l].linkset == ls
      ensures StartsTraffic(t, more, l, before[l], links[l])
    {
      StillAnnounced(t, acts, more, l, links[l], false);
    }
  }

  lemma StillAllowed(t: Topology, n: Node, m: Node, after: Node, acts: set<Action>, more: set<Action>, ls: LinksetId)
    requires Shaped(t, n) && ls < |t.linksets| && TrafficAllowed(t, n, m, acts, ls) && Undisturbed(m, after) && acts <= more
    ensures TrafficAllowed(t, n, after, more, ls)
  {
    if !n.restarting && ls in n.adjacentRestarting && ls in n.traSent {
      StillStarted(t, n.links, m.links, acts, more, ls, Diverted(n, ls));
    }
  }

  lemma StillAboutTold(t: Topology, n: Node, m: Node, after: Node, acts: set<Action>, more: set<Action>, ls: LinksetId, slc: Byte, message: Message)
    requires Shaped(t, n) && ls < |t.linksets| && AboutTold(t, n, m, acts, ls, slc, message) && Undisturbed(m, after) && acts <= more
    ensures AboutTold(t, n, after, more, ls, slc, message)
  {
    forall i: nat | FirstWithCode(t, ls, slc, i)
      ensures t.linksets[ls].links[i] < |n.links| && LinkTold(t, n, after, more, t.linksets[ls].links[i], message)
    {
      StillLinkTold(t, n, m, after, acts, more, t.linksets[ls].links[i], message);
    }
  }

  lemma StillRouteTold(t: Topology, n: Node, m: Node, after: Node, acts: set<Action>, more: set<Action>, ls: LinksetId, message: Message)
    requires Shaped(t, n) && ls < |t.linksets| && t.linksets[ls].adjacent.Some?
    requires RouteTold(t, n, m, acts, ls, message) && Undisturbed(m, after) && acts <= more
    ensures RouteTold(t, n, after, more, ls, message)
  {
    if message.Tra? {
      StillAllowed(t, n, m, after, acts, more, ls);
    }
  }

  lemma StillAdjacentTold(t: Topology, n: Node, m: Node, after: Node, acts: set<Action>, more: set<Action>, ls: LinksetId, slc: Byte, message: Message)
    requires Shaped(t, n) && ls < |t.linksets| && t.linksets[ls].adjacent.Some?
    requires AdjacentTold(t, n, m, acts, ls, slc, message) && Undisturbed(m, after) && acts <= more
    ensures AdjacentTold(t, n, after, more, ls, slc, message)
  {
    if OfRoutes(message) {
      StillRouteTold(t, n, m, after, acts, more, ls, message);
    } else if !message.Cbd? {
      StillAboutTold(t, n, m, after, acts, more, ls, slc, message);
    }
  }

  lemma StillMessageTaken(t: Topology, n: Node, m: Node, after: Node, acts: set<Action>, more: set<Action>, l: LinkId, opc: PointCode, slc: Byte,
                          message: Message)
    requires Shaped(t, n) && l < |n.links| && MessageTaken(t, n, m, acts, l, opc, slc, message) && Undisturbed(m, after) && acts <= more
    ensures MessageTaken(t, n, after, more, l, opc, slc, message)
  {
    var ls := LinksetOf(t, opc, l);
    if !FromAnywhere(message) && ls.Some? && (n.restarting ==> WhileRestarting(message)) {
      StillAdjacentTold(t, n, m, after, acts, more, ls.value, slc, message);
    }
  }

  lemma StillTimedOut(t: Topology, n: Node, m: Node, after: Node, acts: set<Action>, more: set<Action>, timer: Timer)
    requires Shaped(t, n) && TimedOut(t, n, m, acts, timer) && Undisturbed(m, after) && acts <= more
    requires timer.Prohibiting? ==> after.guarded == m.guarded
    ensures TimedOut(t, n, after, more, timer)
  {
    match timer
    case Changeover(l) =>
      if l < |n.links| && ChangingOver(n.links[l].phase) {
        StillCompleted(t, n, m, after, acts, more, l, None);
      }
    case Changeback(l) =>
      if l < |n.links| && n.links[l].phase == ChangebackDeclared(false) {
        StillDeclared(t, acts, more, t.links[l].linkset, t.links[l].slc, n.links[l].declared);
      }
    case AdjacentRestart(ls) =>
      if ls in n.adjacentRestarting {
        StillStarted(t, n.links, m.links, acts, more, ls, Diverted(n, ls));
      }
    case _ =>
  }

  /** Settling, watching and handing out disturb nothing, and only add to what is asked for. */
  lemma StillTakenIn(t: Topology, n: Node, m: Node, after: Node, acts: set<Action>, more: set<Action>, input: Input)
    requires Shaped(t, n) && TakenIn(t, n, m, acts, input) && Undisturbed(m, after) && acts <= more
    requires input.Timeout? && input.timer.Prohibiting? ==> after.guarded == m.guarded
    ensures TakenIn(t, n, after, more, input)
  {
    match input
    case LinkUp(l) => if l < |n.links| { StillLinkTaken(t, n, m, after, acts, more, l); }
    case LinkDown(l, bsnt) => if l < |n.links| { StillDown(t, n, m, after, acts, more, l, bsnt); }
    case Received(l, opc, slc, message) => if l < |n.links| { StillMessageTaken(t, n, m, after, acts, more, l, opc, slc, message); }
    case Timeout(timer) => StillTimedOut(t, n, m, after, acts, more, timer);
    case _ =>
  }

  /** What only some events change: what is known of servers and paused destinations, whether a restart is due, and how often one began. */
  ghost predicate OthersKept(n: Node, m: Node, input: Input) {
    && (!input.Server? ==> m.servers == n.servers) && (!input.Paused? ==> m.paused == n.paused)
    && m.restartDue == (if input.LinkUp? && input.link < |n.links| then n.restartDue && n.restarting && n.isolated
                        else if input == Timeout(Isolation) then n.restartDue || n.isolated
                        else n.restartDue)
    && m.past.world.node.begun == n.past.world.node.begun + if input.LinkUp? && input.link < |n.links| && Due(n) then 1 else 0
  }

  /** A route set test whose sender is right. */
  ghost predicate NothingAsked(t: Topology, n: Node, input: Input)
    requires Shaped(t, n)
  {
    && input.Received? && input.link < |n.links| && !n.restarting && LinksetOf(t, input.opc, input.link).Some?
    && NothingToAnswer(t, n, LinksetOf(t, input.opc, input.link).value, input.message)
  }

  /** What an event about a link leads to. */
  method OnLinkEvent(t: Topology, n: Node, input: Input) returns (m: Node)
    requires Valid(t, n) && (input.LinkUp? || input.LinkDown? || input.Received?) && input.link < |n.links|
    ensures Ready(t, m) && Reacted(n, m) && m.past.world.expired == n.past.world.expired
    ensures TakenIn(t, n, m, m.past.deeds, input) && OthersKept(n, m, input)
    ensures input.Received? && input.message.Lin? ==> SameReachable(t, n, m)
    ensures NothingAsked(t, n, input) ==> m == n
  {
    match input {
      case LinkUp(l) => m := LinkCameUp(t, n, l);
      case LinkDown(l, bsnt) => m := LinkWentDown(t, n, l, bsnt);
      case Received(l, opc, slc, message) => m := MessageCame(t, n, l, opc, slc, message);
    }
  }

  /** A report about a server or a destination; nothing else is done about links there are none of. */
  method OnReport(t: Topology, n: Node, input: Input) returns (m: Node)
    requires Valid(t, n) && !input.Timeout? && !((input.LinkUp? || input.LinkDown? || input.Received?) && input.link < |n.links|)
    ensures Ready(t, m) && m.past == n.past && Watched(m) && TakenIn(t, n, m, m.past.deeds, input) && OthersKept(n, m, input)
    ensures !input.Server? && !input.Paused? ==> m == n
  {
    m := n;
    match input {
      case Server(index, up) => m := ServerChanged(t, n, index, up);
      case Paused(d, paused) => m := DestinationPaused(t, n, d, paused);
      case _ =>
    }
  }

  /** What the expiry that `input` is, if it is one, adds. */
  function Expiries(input: Input): seq<Timer> { if input.Timeout? then [input.timer] else [] }

  method React(t: Topology, n: Node, input: Input) returns (m: Node)
    requires Valid(t, n)
    ensures Ready(t, m) && Watched(m) && TakenIn(t, n, m, m.past.deeds, input) && OthersKept(n, m, input)
    ensures n.past.deeds <= m.past.deeds && (NothingAsked(t, n, input) ==> m == n)
    ensures m.past.given == n.past.given && n.past.world.released <= m.past.world.released
    ensures m.past.world.expired == n.past.world.expired + Expiries(input)
    ensures input.Unroutable? || (input.Received? && input.message.Lin?) ==> SameReachable(t, n, m)
    ensures input.Timeout? ==> ReleasedInTime(n, m, input.timer)
    ensures input.Timeout? && input.timer.Prohibiting? ==> m.accessible == n.accessible && NothingMoved(n, m)
  {
    if input.Timeout? {
      m := TimerRanOut(t, n, input.timer);
    } else if (input.LinkUp? || input.LinkDown? || input.Received?) && input.link < |n.links| {
      m := OnLinkEvent(t, n, input);
    } else {
      m := OnReport(t, n, input);
    }
  }

  /** Section 9.4.1 of ITU-T Q.704: the isolation of this node is timed. */
  method WatchIsolation(t: Topology, n: Node) returns (m: Node)
    requires Ready(t, n) && Watched(n)
    ensures Ready(t, m)
    ensures Logs(n.(isolated := NothingUp(n.links, n.servers)), m, n.past.world.(node := m.past.world.node))
    ensures m.past.world.node.begun == n.past.world.node.begun && (n.isolated == NothingUp(n.links, n.servers) ==> m == n)
    ensures (m.past.world.node.isolation ==> m.isolated) && (m.isolated ==> m.past.world.node.isolation || m.restartDue)
  {
    var isolated := NothingUp(n.links, n.servers);
    m := n;
    if isolated != n.isolated {
      m := NodeTimer(t, n, Isolation, if isolated then Some(T1) else None);
      m := m.(isolated := isolated);
    }
  }

  /** What is said and known is brought in line with what is, and the isolation is watched. */
  method Conclude(t: Topology, n: Node) returns (m: Node)
    requires Ready(t, n) && Watched(n)
    ensures Ready(t, m) && Settled(t, m)
    ensures m.isolated == NothingUp(m.links, m.servers)
    ensures (m.past.world.node.isolation ==> m.isolated) && (m.isolated ==> m.past.world.node.isolation || m.restartDue)
    ensures Undisturbed(n, m) && m.past.given == n.past.given && n.past.deeds <= m.past.deeds
    ensures m.past.world.node.begun == n.past.world.node.begun && m.guarded == Guarding(n, n.accessible - ReachedNow(t, n))
    ensures Settled(t, n) && n.isolated == NothingUp(n.links, n.servers) ==> m == n
    ensures m.past.world.released == n.past.world.released && m.past.world.expired == n.past.world.expired
    ensures n.accessible == ReachedNow(t, n) ==> m.past.world.flips == n.past.world.flips
  {
    m := Settle(t, n);
    m := WatchIsolation(t, m);
  }

  /** The actions are handed out. */
  method HandOut(t: Topology, n: Node) returns (m: Node, actions: seq<Action>)
    requires Ready(t, n) && Settled(t, n) && n.isolated == NothingUp(n.links, n.servers)
    requires (n.past.world.node.isolation ==> n.isolated) && (n.isolated ==> n.past.world.node.isolation || n.restartDue)
    ensures Valid(t, m) && Settled(t, m)
    ensures Undisturbed(n, m) && m.guarded == n.guarded && Deeds(actions) == n.past.deeds && actions == n.out
    ensures m.past.given == n.past.given + actions && m.past.world == n.past.world
  {
    actions := n.out;
    m := n.(out := [], past := n.past.(given := n.past.given + n.out, deeds := {}));
    if !n.restarting {
      TidyIsWarned(t, n);
    }
  }

  /** The end of T8 loses no destination, so none is guarded anew. */
  lemma NothingLost(t: Topology, n: Node, m: Node)
    requires Shaped(t, n) && Shaped(t, m) && n.accessible == ReachedNow(t, n) && m.servers == n.servers && m.paused == n.paused
    requires m.accessible == n.accessible && NothingMoved(n, m)
    ensures Guarding(m, m.accessible - ReachedNow(t, m)) == m.guarded
  {}

  /** One event that may have changed what is available. */
  method HandleEvent(t: Topology, n: Node, input: Input) returns (m: Node, actions: seq<Action>)
    requires Valid(t, n)
    ensures Valid(t, m) && Settled(t, m) && TakenIn(t, n, m, Deeds(actions), input) && OthersKept(n, m, input)
    ensures m.past.given == n.past.given + actions
    ensures NothingAsked(t, n, input) && Settled(t, n) ==> actions == []
    ensures m.past.world.expired == n.past.world.expired + Expiries(input)
    ensures input.Unroutable? || (input.Received? && input.message.Lin?) ==> m.past.world.flips == n.past.world.flips
    ensures input.Timeout? ==> ReleasedInTime(n, m, input.timer)
  {
    var reacted := React(t, n, input);
    var settled := Conclude(t, reacted);
    m, actions := HandOut(t, settled);
    if input.Timeout? && input.timer.Prohibiting? {
      NothingLost(t, n, reacted);
    }
    StillTakenIn(t, n, reacted, m, reacted.past.deeds, Deeds(actions), input);
  }

  lemma StillPreventive(t: Topology, n: Node, m: Node)
    requires Shaped(t, n) && Shaped(t, m) && Preventive(t, n)
    requires m.links == n.links && m.servers == n.servers && m.paused == n.paused && m.routes == n.routes && m.restarting == n.restarting
    requires n.told <= m.told
    ensures Preventive(t, m)
  {}

  /** A message that could not be passed on changes no availability, so there is nothing to settle. */
  method HandleUnroutable(t: Topology, n: Node, tfpUnknown: bool, d: PointCode, l: LinkId) returns (m: Node, actions: seq<Action>)
    requires Valid(t, n) && l < |n.links|
    ensures Valid(t, m)
    ensures m.past.given == n.past.given + actions
    ensures m.past.world.expired == n.past.world.expired
    ensures m.past.world.flips == n.past.world.flips && NothingMoved(n, m) && OthersKept(n, m, Unroutable(d, l))
    ensures actions == if Answered(t, n, tfpUnknown, d, t.links[l].linkset)
                       then [Send(t.linksets[t.links[l].linkset].adjacent.value, 0, Tfp(d), Adjacent(t.links[l].linkset, None)),
                             Start(Prohibiting(d), T8)]
                       else []
  {
    m := AnswerUnroutable(t, n, tfpUnknown, d, l);
    StillPreventive(t, n, m);
    actions := m.out;
    m := m.(out := [], past := m.past.(given := m.past.given + m.out, deeds := {}));
  }
}
