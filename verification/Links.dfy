/**
 Links: restoration and changeback, failure and changeover (clauses 5 and 6 of
 ITU-T Q.704), and the start of an adjacent point's restart (section 9.3).
 */
module Links {
  import opened Options
  import opened RouteChoice
  import opened Signalling
  import opened Observer
  import opened Invariants
  import opened NodeState
  import opened LinkFacts
  import opened RouteMarks
  import opened RouteManagement
  import opened Settling

  /** Only the links changed. */
  ghost predicate OnlyLinks(n: Node, m: Node) {
    && m.adjacentRestarting == n.adjacentRestarting && m.traSent == n.traSent && m.traReceived == n.traReceived
    && m.guardedLinksets == n.guardedLinksets && m.synced == n.synced
    && m.servers == n.servers && m.routes == n.routes && m.paused == n.paused
    && m.accessible == n.accessible && m.restricted == n.restricted && m.told == n.told
    && m.holding == n.holding && m.deferred == n.deferred && m.guarded == n.guarded
    && m.restarting == n.restarting && m.restartDue == n.restartDue && m.isolated == n.isolated && m.nextCode == n.nextCode
    && m.past.given == n.past.given && m.past.stale == n.past.stale && m.past.exempt == n.past.exempt && n.past.deeds <= m.past.deeds
    && m.past.world == n.past.world.(links := m.past.world.links, released := m.past.world.released, asked := m.past.world.asked)
  }

  /** What moving a link never changes; what was released stays released. */
  ghost predicate Steady(n: Node, m: Node) {
    && m.servers == n.servers && m.paused == n.paused && m.restarting == n.restarting
    && m.restartDue == n.restartDue && m.isolated == n.isolated
    && m.past.given == n.past.given && m.past.exempt == n.past.exempt && n.past.deeds <= m.past.deeds
    && m.past.world.node == n.past.world.node && m.past.world.expired == n.past.world.expired
    && n.past.world.released <= m.past.world.released
  }

  /** The restarts beside this node, and what was said and heard of them, are as before. */
  ghost predicate SameRestarts(n: Node, m: Node) {
    m.adjacentRestarting == n.adjacentRestarting && m.traSent == n.traSent && m.traReceived == n.traReceived
  }

  // ── Restoration and changeback ─────────────────────────────────────────────

  /** A link whose restoration only needs its new place: nothing is asked for. */
  method PlaceLink(t: Topology, n: Node, l: LinkId, k: Link) returns (m: Node)
    requires Core(t, n) && l < |n.links|
    requires k.up == n.links[l].up && LinkOk(k, Waiting(t, n.adjacentRestarting, n.restarting, l)) && LinkTimed(k, l, n.past.world.links)
    ensures Core(t, m) && m == n.(links := n.links[l := k], past := n.past.(loose := n.past.loose - {l}))
  {
    m := n.(links := n.links[l := k], past := n.past.(loose := n.past.loose - {l}));
    OneMoved(t, n.links, n.adjacentRestarting, n.restarting, n.past.loose, n.past.exempt, l, k);
    OneTimed(n.links, n.past.world.links, l, k, n.past.world.links);
  }

  function LinkOf(timer: Timer): LinkId
    requires OfLink(timer)
  {
    match timer
    case Changeover(l) => l
    case Changeback(l) => l
    case InhibitTest(l) => l
    case Uninhibit(l) => l
    case ForceUninhibit(l) => l
  }

  lemma OneTimerOthers(v: LinkView, w: LinkView, timer: Timer, on: bool)
    requires OfLink(timer) && OthersAsBefore(v, w, LinkOf(timer))
    ensures OthersAsBefore(v, SetLinkTimer(w, timer, on), LinkOf(timer))
  {}

  /** Say something about a link, and start or stop one of its timers as its new state asks. */
  method Adjust(t: Topology, n: Node, ghost w: World, l: LinkId, k: Link, message: Option<Message>, path: Path, timer: Timer, on: Option<Delay>) returns (m: Node)
    requires CoreAs(t, n, w) && l < |n.links| && OfLink(timer) && LinkOf(timer) == l
    requires n.past.world == w.(links := n.past.world.links, asked := n.past.world.asked) && OthersAsBefore(w.links, n.past.world.links, l)
    requires message.Some? ==> !message.value.Tfp? && !message.value.Tfa?
    requires k.up == n.links[l].up && LinkOk(k, Waiting(t, n.adjacentRestarting, n.restarting, l))
    requires LinkTimed(k, l, SetLinkTimer(n.past.world.links, timer, on.Some?))
    ensures Core(t, m)
    ensures OnlyLinks(n, m) && m.links == n.links[l := k] && m.past.loose == n.past.loose - {l}
    ensures m.past.world.released == n.past.world.released
    ensures message.Some? ==> SentTo(t, m.past.deeds, t.links[l].linkset, t.links[l].slc, message.value, path)
    ensures TimerAction(timer, on) in m.past.deeds
  {
    m := n;
    if message.Some? {
      m := SendTo(t, n, t.links[l].linkset, t.links[l].slc, message.value, path);
    }
    m := LinkTimer(t, m, timer, on);
    m := m.(links := n.links[l := k], past := m.past.(loose := n.past.loose - {l}));
    OneTimerOthers(w.links, n.past.world.links, timer, on.Some?);
    OneMoved(t, n.links, n.adjacentRestarting, n.restarting, n.past.loose, n.past.exempt, l, k);
    OneTimed(n.links, w.links, l, k, m.past.world.links);
  }

  /** Section 6.4 of ITU-T Q.704: the time-controlled diversion under T3. */
  method TimeControlledChangeback(t: Topology, n: Node, l: LinkId) returns (m: Node)
    requires Core(t, n) && l < |n.links| && Late(n.links[l]) && !Waiting(t, n.adjacentRestarting, n.restarting, l)
    ensures Core(t, m) && OnlyLinks(n, m) && m.past.world.released == n.past.world.released
    ensures m.links == n.links[l := n.links[l].(phase := ChangebackTimed)] && m.past.loose == n.past.loose - {l}
    ensures Hold(l) in m.past.deeds && Start(Changeback(l), T3) in m.past.deeds
  {
    var k := n.links[l].(phase := ChangebackTimed);
    m := n.(links := n.links[l := k], past := n.past.(loose := n.past.loose - {l}));
    m := BufferLink(t, m, l);
    m := LinkTimer(t, m, Changeback(l), Some(T3));
    OneMoved(t, n.links, n.adjacentRestarting, n.restarting, n.past.loose, n.past.exempt, l, k);
    OneTimed(n.links, n.past.world.links, l, k, m.past.world.links);
  }

  /** A declaration for each alternative, in order, with consecutive codes. */
  function Declarations(code: Byte, alternatives: seq<LinkId>): seq<(Byte, LinkId)> {
    seq(|alternatives|, i requires 0 <= i < |alternatives| => ((code + i) % 256, alternatives[i]))
  }

  /** Each declaration was sent behind the traffic of its link. */
  ghost predicate AllDeclared(t: Topology, acts: set<Action>, ls: LinksetId, slc: Byte, declared: seq<(Byte, LinkId)>)
    requires ls < |t.linksets|
  {
    forall p | p in declared :: SentTo(t, acts, ls, slc, Cbd(p.0), Behind(p.1))
  }

  lemma StillDeclared(t: Topology, acts: set<Action>, more: set<Action>, ls: LinksetId, slc: Byte, declared: seq<(Byte, LinkId)>)
    requires ls < |t.linksets| && AllDeclared(t, acts, ls, slc, declared) && acts <= more
    ensures AllDeclared(t, more, ls, slc, declared)
  {}

  /** One changeback declaration on each link that carried the traffic (section 6.3.5 of ITU-T Q.704). */
  method Declare(t: Topology, n: Node, ls: LinksetId, slc: Byte, alternatives: seq<LinkId>) returns (m: Node, declared: seq<(Byte, LinkId)>)
    requires Recorded(t, n) && ls < |t.linksets|
    ensures Recorded(t, m) && Logs(n.(nextCode := (n.nextCode + |alternatives|) % 256), m, n.past.world)
    ensures declared == Declarations(n.nextCode, alternatives) && AllDeclared(t, m.past.deeds, ls, slc, declared)
  {
    m, declared := n, [];
    var i := 0;
    while i < |alternatives|
      invariant 0 <= i <= |alternatives|
      invariant Recorded(t, m) && Logs(n.(nextCode := (n.nextCode + i) % 256), m, n.past.world)
      invariant |declared| == i && forall k | 0 <= k < i :: declared[k] == ((n.nextCode + k) % 256, alternatives[k])
      invariant AllDeclared(t, m.past.deeds, ls, slc, declared)
    {
      var code := m.nextCode;
      ghost var before := m.past.deeds;
      m := SendTo(t, m.(nextCode := (m.nextCode + 1) % 256), ls, slc, Cbd(code), Behind(alternatives[i]));
      StillDeclared(t, before, m.past.deeds, ls, slc, declared);
      declared := declared + [(code, alternatives[i])];
      i := i + 1;
    }
  }

  /** Section 6.3 of ITU-T Q.704: the sequence control procedure. */
  method DeclareChangeback(t: Topology, n: Node, l: LinkId, alternatives: seq<LinkId>) returns (m: Node)
    requires Core(t, n) && l < |n.links| && Late(n.links[l]) && !Waiting(t, n.adjacentRestarting, n.restarting, l)
    requires alternatives != []
    ensures Core(t, m) && Steady(n, m) && m.past.loose == n.past.loose - {l}
    ensures m.links == n.links[l := n.links[l].(phase := ChangebackDeclared(false), declared := Declarations(n.nextCode, alternatives))]
    ensures SameMarks(n, m) && Hold(l) in m.past.deeds && Start(Changeback(l), T4) in m.past.deeds
    ensures AllDeclared(t, m.past.deeds, t.links[l].linkset, t.links[l].slc, m.links[l].declared)
    ensures SameRestarts(n, m)
  {
    var declared;
    m := BufferLink(t, n, l);
    m, declared := Declare(t, m, t.links[l].linkset, t.links[l].slc, alternatives);
    ghost var acts := m.past.deeds;
    var k := n.links[l].(phase := ChangebackDeclared(false), declared := declared);
    m := m.(links := n.links[l := k], past := m.past.(loose := n.past.loose - {l}));
    m := LinkTimer(t, m, Changeback(l), Some(T4));
    StillDeclared(t, acts, m.past.deeds, t.links[l].linkset, t.links[l].slc, declared);
    OneMoved(t, n.links, n.adjacentRestarting, n.restarting, n.past.loose, n.past.exempt, l, k);
    OneTimed(n.links, n.past.world.links, l, k, m.past.world.links);
  }

  /** One link is opened whose adjacent point was told all it needs. */
  method OpenOne(t: Topology, n: Node, l: LinkId) returns (m: Node)
    requires Core(t, n) && l < |n.links| && n.links[l].up && n.links[l].phase.Carrying?
    requires AllWarned(t, n.links, ReachedNow(t, n), n.told, ToTell(t, n))
    ensures Core(t, m) && OnlyLinks(n, m) && m.links == n.links && m.past.loose == n.past.loose
    ensures m.past.world.links == n.past.world.links && m.past.world.released == n.past.world.released + multiset{l}
    ensures Open(l) in m.past.deeds
  {
    MayOpen(t, n, l);
    assert LinkTimed(n.links[l], l, n.past.world.links);
    m := OpenLink(t, n, l);
    assert Freed(n.past.world.links, l) == n.past.world.links;
  }

  /** The link carries traffic, but is not opened before its adjacent point was told (section 9.3.2 of ITU-T Q.704). */
  method OpenAtOnce(t: Topology, n: Node, l: LinkId) returns (m: Node)
    requires Core(t, n) && l < |n.links| && Late(n.links[l]) && !Waiting(t, n.adjacentRestarting, n.restarting, l)
    ensures Core(t, m) && Steady(n, m) && m.past.loose == n.past.loose - {l}
    ensures m.links == n.links[l := n.links[l].(phase := Phase.Carrying)]
    ensures SameRestarts(n, m) && SameMarks(n, m)
    ensures Open(l) in m.past.deeds
  {
    m := PlaceLink(t, n, l, n.links[l].(phase := Phase.Carrying));
    m := Settle(t, m);
    TidyIsWarned(t, m);
    m := OpenOne(t, m, l);
  }

  /** What is asked for when a link goes to its place in traffic; `begun` says that an adjacent point is taken to restart beside it. */
  ghost predicate Announced(t: Topology, acts: set<Action>, l: LinkId, k: Link, begun: bool)
    requires t.Valid() && l < |t.links|
  {
    var ls := t.links[l].linkset;
    match k.phase
    case Carrying => Open(l) in acts
    case ChangebackTimed => Hold(l) in acts && Start(Changeback(l), T3) in acts
    case ChangebackDeclared(_) =>
      Hold(l) in acts && Start(Changeback(l), T4) in acts && AllDeclared(t, acts, ls, t.links[l].slc, k.declared)
    case AwaitRestart => begun ==> Start(AdjacentRestart(ls), T21) in acts && SentTo(t, acts, ls, 0, Tra, OnLink(l))
    case _ => true
  }

  lemma StillAnnounced(t: Topology, acts: set<Action>, more: set<Action>, l: LinkId, k: Link, begun: bool)
    requires t.Valid() && l < |t.links| && Announced(t, acts, l, k, begun) && acts <= more
    ensures Announced(t, more, l, k, begun)
  {}

  /** The first link of a linkset starts: under T3 where destinations it serves are reached already, otherwise at once. */
  method StartTraffic(t: Topology, n: Node, l: LinkId) returns (m: Node)
    requires Core(t, n) && l < |n.links| && Late(n.links[l]) && !Waiting(t, n.adjacentRestarting, n.restarting, l)
    ensures Core(t, m) && Steady(n, m) && m.past.loose == n.past.loose - {l}
    ensures m.links == n.links[l := n.links[l].(phase := if Diverted(n, t.links[l].linkset) then ChangebackTimed else Phase.Carrying)]
    ensures SameRestarts(n, m) && SameMarks(n, m) && Announced(t, m.past.deeds, l, m.links[l], false)
    ensures Diverted(n, t.links[l].linkset) ==> m.accessible == n.accessible
  {
    if Diverted(n, t.links[l].linkset) {
      m := TimeControlledChangeback(t, n, l);
    } else {
      m := OpenAtOnce(t, n, l);
    }
  }

  /** Some accessible destination has a route through the linkset. */
  predicate Diverted(n: Node, ls: LinksetId) {
    exists d :: d in n.routes && d in n.accessible && exists i :: 0 <= i < |n.routes[d]| && n.routes[d][i].via == ViaLinkset(ls)
  }

  // ── The start of an adjacent point's restart ───────────────────────────────

  /** An adjacent point is taken to restart beside its first link: its routes are allowed, and T21 starts. */
  method TakeAsRestarting(t: Topology, n: Node, l: LinkId) returns (m: Node)
    requires Core(t, n) && l < |n.links| && Late(n.links[l]) && !Waiting(t, n.adjacentRestarting, n.restarting, l)
    requires !LinksetAvailable(t, n.links, None, t.links[l].linkset) && t.linksets[t.links[l].linkset].adjacent.Some?
    requires n.past.loose <= {l}
    ensures Core(t, m) && Steady(n, m) && m.past.loose == {}
    ensures m.adjacentRestarting == n.adjacentRestarting + {t.links[l].linkset}
    ensures m.links == n.links[l := n.links[l].(phase := AwaitRestart)]
    ensures AllowedAgain(n, m, t.links[l].linkset)
    ensures Start(AdjacentRestart(t.links[l].linkset), T21) in m.past.deeds
    ensures m.traReceived == n.traReceived - {t.links[l].linkset} && m.traSent == n.traSent
  {
    var ls := t.links[l].linkset;
    var k := n.links[l].(phase := AwaitRestart);
    m := AllowRoutesThrough(t, n, ls);
    m := LinksetTimer(t, m, AdjacentRestart(ls), Some(T21));
    m := Say(t, m, Note(AdjacentRestartBegun, ALinkset(ls)));
    m := m.(adjacentRestarting := n.adjacentRestarting + {ls}, traReceived := n.traReceived - {ls}, synced := n.synced - {ls},
            links := n.links[l := k], past := m.past.(loose := {}));
    AdjacentRestartBegins(t, n.links, n.adjacentRestarting, n.past.loose, n.past.exempt, l, k);
    OneTimed(n.links, n.past.world.links, l, k, n.past.world.links);
  }

  /**
   The first link of a linkset whose adjacent point was inaccessible (section
   9.3.1 of ITU-T Q.704): the point is taken to be restarting, its routes to be
   allowed, and it is told what it needs before a traffic restart allowed.
   */
  method BeginAdjacentRestart(t: Topology, n: Node, l: LinkId) returns (m: Node)
    requires Core(t, n) && l < |n.links| && Late(n.links[l]) && !Waiting(t, n.adjacentRestarting, n.restarting, l)
    requires !LinksetAvailable(t, n.links, None, t.links[l].linkset) && t.linksets[t.links[l].linkset].adjacent.Some?
    requires n.past.loose <= {l}
    ensures Core(t, m) && Steady(n, m) && m.past.loose == {}
    ensures m.adjacentRestarting == n.adjacentRestarting + {t.links[l].linkset}
    ensures m.links == n.links[l := n.links[l].(phase := AwaitRestart)]
    ensures AllowedAgain(n, m, t.links[l].linkset)
    ensures Start(AdjacentRestart(t.links[l].linkset), T21) in m.past.deeds && SentTo(t, m.past.deeds, t.links[l].linkset, 0, Tra, OnLink(l))
    ensures m.traSent == n.traSent + {t.links[l].linkset} && m.traReceived == n.traReceived - {t.links[l].linkset}
  {
    var ls := t.links[l].linkset;
    m := TakeAsRestarting(t, n, l);
    m := Settle(t, m);
    m := SendTo(t, m, ls, 0, Tra, OnLink(l));
    m := m.(traSent := m.traSent + {ls});
  }

  /** Of `members`, the links that carry traffic, other than `l`. */
  function Alternatives(links: seq<Link>, l: LinkId, members: seq<LinkId>): (others: seq<LinkId>)
    requires forall i | 0 <= i < |members| :: members[i] < |links|
    ensures forall k :: k in others <==> k in members && k != l && links[k].phase.Carrying?
  {
    if members == [] then []
    else
      var before := Alternatives(links, l, members[..|members| - 1]);
      var last := members[|members| - 1];
      assert members == members[..|members| - 1] + [last];
      if last != l && links[last].phase.Carrying? then before + [last] else before
  }

  /** Another link of the linkset carries traffic, and the far end can be told of a changeback. */
  predicate Declares(t: Topology, links: seq<Link>, l: LinkId)
    requires t.Valid() && l < |links| == |t.links|
  {
    var ls := t.linksets[t.links[l].linkset];
    ls.adjacent.Some? && exists k :: k in ls.links && k != l && links[k].phase.Carrying?
  }

  /** The other links of its linkset that carry traffic, in order. */
  function OthersCarrying(t: Topology, links: seq<Link>, l: LinkId): (others: seq<LinkId>)
    requires t.Valid() && l < |links| == |t.links|
    ensures Declares(t, links, l) <==> others != [] && t.linksets[t.links[l].linkset].adjacent.Some?
  {
    var members := t.linksets[t.links[l].linkset].links;
    assert forall i | 0 <= i < |members| :: members[i] in members;
    var others := Alternatives(links, l, members);
    assert others != [] ==> others[0] in others;
    others
  }

  /** A link that comes back is the first of a point that could not be reached. */
  predicate BeginsBeside(t: Topology, n: Node, l: LinkId)
    requires Shaped(t, n) && l < |n.links|
  {
    var ls := t.links[l].linkset;
    && !Waiting(t, n.adjacentRestarting, n.restarting, l) && !LinksetAvailable(t, n.links, None, ls)
    && t.linksets[ls].adjacent.Some? && t.linksets[ls].adjacent.value !in ReachedNow(t, n)
  }

  /** Routes are allowed again only where an adjacent point is taken to restart. */
  ghost predicate RoutesRestored(t: Topology, n: Node, m: Node, l: LinkId)
    requires Shaped(t, n) && l < |n.links|
  {
    var ls := t.links[l].linkset;
    if BeginsBeside(t, n, l) then
      AllowedAgain(n, m, ls) && m.adjacentRestarting == n.adjacentRestarting + {ls} && m.traSent == n.traSent + {ls} && m.traReceived == n.traReceived - {ls}
    else
      SameMarks(n, m) && SameRestarts(n, m)
  }

  /** Where a link that comes back goes. */
  ghost function Restored(t: Topology, n: Node, l: LinkId): Phase
    requires Shaped(t, n) && l < |n.links|
  {
    var ls := t.links[l].linkset;
    if Waiting(t, n.adjacentRestarting, n.restarting, l) then AwaitRestart
    else if LinksetAvailable(t, n.links, None, ls) then
      if Declares(t, n.links, l) then ChangebackDeclared(false) else ChangebackTimed
    else if t.linksets[ls].adjacent.Some? && t.linksets[ls].adjacent.value !in ReachedNow(t, n) then AwaitRestart
    else if Diverted(n, ls) then ChangebackTimed
    else Phase.Carrying
  }

  /** And what it is then. */
  ghost function RestoredLink(t: Topology, n: Node, l: LinkId): Link
    requires Shaped(t, n) && l < |n.links|
  {
    n.links[l].(phase := Restored(t, n, l),
                declared := if Restored(t, n, l).ChangebackDeclared? then Declarations(n.nextCode, OthersCarrying(t, n.links, l)) else [])
  }

  /** All that decides where a link goes, and what becomes of the routes. */
  ghost predicate Likewise(a: Node, b: Node) {
    && a.links == b.links && SameRestarts(a, b) && a.restarting == b.restarting
    && a.servers == b.servers && a.paused == b.paused && a.accessible == b.accessible && a.nextCode == b.nextCode && SameMarks(a, b)
  }

  lemma LinksAlike(t: Topology, a: Node, b: Node, m: Node, l: LinkId)
    requires Shaped(t, a) && Shaped(t, b) && Likewise(a, b) && l < |a.links|
    ensures RestoredLink(t, a, l) == RestoredLink(t, b, l) && BeginsBeside(t, a, l) == BeginsBeside(t, b, l)
    ensures RoutesRestored(t, b, m, l) ==> RoutesRestored(t, a, m, l)
  {}

  /** A link of a linkset that carries traffic comes back. */
  method BeginChangeback(t: Topology, n: Node, l: LinkId) returns (m: Node)
    requires Core(t, n) && l < |n.links| && Late(n.links[l]) && !Waiting(t, n.adjacentRestarting, n.restarting, l)
    ensures Core(t, m) && Steady(n, m) && m.past.loose == n.past.loose - {l}
    ensures m.links == if Declares(t, n.links, l)
                       then n.links[l := n.links[l].(phase := ChangebackDeclared(false),
                                                     declared := Declarations(n.nextCode, OthersCarrying(t, n.links, l)))]
                       else n.links[l := n.links[l].(phase := ChangebackTimed)]
    ensures SameMarks(n, m) && Announced(t, m.past.deeds, l, m.links[l], false)
    ensures SameRestarts(n, m)
  {
    var alternatives := OthersCarrying(t, n.links, l);
    if alternatives == [] || t.linksets[t.links[l].linkset].adjacent.None? {
      m := TimeControlledChangeback(t, n, l);
    } else {
      m := DeclareChangeback(t, n, l, alternatives);
    }
  }

  /** A link comes back as the first of its linkset. */
  method RestoreLinkset(t: Topology, n: Node, l: LinkId) returns (m: Node)
    requires Core(t, n) && l < |n.links| && Late(n.links[l]) && n.past.loose <= {l}
    requires !Waiting(t, n.adjacentRestarting, n.restarting, l) && !LinksetAvailable(t, n.links, None, t.links[l].linkset)
    ensures Core(t, m) && Steady(n, m) && m.past.loose == {}
    ensures m.links == n.links[l := RestoredLink(t, n, l)] && RoutesRestored(t, n, m, l)
    ensures Announced(t, m.past.deeds, l, m.links[l], BeginsBeside(t, n, l))
  {
    if BeginsBeside(t, n, l) {
      m := BeginAdjacentRestart(t, n, l);
    } else {
      m := StartTraffic(t, n, l);
    }
  }

  /** Find the place in traffic of a link that has none and nothing to keep it out. */
  method Restore(t: Topology, n: Node, l: LinkId) returns (m: Node)
    requires Core(t, n) && l < |n.links| && Late(n.links[l]) && n.past.loose <= {l}
    ensures Core(t, m) && Steady(n, m) && m.past.loose == {}
    ensures m.links == n.links[l := RestoredLink(t, n, l)] && RoutesRestored(t, n, m, l)
    ensures Announced(t, m.past.deeds, l, m.links[l], BeginsBeside(t, n, l))
  {
    var ls := t.links[l].linkset;
    if Waiting(t, n.adjacentRestarting, n.restarting, l) {
      m := PlaceLink(t, n, l, n.links[l].(phase := AwaitRestart));
    } else if LinksetAvailable(t, n.links, None, ls) {
      m := BeginChangeback(t, n, l);
    } else {
      m := RestoreLinkset(t, n, l);
    }
  }

  /** The changeback of a link is over: what it buffered is sent, and it carries traffic. */
  method FinishChangeback(t: Topology, n: Node, ghost w: World, l: LinkId, how: Procedure) returns (m: Node)
    requires CoreAs(t, n, w) && l < |n.links| && ChangingBack(n.links[l].phase) && n.past.loose == {}
    requires n.past.world == w.(links := w.links.(changeback := n.past.world.links.changeback, late := n.past.world.links.late), asked := n.past.world.asked)
    requires n.past.world.links.changeback - {l} == w.links.changeback - {l} && n.past.world.links.late[l := 0] == w.links.late[l := 0]
    requires AllWarned(t, n.links, ReachedNow(t, n), n.told, ToTell(t, n))
    ensures Core(t, m) && OnlyLinks(n, m) && m.past.loose == {}
    ensures m.links == n.links[l := n.links[l].(declared := [], phase := Phase.Carrying)]
    ensures m.past.world.released == n.past.world.released + multiset{l}
    ensures Open(l) in m.past.deeds
  {
    var k := n.links[l].(declared := [], phase := Phase.Carrying);
    m := LinkTimer(t, n, Changeback(l), None);
    m := m.(links := n.links[l := k]);
    StillWarned(t, n, m, l, k);
    MayOpen(t, m, l);
    m := OpenLink(t, m, l);
    OneMoved(t, n.links, n.adjacentRestarting, n.restarting, {}, n.past.exempt, l, k);
    OneTimed(n.links, w.links, l, k, m.past.world.links);
    m := Say(t, m, Note(how, ALink(l)));
  }

  // ── Failure and changeover ─────────────────────────────────────────────────

  /** What a changeover kept back goes over the other links, and the link is out of traffic (section 5.5 of ITU-T Q.704). */
  method DivertHeld(t: Topology, n: Node, ghost w: World, l: LinkId, fsnc: Option<nat>, how: Procedure) returns (m: Node)
    requires CoreAs(t, n, w) && l < |n.links| && ChangingOver(n.links[l].phase)
    requires n.past.world == w.(links := w.links.(changeover := n.past.world.links.changeover, late := n.past.world.links.late), asked := n.past.world.asked)
    requires n.past.world.links.changeover - {l} == w.links.changeover - {l} && n.past.world.links.late[l := 0] == w.links.late[l := 0]
    ensures Core(t, m) && OnlyLinks(n, m) && m.past.loose == n.past.loose + {l}
    ensures m.links == n.links[l := n.links[l].(phase := Closed, back := false)]
    ensures m.past.world.released == n.past.world.released + multiset{l}
    ensures Divert(l, fsnc) in m.past.deeds
  {
    var k := n.links[l].(phase := Closed, back := false);
    m := LinkTimer(t, n, Changeover(l), None);
    m := m.(links := n.links[l := k], past := m.past.(loose := n.past.loose + {l}));
    m := DivertLink(t, m, l, fsnc);
    m := Say(t, m, Note(how, ALink(l)));
    LooseLink(t, n.links, n.adjacentRestarting, n.restarting, n.past.loose, n.past.exempt, l, k);
    OneTimed(n.links, w.links, l, k, m.past.world.links);
  }

  function HowCompleted(fsnc: Option<nat>, how: Option<Procedure>): Procedure {
    if how.Some? then how.value else if fsnc.Some? then ChangeoverAcknowledged else ChangeoverEmergency
  }

  /** The link whose changeover is complete is out of traffic. */
  ghost function OutOfTraffic(n: Node, l: LinkId): Node
    requires l < |n.links|
  {
    n.(links := n.links[l := n.links[l].(phase := Closed, back := false)])
  }

  /** The traffic was diverted from the number named, and a link that came back meanwhile went to its place. */
  ghost predicate Completed(t: Topology, n: Node, m: Node, acts: set<Action>, l: LinkId, fsnc: Option<nat>)
    requires Shaped(t, n) && l < |n.links|
  {
    var after := OutOfTraffic(n, l);
    && Divert(l, fsnc) in acts
    && if n.links[l].back && n.links[l].up && !n.links[l].inhibited
       then m.links == after.links[l := RestoredLink(t, after, l)] && RoutesRestored(t, after, m, l)
            && Announced(t, acts, l, RestoredLink(t, after, l), BeginsBeside(t, after, l))
       else m.links == after.links && SameMarks(n, m) && SameRestarts(n, m)
  }

  /** A changeover is complete; a link that came back meanwhile is restored. */
  method CompleteChangeover(t: Topology, n: Node, ghost w: World, l: LinkId, fsnc: Option<nat>, how: Option<Procedure>) returns (m: Node)
    requires CoreAs(t, n, w) && l < |n.links| && ChangingOver(n.links[l].phase) && n.past.loose <= {l}
    requires n.past.world == w.(links := w.links.(changeover := n.past.world.links.changeover, late := n.past.world.links.late), asked := n.past.world.asked)
    requires n.past.world.links.changeover - {l} == w.links.changeover - {l} && n.past.world.links.late[l := 0] == w.links.late[l := 0]
    requires n.links[l].declared == [] && (n.links[l].up && !n.links[l].inhibited ==> n.links[l].back)
    ensures Core(t, m) && Steady(n, m) && m.past.loose == {}
    ensures n.past.world.released + multiset{l} <= m.past.world.released
    ensures !n.links[l].up || n.links[l].inhibited ==> m.links == n.links[l := n.links[l].(phase := Closed, back := false)] && SameMarks(n, m)
    ensures Completed(t, n, m, m.past.deeds, l, fsnc)
  {
    m := DivertHeld(t, n, w, l, fsnc, HowCompleted(fsnc, how));
    if n.links[l].back && n.links[l].up && !n.links[l].inhibited {
      ghost var diverted := m;
      m := Restore(t, m, l);
      LinksAlike(t, OutOfTraffic(n, l), diverted, m, l);
    } else {
      m := PlaceLink(t, m, l, m.links[l]);
    }
  }

  lemma CompletedAlike(t: Topology, a: Node, b: Node, m: Node, acts: set<Action>, l: LinkId, fsnc: Option<nat>)
    requires Shaped(t, a) && Shaped(t, b) && Likewise(a, b) && l < |a.links| && Completed(t, b, m, acts, l, fsnc)
    ensures Completed(t, a, m, acts, l, fsnc)
  {
    LinksAlike(t, OutOfTraffic(a, l), OutOfTraffic(b, l), m, l);
  }

  /** Answer a changeover order (section 5.6.1 of ITU-T Q.704, section 4.2.3 of RFC 4165). */
  method AcknowledgeOrder(t: Topology, n: Node, l: LinkId, emergency: bool) returns (m: Node)
    requires Recorded(t, n) && t.Valid() && l < |t.links| == |n.links|
    ensures Recorded(t, m) && Logs(n, m, n.past.world)
    ensures SentTo(t, m.past.deeds, t.links[l].linkset, t.links[l].slc, if emergency then Eca else Xca(n.links[l].bsnt), Adjacent(t.links[l].linkset, Some(l)))
  {
    var message := if emergency then Eca else Xca(n.links[l].bsnt);
    m := SendTo(t, n, t.links[l].linkset, t.links[l].slc, message, Adjacent(t.links[l].linkset, Some(l)));
  }

  /** What a changeover asks for first. */
  method AskForChangeover(t: Topology, n: Node, l: LinkId, order: Option<Message>, delay: Delay) returns (m: Node)
    requires Recorded(t, n) && t.Valid() && l < |t.links| && (order.Some? ==> order.value.Xco?)
    ensures Recorded(t, m)
    ensures Logs(n, m, n.past.world.(links := m.past.world.links))
    ensures var v := n.past.world.links;
            m.past.world.links == v.(changeback := v.changeback - {l}, held := v.held + {l}, changeover := v.changeover + {l})
    ensures Hold(l) in m.past.deeds && Start(Changeover(l), delay) in m.past.deeds
    ensures order.Some? ==> SentTo(t, m.past.deeds, t.links[l].linkset, t.links[l].slc, order.value, Adjacent(t.links[l].linkset, Some(l)))
  {
    m := LinkTimer(t, n, Changeback(l), None);
    m := BufferLink(t, m, l);
    if order.Some? {
      m := SendTo(t, m, t.links[l].linkset, t.links[l].slc, order.value, Adjacent(t.links[l].linkset, Some(l)));
    }
    m := LinkTimer(t, m, Changeover(l), Some(delay));
  }

  /** Its traffic is held under T2, and its far end asked where to resume, or under T1. */
  ghost predicate HeldFor(t: Topology, acts: set<Action>, l: LinkId, k: Link)
    requires t.Valid() && l < |t.links|
  {
    && Hold(l) in acts
    && (k.phase == ChangeoverOrdered ==>
          Start(Changeover(l), T2) in acts && SentTo(t, acts, t.links[l].linkset, t.links[l].slc, Xco(k.bsnt), Adjacent(t.links[l].linkset, Some(l))))
    && (k.phase == ChangeoverTimed ==> Start(Changeover(l), T1) in acts)
  }

  /** The traffic of a link that carries it is held, and its changeover begins. */
  method HoldForChangeover(t: Topology, n: Node, l: LinkId, k: Link, delay: Delay) returns (m: Node)
    requires Core(t, n) && l < |n.links| && Available(n.links[l].phase) && !n.links[l].up && n.past.loose <= {l}
    requires ChangingOver(k.phase) && k == n.links[l].(declared := [], phase := k.phase) && delay == if k.phase == ChangeoverOrdered then T2 else T1
    ensures Core(t, m) && OnlyLinks(n, m) && m.past.loose == {} && m.past.world.released == n.past.world.released
    ensures m.links == n.links[l := k]
    ensures HeldFor(t, m.past.deeds, l, k)
  {
    m := AskForChangeover(t, n, l, if k.phase == ChangeoverOrdered then Some(Xco(k.bsnt)) else None, delay);
    m := m.(links := n.links[l := k], past := m.past.(loose := {}));
    OneMoved(t, n.links, n.adjacentRestarting, n.restarting, n.past.loose, n.past.exempt, l, k);
    OneTimed(n.links, n.past.world.links, l, k, m.past.world.links);
  }

  /** The far end can be asked where to resume, once a link is out of traffic. */
  predicate CanAsk(t: Topology, n: Node, l: LinkId)
    requires Shaped(t, n) && l < |n.links|
  {
    var ls := t.links[l].linkset;
    var out := n.(links := n.links[l := n.links[l].(declared := [], phase := ChangeoverOrdered)]);
    CanTell(t, out.links, ReachedNow(t, out), ls) && t.linksets[ls].adjacent.Some?
  }

  /**
   A link that carried traffic failed (section 5.4 of ITU-T Q.704): its traffic is
   held, and the far end is asked where to resume, when it can be.
   */
  method BeginChangeover(t: Topology, n: Node, l: LinkId) returns (m: Node)
    requires Core(t, n) && l < |n.links| && Available(n.links[l].phase) && !n.links[l].up && n.past.loose <= {l}
    ensures Core(t, m) && OnlyLinks(n, m) && m.past.loose == {} && m.past.world.released == n.past.world.released
    ensures m.links == n.links[l := n.links[l].(declared := [], phase := if CanAsk(t, n, l) then ChangeoverOrdered else ChangeoverTimed)]
    ensures HeldFor(t, m.past.deeds, l, m.links[l])
  {
    var ask := CanAsk(t, n, l);
    var k := n.links[l].(declared := [], phase := if ask then ChangeoverOrdered else ChangeoverTimed);
    m := HoldForChangeover(t, n, l, k, if ask then T2 else T1);
  }

  /** A link that carried traffic failed by the far end's order: the changeover is complete at once (section 5.4.1). */
  method DivertAtOnce(t: Topology, n: Node, l: LinkId, fsnc: Option<nat>) returns (m: Node)
    requires Core(t, n) && l < |n.links| && Available(n.links[l].phase) && !n.links[l].up && n.past.loose <= {l}
    ensures Core(t, m) && OnlyLinks(n, m) && m.past.loose == {}
    ensures m.links == n.links[l := n.links[l].(declared := [], phase := Closed, back := false)]
    ensures m.past.world.released == n.past.world.released + multiset{l}
    ensures Hold(l) in m.past.deeds && Divert(l, fsnc) in m.past.deeds
  {
    var k := n.links[l].(declared := [], phase := Closed, back := false);
    m := LinkTimer(t, n, Changeback(l), None);
    m := BufferLink(t, m, l);
    m := LinkTimer(t, m, Changeover(l), None);
    m := m.(links := n.links[l := k], past := m.past.(loose := {}));
    m := DivertLink(t, m, l, fsnc);
    m := Say(t, m, Note(HowCompleted(fsnc, None), ALink(l)));
    OneMoved(t, n.links, n.adjacentRestarting, n.restarting, n.past.loose, n.past.exempt, l, k);
    OneTimed(n.links, n.past.world.links, l, k, m.past.world.links);
  }

  /** What becomes of a link that went down. */
  ghost function LeftLink(t: Topology, n: Node, l: LinkId, ordered: bool): Link
    requires Shaped(t, n) && l < |n.links|
  {
    n.links[l].(declared := [], phase := Lowered(t, n, l, ordered))
  }

  /** And of its traffic: diverted from the number in the far end's order, or held. */
  ghost predicate TrafficLeft(t: Topology, acts: set<Action>, l: LinkId, was: Phase, k: Link, ordered: Option<Ordered>)
    requires t.Valid() && l < |t.links|
  {
    && (ordered.Some? && (Available(was) || ChangingOver(was)) ==> Divert(l, ordered.value.fsnc) in acts)
    && (ordered.None? && Available(was) ==> HeldFor(t, acts, l, k))
  }

  lemma StillLeft(t: Topology, acts: set<Action>, more: set<Action>, l: LinkId, was: Phase, k: Link, ordered: Option<Ordered>)
    requires t.Valid() && l < |t.links| && TrafficLeft(t, acts, l, was, k, ordered) && acts <= more
    ensures TrafficLeft(t, more, l, was, k, ordered)
  {}

  /** A link that carried traffic went down, by the far end's order or not. */
  method FailCarrying(t: Topology, n: Node, l: LinkId, ordered: Option<Ordered>) returns (m: Node)
    requires Core(t, n) && l < |n.links| && Available(n.links[l].phase) && !n.links[l].up && !n.links[l].back && n.past.loose <= {l}
    ensures Core(t, m) && Steady(n, m) && m.past.loose == {} && SameMarks(n, m)
    ensures m.past.world.released == if ordered.Some? then n.past.world.released + multiset{l} else n.past.world.released
    ensures m.links == n.links[l := LeftLink(t, n, l, ordered.Some?)]
    ensures TrafficLeft(t, m.past.deeds, l, n.links[l].phase, m.links[l], ordered)
    ensures SameRestarts(n, m)
  {
    if ordered.Some? {
      m := DivertAtOnce(t, n, l, ordered.value.fsnc);
    } else {
      m := BeginChangeover(t, n, l);
    }
  }

  /** A link without traffic went down: a changeover that runs goes on, waiting for a restart is over. */
  method StayDown(t: Topology, n: Node, l: LinkId) returns (m: Node)
    requires Core(t, n) && l < |n.links| && !n.links[l].up && n.past.loose <= {l}
    requires !Available(n.links[l].phase) && n.links[l].declared == []
    ensures Core(t, m) && Steady(n, m) && m.past.loose == {} && SameMarks(n, m)
    ensures m.links == n.links[l := n.links[l].(phase := if n.links[l].phase == AwaitRestart then Closed else n.links[l].phase)]
    ensures SameRestarts(n, m)
  {
    var phase := n.links[l].phase;
    m := PlaceLink(t, n, l, n.links[l].(phase := if phase == AwaitRestart then Closed else phase));
  }

  /** Where a link that went down goes: out of traffic, through a changeover unless the far end ordered one already. */
  ghost function Lowered(t: Topology, n: Node, l: LinkId, ordered: bool): Phase
    requires Shaped(t, n) && l < |n.links|
  {
    var phase := n.links[l].phase;
    if Available(phase) then if ordered then Closed else if CanAsk(t, n, l) then ChangeoverOrdered else ChangeoverTimed
    else if ChangingOver(phase) && !ordered then phase
    else Closed
  }

  /** What becomes of the traffic of a link that went down. */
  method LeaveTraffic(t: Topology, n: Node, l: LinkId, ordered: Option<Ordered>) returns (m: Node)
    requires Core(t, n) && l < |n.links| && !n.links[l].up && !n.links[l].back && n.past.loose <= {l}
    requires n.links[l].declared != [] <==> n.links[l].phase.ChangebackDeclared?
    ensures Core(t, m) && Steady(n, m) && m.past.loose == {} && SameMarks(n, m)
    ensures m.links == n.links[l := LeftLink(t, n, l, ordered.Some?)]
    ensures TrafficLeft(t, m.past.deeds, l, n.links[l].phase, m.links[l], ordered)
    ensures SameRestarts(n, m)
  {
    var phase := n.links[l].phase;
    if Available(phase) {
      m := FailCarrying(t, n, l, ordered);
    } else if ChangingOver(phase) && ordered.Some? {
      m := CompleteChangeover(t, n, n.past.world, l, ordered.value.fsnc, None);
    } else {
      m := StayDown(t, n, l);
    }
  }

  /** The restart of the adjacent point of a linkset none of whose links is up is given up. */
  method GiveUpAdjacentRestart(t: Topology, n: Node, ls: LinksetId) returns (m: Node)
    requires Core(t, n) && ls < |t.linksets| && n.past.loose == {} && n.past.exempt <= {ls} && !LinksetSignalling(t, n.links, ls)
    ensures Core(t, m)
    ensures Logs(n.(adjacentRestarting := n.adjacentRestarting - {ls}, past := n.past.(exempt := {})), m,
                        n.past.world.(linksets := m.past.world.linksets))
    ensures ls in n.adjacentRestarting ==> Stop(AdjacentRestart(ls)) in m.past.deeds
  {
    AdjacentRestartEnds(t, n.links, n.adjacentRestarting, n.restarting, n.past.exempt, ls);
    m := n.(adjacentRestarting := n.adjacentRestarting - {ls}, past := n.past.(exempt := {}));
    if ls in n.adjacentRestarting {
      m := LinksetTimer(t, m, AdjacentRestart(ls), None);
    } else {
      assert SameRestarts(n, m);
    }
  }

  lemma NothingExempt(t: Topology, links: seq<Link>, adjacentRestarting: set<LinksetId>, restarting: bool,
                      exempt: set<LinksetId>, ls: LinksetId)
    requires t.Valid() && |links| == |t.links| && ls < |t.linksets|
    requires LinksetsOk(t, links, adjacentRestarting, restarting, exempt)
    requires exempt <= {ls} && LinksetSignalling(t, links, ls)
    ensures LinksetsOk(t, links, adjacentRestarting, restarting, {})
  {}

  /** Where no link of a linkset is up any more, a restart of its adjacent point is given up. */
  method EndSignalling(t: Topology, n: Node, ls: LinksetId) returns (m: Node)
    requires Core(t, n) && ls < |t.linksets| && n.past.loose == {} && n.past.exempt <= {ls}
    ensures Core(t, m) && m.past.exempt == {}
    ensures m.links == n.links && m.past.loose == {} && Steady(n.(past := n.past.(exempt := {})), m) && SameMarks(n, m)
    ensures !LinksetSignalling(t, n.links, ls) ==>
              ls !in m.adjacentRestarting && ls !in m.traSent && ls !in m.traReceived &&
              (ls in n.adjacentRestarting ==> Stop(AdjacentRestart(ls)) in m.past.deeds)
  {
    if LinksetSignalling(t, n.links, ls) {
      NothingExempt(t, n.links, n.adjacentRestarting, n.restarting, n.past.exempt, ls);
      m := n.(past := n.past.(exempt := {}));
    } else {
      m := GiveUpAdjacentRestart(t, n, ls);
      m := m.(traSent := n.traSent - {ls}, traReceived := n.traReceived - {ls});
    }
  }

  /** The link is down, and nothing is done yet. */
  ghost function Down(n: Node, l: LinkId, bsnt: nat): Node
    requires l < |n.links|
  {
    n.(links := n.links[l := n.links[l].(up := false, bsnt := bsnt, back := false, ordered := None)])
  }

  /** An order that waited for level 2 is answered with the number it reported, an emergency one without. */
  ghost predicate OrderAnswered(t: Topology, acts: set<Action>, l: LinkId, bsnt: nat, ordered: Option<Ordered>)
    requires t.Valid() && l < |t.links|
  {
    ordered.Some? ==>
      SentTo(t, acts, t.links[l].linkset, t.links[l].slc, if ordered.value.emergency then Eca else Xca(bsnt), Adjacent(t.links[l].linkset, Some(l)))
  }

  /** Level 2 reports a link down; an order that waited for it is answered. */
  method Lower(t: Topology, n: Node, l: LinkId, bsnt: nat) returns (m: Node)
    requires Core(t, n) && l < |n.links| && n.past.loose == {} && n.past.exempt == {}
    ensures Core(t, m)
    ensures Logs(Down(n, l, bsnt).(past := n.past.(loose := {l}, exempt := {t.links[l].linkset})), m, n.past.world)
    ensures OrderAnswered(t, m.past.deeds, l, bsnt, n.links[l].ordered)
  {
    var k := n.links[l].(up := false, bsnt := bsnt, back := false, ordered := None);
    m := n.(links := n.links[l := k], past := n.past.(loose := {l}, exempt := {t.links[l].linkset}));
    OneDown(t, n.links, n.adjacentRestarting, n.restarting, l, k);
    OneTimed(n.links, n.past.world.links, l, k, n.past.world.links);
    if n.links[l].ordered.Some? {
      m := AcknowledgeOrder(t, m, l, n.links[l].ordered.value.emergency);
    }
  }

  /** A link goes down: its order is answered, its traffic moves, and its linkset may be the poorer by its last link. */
  method LowerLink(t: Topology, n: Node, l: LinkId, bsnt: nat) returns (m: Node)
    requires Core(t, n) && l < |n.links| && n.past.loose == {} && n.past.exempt == {}
    ensures Core(t, m) && Steady(n, m) && m.past.loose == {} && m.past.exempt == {} && SameMarks(n, m)
    ensures WentDown(t, n, m, m.past.deeds, l, bsnt)
  {
    m := Lower(t, n, l, bsnt);
    ghost var lowered := m;
    m := LeaveTraffic(t, m, l, n.links[l].ordered);
    ghost var left := m;
    LeftAlike(t, Down(n, l, bsnt), lowered, l, n.links[l].ordered.Some?);
    m := EndSignalling(t, m, t.links[l].linkset);
    StillLeft(t, left.past.deeds, m.past.deeds, l, n.links[l].phase, m.links[l], n.links[l].ordered);
  }

  lemma LeftAlike(t: Topology, a: Node, b: Node, l: LinkId, ordered: bool)
    requires Shaped(t, a) && Shaped(t, b) && Likewise(a, b) && l < |a.links|
    ensures LeftLink(t, a, l, ordered) == LeftLink(t, b, l, ordered)
  {}

  /** All that follows when a link goes down. */
  ghost predicate WentDown(t: Topology, n: Node, m: Node, acts: set<Action>, l: LinkId, bsnt: nat)
    requires Shaped(t, n) && l < |n.links|
  {
    var down, ordered, ls := Down(n, l, bsnt), n.links[l].ordered, t.links[l].linkset;
    && m.links == down.links[l := LeftLink(t, down, l, ordered.Some?)]
    && OrderAnswered(t, acts, l, bsnt, ordered)
    && TrafficLeft(t, acts, l, n.links[l].phase, LeftLink(t, down, l, ordered.Some?), ordered)
    && (|m.links| == |t.links| && !LinksetSignalling(t, m.links, ls) ==>
          ls !in m.adjacentRestarting && ls !in m.traSent && ls !in m.traReceived && (ls in n.adjacentRestarting ==> Stop(AdjacentRestart(ls)) in acts))
  }

  /** An order for a link in service is kept until level 2, asked to take the link down, has reported (section 3.2.2). */
  method NoteOrder(t: Topology, n: Node, l: LinkId, ordered: Ordered) returns (m: Node)
    requires Core(t, n) && l < |n.links| && n.past.loose == {}
    ensures Core(t, m)
    ensures Logs(n.(links := n.links[l := n.links[l].(ordered := Some(ordered))]), m, n.past.world)
    ensures Fail(l) in m.past.deeds
  {
    m := PlaceLink(t, n, l, n.links[l].(ordered := Some(ordered)));
    m := Say(t, m, Fail(l));
  }

  /** An order that meets a changeover of our own ends it just like the acknowledgement would (section 5.4.3). */
  method AnswerAndComplete(t: Topology, n: Node, l: LinkId, fsnc: Option<nat>, emergency: bool) returns (m: Node)
    requires Core(t, n) && l < |n.links| && n.past.loose == {} && ChangingOver(n.links[l].phase)
    ensures Core(t, m) && Steady(n, m) && m.past.loose == {}
    ensures n.past.world.released + multiset{l} <= m.past.world.released
    ensures !n.links[l].up ==> m.links[l].phase == Closed
    ensures Completed(t, n, m, m.past.deeds, l, fsnc)
    ensures SentTo(t, m.past.deeds, t.links[l].linkset, t.links[l].slc, if emergency then Eca else Xca(n.links[l].bsnt), Adjacent(t.links[l].linkset, Some(l)))
  {
    m := AcknowledgeOrder(t, n, l, emergency);
    ghost var answered := m;
    m := CompleteChangeover(t, m, m.past.world, l, fsnc, None);
    CompletedAlike(t, n, answered, m, m.past.deeds, l, fsnc);
  }

  /**
   What a changeover order does: one for a link in service is kept, and the link taken
   down; one that meets our changeover completes it from the number it names; any other
   is only answered.
   */
  ghost predicate OrderTaken(t: Topology, n: Node, m: Node, acts: set<Action>, l: LinkId, fsnc: Option<nat>, emergency: bool)
    requires Shaped(t, n) && l < |n.links|
  {
    var ls, slc, path := t.links[l].linkset, t.links[l].slc, Adjacent(t.links[l].linkset, Some(l));
    if n.links[l].up then
      m.links == n.links[l := n.links[l].(ordered := Some(Ordered(fsnc, emergency)))] && SameMarks(n, m) && Fail(l) in acts
    else if ChangingOver(n.links[l].phase) then
      Completed(t, n, m, acts, l, fsnc) && SentTo(t, acts, ls, slc, if emergency then Eca else Xca(n.links[l].bsnt), path)
    else
      m.links == n.links && SameMarks(n, m) && SentTo(t, acts, ls, slc, Eca, path)
  }

  /** A changeover order, in any of its forms. */
  method ChangeoverOrder(t: Topology, n: Node, l: LinkId, fsnc: Option<nat>, emergency: bool) returns (m: Node)
    requires Core(t, n) && l < |n.links| && n.past.loose == {}
    ensures Core(t, m) && Steady(n, m) && m.past.loose == {}
    ensures !n.links[l].up && ChangingOver(n.links[l].phase) ==> n.past.world.released + multiset{l} <= m.past.world.released
    ensures OrderTaken(t, n, m, m.past.deeds, l, fsnc, emergency)
  {
    if n.links[l].up {
      m := NoteOrder(t, n, l, Ordered(fsnc, emergency));
    } else if ChangingOver(n.links[l].phase) {
      m := AnswerAndComplete(t, n, l, fsnc, emergency);
    } else {
      // After the completion of the changeover (section 5.7.5).
      m := SendTo(t, n, t.links[l].linkset, t.links[l].slc, Eca, Adjacent(t.links[l].linkset, Some(l)));
    }
  }

  /** An acknowledgement completes the changeover it was asked for, from the number it names. */
  ghost predicate AcknowledgementTaken(t: Topology, n: Node, m: Node, acts: set<Action>, l: LinkId, fsnc: Option<nat>)
    requires Shaped(t, n) && l < |n.links|
  {
    if n.links[l].phase == ChangeoverOrdered then Completed(t, n, m, acts, l, fsnc) else m.links == n.links && SameMarks(n, m)
  }

  method ChangeoverAcknowledgement(t: Topology, n: Node, l: LinkId, fsnc: Option<nat>, message: Message) returns (m: Node)
    requires Core(t, n) && l < |n.links| && n.past.loose == {}
    ensures Core(t, m) && Steady(n, m) && m.past.loose == {}
    ensures n.links[l].phase == ChangeoverOrdered ==> n.past.world.released + multiset{l} <= m.past.world.released
    ensures AcknowledgementTaken(t, n, m, m.past.deeds, l, fsnc)
    ensures n.links[l].phase != ChangeoverOrdered ==> Ignored(message) in m.past.deeds
  {
    if n.links[l].phase == ChangeoverOrdered {
      m := CompleteChangeover(t, n, n.past.world, l, fsnc, None);
    } else {
      m := Say(t, n, Ignored(message));
    }
  }

  // ── Coming up ──────────────────────────────────────────────────────────────

  /** Level 2 reports a link up. */
  method Raise(t: Topology, n: Node, l: LinkId) returns (m: Node)
    requires Core(t, n) && l < |n.links| && n.past.loose == {}
    ensures Core(t, m)
    ensures m == Raised(n, l).(past := n.past.(loose := {l}))
  {
    var k := n.links[l].(up := true, back := n.links[l].back || ChangingOver(n.links[l].phase));
    m := n.(links := n.links[l := k], past := n.past.(loose := {l}));
    OneUp(t, n.links, n.adjacentRestarting, n.restarting, n.past.exempt, l, k);
    OneTimed(n.links, n.past.world.links, l, k, n.past.world.links);
  }

  /** The link is up, and nothing is done yet. */
  ghost function Raised(n: Node, l: LinkId): Node
    requires l < |n.links|
  {
    n.(links := n.links[l := n.links[l].(up := true, back := n.links[l].back || ChangingOver(n.links[l].phase))])
  }

  /** A link that came up goes to its place if it was out of traffic and not inhibited; otherwise it is up, and nothing more. */
  ghost predicate CameBack(t: Topology, n: Node, m: Node, acts: set<Action>, l: LinkId)
    requires Shaped(t, n) && l < |n.links|
  {
    var raised := Raised(n, l);
    if n.links[l].phase == Closed && !n.links[l].inhibited
    then
      && m.links == raised.links[l := RestoredLink(t, raised, l)] && RoutesRestored(t, raised, m, l)
      && Announced(t, acts, l, RestoredLink(t, raised, l), BeginsBeside(t, raised, l))
    else m.links == raised.links && SameMarks(n, m) && SameRestarts(n, m)
  }

  lemma CameBackAlike(t: Topology, n: Node, due: bool, m: Node, acts: set<Action>, l: LinkId)
    requires Shaped(t, n) && l < |n.links| && CameBack(t, n.(restartDue := due), m, acts, l)
    ensures CameBack(t, n, m, acts, l)
  {
    LinksAlike(t, Raised(n, l), Raised(n.(restartDue := due), l), m, l);
  }

  /** A link comes up. A changeover that runs is left to end first. */
  method RaiseLink(t: Topology, n: Node, l: LinkId) returns (m: Node)
    requires Core(t, n) && l < |n.links| && n.past.loose == {}
    ensures Core(t, m) && Steady(n, m) && m.past.loose == {} && m.links[l].up
    ensures CameBack(t, n, m, m.past.deeds, l)
  {
    m := Raise(t, n, l);
    if m.links[l].phase == Closed && !m.links[l].inhibited {
      ghost var raised := m;
      m := Restore(t, m, l);
      LinksAlike(t, Raised(n, l), raised, m, l);
      assert LinkOk(m.links[l], Waiting(t, m.adjacentRestarting, m.restarting, l));
    } else {
      m := PlaceLink(t, m, l, m.links[l]);
    }
  }
}
