/**
 What a node's surroundings make of its actions: which timers run, what is
 buffered, what each adjacent point believes, how the routes are marked. It is
 computed from the action log alone, so a statement that ties it to the state of
 the node is a statement about everything the node has ever asked for.
 */
module Observer {
  import opened Options
  import opened RouteChoice
  import opened Signalling

  /**
   One entry of the log. `Did` carries, beside an `Open`, how traffic is routed at
   that moment. With `Resynced` an adjacent point, after a restart or an absence,
   forgets all that it was told (section 9.6.2 of ITU-T Q.704).
   */
  datatype Event =
    | Did(action: Action, traffic: Option<Traffic>)
    | Expired(timer: Timer)
    | Resynced(linkset: LinksetId)

  /** How traffic is routed: the linksets that carry any, the servers in service, the paused destinations, the routes. */
  datatype Traffic = Traffic(carrying: set<LinksetId>, servers: seq<bool>, paused: set<PointCode>, routes: Routes)

  /** The destinations with a route in use through a linkset. */
  function ThroughIn(traffic: Traffic, ls: LinksetId): set<PointCode> {
    ThroughSet(traffic.carrying, traffic.servers, traffic.paused, traffic.routes, ls)
  }

  /**
   The timers that run for links, the links whose traffic is buffered, and how often
   the timer of a link's changeover or changeback ran out since its traffic was last let go.
   */
  datatype LinkView = LinkView(
    changeover: set<LinkId>,
    changeback: set<LinkId>,
    inhibitTest: set<LinkId>,
    uninhibit: set<LinkId>,
    forceUninhibit: set<LinkId>,
    held: set<LinkId>,
    late: multiset<LinkId>)

  datatype LinksetView = LinksetView(adjacentRestart: set<LinksetId>, restartAllowed: set<LinksetId>)

  datatype DestView = DestView(rerouting: set<PointCode>, held: set<PointCode>)

  /** The timers of the node, whether it restarts, and how often it began to. */
  datatype NodeView = NodeView(restart: bool, restartOverall: bool, isolation: bool, restarting: bool, begun: nat)

  type Marks = map<(PointCode, LinksetId), RouteStatus>

  datatype World = World(
    links: LinkView,
    released: multiset<LinkId>,
    linksets: LinksetView,
    dests: DestView,
    tests: set<(PointCode, LinksetId)>,
    marks: Marks,
    believes: Pairs,
    accessible: set<PointCode>,
    limited: set<PointCode>,
    flips: nat,
    guards: set<PointCode>,
    node: NodeView,
    asked: seq<Action>,
    expired: seq<Timer>,
    sound: bool)

  const Beginning := World(
    LinkView({}, {}, {}, {}, {}, {}, multiset{}), multiset{}, LinksetView({}, {}), DestView({}, {}), {}, map[], {}, {}, {}, 0, {},
    NodeView(false, false, false, false, 0), [], [], true)

  // ── Timers ─────────────────────────────────────────────────────────────────

  predicate Armed(w: World, timer: Timer) {
    match timer
    case Changeover(l) => l in w.links.changeover
    case Changeback(l) => l in w.links.changeback
    case InhibitTest(l) => l in w.links.inhibitTest
    case Uninhibit(l) => l in w.links.uninhibit
    case ForceUninhibit(l) => l in w.links.forceUninhibit
    case AdjacentRestart(ls) => ls in w.linksets.adjacentRestart
    case RestartAllowed(ls) => ls in w.linksets.restartAllowed
    case Rerouting(d) => d in w.dests.rerouting
    case Prohibiting(d) => d in w.guards
    case RouteSetTest(d, ls) => (d, ls) in w.tests
    case Restart => w.node.restart
    case RestartOverall => w.node.restartOverall
    case Isolation => w.node.isolation
  }

  function Put<T(==)>(s: set<T>, x: T, on: bool): set<T> { if on then s + {x} else s - {x} }

  predicate OfLink(timer: Timer) {
    timer.Changeover? || timer.Changeback? || timer.InhibitTest? || timer.Uninhibit? || timer.ForceUninhibit?
  }

  predicate OfLinkset(timer: Timer) { timer.AdjacentRestart? || timer.RestartAllowed? }

  predicate OfNode(timer: Timer) { timer.Restart? || timer.RestartOverall? || timer.Isolation? }

  function SetLinkTimer(v: LinkView, timer: Timer, on: bool): LinkView
    requires OfLink(timer)
  {
    match timer
    case Changeover(l) => v.(changeover := Put(v.changeover, l, on))
    case Changeback(l) => v.(changeback := Put(v.changeback, l, on))
    case InhibitTest(l) => v.(inhibitTest := Put(v.inhibitTest, l, on))
    case Uninhibit(l) => v.(uninhibit := Put(v.uninhibit, l, on))
    case ForceUninhibit(l) => v.(forceUninhibit := Put(v.forceUninhibit, l, on))
  }

  function SetLinksetTimer(v: LinksetView, timer: Timer, on: bool): LinksetView
    requires OfLinkset(timer)
  {
    match timer
    case AdjacentRestart(ls) => v.(adjacentRestart := Put(v.adjacentRestart, ls, on))
    case RestartAllowed(ls) => v.(restartAllowed := Put(v.restartAllowed, ls, on))
  }

  function SetNodeTimer(v: NodeView, timer: Timer, on: bool): NodeView
    requires OfNode(timer)
  {
    match timer
    case Restart => v.(restart := on)
    case RestartOverall => v.(restartOverall := on)
    case Isolation => v.(isolation := on)
  }

  /** Start or stop one timer. */
  function SetTimer(w: World, timer: Timer, on: bool): World {
    if OfLink(timer) then w.(links := SetLinkTimer(w.links, timer, on))
    else if OfLinkset(timer) then w.(linksets := SetLinksetTimer(w.linksets, timer, on))
    else if OfNode(timer) then w.(node := SetNodeTimer(w.node, timer, on))
    else match timer
      case Rerouting(d) => w.(dests := w.dests.(rerouting := Put(w.dests.rerouting, d, on)))
      case Prohibiting(d) => w.(guards := Put(w.guards, d, on))
      case RouteSetTest(d, ls) => w.(tests := Put(w.tests, (d, ls), on))
  }

  function TimerAction(timer: Timer, on: Option<Delay>): Action {
    if on.Some? then Start(timer, on.value) else Stop(timer)
  }

  lemma SetTimerSetsOne(w: World, timer: Timer, on: bool, other: Timer)
    ensures Armed(SetTimer(w, timer, on), other) == if other == timer then on else Armed(w, other)
  {}

  /** The traffic of a link waits for this timer, if for any. */
  predicate Awaited(timer: Timer) { timer.Changeover? || timer.Changeback? }

  /** A timer runs out; if it ran, and traffic of a link waits for it, that is counted. */
  function RunOut(w: World, timer: Timer): World {
    var off := SetTimer(w, timer, false);
    if Awaited(timer) && Armed(w, timer) then off.(links := off.links.(late := off.links.late + multiset{timer.link})) else off
  }

  /** The traffic of a link is let go. */
  function Freed(v: LinkView, l: LinkId): LinkView { v.(held := v.held - {l}, late := v.late[l := 0]) }

  /** No link's traffic is buffered still after two expiries. */
  predicate Punctual(v: LinkView) { forall l | l in v.late :: v.late[l] < 2 }

  // ── Legality ───────────────────────────────────────────────────────────────

  /**
   What must hold of the surroundings when an action is asked for: only buffered
   links are diverted, holds and releases of a destination alternate, so do the
   two ends of a restart and the two values of an accessibility, and a link is
   opened only after its adjacent point was told that everything routed through
   it is prohibited there (section 9.3.2 of ITU-T Q.704).
   */
  predicate Legal(t: Topology, w: World, a: Action, traffic: Option<Traffic>) {
    match a
    case Divert(link, _) => link in w.links.held
    case HoldDestination(dpc) => dpc !in w.dests.held
    case ReleaseDestination(dpc) => dpc in w.dests.held
    case Accessibility(dpc, accessible) => accessible != (dpc in w.accessible)
    case Restarting(running) => running != w.node.restarting
    case Open(link) =>
      link < |t.links| && traffic.Some? && Prevented(t, w.believes, t.links[link].linkset, ThroughIn(traffic.value, t.links[link].linkset))
    case _ => true
  }

  predicate Prevented(t: Topology, believes: Pairs, ls: LinksetId, through: set<PointCode>) {
    ls < |t.linksets| && t.linksets[ls].adjacent.Some? ==>
      forall d | d in through && Sayable(d) && d != t.linksets[ls].adjacent.value :: (ls, d) in believes
  }

  // ── Effects ────────────────────────────────────────────────────────────────

  function Believing(believes: Pairs, message: Message, path: Path): Pairs {
    if !path.Adjacent? then believes
    else match message
      case Tfp(d) => believes + {(path.linkset, d)}
      case Tfa(d) => believes - {(path.linkset, d)}
      case _ => believes
  }

  function MarkOf(marks: Marks, d: PointCode, ls: LinksetId): RouteStatus {
    if (d, ls) in marks then marks[(d, ls)] else Allowed
  }

  /** The effect of one action. */
  function After(w: World, a: Action): World {
    match a
    case Send(_, _, message, path) => w.(believes := Believing(w.believes, message, path))
    case Start(timer, _) => SetTimer(w, timer, true)
    case Stop(timer) => SetTimer(w, timer, false)
    case Hold(l) => w.(links := w.links.(held := w.links.held + {l}))
    case Divert(l, _) => w.(links := Freed(w.links, l), released := w.released + multiset{l})
    case Open(l) => w.(links := Freed(w.links, l), released := w.released + multiset{l})
    case Route(dpc, linkset, status) => w.(marks := w.marks[(dpc, linkset) := status])
    case HoldDestination(dpc) => w.(dests := w.dests.(held := w.dests.held + {dpc}))
    case ReleaseDestination(dpc) => w.(dests := w.dests.(held := w.dests.held - {dpc}))
    case Accessibility(dpc, accessible) =>
      w.(accessible := Put(w.accessible, dpc, accessible), limited := if accessible then w.limited else w.limited - {dpc}, flips := w.flips + 1)
    case RestrictedTo(dpc, restricted) => w.(limited := Put(w.limited, dpc, restricted))
    case Restarting(running) => w.(node := w.node.(restarting := running, begun := w.node.begun + if running then 1 else 0))
    case Fail(_) | Congestion(_, _) | Note(_, _) | Ignored(_) => w
  }

  function Observe(t: Topology, w: World, e: Event): World {
    match e
    case Did(a, traffic) => After(w, a).(asked := w.asked + [a], sound := w.sound && Legal(t, w, a, traffic))
    case Expired(timer) => RunOut(w, timer).(expired := w.expired + [timer], sound := w.sound && Punctual(w.links))
    case Resynced(ls) => w.(believes := Resync(w.believes, ls))
  }

  function Resync(believes: Pairs, ls: LinksetId): Pairs { set p | p in believes && p.0 != ls }

  /** `trace` lists the surroundings before, between and after the entries of `log`. */
  ghost predicate Traces(t: Topology, log: seq<Event>, trace: seq<World>) {
    && |trace| == |log| + 1
    && trace[0] == Beginning
    && forall i | 0 <= i < |log| :: trace[i + 1] == Observe(t, trace[i], log[i])
  }

  lemma TraceOneMore(t: Topology, log: seq<Event>, trace: seq<World>, e: Event)
    requires Traces(t, log, trace)
    ensures Traces(t, log + [e], trace + [Observe(t, trace[|log|], e)])
  {}

  /** The surroundings a log leads to. */
  ghost function Replay(t: Topology, log: seq<Event>): World {
    if log == [] then Beginning else Observe(t, Replay(t, log[..|log| - 1]), log[|log| - 1])
  }

  lemma {:induction false} TraceIsReplay(t: Topology, log: seq<Event>, trace: seq<World>, k: nat)
    requires Traces(t, log, trace) && k <= |log|
    ensures trace[k] == Replay(t, log[..k])
  {
    if k > 0 {
      TraceIsReplay(t, log, trace, k - 1);
      assert log[..k][..k - 1] == log[..k - 1];
      assert trace[k - 1 + 1] == Observe(t, trace[k - 1], log[k - 1]);
    }
  }

  /** A log that ends well was legal throughout: no entry was made before the surroundings allowed it. */
  lemma {:induction false} SoundEverywhere(t: Topology, log: seq<Event>, k: nat)
    requires Replay(t, log).sound && k < |log|
    ensures log[k].Did? ==> Legal(t, Replay(t, log[..k]), log[k].action, log[k].traffic)
    ensures log[k].Expired? ==> Punctual(Replay(t, log[..k]).links)
    decreases |log|
  {
    var before := log[..|log| - 1];
    if k < |before| {
      SoundEverywhere(t, before, k);
      assert before[..k] == log[..k];
    }
  }

  // ── How long traffic is buffered ───────────────────────────────────────────

  /** The traffic of the link is let go. */
  predicate Releases(e: Event, l: LinkId) { e.Did? && (e.action == Open(l) || (e.action.Divert? && e.action.link == l)) }

  /** The timer that traffic of the link waits for runs out. */
  predicate RunsOutFor(w: World, e: Event, l: LinkId) {
    e.Expired? && Awaited(e.timer) && e.timer.link == l && Armed(w, e.timer)
  }

  /** At which entries of the log the traffic of the link is let go, and at which it has waited for a timer. */
  ghost function ReleasesOf(log: seq<Event>, l: LinkId): (r: seq<bool>)
    ensures |r| == |log| && forall k | 0 <= k < |log| :: r[k] == Releases(log[k], l)
  {
    seq(|log|, k requires 0 <= k < |log| => Releases(log[k], l))
  }

  ghost function WaitsOf(t: Topology, log: seq<Event>, l: LinkId): (r: seq<bool>)
    ensures |r| == |log| && forall k | 0 <= k < |log| :: r[k] == RunsOutFor(Replay(t, log[..k]), log[k], l)
  {
    seq(|log|, k requires 0 <= k < |log| => RunsOutFor(Replay(t, log[..k]), log[k], l))
  }

  /** What the surroundings count, before, between and after the entries. */
  ghost function CountsOf(t: Topology, log: seq<Event>, l: LinkId): (r: seq<nat>)
    ensures |r| == |log| + 1 && forall k | 0 <= k <= |log| :: r[k] == Replay(t, log[..k]).links.late[l]
  {
    seq(|log| + 1, k requires 0 <= k <= |log| => Replay(t, log[..k]).links.late[l])
  }

  /** How many of the entries `i..j` hold. */
  ghost function Count(s: seq<bool>, i: nat, j: nat): nat
    requires i <= j <= |s|
    decreases j
  {
    if i == j then 0 else Count(s, i, j - 1) + if s[j - 1] then 1 else 0
  }

  /** Each entry adds to the count, starts it anew or leaves it. */
  ghost predicate Counts(counts: seq<nat>, releases: seq<bool>, waits: seq<bool>) {
    && |counts| == |releases| + 1 == |waits| + 1
    && forall k | 0 <= k < |releases| :: counts[k + 1] == if releases[k] then 0 else counts[k] + if waits[k] then 1 else 0
  }

  lemma LateThen(t: Topology, w: World, e: Event, l: LinkId)
    ensures Observe(t, w, e).links.late[l] ==
            if Releases(e, l) then 0 else w.links.late[l] + if RunsOutFor(w, e, l) then 1 else 0
  {
    match e
    case Did(a, traffic) => LateAfter(w, a, l);
    case Expired(timer) => assert Observe(t, w, e).links == RunOut(w, timer).links;
    case Resynced(ls) =>
  }

  lemma LateAfter(w: World, a: Action, l: LinkId)
    ensures After(w, a).links.late[l] == if a == Open(l) || (a.Divert? && a.link == l) then 0 else w.links.late[l]
  {}

  lemma LateCounts(t: Topology, log: seq<Event>, l: LinkId)
    ensures Counts(CountsOf(t, log, l), ReleasesOf(log, l), WaitsOf(t, log, l))
  {
    forall k | 0 <= k < |log|
      ensures CountsOf(t, log, l)[k + 1] == if Releases(log[k], l) then 0 else CountsOf(t, log, l)[k] + if WaitsOf(t, log, l)[k] then 1 else 0
    {
      assert log[..k + 1][..k] == log[..k];
      LateThen(t, Replay(t, log[..k]), log[k], l);
    }
  }

  /** Without a release the count grows by the expiries. */
  lemma {:induction false} CountGrows(counts: seq<nat>, releases: seq<bool>, waits: seq<bool>, i: nat, j: nat)
    requires Counts(counts, releases, waits) && i <= j <= |releases| && forall k | i <= k < j :: !releases[k]
    ensures counts[j] == counts[i] + Count(waits, i, j)
    decreases j
  {
    if i < j {
      CountGrows(counts, releases, waits, i, j - 1);
    }
  }

  /** Where the count is below two whenever it could grow, it never passes two. */
  lemma {:induction false} CountBound(counts: seq<nat>, releases: seq<bool>, waits: seq<bool>, k: nat)
    requires Counts(counts, releases, waits) && counts[0] == 0 && forall h | 0 <= h < |waits| && waits[h] :: counts[h] < 2
    requires k <= |releases|
    ensures counts[k] <= 2
    decreases k
  {
    if k > 0 {
      CountBound(counts, releases, waits, k - 1);
    }
  }

  /** A count of two that does not last is ended by a release, and before any entry at which it must be lower. */
  lemma {:induction false} CountEnds(counts: seq<nat>, releases: seq<bool>, waits: seq<bool>, barred: seq<bool>, k: nat) returns (j: nat)
    requires Counts(counts, releases, waits) && |barred| == |releases| && k <= |releases| && counts[k] == 2 && counts[|releases|] < 2
    requires forall h | 0 <= h < |barred| && barred[h] :: counts[h] < 2
    requires forall h | 0 <= h < |waits| && waits[h] :: barred[h]
    ensures k <= j < |releases| && releases[j] && forall h | k <= h < j :: !barred[h]
    decreases |releases| - k
  {
    if releases[k] {
      j := k;
    } else {
      j := CountEnds(counts, releases, waits, barred, k + 1);
    }
  }

  /** The count begins at nothing, is below two whenever any timer runs out, and is below two in the end. */
  ghost predicate InTime(log: seq<Event>, l: LinkId, counts: seq<nat>, waits: seq<bool>) {
    && |waits| == |log| && Counts(counts, ReleasesOf(log, l), waits) && counts[0] == 0 && counts[|log|] < 2
    && (forall h | 0 <= h < |log| && waits[h] :: log[h].Expired?)
    && forall h | 0 <= h < |log| && log[h].Expired? :: counts[h] < 2
  }

  lemma SecondIsAnswered(t: Topology, log: seq<Event>, l: LinkId, i: nat, k: nat)
    requires InTime(log, l, CountsOf(t, log, l), WaitsOf(t, log, l))
    requires i <= k <= |log| && (forall h | i <= h < k :: !Releases(log[h], l)) && Count(WaitsOf(t, log, l), i, k) == 2
    ensures exists j :: k <= j < |log| && Releases(log[j], l) && forall h | k <= h < j :: !log[h].Expired?
  {
    FirstRelease(log, l, CountsOf(t, log, l), WaitsOf(t, log, l), i, k);
  }

  lemma FirstRelease(log: seq<Event>, l: LinkId, counts: seq<nat>, waits: seq<bool>, i: nat, k: nat)
    requires InTime(log, l, counts, waits)
    requires i <= k <= |log| && (forall h | i <= h < k :: !Releases(log[h], l)) && Count(waits, i, k) == 2
    ensures exists j :: k <= j < |log| && Releases(log[j], l) && forall h | k <= h < j :: !log[h].Expired?
  {
    var releases := ReleasesOf(log, l);
    CountGrows(counts, releases, waits, i, k);
    CountBound(counts, releases, waits, k);
    var expired := seq(|log|, h requires 0 <= h < |log| => log[h].Expired?);
    var j := CountEnds(counts, releases, waits, expired, k);
    assert Releases(log[j], l);
    assert forall h | k <= h < j :: !expired[h];
    forall h | k <= h < j ensures !log[h].Expired? {
      assert !expired[h];
    }
  }

  /** In a log that is legal throughout no timer runs out while the count is two. */
  lemma NeverLate(t: Topology, log: seq<Event>, l: LinkId, k: nat)
    requires Replay(t, log).sound && k < |log| && log[k].Expired?
    ensures CountsOf(t, log, l)[k] < 2
  {
    SoundEverywhere(t, log, k);
  }
}
