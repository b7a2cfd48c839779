# Signalling, dialogues and routing: a verified model

This project models the logic of an SS7 / SIGTRAN signalling node and proves what
it promises:

- **Signalling network management** (clauses 5 to 10 and 13 of ITU-T Q.704, section
  4.2.3 of RFC 4165): one event in, a list of actions out. It covers changeover,
  changeback, forced and controlled rerouting, MTP restart, inhibiting and route
  management.
- **Route choice and the route table** (section 2.3.2 of ITU-T Q.704): which routes
  of a destination carry traffic, per message and for management.
- **TCAP dialogues** (sections 3.2 and 3.3 of ITU-T Q.774): staging, flushing, the
  component sub-layer, invoke ids, timers, and the engine's calls, any number of
  which run at once on dialogues stored behind one lock.
- **Content routing**: first match wins, and a message whose IMSI cannot be read.
- **Listening endpoints**: which server associations share one, and how their peers
  are told apart.

`dafny verify dfyconfig.toml` checks everything, within Dafny's default limits.

## How it is laid out

| files | what they hold |
|---|---|
| `Options.dfy`, `RouteChoice.dfy` | options; the tier in use, the per-message choice, the routes in use |
| `Signalling.dfy` | the domain, events, actions, link phases, availability |
| `Observer.dfy` | what a log of actions leads to: timers, buffers, beliefs, marks; which actions are legal where |
| `Invariants.dfy`, `Node.dfy` | the invariants as predicates on values; the state of a node and its past |
| `Settling.dfy`, `RouteMarks.dfy`, `RouteManagement.dfy`, `LinkFacts.dfy`, `Links.dfy`, `Inhibiting.dfy`, `Restart.dfy` | the procedures |
| `Events.dfy`, `Timeouts.dfy`, `Handling.dfy`, `Management.dfy` | the handling of one event; the management object |
| `Guarantees.dfy` | what holds in every reachable state |
| `Scenarios.dfy` | two runs of the management object that show where tables and state part |
| `RouteTable.dfy` | route marks, the route table, the resolver, and its agreement with management |
| `InvokeIds.dfy`, `Tcap.dfy`, `Utterances.dfy`, `DialogueLaws.dfy`, `DialogueRuns.dfy`, `Dialogue.dfy` | one dialogue, an operation at a time |
| `Lives.dfy` | one dialogue over its whole life |
| `Termination.dfy`, `Turns.dfy` | the answer to a Begin; what a handler's turn puts into messages |
| `Engine.dfy` | the store of dialogues and the critical sections on it |
| `Bookkeeping.dfy`, `Calls.dfy`, `Programs.dfy`, `Interleaving.dfy` | where every dialogue is; the engine's calls as programs; any interleaving of them |
| `Replies.dfy`, `Openings.dfy`, `Effects.dfy` | what a call for a Begin hands out; dialogues in the store were begun; all that any call does with its dialogue, in any interleaving |
| `Content.dfy`, `ListenGroups.dfy` | content routing; listening endpoints |

**Management.** Every action a node asks for, every timer that expires and every
moment an adjacent point forgets what it was told goes into a log. `Observer`
replays the log from the beginning and knows nothing else, so a lemma of
`Guarantees` that ties `Replay(log)` to the state speaks about all the node ever
asked for. `Legal` says what must hold where an action stands in the log; an action
that is not legal cannot be emitted. Together with an `Open` the log keeps
how traffic is routed at that moment, and `Legal` computes from that which
destinations go through the linkset.
`Handling.Valid` is the invariant between events; `Core` is what holds throughout
the handling of one. `Handling.TakenIn` says what each event does, on the fields of
the state and on the set of actions handed out with it.

**Dialogues.** The operations on a dialogue are functions on values, and the class
`LiveDialogue` updates its fields in place and is proved equal to them. A dialogue
carries its past: what was staged, what it said, which invokes it sent, what each
came to, and the ids it was given.

**The engine.** A call (a Begin, Continue, End or Abort that arrives, a dialogue of
our own, a timer) is a program: a `Pc` says where it is and which dialogue it has in
hand, and `Programs.Advance` is one step of it: a critical section, a turn of the
handler, or work on that dialogue. `Interleaving.Next` lets one thread take one
step, and `Run` folds any sequence of such steps, which is any interleaving of any
number of calls. A dialogue is in the store, in the hands of one call, or over.
`Effects.MayEnd` says in one piece what a call does from where it is to its return,
and `CallEnds` proves it of every run, whatever other calls do in between.

## What is assumed

- `Topology.Valid`: what building a domain from a configuration guarantees.
- Point codes in messages have 14 bits, and nothing can be said about a destination
  that has more. Statements about what adjacent points are told are about
  destinations that can be named in a message.
- No assumption is made about timers: any timer may be reported to have run out at
  any time.
- The routes of a destination need not be sorted for any statement about
  management. `RouteChoice.InUseIsBest` needs them sorted, and `BuildTable` and
  `Add` sort them.
- Encoding is a predicate on messages that may say no to any of them.
- Fewer than 2^31 transaction ids are given out in one run of the engine.
- A handler's turn ends, and does no more to its dialogue than a list of commands does.

## What turned out not to hold

- **Route marks do not always follow the statuses management holds.**
  `allow_routes_through` allows a route again at once even where a mark for that
  route is deferred under T6; when T6 runs out the old mark is applied over it, and
  nothing repairs it until the adjacent point speaks again. The inputs: a
  transfer-restricted moves the traffic of a destination, so that it is held; within
  T6 the linkset fails and its first link comes back while its adjacent point is
  inaccessible; T6 runs out. `Scenarios.MarkStaysWrong` feeds such inputs to a new
  management object. `Guarantees.AllowingKeepsMarksIff` gives the exact condition for
  a step, and `Guarantees.MarksFollowState` says for every reachable state which
  routes are marked right.
- **Two routes to a destination through one linkset are marked together in the
  resolver and apart in management.** `RouteTable.SameRoutesInUseIff` and
  `RouteTable.ResolverFollowsManagement` give the exact condition for the two to have
  the same routes in use, stale marks included, and `Scenarios.SharedMarkLoses` is a run after which
  management reaches a destination to which the resolver sends nothing.

## Model

| member | source | states |
|---|---|---|
| `RouteChoice.TierInUse` | src/mtp3/route.rs:125-150 | the nested loop finds the tier that the recursive search defines |
| `RouteChoice.TierMeaning` | src/mtp3/route.rs:125-150 | there is no tier exactly when nothing is usable; a tier is one whole run of equal priority, everything before it is unusable and its class is the best in it |
| `RouteChoice.InUseIffUsable` | src/mtp3/route.rs:175-184 | some route is in use exactly when some candidate is usable |
| `RouteChoice.InUseShareOneClass` | src/mtp3/route.rs:175-184 | routes in use share one class and one priority |
| `RouteChoice.InUseIsBest` | src/mtp3/route.rs:175-184 | in sorted candidates a route is in use exactly when it is usable, of the best usable priority and of the best class in it |
| `RouteChoice.ChosenIsInUse` | src/mtp3/route.rs:154-173 | nothing is chosen exactly when nothing is usable; what is chosen is in use |
| `RouteChoice.CodeTakesItsTurn` | src/mtp3/route.rs:154-173 | every selection code, however large, has by its remainder a place in the tier in use; if the route there is in use it is chosen, and otherwise the route whose place among those in use is the code's remainder |
| `RouteChoice.InUseAscends` | src/mtp3/route.rs:175-184 | the routes in use are listed in ascending order, none twice |
| `RouteChoice.ChoiceCoversInUse` | src/mtp3/route.rs:154-184 | over all selection codes the choice names exactly the routes in use, for a tier of at most 256 |
| `RouteChoice.OthersCarryOn` | src/mtp3/route.rs:154-184 | when some routes in use fail and others do not, the tier stays and exactly the others carry the traffic |
| `RouteChoice.UnaffectedCodesStay` | src/mtp3/route.rs:154-173 | then every code whose place in the tier, start plus remainder, is one of the others keeps that route |
| `RouteTable.SetStatusSetsOne` | src/mtp3/route.rs:269-286 | setting a status changes that one and no other; no allowed, repeated or empty entry remains |
| `RouteTable.AllAllowedIsAbsent` | src/mtp3/route.rs:198-201 | a destination has no entry exactly when all its routes are allowed |
| `RouteTable.RouteView.SetRouteStatus` | src/mtp3/route.rs:269-278 | the update in place is that change, and keeps the table tidy |
| `RouteTable.RouteView.Apply` | src/mtp3/route.rs:269-278 | an emitted mark sets that one status, and any other action none |
| `RouteTable.TablesFollowLog` | src/mtp3/route.rs:269-286 | applying every emitted route mark gives each route the status the observer of the log sees |
| `RouteTable.SortIsStable` | src/mtp3/route.rs:378-380 | the sort is sorted, a permutation, and keeps the order within a priority |
| `RouteTable.StableSortIsUnique` | src/mtp3/route.rs:378-380 | only one result is sorted and keeps the order within each priority |
| `RouteTable.BuildTable` | src/mtp3/route.rs:332-383 | each destination gets one adjacent route per linkset that names it, then its configured routes in order, stably sorted; no entry is empty |
| `RouteTable.AddedOnce` | src/mtp3/route.rs:475-482 | adding keeps the list sorted, adds just the new route last of its priority, and adding again changes nothing |
| `RouteTable.RouteResolver.constructor` | src/mtp3/route.rs:332-383 | the resolver starts with that table, sorted |
| `RouteTable.RouteResolver.Add` | src/mtp3/route.rs:475-482 | only that destination's list changes, to the one `AddedOnce` is about, and the table stays sorted |
| `RouteTable.ResolvedIsBest` | src/mtp3/route.rs:420-446 | a message goes by a usable route of the best usable priority and class, never through what it avoids, and nowhere only if it is prohibited or nothing is usable |
| `RouteTable.RouteResolver.ResolveAvoiding` | src/mtp3/route.rs:420-446 | what the method returns is a best usable route of the table as it is, never through what is avoided, and none exactly when the destination is prohibited or has nothing usable |
| `RouteTable.SameRoutesInUseIff` | src/mtp3/route.rs:433-445 | with management's availability and marks, stale ones included, the resolver has the same routes in use as management if and only if no route in use is allowed but marked otherwise, or all are, as restricted, and their tier has no restricted route besides; then both choose alike for every selection code |
| `RouteTable.WithoutStaleMarks` | src/mtp3/management.rs:1489-1493 | where no mark is stale, a route is allowed but marked otherwise exactly if it is behind another through its linkset that is not allowed, and never are all in use so |
| `Scenarios.SharedMarkLoses` | src/mtp3/management.rs:1489-1493 | four inputs to a new management object after which a destination is accessible, not held, and the resolver fed with all actions sends nothing to it |
| `RouteTable.ResolverFollowsManagement` | src/mtp3/management.rs:826-833 | in every reachable state, for a destination that is not held: resolver and management have the same routes in use if and only if that condition holds; then a message takes the very route management's rule picks, and none exactly when the destination is inaccessible |
| `Observer.TraceIsReplay` | src/mtp3/management.rs:738-774 | the surroundings kept beside the log are the log replayed from the beginning |
| `Observer.SoundEverywhere` | src/mtp3/management.rs:738-774 | a log that ends well was legal at every entry |
| `Observer.SetTimerSetsOne` | src/mtp3/management.rs:241-271 | starting or stopping a timer concerns that timer alone |
| `NodeState.OpenLink` | src/mtp3/management.rs:1133-1163 | a link is opened only where its adjacent point was told of everything routed through it, and the log keeps how traffic is routed then |
| `Settling.Settle` | src/mtp3/management.rs:881-965 | accessibility and restriction equal what can be reached; every adjacent point that can be told was told exactly what is prohibited toward it; a settled node is left as it is; accessibility that was right is not announced again |
| `Settling.SettleDestinations` | src/mtp3/management.rs:881-912 | every destination's accessibility and restriction becomes what was found, and only those |
| `Settling.SettleBeliefs` | src/mtp3/management.rs:933-964 | one adjacent point is told the difference between what it was told and what is prohibited, nothing about itself, and no other point is told anything |
| `RouteManagement.AllowRoutesThrough` | src/mtp3/management.rs:1460-1479 | exactly the routes through the linkset become allowed, their tests stop, holds and deferred marks stay, and exactly the routes with a deferred mark become stale |
| `RouteManagement.RouteMessage` | src/mtp3/management.rs:1482-1567 | the first route through the sender gets the status and no other route changes; a prohibition releases the destination, a move of traffic from some routes to others holds it, nothing else does; a held destination's new mark waits; tests, holds and marks keep following the statuses |
| `RouteManagement.ReleaseOnTimeout` | src/mtp3/management.rs:1923-1932 | the deferred marks are applied and the traffic released, with the marks right afterwards |
| `RouteManagement.AnswerTest` | src/mtp3/management.rs:1571-1595 | a test is answered exactly when the sender believes other than what is, the sender then believes what is, and what is told is what is kept as told |
| `RouteManagement.AnswerUnroutable` | src/mtp3/management.rs:1598-1622 | a transfer-prohibited goes out, and T8 starts for its destination, exactly when no restart or T8 runs, the destination is another one, known or to be treated so, and the adjacent point is known; otherwise nothing changes; what is told stays told |
| `RouteMarks.RefineReopened` | src/mtp3/management.rs:1460-1479 | allowing routes keeps every mark right except where one is still to be applied |
| `RouteMarks.RefineMarked` | src/mtp3/management.rs:1536-1566 | a new status, marked now or deferred, keeps every mark right |
| `RouteMarks.LastMarkOfMarked` | src/mtp3/management.rs:1923-1932 | deferred marks decide a route's final mark exactly when one of them is for it |
| `RouteMarks.MarkedInRange` | src/mtp3/management.rs:1936-1947 | a route that is not allowed goes through a linkset there is |
| `LinkFacts.WithoutIsClosed` | src/mtp3/management.rs:778-791 | leaving a link out of the count is the same as taking it out of traffic |
| `LinkFacts.FewerReached` | src/mtp3/management.rs:801-837 | with fewer linksets carrying traffic no more destinations are reached |
| `LinkFacts.MayOpen` | src/mtp3/management.rs:1144-1147 | where everything prohibited was told, a link that is up may open |
| `Links.Restore` | src/mtp3/management.rs:1063-1128 | where a link that comes back goes, by what waits, carries and can be reached, and that routes are allowed again exactly where an adjacent point is taken to restart, with every invariant kept |
| `Links.DeclareChangeback` | src/mtp3/management.rs:1083-1101 | one declaration for each link that carried the traffic; the link is held and timed |
| `Links.Declare` | src/mtp3/management.rs:1085-1096 | the declarations name the alternatives in order, with consecutive codes modulo 256 |
| `Links.BeginAdjacentRestart` | src/mtp3/management.rs:1104-1126 | the linkset is restarting, its link waits, and the invariants hold |
| `Links.StartTraffic` | src/mtp3/management.rs:1133-1148 | the link opens at once exactly when no accessible destination has a route through its linkset, after T3 otherwise |
| `Links.FinishChangeback` | src/mtp3/management.rs:1157-1163 | the link carries traffic, its buffer is released, and its adjacent point was told before |
| `Links.BeginChangeover` | src/mtp3/management.rs:1210-1236 | the link is held, its traffic buffered, and a changeover order with its sequence number is sent, T2 running, exactly when the far end can be asked; T1 runs otherwise |
| `Links.CompleteChangeover` | src/mtp3/management.rs:1239-1255 | the buffered traffic is diverted from the number given, that number among the actions; a link that came back is restored, any other is closed |
| `Links.LeaveTraffic` | src/mtp3/management.rs:1176-1198 | where a link that went down goes, by its phase and by whether the far end ordered it; an order diverts the traffic from the number it carries |
| `Links.EndSignalling` | src/mtp3/management.rs:1199-1207 | without a link up the adjacent point's restart is given up and nothing sent or received of it is kept |
| `Links.LowerLink` | src/mtp3/management.rs:1167-1208 | the link is down with its sequence number kept, no other link and no route changes, and the invariants hold |
| `Links.ChangeoverOrder` | src/mtp3/management.rs:1283-1317 | an order for a link that is up is kept and level 2 told to fail it; one for a running changeover diverts its traffic from its number; one for a link out of traffic is acknowledged and no more; what is answered is the acknowledgement of its kind |
| `Links.ChangeoverAcknowledgement` | src/mtp3/management.rs:1319-1327 | an acknowledgement diverts the traffic of a link that asked, from its number, and changes nothing otherwise |
| `Links.RaiseLink` | src/mtp3/management.rs:1047-1055 | the link is up; if it was out of traffic and not inhibited it goes where `Restore` says, and otherwise no route changes |
| `Inhibiting.GrantKeepsReach` | src/mtp3/management.rs:1333-1344 | asking what would be without a link foretells what is reached once it is out of traffic |
| `Inhibiting.Inhibit` | src/mtp3/management.rs:1346-1391 | the link ends up inhibited exactly when it was, carried nothing, or is not needed, and the far end is answered with an acknowledgement or a denial; what can be reached does not change |
| `Inhibiting.UninhibitLink` | src/mtp3/management.rs:1392-1413 | an uninhibit message leaves the link not inhibited and is acknowledged; the link is back in traffic where nothing else keeps it out |
| `Inhibiting.RepeatUninhibit` | src/mtp3/management.rs:2010-2048 | the message is repeated once, then the attempt is given up; the timer runs exactly as long |
| `Inhibiting.RepeatForce` | src/mtp3/management.rs:2010-2048 | the same for the force uninhibit message |
| `Inhibiting.TestInhibition` | src/mtp3/management.rs:1968-1981 | T23 runs on exactly while the link is inhibited |
| `RestartProcedure.BeginRestart` | src/mtp3/management.rs:1029-1046 | every route is allowed, the restart is announced, T18 and T20 start, and no adjacent point has allowed traffic yet |
| `RestartProcedure.EndRestart` | src/mtp3/management.rs:1639-1680 | exactly the links that waited carry traffic and are opened, after what every adjacent point needs to know; each adjacent point with a link up is told that traffic may restart, T19 running; the timers stop and the end is announced |
| `RestartProcedure.RestartProgress` | src/mtp3/management.rs:1628-1636 | the restart ends exactly when every adjacent point beside a link that is up allowed traffic |
| `RestartProcedure.EndAdjacentRestart` | src/mtp3/management.rs:1682-1698 | every waiting link of the linkset starts traffic, one after the other, no other link changes, no route either, and the invariants hold after each |
| `RestartProcedure.TrafficRestartAllowed` | src/mtp3/management.rs:1700-1731 | the node's restart ends exactly when this was the last one missing; an adjacent point's restart ends if it was told that traffic may restart; any other point is told so now and T19 starts, unless it runs already |
| `Events.LinkCameUp` | src/mtp3/management.rs:1026-1059 | the first link of an isolated node begins the restart that is due: it is announced and T18 and T20 start, no more and no less than once, and the link waits unless the restart ends at once; in any other node nothing of the kind is announced, and the link goes where `Restore` says |
| `Events.RestartIfDue` | src/mtp3/management.rs:1026-1046 | a restart begins exactly when one is due and the node was isolated |
| `Events.LinksetOf` | src/mtp3/management.rs:1737-1746 | a linkset whose adjacent point is the sender, found exactly when there is one |
| `Events.ChangebackAcknowledgement` | src/mtp3/management.rs:1845-1859 | an acknowledgement takes away the declaration with its code and changes nothing without one; the last one releases the traffic; the invariants hold |
| `Events.ChangeoverMessage` | src/mtp3/management.rs:1834-1844 | which order and which acknowledgement each message is, and what each does to the link |
| `Events.LinkMessage` | src/mtp3/management.rs:1832-1869 | every message about a link has the effect of its kind, said of fields and actions: an order is kept and the link failed, or its traffic diverted; an acknowledgement diverts; the last changeback acknowledgement opens; an inhibiting message decides `inhibited` and is answered |
| `Events.AboutLink` | src/mtp3/management.rs:1819-1832 | a message about a link reaches the link with that code in the linkset of its sender, and does there what its kind says |
| `Events.TestOrRestart` | src/mtp3/management.rs:1787-1818 | a route set test is answered with what is, exactly if that is not what it asked about; a traffic restart allowed counts in the restart it is for |
| `Events.MessageCame` | src/mtp3/management.rs:1748-1830 | so up to every message in every state: by what it is, whom it is from and whether this node restarts; one that is not understood or not from an adjacent point changes nothing |
| `Timeouts.ChangeoverExpired` | src/mtp3/management.rs:1875-1893 | the traffic of a link in a changeover is released; a link that is down is closed, and nothing else happens |
| `Timeouts.ChangebackExpired` | src/mtp3/management.rs:1894-1922 | the first expiry of a declared changeback sends every declaration again, as it was and on its way, and T5 starts; any other releases the traffic |
| `Timeouts.RouteSetTestExpired` | src/mtp3/management.rs:1936-1964 | while the route is not allowed, and no longer, T10 runs on and a test of the status held is sent, unless this node restarts or the point cannot be told |
| `Timeouts.SpuriousExpiry` | src/mtp3/management.rs:1873-1995 | a timer the state has no use for runs out without harm |
| `Handling.HandleEvent` | src/mtp3/management.rs:738-774 | every event but one about a message that cannot be routed leaves a valid, settled node; `TakenIn` says, of the new state and the actions handed out alone, what the event does to links, routes, holds, marks, inhibition and restarts, `OthersKept` what it does not touch; an event that asks nothing of a settled node hands out nothing |
| `Handling.HandleUnroutable` | src/mtp3/management.rs:751-756 | a message that cannot be routed is answered by exactly a transfer-prohibited and the start of T8, or nothing; the invariant holds without settling |
| `Handling.WatchIsolation` | src/mtp3/management.rs:975-987 | isolation is known, and timed or followed by a restart |
| `ManagementObject.FreshIsValid` | src/mtp3/management.rs:651-708 | a domain in which nothing is up yet satisfies the invariant |
| `ManagementObject.Management.constructor` | src/mtp3/management.rs:651-708 | the object starts valid, in that state |
| `ManagementObject.Management.Handle` | src/mtp3/management.rs:738-774 | the object keeps its invariant over every input; the actions handed out are the log's, in order; everything `HandleEvent` and `HandleUnroutable` state |
| `ManagementObject.Management.IsAccessible` | src/mtp3/management.rs:721-723 | a destination is called accessible exactly when some route to it is in use |
| `ManagementObject.Management.Carries` | src/mtp3/management.rs:726-730 | a link that carries traffic is up, not inhibited, and no restart runs |
| `Guarantees.TimersFollowState` | src/mtp3/management.rs:1873-1995 | in every reachable state the timers that run are exactly those the state calls for |
| `Guarantees.IsolationIsTimed` | src/mtp3/management.rs:975-987 | an isolated node times its isolation or will restart, and no other node times one |
| `Guarantees.BufferedWhileChanging` | src/mtp3/management.rs:1063-1255 | traffic of a link is buffered exactly while it changes over or back |
| `Guarantees.AtMostTwoExpiries` | src/mtp3/management.rs:1875-1922 | over the whole log, whatever events come in between: while the traffic of a link is not let go, the timers it waits for run out twice at most |
| `Guarantees.SecondExpiryReleases` | src/mtp3/management.rs:1875-1922 | the second such expiry is followed by a diversion or opening of that link before any timer runs out again |
| `Guarantees.HeldWhileDeferred` | src/mtp3/management.rs:1536-1566 | a destination is held exactly while marks for it wait and T6 runs |
| `Guarantees.NoLinkStuckOrEarly` | src/mtp3/management.rs:1063-1128 | an up, uninhibited link is never closed and comes back after its changeover; none carries traffic while inhibited, down or waiting; waiting means a restart runs |
| `Guarantees.EveryActionWasLegal` | src/mtp3/management.rs:738-774 | only buffered links were diverted, holds and releases, the ends of a restart and the accessibility of each destination alternated, and links opened only when they might |
| `Guarantees.PreventiveBeforeTraffic` | src/mtp3/management.rs:1144-1147 | wherever a link was opened its adjacent point stood told of every destination with a route in use through it, by the routing logged at that moment |
| `Guarantees.BeliefIsTruth` | src/mtp3/management.rs:855-965 | the last that an adjacent point was told since it was synchronised is prohibited exactly when the destination is inaccessible or routed through that point |
| `Guarantees.AccessibilityIsTruth` | src/mtp3/management.rs:835-852 | what was last said of a destination is that some route of it is usable |
| `Guarantees.RestrictionIsTruth` | src/mtp3/management.rs:881-912 | what was last said of a destination's restriction is that it is reached by restricted routes alone |
| `Guarantees.MarksFollowState` | src/mtp3/management.rs:1460-1567 | the emitted marks, the deferred ones applied, give each route its status except exactly the stale ones |
| `Guarantees.AllowingKeepsMarksIff` | src/mtp3/management.rs:1460-1479 | allowing the routes through a linkset keeps the marks right if and only if no route it allows has a mark deferred |
| `Guarantees.StaleIsMarkedWrong` | src/mtp3/management.rs:1923-1932 | in every reachable state a stale route of a destination that is not held is allowed and marked otherwise |
| `Scenarios.MarkStaysWrong` | src/mtp3/management.rs:1460-1479 | eight inputs to a new management object after which nothing is held, a route is allowed, and the marks asked for say otherwise |
| `InvokeIds.FreeMeaning` | src/dialogue.rs:705-717 | an id is found unless all 256 are in use; it is free, negative only if every non-negative one is in use, and else the nearest free one in the ring |
| `InvokeIds.Allocate` | src/dialogue.rs:705-717 | the search finds that id, and the next search starts behind it |
| `InvokeIds.NotReusedAtOnce` | src/dialogue.rs:695-717 | in any sequence of grants that each search the ring: between two hand-outs of a non-negative id every other non-negative id was handed out or found in use |
| `DialogueRuns.IdsNotReusedAtOnce` | src/dialogue.rs:695-717 | so it is with the ids a lawful dialogue was given over its life |
| `DialogueLaws.InvokeIsLawful` | src/dialogue.rs:670-693 | staging an invoke keeps the laws of a dialogue |
| `DialogueLaws.FlushIsLawful` | src/dialogue.rs:814-897 | a flush, sent or failed, keeps the laws: among them that what was staged and not dropped was said in order or waits, and that the invokes that were sent are those that were said |
| `DialogueLaws.AbortIsLawful` | src/dialogue.rs:796-812 | an abort keeps the laws |
| `DialogueLaws.ReplayIsLawful` | src/python.rs:1748-1800 | whatever commands a turn consists of, the laws hold after it |
| `DialogueLaws.ReceiveAllIsLawful` | src/dialogue.rs:1742-1853 | whatever the peer sends, the laws hold after it |
| `DialogueLaws.LearnIsLawful` | src/dialogue.rs:1404-1410 | learning the peer's transaction id keeps the laws: nothing was said to another |
| `DialogueLaws.PeerEndIsLawful` | src/dialogue.rs:1418-1427 | an End from the peer keeps the laws |
| `DialogueLaws.ExpireIsLawful` | src/dialogue.rs:1641-1649 | running out of invocation timers keeps the laws; no operation is lost or doubled |
| `DialogueRuns.SaidInOrder` | src/dialogue.rs:814-897 | what a dialogue says is `Begin? Continue* (End or Abort)?`: a Begin exactly first from an initiator, an End or Abort only last and closing, everything else to one peer transaction, an AARE exactly on a responder's first answer to an offered context |
| `DialogueRuns.InvokeConcludesOnce` | src/dialogue.rs:1742-1853 | an invoke that was sent is in progress or has come to one end its class reports, not both, and has come to one once the dialogue closed |
| `DialogueRuns.InvokesHaveTheirOwnIds` | src/dialogue.rs:705-717 | staged and outstanding invokes have different ids |
| `DialogueRuns.IdsAreFew` | src/dialogue.rs:705-717 | so no dialogue has more than 256 of them |
| `DialogueRuns.ReplayExtends` | src/python.rs:1748-1800 | a turn unsays nothing and changes no end an invoke came to |
| `DialogueRuns.ReceiveAllExtends` | src/dialogue.rs:1742-1853 | receiving changes no end an invoke came to |
| `DialogueRuns.AnswerByClass` | src/dialogue.rs:1762-1825 | a result or error is delivered exactly for an operation in progress whose class reports it, and becomes a Reject otherwise |
| `DialogueRuns.AnswerIsShownOrRejected` | src/dialogue.rs:1762-1825 | an answer to an operation in progress is shown as it came where its class reports such, and otherwise the Reject names the problem |
| `DialogueRuns.StrayAnswerIsRejected` | src/dialogue.rs:1762-1825 | an answer to nothing in progress is rejected as unrecognized and ends nothing |
| `DialogueRuns.LinkedIsChecked` | src/dialogue.rs:1747-1761 | an invoke of the peer is shown as it came, unless it is linked to none of ours in progress: then it is rejected; it ends nothing |
| `DialogueRuns.RejectConcludes` | src/dialogue.rs:1826-1838 | a Reject ends the operation it names exactly if its problem is general or of the invoke and that is in progress; every Reject is shown and none is answered |
| `DialogueRuns.AnswerConcludes` | src/dialogue.rs:1762-1825 | an answer ends the operation it names unless it is not the last, and no other |
| `DialogueRuns.FinalAnswerIsShown` | src/dialogue.rs:1742-1853 | the handler is shown a last result or an error exactly when a component is a final answer to an invoke in progress |
| `DialogueRuns.OneFinalAnswer` | src/dialogue.rs:1762-1825 | a final answer ends the invoke it is for in a result or error, one that had come to no end before, and no other component ends any so |
| `Lives.DoneExtends` | src/dialogue.rs:1742-1853 | no work on a dialogue, of its handler, its peer, a timer or the engine, unsays anything or changes an end an invoke came to |
| `Lives.AnsweredOnceInALife` | src/dialogue.rs:1762-1825 | over the whole life of a dialogue no invoke is given two final answers, and those given one are exactly those that ended in a result or an error |
| `Lives.EndedIsNeverAnswered` | src/dialogue.rs:1762-1825 | once an invoke came to an end, by whatever way, nothing done later delivers a final answer to it or changes that end |
| `DialogueRuns.OneViewPerComponent` | src/dialogue.rs:1742-1853 | the handler sees one view per component, in order |
| `DialogueRuns.RejectedIsStored` | src/dialogue.rs:1840-1852 | the stored Rejects grow by exactly those the handler is told of, unless the message is an End |
| `DialogueRuns.StoredRejectLeavesOnce` | src/dialogue.rs:814-897 | while a dialogue is open every Reject it ever stored waits still, at its place in the queue, or left in exactly one message |
| `DialogueRuns.FailedFlushKeepsRejects` | src/dialogue.rs:874-877 | a flush that fails says nothing and keeps the stored Rejects; only what was staged is gone |
| `DialogueRuns.ClosedStaysClosed` | src/dialogue.rs:815-817 | a closed dialogue says nothing more, whatever its handler does |
| `DialogueRuns.FailedTurnLeavesNothingStaged` | src/python.rs:1790-1798 | a turn that fails leaves nothing staged |
| `LiveDialogues.LiveDialogue.InvokeWith` | src/dialogue.rs:670-693 | the update in place is the step the laws are proved of |
| `LiveDialogues.LiveDialogue.Flush` | src/dialogue.rs:814-897 | the update in place is the step the laws and `FlushSaysAll` are proved of, its failures included |
| `LiveDialogues.LiveDialogue.AbortAs` | src/dialogue.rs:796-812 | the same for an abort |
| `LiveDialogues.LiveDialogue.Replay` | src/python.rs:1748-1800 | the commands run up to the first that fails; the laws hold, the past only grows, and after a failure nothing is staged |
| `LiveDialogues.LiveDialogue.ReceiveComponents` | src/dialogue.rs:1742-1853 | the loop takes in the components one by one; the laws hold, the past only grows, and the Rejects stored are those shown |
| `Turns.FlushSaysAll` | src/dialogue.rs:814-897 | a flush that succeeds says one message: the stored Rejects in order, and behind them all that waited, in order |
| `Turns.FlushStartsInvokes` | src/dialogue.rs:878-894 | unless it closes the dialogue, it puts each staged invoke in progress with its timer running from then |
| `Turns.TurnStages` | src/python.rs:1748-1800 | a turn that succeeds and is no abort stages one component for each command that asks for one, in order, each with the id, operation, argument or code its command names |
| `Turns.TurnIsSaid` | src/dialogue.rs:1285-1360 | of a Begin whose handler has a turn that succeeds, says something and is no abort: all that the turn asks for is said, in order and behind the Rejects each message carries, or still waits; an answer without an id is for the first invoke shown |
| `Turns.SentInvokeIsSaidOnce` | src/dialogue.rs:670-897 | each invoke that counts as sent stands, with its id, operation and argument, in exactly one message that was said |
| `Turns.OnlySentIsSaid` | src/dialogue.rs:670-897 | and no message says an invoke that does not count as sent |
| `Utterances.SendVoiced` | src/dialogue.rs:814-897 | a message that goes out takes with it all that waits, and its invokes are the ones that become sent |
| `Bookkeeping.MakeIsSound` | src/dialogue.rs:1066-1072 | a new dialogue gets a transaction id that no dialogue has, be it in the store, in hand or over, and the book stays sound |
| `Programs.AdvanceIsOk` | src/dialogue.rs:1227-1693 | every step of every call leaves a sound core, touches the entry of no dialogue but its own, and leaves that one where the next step needs it, or out of hand when the call returns |
| `Interleaving.NextIsSound` | src/dialogue.rs:1062-1078 | so does every step of every thread: each dialogue stays in one place, with one owner if it is in hand, its handler's calls in order, the gauge right, and any law that work keeps |
| `Interleaving.RunIsSound` | src/dialogue.rs:1227-1693 | so does every run of any number of calls, in any interleaving |
| `Interleaving.OneOwner` | src/dialogue.rs:1371-1393 | in every run a dialogue that is out of the store and not over is in the hands of exactly one running call |
| `Interleaving.NobodyElseWorksOnIt` | src/dialogue.rs:1371-1393 | no step of one call changes a dialogue another has in hand, or one that is over |
| `Interleaving.ClosedExactlyOnce` | src/dialogue.rs:1562-1566 | when no call runs, every dialogue a handler was given is in the store, its end not reported, or over, its end reported exactly once, in the last call the handler got; nothing is in hand, and the store holds as many as entered less those that left |
| `Interleaving.NeverTwice` | src/dialogue.rs:1562-1566 | while calls run, too, an end is reported at most once and nothing after it; every dialogue has an id that was given out |
| `Interleaving.CallGetsOn` | src/dialogue.rs:1227-1693 | each step brings its call nearer to the return |
| `Interleaving.EveryCallReturns` | src/dialogue.rs:1227-1693 | from any point of any run, whatever the handlers do and other threads do in between, a call that takes its steps returns within `Bound` of them, which for a call that begins, a timer call included, is at most 261 |
| `Interleaving.EveryDialogueIsLawful` | src/dialogue.rs:1227-1693 | in every run every dialogue obeys its laws, and those in the store are open |
| `Interleaving.EveryDialogueHasLived` | src/dialogue.rs:1227-1693 | in every run every dialogue is what some sequence of work made of a new one, so what `Lives` proves of whole lives holds of it |
| `Openings.StoredHasBegun` | src/dialogue.rs:1461-1501 | in every run a dialogue of our own that is in the store said its Begin |
| `Effects.TimeoutsAreTold` | src/dialogue.rs:1614-1693 | in every run, of a timer call that finds its dialogue due: by its return the handler was told of the operations outstanding and due when the dialogue was taken, of class 1, 2 or 3 and no other, each once and in order, and of all of them unless the dialogue is over; one idle too long is over |
| `Effects.TimersAreRun` | src/dialogue.rs:1614-1693 | in every run, and whatever other calls do in between, that call does in one piece what `TimersMayEnd` says: the handler's turns, the idle abort, what goes out, what is stored with which last activity or reported as the end |
| `Effects.TurnsStopAtTheEnd` | src/dialogue.rs:1648-1671 | each of those turns finds the dialogue open, and the last is about the last operation or the one whose turn closed it |
| `Effects.OverdueMeans` | src/dialogue.rs:1641-1656 | an operation is told of exactly if it was outstanding, its deadline had passed, and it is not of class 4 |
| `Effects.TurnIsRun` | src/dialogue.rs:1363-1428 | in every run a Continue or End for a stored dialogue gives its handler one turn, with one view per component; an End is reported then, and otherwise what was said goes out and the dialogue is stored, or its end reported if that turn closed it |
| `Effects.AbortIsReported` | src/dialogue.rs:1430-1453 | in every run an Abort of the peer for a stored dialogue is reported with its kind, and nothing is sent |
| `Effects.StartIsRun` | src/dialogue.rs:1461-1501 | in every run a dialogue of our own gets a new id and its handler one turn; what that said goes out and the dialogue is stored, unless it said nothing or closed it: then its end is reported |
| `Effects.BeginIsRun` | src/dialogue.rs:1280-1361 | in every run a Begin there is room for is answered by the engine where no handler serves it; a handler has one turn, with the first invoke and the other views, and what that leaves is answered, and stored or reported as over |
| `Effects.NothingThere` | src/dialogue.rs:1371-1393 | a call whose dialogue is not there, or not due any more, calls no handler and changes nothing but its claim; a Continue is answered with an abort |
| `Engine.ClaimedOnce` | src/dialogue.rs:1588-1600 | a claim returns only dialogues that are due, and a second claim none of them |
| `Engine.DialogueEngine.Store` | src/dialogue.rs:1543-1560 | a dialogue goes into the store under its id, unclaimed, and no other record changes |
| `Calls.KeepInIsSound` | src/dialogue.rs:1543-1560 | where a call stores its dialogue none is overwritten: there is none under that id, and the core stays sound |
| `Engine.DialogueEngine.AllocateTid` | src/dialogue.rs:1066-1072 | the id is none of those given out before |
| `Engine.DialogueEngine.OpenDialogues` | src/dialogue.rs:1053-1055 | the number reported is that of the dialogues in the store |
| `Engine.DialogueEngine.Take` | src/dialogue.rs:1074-1078 | a dialogue leaves the store exactly if it is there |
| `Engine.DialogueEngine.ClaimExpired` | src/dialogue.rs:1588-1600 | exactly the unclaimed dialogues whose timers are due are returned and claimed |
| `Engine.DialogueEngine.TakeExpired` | src/dialogue.rs:1614-1629 | a dialogue is taken exactly if its timers are still due, and only loses its claim otherwise |
| `Termination.BeginIsAnswered` | src/dialogue.rs:1227-1361 | if aborts and an End of stored Rejects can be sent, every Begin gets a frame, whatever its handler does |
| `Termination.ServedIff` | src/dialogue.rs:1285-1360 | a Begin that passes the transaction and dialogue checks stays unanswered exactly if its handler said nothing and the End of Rejects or the abort that is then due cannot be sent |
| `Termination.UnansweredIff` | src/dialogue.rs:1227-1361 | for every Begin and every handler: it stays unanswered if and only if its handler, if it has one, said nothing and the one frame that would answer it cannot be sent |
| `Replies.BeginAnswersInRuns` | src/dialogue.rs:1227-1361 | in every run of any number of calls, what the call for a Begin hands out from its first step to its return is `AnswerBegin`'s answer, with the room there was at its first step |
| `Replies.NoBeginIsLeft` | src/dialogue.rs:1227-1361 | so if aborts and Ends of Rejects can be sent, no run leaves a Begin unanswered |
| `ContentRouting.ContentEngine.Decide` | src/content.rs:523-543 | the loop returns the outcome of the first rule that matches or cannot be evaluated |
| `ContentRouting.EvaluateMeaning` | src/content.rs:523-543 | first match wins, said without the search |
| `ContentRouting.MatchesIff` | src/content.rs:545-606 | which criterion looks at what: the one address list at the called and the other at the calling address, the others at the operation and the IMSI |
| `ContentRouting.ActionMeaning` | src/content.rs:608-619 | a rule that screens drops what it matches, whatever else it says; any other routes to its target, rewritten as it says |
| `ContentRouting.UnknownImsiCannotChangeVerdict` | src/content.rs:514-543 | a verdict reached without the IMSI is the verdict for every IMSI and for none |
| `ContentRouting.NoEarlierRuleMatches` | src/content.rs:514-543 | before the rule a message is dropped at none matches, whatever the IMSI |
| `ContentRouting.DroppedIffItMatters` | src/content.rs:514-543 | a message is dropped for want of its IMSI exactly when it is unreadable and some rule hangs on it before any that matches |
| `ContentRouting.AddedRuleWins` | src/content.rs:481-487 | an added rule decides before all others, which otherwise decide as before |
| `ContentRouting.EntryAddedOnce` | src/content.rs:489-507 | a table gains one entry, no other table changes, and adding again changes nothing |
| `ContentRouting.ContentEngine.AddressTableAdd` | src/content.rs:489-498 | the update in place is that, for addresses |
| `ContentRouting.ContentEngine.ImsiTableAdd` | src/content.rs:500-507 | and for prefixes of an IMSI |
| `ContentRouting.ContentEngine.AddRule` | src/content.rs:485-487 | the update in place does that for every view |
| `ListenGroups.GroupListeners` | src/config.rs:287-343 | the groups partition the server associations, groups on one port share no local address though only first members are compared, and members are told apart by peer; well-formed configurations are refused exactly when two associations clash, and those two are named |
| `ListenGroups.PeerInCommon` | src/config.rs:247-253 | no peer in common exactly when the two could not both claim one |
| `ListenGroups.NoClashNoSharedPeer` | src/config.rs:247-253 | then no peer that presents an address is claimed by both |
| `ListenGroups.OneClaimant` | src/config.rs:278-343 | whoever connects to an endpoint is claimed by at most one association of its group |
| `ListenGroups.GoodHasNoClash` | src/config.rs:287-343 | in the groups returned no two associations clash |

## Left out

- The fields of the management object are held as one value while an event is handled and written back at its end: update in place within one event is not modelled, and nothing can observe it.
- `Topology::build` (src/mtp3/management.rs:175-238) and reading a configuration: their result is assumed valid, and a table whose explicit routes repeat an entry is not compared with management, which drops the repetition.
- Names and texts: linksets and servers are positions, the reasons inside `Ignored` actions and error texts are not kept, an operation code in a result is not kept, and which `Note` accompanies a procedure is not stated.
- The resolution of a message to a link of a linkset, retrieval on `Divert`, and sequence numbers on the wire: done by the transport.
- Congestion levels, `share_width`, `apply_event` and the resolver's setters for availability: one field each.
- TCAP and SCCP encoding and decoding, addressing, segmentation and hop counters: a decoded message comes in, and encoding may fail.
- The aborts that go back for a damaged message (`on_problem`) and the dispatch of `deliver`: what the calls do to dialogues is modelled, and of the frames that belong to no dialogue only the refusal of a Begin and the abort for an unknown transaction.
- A P-Abort cause and the user information of an abort are not told apart in a dialogue's own messages.
- Metrics, logging, and the Python surface beyond the replay of commands.
- Wall-clock time is one integer, and timer durations do not matter to management.
- Tenants, admission, ISUP and global title routing would only add easy members.
- ReceiveReject: removes the one operation with the rejected id; src/dialogue.rs:1828-1832 removes all with it, and there is never more than one (`DialogueRuns.InvokesHaveTheirOwnIds`).
