/**
 A TCAP dialogue: what is staged, what is sent, which of our operations are in
 progress, and what has become of each (sections 3.2.1 and 3.2.2 of ITU-T Q.774).
 Encoding is an operation that may fail.
 */
module Tcap {
  import opened Options
  import opened InvokeIds

  /** A transaction id: its octets as one number, and how many they are. */
  datatype Tid = NoTid | Tid(octets: nat, value: nat)

  type Octets = seq<nat>

  datatype Role = Initiator | Responder

  datatype OperationClass = One | Two | Three | Four

  predicate ReportsSuccess(c: OperationClass) { c.One? || c.Three? }

  predicate ReportsFailure(c: OperationClass) { c.One? || c.Two? }

  datatype Problem = General(code: nat) | OfInvoke(code: nat) | OfResult(code: nat) | OfError(code: nat)

  const UnrecognizedLinkedId := OfInvoke(5)
  const ResultUnrecognized := OfResult(0)
  const ResultUnexpected := OfResult(1)
  const ErrorUnrecognized := OfError(0)
  const ErrorUnexpected := OfError(1)

  datatype Rejection = Rejection(id: Option<InvokeId>, problem: Problem)

  datatype Component =
    | Invoke(id: InvokeId, linked: Option<InvokeId>, op: int, argument: Option<Octets>)
    | ResultLast(id: InvokeId, result: Option<Octets>)
    | ResultNotLast(id: InvokeId, result: Option<Octets>)
    | ReturnError(id: InvokeId, code: int)
    | Reject(rejection: Rejection)

  datatype Portion = Aarq(ac: seq<nat>) | Aare(ac: seq<nat>) | Abrt

  datatype Message =
    | Begin(otid: Tid, portion: Option<Portion>, components: seq<Component>)
    | Continue(otid: Tid, dtid: Tid, portion: Option<Portion>, components: seq<Component>)
    | End(dtid: Tid, portion: Option<Portion>, components: seq<Component>)
    | Abort(dtid: Tid, portion: Option<Portion>)

  /** Which messages can be encoded, and which arcs make an object identifier. */
  datatype Codec = Codec(encodes: Message -> bool, isOid: seq<nat> -> bool)

  datatype Failure = Closed | NoInvokeId | NoPeerTransaction | NotEncoded | BadArgument

  datatype CloseReason =
    | Ended | PeerEnded | Aborted | PeerAborted | ProviderAborted | Abnormal
    | InvokeTimedOut(id: InvokeId, op: int) | IdleTimedOut | NoAnswer | NotSent

  /** What became of one of our invokes once it was sent. */
  datatype Conclusion = Succeeded | Failed | Mistaken | Rejected | TimedOut | Dropped

  /** One of our invokes; `serial` numbers them over the life of the dialogue, and `argument` is kept for its past. */
  datatype Operation = Operation(
    id: InvokeId,
    op: int,
    argument: Option<Octets>,
    kind: OperationClass,
    timeout: nat,
    deadline: Option<int>,
    serial: nat)

  /**
   The past of a dialogue: every message it said and how many leading components
   of each are Rejects of the component sub-layer, every such Reject ever stored,
   the next serial number, every invoke id ever given out, the invokes ever sent,
   by number and in order, and what each came to; beside that all components that
   were staged and not dropped.
   */
  datatype History = History(
    said: seq<Message>,
    led: seq<nat>,
    stored: seq<Rejection>,
    serial: nat,
    grants: seq<Grant>,
    sent: map<nat, Operation>,
    concluded: map<nat, Conclusion>,
    given: seq<Component>,
    invoked: seq<Operation>)

  datatype Dialogue = Dialogue(
    role: Role,
    ourTid: Tid,
    peerTid: Tid,
    ac: seq<nat>,
    replyId: InvokeId,
    nextId: InvokeId,
    begun: bool,
    aarePending: bool,
    closed: Option<CloseReason>,
    pending: seq<Component>,
    staged: seq<Operation>,
    outstanding: seq<Operation>,
    rejects: seq<Rejection>,
    out: seq<Message>,
    sendError: Option<Failure>,
    idleTimeout: Option<nat>,
    past: History)

  const NoPast := History([], [], [], 0, [], map[], map[], [], [])

  function New(role: Role, ourTid: Tid, peerTid: Tid, ac: seq<nat>, idleTimeout: Option<nat>): Dialogue {
    Dialogue(role, ourTid, peerTid, ac, 0, 1, false, role == Responder && ac != [], None, [], [], [], [], [], None, idleTimeout,
             NoPast)
  }

  // ── Staging ────────────────────────────────────────────────────────────────

  function IdsOf(s: seq<Operation>): set<InvokeId> { set i | 0 <= i < |s| :: s[i].id }

  function UsedIds(d: Dialogue): set<InvokeId> { IdsOf(d.outstanding) + IdsOf(d.staged) }

  function Stage(d: Dialogue, c: Component): Dialogue { d.(pending := d.pending + [c], past := Given(d.past, c)) }

  function Given(past: History, c: Component): History { past.(given := past.given + [c]) }

  /** The last `count` components that were staged are dropped. */
  function Withdrawn(past: History, count: nat): History {
    past.(given := if count <= |past.given| then past.given[..|past.given| - count] else [])
  }

  /** The component that an operation is asked for with. */
  function AsInvoke(o: Operation): Component { Invoke(o.id, None, o.op, o.argument) }

  /** Stage an invoke; the id it gets, or why it is refused. */
  function InvokeWith(d: Dialogue, op: int, argument: Option<Octets>, kind: OperationClass, timeout: nat): (Dialogue, Option<Failure>) {
    if d.closed.Some? then (d, Some(Closed))
    else
      var id := Free(Start(d.nextId), UsedIds(d));
      if id.None? then (d, Some(NoInvokeId))
      else
        (d.(nextId := InvokeIds.After(d.nextId, id.value),
            pending := d.pending + [Invoke(id.value, None, op, argument)],
            staged := d.staged + [Operation(id.value, op, argument, kind, timeout, None, d.past.serial)],
            past := Given(d.past, Invoke(id.value, None, op, argument)).(serial := d.past.serial + 1,
                                                                         grants := d.past.grants + [Grant(d.nextId, UsedIds(d), id.value)])),
         None)
  }

  /** What was staged since the last flush is dropped. */
  function DiscardStaged(d: Dialogue): Dialogue { d.(pending := [], staged := [], past := Withdrawn(d.past, |d.pending|)) }

  // ── Sending ────────────────────────────────────────────────────────────────

  function Fail(d: Dialogue, e: Failure): Dialogue { if d.sendError.None? then d.(sendError := Some(e)) else d }

  function AsComponents(rejects: seq<Rejection>): (comps: seq<Component>)
    ensures |comps| == |rejects| && forall i | 0 <= i < |rejects| :: comps[i] == Reject(rejects[i])
  {
    seq(|rejects|, i requires 0 <= i < |rejects| => Reject(rejects[i]))
  }

  predicate Opening(d: Dialogue) { d.role == Initiator && !d.begun }

  /** The AARQ of an opening Begin, the AARE of the first answer, nothing otherwise. */
  function PortionOf(codec: Codec, d: Dialogue): Option<Portion> {
    if !codec.isOid(d.ac) then None
    else if Opening(d) then Some(Aarq(d.ac))
    else if d.aarePending then Some(Aare(d.ac))
    else None
  }

  /** The message that a flush makes of what is stored and staged. */
  function Leg(codec: Codec, d: Dialogue, closing: bool): Message {
    var comps := AsComponents(d.rejects) + d.pending;
    var portion := PortionOf(codec, d);
    if Opening(d) then Begin(d.ourTid, portion, comps)
    else if closing then End(d.peerTid, portion, comps)
    else Continue(d.ourTid, d.peerTid, portion, comps)
  }

  /** The invokes of a message start their timers when it is sent. */
  function Started(s: seq<Operation>, now: int): (r: seq<Operation>)
    ensures |r| == |s| && forall i | 0 <= i < |s| :: r[i] == s[i].(deadline := Some(now + s[i].timeout))
  {
    seq(|s|, i requires 0 <= i < |s| => s[i].(deadline := Some(now + s[i].timeout)))
  }

  function Serials(s: seq<Operation>): set<nat> { set i | 0 <= i < |s| :: s[i].serial }

  /** The operation among `s` with this serial number. */
  function OperationOf(s: seq<Operation>, serial: nat): Operation {
    if s == [] then Operation(0, 0, None, Four, 0, None, serial)
    else if s[|s| - 1].serial == serial then s[|s| - 1] else OperationOf(s[..|s| - 1], serial)
  }

  /** The invokes of a message that is sent are sent. */
  function Sent(past: History, s: seq<Operation>): History { past.(sent := WithSent(past.sent, s), invoked := past.invoked + s) }

  function WithSent(sent: map<nat, Operation>, s: seq<Operation>): map<nat, Operation> {
    sent + map serial | serial in Serials(s) :: OperationOf(s, serial)
  }

  /** Every operation in progress comes to the same end. */
  function ConcludeAll(past: History, s: seq<Operation>, how: Conclusion): History {
    past.(concluded := WithConcluded(past.concluded, s, how))
  }

  function WithConcluded(concluded: map<nat, Conclusion>, s: seq<Operation>, how: Conclusion): map<nat, Conclusion> {
    concluded + map serial | serial in Serials(s) :: how
  }

  function Say(d: Dialogue, m: Message, leading: nat): Dialogue {
    d.(out := d.out + [m], past := d.past.(said := d.past.said + [m], led := d.past.led + [leading]))
  }

  /** The dialogue once `m` went out. */
  function Flushed(d: Dialogue, m: Message, closing: bool, now: int): Dialogue {
    var said := Say(d, m, |d.rejects|).(rejects := [], pending := [], staged := [], aarePending := false, begun := true);
    var active, past := d.outstanding + Started(d.staged, now), Sent(said.past, d.staged);
    if closing then said.(outstanding := [], closed := Some(Ended), past := ConcludeAll(past, active, Dropped))
    else said.(outstanding := active, past := past)
  }

  /** Send what is stored and staged; on a failure only what was staged is gone. */
  function Flush(codec: Codec, d: Dialogue, closing: bool, now: int): (Dialogue, Option<Failure>) {
    if d.closed.Some? then (d, Some(Closed))
    else if !Opening(d) && d.peerTid == NoTid then (Fail(d, NoPeerTransaction), Some(NoPeerTransaction))
    else
      var m := Leg(codec, d, closing);
      if codec.encodes(m) then (Flushed(d, m, closing, now), None)
      else (Fail(DiscardStaged(d), NotEncoded), Some(NotEncoded))
  }

  /** The dialogue is over for its user: nothing is staged, stored or in progress any more. */
  function Released(d: Dialogue, reason: CloseReason): Dialogue {
    d.(pending := [], staged := [], outstanding := [], rejects := [], closed := Some(reason),
       past := Withdrawn(ConcludeAll(d.past, d.outstanding, Dropped), |d.pending|))
  }

  function AbortMessage(d: Dialogue): Message { Abort(d.peerTid, if d.ac != [] then Some(Abrt) else None) }

  /** Abort as the TC-user: before the peer answered, that is purely local. */
  function AbortAs(codec: Codec, d: Dialogue, reason: CloseReason): (Dialogue, Option<Failure>) {
    if d.closed.Some? then (d, Some(Closed))
    else
      var released := Released(d, reason);
      if d.peerTid == NoTid then (released, None)
      else if codec.encodes(AbortMessage(d)) then (Say(released, AbortMessage(d), 0), None)
      else (Fail(released, NotEncoded), Some(NotEncoded))
  }

  // ── The commands of a handler ──────────────────────────────────────────────

  /** `argument` is none where the argument cannot be built for this dialogue. */
  datatype Command =
    | DoInvoke(op: int, argument: Option<Option<Octets>>, kind: OperationClass, timeout: nat)
    | DoReply(result: Option<Octets>)
    | DoReplyTo(id: InvokeId, result: Option<Octets>)
    | DoError(id: InvokeId, code: int)
    | DoReject(rejection: Rejection)
    | DoIdleTimeout(idle: Option<nat>)
    | DoSend
    | DoEnd
    | DoAbort

  function Perform(codec: Codec, d: Dialogue, cmd: Command, now: int): (Dialogue, Option<Failure>) {
    match cmd
    case DoInvoke(op, argument, kind, timeout) =>
      if argument.None? then (d, Some(BadArgument)) else InvokeWith(d, op, argument.value, kind, timeout)
    case DoReply(result) => (Stage(d, ResultLast(d.replyId, result)), None)
    case DoReplyTo(id, result) => (Stage(d, ResultLast(id, result)), None)
    case DoError(id, code) => (Stage(d, ReturnError(id, code)), None)
    case DoReject(rejection) => (Stage(d, Reject(rejection)), None)
    case DoIdleTimeout(idle) => (d.(idleTimeout := idle), None)
    case DoSend => Flush(codec, d, false, now)
    case DoEnd => Flush(codec, d, true, now)
    case DoAbort => AbortAs(codec, d, Aborted)
  }

  /** The commands of one turn: the first that fails is the last, and what is staged and not sent is dropped. */
  function ReplayFrom(codec: Codec, d: Dialogue, cmds: seq<Command>, i: nat, now: int): (Dialogue, Option<Failure>)
    requires i <= |cmds|
    decreases |cmds| - i
  {
    if i == |cmds| then (d, None)
    else
      var (after, failure) := Perform(codec, d, cmds[i], now);
      if failure.Some? then (DiscardStaged(after), failure) else ReplayFrom(codec, after, cmds, i + 1, now)
  }

  function Replay(codec: Codec, d: Dialogue, cmds: seq<Command>, now: int): (Dialogue, Option<Failure>) {
    ReplayFrom(codec, d, cmds, 0, now)
  }

  // ── Receiving ──────────────────────────────────────────────────────────────

  /** What the handler is shown of a component. */
  datatype Seen =
    | SeenInvoke(id: InvokeId, op: int, argument: Option<Octets>)
    | SeenResult(id: InvokeId, result: Option<Octets>)
    | SeenError(id: InvokeId, code: int)
    | SeenReject(rejection: Rejection)
    | LocalReject(rejection: Rejection)

  function Find(s: seq<Operation>, id: InvokeId): (p: Option<nat>)
    ensures p.Some? ==> p.value < |s| && s[p.value].id == id
    ensures p.None? <==> id !in IdsOf(s)
  {
    if s == [] then None
    else
      assert s == s[..|s| - 1] + [s[|s| - 1]];
      assert forall i | 0 <= i < |s| - 1 :: s[..|s| - 1][i] == s[i];
      var p := Find(s[..|s| - 1], id);
      if p.Some? then assert s[..|s| - 1][p.value].id in IdsOf(s[..|s| - 1]); p
      else if s[|s| - 1].id == id then Some(|s| - 1)
      else None
  }

  /** What receiving changes: the operations in progress and those that ended, the Rejects that wait and all there ever were. */
  datatype Books = Books(
    outstanding: seq<Operation>,
    concluded: map<nat, Conclusion>,
    rejects: seq<Rejection>,
    stored: seq<Rejection>)

  function BooksOf(d: Dialogue): Books { Books(d.outstanding, d.past.concluded, d.rejects, d.past.stored) }

  function WithBooks(d: Dialogue, b: Books): Dialogue {
    d.(outstanding := b.outstanding, rejects := b.rejects, past := d.past.(concluded := b.concluded, stored := b.stored))
  }

  /** The operation at `i` has come to an end. */
  function Concluded(b: Books, i: nat, how: Conclusion): Books
    requires i < |b.outstanding|
  {
    b.(outstanding := b.outstanding[..i] + b.outstanding[i + 1..], concluded := b.concluded[b.outstanding[i].serial := how])
  }

  /** A component is rejected: a Reject is stored for the next message, unless the peer ended the dialogue. */
  function Refuse(b: Books, r: Rejection, isEnd: bool): Books {
    if isEnd then b else b.(rejects := b.rejects + [r], stored := b.stored + [r])
  }

  function ReceiveResult(b: Books, id: InvokeId, result: Option<Octets>, last: bool, isEnd: bool): (Books, Seen) {
    match Find(b.outstanding, id)
    case None =>
      var r := Rejection(Some(id), ResultUnrecognized);
      (Refuse(b, r, isEnd), LocalReject(r))
    case Some(i) =>
      if !ReportsSuccess(b.outstanding[i].kind) then
        var r := Rejection(Some(id), ResultUnexpected);
        (Refuse(Concluded(b, i, Mistaken), r, isEnd), LocalReject(r))
      else (if last then Concluded(b, i, Succeeded) else b, SeenResult(id, result))
  }

  function ReceiveError(b: Books, id: InvokeId, code: int, isEnd: bool): (Books, Seen) {
    match Find(b.outstanding, id)
    case None =>
      var r := Rejection(Some(id), ErrorUnrecognized);
      (Refuse(b, r, isEnd), LocalReject(r))
    case Some(i) =>
      if !ReportsFailure(b.outstanding[i].kind) then
        var r := Rejection(Some(id), ErrorUnexpected);
        (Refuse(Concluded(b, i, Mistaken), r, isEnd), LocalReject(r))
      else (Concluded(b, i, Failed), SeenError(id, code))
  }

  /** A Reject that names one of our invokes as the culprit is the last word on it. */
  function ReceiveReject(b: Books, r: Rejection): (Books, Seen) {
    if (r.problem.General? || r.problem.OfInvoke?) && r.id.Some? && Find(b.outstanding, r.id.value).Some?
    then (Concluded(b, Find(b.outstanding, r.id.value).value, Rejected), SeenReject(r))
    else (b, SeenReject(r))
  }

  function ReceiveInvoke(b: Books, id: InvokeId, linked: Option<InvokeId>, op: int, argument: Option<Octets>, isEnd: bool): (Books, Seen) {
    if linked.Some? && linked.value !in IdsOf(b.outstanding) then
      var r := Rejection(Some(id), UnrecognizedLinkedId);
      (Refuse(b, r, isEnd), LocalReject(r))
    else (b, SeenInvoke(id, op, argument))
  }

  /** One component, checked against the operation it names (Table 5 of ITU-T Q.774). */
  function Receive(b: Books, c: Component, isEnd: bool): (Books, Seen) {
    match c
    case Invoke(id, linked, op, argument) => ReceiveInvoke(b, id, linked, op, argument, isEnd)
    case ResultLast(id, result) => ReceiveResult(b, id, result, true, isEnd)
    case ResultNotLast(id, result) => ReceiveResult(b, id, result, false, isEnd)
    case ReturnError(id, code) => ReceiveError(b, id, code, isEnd)
    case Reject(rejection) => ReceiveReject(b, rejection)
  }

  /** The books after the first `count` components. */
  function BooksAfter(b: Books, comps: seq<Component>, count: nat, isEnd: bool): Books
    requires count <= |comps|
  {
    if count == 0 then b else Receive(BooksAfter(b, comps, count - 1, isEnd), comps[count - 1], isEnd).0
  }

  /** What the handler is shown of the first `count` components. */
  function SeenOf(b: Books, comps: seq<Component>, count: nat, isEnd: bool): seq<Seen>
    requires count <= |comps|
  {
    if count == 0 then []
    else SeenOf(b, comps, count - 1, isEnd) + [Receive(BooksAfter(b, comps, count - 1, isEnd), comps[count - 1], isEnd).1]
  }

  /** The dialogue once the components of a message are taken in. */
  function ReceiveAll(d: Dialogue, comps: seq<Component>, isEnd: bool): Dialogue {
    WithBooks(d, BooksAfter(BooksOf(d), comps, |comps|, isEnd))
  }

  /** A component that could not be read; the Reject to send, unless it was itself a Reject. */
  function StageRejected(d: Dialogue, r: Rejection, answered: bool, isEnd: bool): Dialogue {
    if answered then WithBooks(d, Refuse(BooksOf(d), r, isEnd)) else d
  }

  /** The peer's transaction id, from its first answer. */
  function Learn(d: Dialogue, otid: Tid): Dialogue { if d.peerTid == NoTid then d.(peerTid := otid) else d }

  /** After an End of the peer nothing is in progress, and nothing can be sent any more. */
  function PeerEnd(d: Dialogue): Dialogue {
    d.(outstanding := [], rejects := [], closed := Some(PeerEnded), past := ConcludeAll(d.past, d.outstanding, Dropped))
  }

  /** The timers of these operations ran out. */
  function Expire(d: Dialogue, now: int): Dialogue {
    var (expired, running) := Split(d.outstanding, now);
    d.(outstanding := running, past := ConcludeAll(d.past, expired, TimedOut))
  }

  predicate Due(o: Operation, now: int) { o.deadline.Some? && now >= o.deadline.value }

  function Split(s: seq<Operation>, now: int): (seq<Operation>, seq<Operation>) {
    if s == [] then ([], [])
    else
      var (expired, running) := Split(s[..|s| - 1], now);
      var last := s[|s| - 1];
      if Due(last, now) then (expired + [last], running) else (expired, running + [last])
  }
}
