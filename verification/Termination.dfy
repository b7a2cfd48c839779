/**
 What a Begin is answered with, for every handler: the checks of the transaction
 and component sub-layers, the handler's turn, and the engine's own answer where
 the handler gives none.
 */
module Termination {
  import opened Options
  import opened InvokeIds
  import opened Tcap
  import opened DialogueLaws
  import opened DialogueRuns

  /** The dialogue portion of a Begin as it decodes. */
  datatype Offer = NoOffer | Version1(ac: seq<nat>) | OtherVersion(ac: seq<nat>) | Unusable

  /** A decoded Begin: `damaged` is a component that could not be read, and whether a Reject answers it. */
  datatype BeginMessage = BeginMessage(otid: Tid, offer: Offer, comps: seq<Component>, damaged: Option<(Rejection, bool)>)

  datatype Frame =
    | Leg(message: Message)
    | ResourceLimitation(dtid: Tid)
    | UnrecognizedTransaction(dtid: Tid)
    | NoCommonDialoguePortion(dtid: Tid)
    | AbnormalDialogue(dtid: Tid)

  predicate IsAbort(f: Frame) { !f.Leg? || f.message.Abort? }

  /** An End that carries nothing but Rejects of the component sub-layer. */
  predicate OnlyRejects(m: Message) { m.End? && forall c | c in m.components :: c.Reject? }

  /** What can be sent: `sends` says which frames encode. */
  function CodecOf(sends: Frame -> bool, isOid: seq<nat> -> bool): Codec { Codec(m => sends(Leg(m)), isOid) }

  function IfSent(sends: Frame -> bool, f: Frame): seq<Frame> { if sends(f) then [f] else [] }

  function Framed(out: seq<Message>): (frames: seq<Frame>)
    ensures |frames| == |out| && forall i | 0 <= i < |out| :: frames[i] == Leg(out[i])
  {
    seq(|out|, i requires 0 <= i < |out| => Leg(out[i]))
  }

  predicate Dispatchable(s: Seen) { s.SeenInvoke? && s.op >= 0 }

  /** The first invoke a handler could serve. */
  function FirstInvoke(seen: seq<Seen>, i: nat): (p: Option<nat>)
    requires i <= |seen|
    ensures p.Some? ==> p.value < |seen| && Dispatchable(seen[p.value])
    ensures p.None? ==> forall k | i <= k < |seen| :: !Dispatchable(seen[k])
    decreases |seen| - i
  {
    if i == |seen| then None else if Dispatchable(seen[i]) then Some(i) else FirstInvoke(seen, i + 1)
  }

  /** The new dialogue once the components of the Begin are taken in, and what a handler sees of them. */
  function TakeIn(d0: Dialogue, b: BeginMessage): (Dialogue, seq<Seen>) {
    var d, seen := ReceiveAll(d0, b.comps, false), SeenOf(BooksOf(d0), b.comps, |b.comps|, false);
    match b.damaged
    case None => (d, seen)
    case Some(r) => (StageRejected(d, r.0, r.1, false), seen + [LocalReject(r.0)])
  }

  /** The end of the turn a Begin opens: a handler that said nothing is answered for. */
  function Answered(codec: Codec, d: Dialogue): Dialogue {
    if d.closed.None? && d.out == [] then AbortAs(codec, d, NoAnswer).0 else d
  }

  /** A Begin that no handler serves: stored Rejects go out with an End, and else it is aborted. */
  function Unserved(codec: Codec, d: Dialogue, invoked: bool, now: int): Dialogue {
    if !invoked && d.rejects != [] then Flush(codec, d, true, now).0 else AbortAs(codec, d, Aborted).0
  }

  /** What the component sub-layer leaves to the TC-user; `handler` is what a registered handler does. */
  function Served(codec: Codec, d0: Dialogue, b: BeginMessage, handler: Option<seq<Command>>, now: int): Dialogue {
    var (d, seen) := TakeIn(d0, b);
    match FirstInvoke(seen, 0)
    case None => Unserved(codec, d, false, now)
    case Some(first) =>
      if handler.None? then Unserved(codec, d.(replyId := seen[first].id), true, now)
      else Answered(codec, Replay(codec, d.(replyId := seen[first].id), handler.value, now).0)
  }

  /** A dialogue portion that can be accepted, and the context it offers. */
  predicate Acceptable(offer: Offer) { offer.NoOffer? || offer.Version1? }

  function ContextOf(offer: Offer): seq<nat> { if offer.Version1? then offer.ac else [] }

  /** The abort that answers a Begin for which there is no room, or whose dialogue portion is refused. */
  function Refusal(b: BeginMessage, room: bool): Frame {
    if !room then ResourceLimitation(b.otid)
    else if b.offer.OtherVersion? then NoCommonDialoguePortion(b.otid)
    else AbnormalDialogue(b.otid)
  }

  /** The frames a Begin is answered with. */
  function AnswerBegin(sends: Frame -> bool, isOid: seq<nat> -> bool, b: BeginMessage, room: bool, ourTid: Tid,
                       idle: Option<nat>, handler: Option<seq<Command>>, now: int): seq<Frame>
  {
    if !room || !Acceptable(b.offer) then IfSent(sends, Refusal(b, room))
    else Framed(Served(CodecOf(sends, isOid), New(Responder, ourTid, b.otid, ContextOf(b.offer), idle), b, handler, now).out)
  }

  // ── When a Begin is answered ───────────────────────────────────────────────

  /** A dialogue as a Begin opens it, with nothing said yet. */
  ghost predicate Opened(d: Dialogue) {
    d.peerTid != NoTid && d.role == Responder && d.closed.None? && d.out == [] && d.pending == []
  }

  lemma TakeInFacts(d0: Dialogue, b: BeginMessage)
    requires Opened(d0)
    ensures var d := TakeIn(d0, b).0; Opened(d) && d.peerTid == d0.peerTid && d.ac == d0.ac
  {}

  /** The message that the answer hangs on: none if the handler said something itself. */
  function Resort(codec: Codec, d0: Dialogue, b: BeginMessage, handler: Option<seq<Command>>, now: int): Option<Message> {
    var (d, seen) := TakeIn(d0, b);
    match FirstInvoke(seen, 0)
    case None => Some(if d.rejects != [] then Tcap.Leg(codec, d, true) else AbortMessage(d))
    case Some(first) =>
      if handler.Some? && Replay(codec, d.(replyId := seen[first].id), handler.value, now).0.out != [] then None
      else Some(AbortMessage(d))
  }

  /** A handler that leaves a dialogue closed and nothing said tried to abort it, in vain. */
  ghost predicate Muted(codec: Codec, d: Dialogue, abort: Message) {
    && d.peerTid != NoTid && AbortMessage(d) == abort
    && (d.closed.Some? && d.out == [] ==> !codec.encodes(abort))
  }

  lemma PerformIsMuted(codec: Codec, d: Dialogue, cmd: Command, now: int, abort: Message)
    requires Muted(codec, d, abort)
    ensures Muted(codec, Perform(codec, d, cmd, now).0, abort)
  {}

  lemma {:induction false} ReplayIsMuted(codec: Codec, d: Dialogue, cmds: seq<Command>, i: nat, now: int, abort: Message)
    requires Muted(codec, d, abort) && i <= |cmds|
    ensures Muted(codec, ReplayFrom(codec, d, cmds, i, now).0, abort)
    decreases |cmds| - i
  {
    if i < |cmds| {
      PerformIsMuted(codec, d, cmds[i], now, abort);
      var (after, failure) := Perform(codec, d, cmds[i], now);
      if failure.None? {
        ReplayIsMuted(codec, after, cmds, i + 1, now, abort);
      }
    }
  }

  lemma AnsweredIff(codec: Codec, d: Dialogue, abort: Message)
    requires Muted(codec, d, abort)
    ensures Answered(codec, d).out == [] <==> d.out == [] && !codec.encodes(abort)
  {}

  lemma UnservedIff(codec: Codec, d: Dialogue, invoked: bool, now: int)
    requires Opened(d)
    ensures Unserved(codec, d, invoked, now).out == [] <==>
              !codec.encodes(if !invoked && d.rejects != [] then Tcap.Leg(codec, d, true) else AbortMessage(d))
  {}

  /** Past the checks of the transaction and the dialogue, a Begin stays unanswered exactly if the last resort cannot be sent. */
  lemma ServedIff(codec: Codec, d0: Dialogue, b: BeginMessage, handler: Option<seq<Command>>, now: int)
    requires Opened(d0)
    ensures Served(codec, d0, b, handler, now).out == [] <==>
              Resort(codec, d0, b, handler, now).Some? && !codec.encodes(Resort(codec, d0, b, handler, now).value)
  {
    TakeInFacts(d0, b);
    var (d, seen) := TakeIn(d0, b);
    match FirstInvoke(seen, 0)
    case None => UnservedIff(codec, d, false, now);
    case Some(first) =>
      var given := d.(replyId := seen[first].id);
      if handler.None? {
        UnservedIff(codec, given, true, now);
      } else {
        ReplayIsMuted(codec, given, handler.value, 0, now, AbortMessage(d));
        AnsweredIff(codec, Replay(codec, given, handler.value, now).0, AbortMessage(d));
      }
  }

  /** What the answer to any Begin hangs on. */
  function LastResort(sends: Frame -> bool, isOid: seq<nat> -> bool, b: BeginMessage, room: bool, ourTid: Tid,
                      idle: Option<nat>, handler: Option<seq<Command>>, now: int): Option<Frame>
  {
    if !room || !Acceptable(b.offer) then Some(Refusal(b, room))
    else
      var d0 := New(Responder, ourTid, b.otid, ContextOf(b.offer), idle);
      match Resort(CodecOf(sends, isOid), d0, b, handler, now)
      case None => None
      case Some(m) => Some(Leg(m))
  }

  /**
   A Begin stays unanswered if and only if its handler, if it has one, said nothing
   and the one frame that would answer it then cannot be sent: the refusal, the End of
   the component sub-layer's Rejects, or the abort.
   */
  lemma UnansweredIff(sends: Frame -> bool, isOid: seq<nat> -> bool, b: BeginMessage, room: bool, ourTid: Tid,
                      idle: Option<nat>, handler: Option<seq<Command>>, now: int)
    requires b.otid != NoTid
    ensures AnswerBegin(sends, isOid, b, room, ourTid, idle, handler, now) == [] <==>
              var last := LastResort(sends, isOid, b, room, ourTid, idle, handler, now); last.Some? && !sends(last.value)
  {
    if room && Acceptable(b.offer) {
      ServedIff(CodecOf(sends, isOid), New(Responder, ourTid, b.otid, ContextOf(b.offer), idle), b, handler, now);
    }
  }

  lemma ResortIsAbortOrRejects(codec: Codec, d0: Dialogue, b: BeginMessage, handler: Option<seq<Command>>, now: int)
    requires Opened(d0) && Resort(codec, d0, b, handler, now).Some?
    ensures var m := Resort(codec, d0, b, handler, now).value; m.Abort? || OnlyRejects(m)
  {
    TakeInFacts(d0, b);
    var d := TakeIn(d0, b).0;
    assert Tcap.Leg(codec, d, true).components == AsComponents(d.rejects);
  }

  /**
   If every abort can be sent, and an End of the component sub-layer's own
   Rejects, then a Begin is answered whatever its handler does.
   */
  lemma BeginIsAnswered(sends: Frame -> bool, isOid: seq<nat> -> bool, b: BeginMessage, room: bool, ourTid: Tid,
                        idle: Option<nat>, handler: Option<seq<Command>>, now: int)
    requires b.otid != NoTid
    requires forall f: Frame | IsAbort(f) :: sends(f)
    requires forall m: Message | OnlyRejects(m) :: sends(Leg(m))
    ensures AnswerBegin(sends, isOid, b, room, ourTid, idle, handler, now) != []
  {
    UnansweredIff(sends, isOid, b, room, ourTid, idle, handler, now);
    var last := LastResort(sends, isOid, b, room, ourTid, idle, handler, now);
    if room && Acceptable(b.offer) && last.Some? {
      ResortIsAbortOrRejects(CodecOf(sends, isOid), New(Responder, ourTid, b.otid, ContextOf(b.offer), idle), b, handler, now);
    }
    assert last.Some? ==> IsAbort(last.value) || (last.value.Leg? && OnlyRejects(last.value.message));
  }
}
