/** The live dialogue that a handler drives, updated in place. */
module LiveDialogues {
  import opened Options
  import opened InvokeIds
  import opened Tcap
  import opened DialogueLaws
  import opened DialogueRuns

  class LiveDialogue {
    const role: Role
    const ourTid: Tid
    const ac: seq<nat>
    var peerTid: Tid
    var replyId: InvokeId
    var nextId: InvokeId
    var begun: bool
    var aarePending: bool
    var closed: Option<CloseReason>
    var pending: seq<Component>
    var staged: seq<Operation>
    var outstanding: seq<Operation>
    var rejects: seq<Rejection>
    var out: seq<Message>
    var sendError: Option<Failure>
    var idleTimeout: Option<nat>
    var past: History

    /** The dialogue as a value. */
    function State(): Dialogue
      reads this
    {
      Dialogue(role, ourTid, peerTid, ac, replyId, nextId, begun, aarePending, closed, pending, staged, outstanding, rejects, out,
               sendError, idleTimeout, past)
    }

    constructor (role: Role, ourTid: Tid, peerTid: Tid, ac: seq<nat>, idle: Option<nat>)
      ensures State() == New(role, ourTid, peerTid, ac, idle)
    {
      this.role, this.ourTid, this.peerTid, this.ac := role, ourTid, peerTid, ac;
      replyId, nextId, begun, aarePending, closed := 0, 1, false, role == Responder && ac != [], None;
      pending, staged, outstanding, rejects, out := [], [], [], [], [];
      sendError, idleTimeout, past := None, idle, NoPast;
    }

    // ── Staging ──────────────────────────────────────────────────────────────

    /** The next free invoke id, if there is one; the next search starts behind it. */
    method TakeId() returns (id: Option<InvokeId>)
      modifies this`nextId, this`past
      ensures id == Free(Start(old(nextId)), UsedIds(old(State())))
      ensures State() == if id.None? then old(State())
                else old(State()).(nextId := InvokeIds.After(old(nextId), id.value),
                                   past := old(past).(grants := old(past.grants) + [Grant(old(nextId), UsedIds(old(State())), id.value)]))
    {
      var used := UsedIds(State());
      var after;
      id, after := Allocate(nextId, used);
      if id.Some? {
        past := past.(grants := past.grants + [Grant(nextId, used, id.value)]);
        nextId := after;
      }
    }

    method Enlist(c: Component, o: Operation)
      modifies this`pending, this`staged, this`past
      ensures State() == old(State()).(pending := old(pending) + [c], staged := old(staged) + [o],
                                       past := Given(old(past), c).(serial := old(past.serial) + 1))
    {
      pending, staged := pending + [c], staged + [o];
      past := Given(past, c).(serial := past.serial + 1);
    }

    method InvokeWith(op: int, argument: Option<Octets>, kind: OperationClass, timeout: nat) returns (failure: Option<Failure>)
      modifies this`nextId, this`pending, this`staged, this`past
      ensures (State(), failure) == Tcap.InvokeWith(old(State()), op, argument, kind, timeout)
    {
      if closed.Some? {
        return Some(Closed);
      }
      var id := TakeId();
      if id.None? {
        return Some(NoInvokeId);
      }
      Enlist(Invoke(id.value, None, op, argument), Operation(id.value, op, argument, kind, timeout, None, past.serial));
      return None;
    }

    method Stage(c: Component)
      modifies this`pending, this`past
      ensures State() == Tcap.Stage(old(State()), c)
    {
      pending, past := pending + [c], Given(past, c);
    }

    method DiscardStaged()
      modifies this`pending, this`staged, this`past
      ensures State() == Tcap.DiscardStaged(old(State()))
    {
      pending, staged, past := [], [], Withdrawn(past, |pending|);
    }

    // ── Sending ──────────────────────────────────────────────────────────────

    method Fail(e: Failure)
      modifies this`sendError
      ensures State() == Tcap.Fail(old(State()), e)
    {
      if sendError.None? {
        sendError := Some(e);
      }
    }

    /** Queue a message for sending. */
    method Say(m: Message, leading: nat)
      modifies this`out, this`past
      ensures State() == Tcap.Say(old(State()), m, leading)
    {
      out := out + [m];
      past := past.(said := past.said + [m], led := past.led + [leading]);
    }

    /** Nothing is stored or staged any more, and the dialogue is under way. */
    method Clear()
      modifies this`rejects, this`pending, this`staged, this`aarePending, this`begun
      ensures State() == old(State()).(rejects := [], pending := [], staged := [], aarePending := false, begun := true)
    {
      rejects, pending, staged, aarePending, begun := [], [], [], false, true;
    }

    /** The invokes that were sent are in progress, or with an End every operation returns to idle. */
    method MoveOperations(closing: bool, now: int)
      modifies this`outstanding, this`closed, this`past
      ensures var d := old(State());
              State() == if closing
                then d.(outstanding := [], closed := Some(Ended),
                        past := ConcludeAll(Sent(d.past, d.staged), d.outstanding + Started(d.staged, now), Dropped))
                else d.(outstanding := d.outstanding + Started(d.staged, now), past := Sent(d.past, d.staged))
    {
      outstanding, past := outstanding + Started(staged, now), Sent(past, staged);
      if closing {
        past := ConcludeAll(past, outstanding, Dropped);
        outstanding, closed := [], Some(Ended);
      }
    }

    /** Flush what is stored and staged as a Begin, Continue or End. */
    method Flush(codec: Codec, closing: bool, now: int) returns (failure: Option<Failure>)
      modifies this
      ensures (State(), failure) == Tcap.Flush(codec, old(State()), closing, now)
    {
      if closed.Some? {
        return Some(Closed);
      }
      if !Opening(State()) && peerTid == NoTid {
        Fail(NoPeerTransaction);
        return Some(NoPeerTransaction);
      }
      var m := Leg(codec, State(), closing);
      if !codec.encodes(m) {
        DiscardStaged();
        Fail(NotEncoded);
        return Some(NotEncoded);
      }
      Say(m, |rejects|);
      MoveOperations(closing, now);
      Clear();
      return None;
    }

    method Release(reason: CloseReason)
      modifies this`pending, this`staged, this`outstanding, this`rejects, this`closed, this`past
      ensures State() == Released(old(State()), reason)
    {
      past := Withdrawn(ConcludeAll(past, outstanding, Dropped), |pending|);
      pending, staged, outstanding, rejects, closed := [], [], [], [], Some(reason);
    }

    method AbortAs(codec: Codec, reason: CloseReason) returns (failure: Option<Failure>)
      modifies this
      ensures (State(), failure) == Tcap.AbortAs(codec, old(State()), reason)
    {
      if closed.Some? {
        return Some(Closed);
      }
      var m := AbortMessage(State());
      Release(reason);
      if peerTid == NoTid {
        return None;
      }
      if !codec.encodes(m) {
        Fail(NotEncoded);
        return Some(NotEncoded);
      }
      Say(m, 0);
      return None;
    }

    // ── A turn ───────────────────────────────────────────────────────────────

    method SetIdleTimeout(idle: Option<nat>)
      modifies this`idleTimeout
      ensures State() == old(State()).(idleTimeout := idle)
    {
      idleTimeout := idle;
    }

    method Perform(codec: Codec, cmd: Command, now: int) returns (failure: Option<Failure>)
      modifies this
      ensures (State(), failure) == Tcap.Perform(codec, old(State()), cmd, now)
    {
      failure := None;
      match cmd {
        case DoInvoke(op, argument, kind, timeout) =>
          if argument.None? {
            return Some(BadArgument);
          }
          failure := InvokeWith(op, argument.value, kind, timeout);
        case DoReply(result) => Stage(ResultLast(replyId, result));
        case DoReplyTo(id, result) => Stage(ResultLast(id, result));
        case DoError(id, code) => Stage(ReturnError(id, code));
        case DoReject(rejection) => Stage(Reject(rejection));
        case DoIdleTimeout(idle) => SetIdleTimeout(idle);
        case DoSend => failure := Flush(codec, false, now);
        case DoEnd => failure := Flush(codec, true, now);
        case DoAbort => failure := AbortAs(codec, Aborted);
      }
    }

    method RunCommands(codec: Codec, cmds: seq<Command>, now: int) returns (failure: Option<Failure>)
      modifies this
      ensures (State(), failure) == Tcap.Replay(codec, old(State()), cmds, now)
    {
      var i := 0;
      while i < |cmds|
        invariant 0 <= i <= |cmds|
        invariant Tcap.Replay(codec, old(State()), cmds, now) == ReplayFrom(codec, State(), cmds, i, now)
      {
        failure := Perform(codec, cmds[i], now);
        if failure.Some? {
          DiscardStaged();
          return;
        }
        i := i + 1;
      }
      return None;
    }

    /** Run the commands of one turn, up to the first that fails. */
    method Replay(codec: Codec, cmds: seq<Command>, now: int) returns (failure: Option<Failure>)
      requires Lawful(codec, State())
      modifies this
      ensures (State(), failure) == Tcap.Replay(codec, old(State()), cmds, now)
      ensures Lawful(codec, State()) && Extends(old(past), past)
      ensures failure.Some? ==> pending == [] && staged == []
    {
      ghost var d := State();
      failure := RunCommands(codec, cmds, now);
      ReplayIsLawful(codec, d, cmds, 0, now);
      ReplayExtends(codec, d, cmds, 0, now);
      if failure.Some? {
        FailedTurnLeavesNothingStaged(codec, d, cmds, 0, now);
      }
    }

    // ── Receiving ────────────────────────────────────────────────────────────

    /** What receiving changes. */
    function Desk(): Books
      reads this
    {
      Books(outstanding, past.concluded, rejects, past.stored)
    }

    method ConcludeAt(i: nat, how: Conclusion)
      requires i < |outstanding|
      modifies this`outstanding, this`past
      ensures Desk() == Concluded(old(Desk()), i, how) && past == old(past).(concluded := past.concluded)
    {
      past := past.(concluded := past.concluded[outstanding[i].serial := how]);
      outstanding := outstanding[..i] + outstanding[i + 1..];
    }

    method RefuseComponent(r: Rejection, isEnd: bool) returns (seen: Seen)
      modifies this`rejects, this`past
      ensures Desk() == Refuse(old(Desk()), r, isEnd) && past == old(past).(stored := past.stored) && seen == LocalReject(r)
    {
      if !isEnd {
        rejects := rejects + [r];
        past := past.(stored := past.stored + [r]);
      }
      seen := LocalReject(r);
    }

    /** Of the past, only which invokes ended and which Rejects were stored changed. */
    ghost predicate OnlyReceived(before: History)
      reads this
    {
      past == before.(concluded := past.concluded, stored := past.stored)
    }

    method ReceiveAnswer(id: InvokeId, result: Option<Octets>, last: bool, isEnd: bool) returns (seen: Seen)
      modifies this`outstanding, this`rejects, this`past
      ensures (Desk(), seen) == ReceiveResult(old(Desk()), id, result, last, isEnd) && OnlyReceived(old(past))
    {
      var p := Find(outstanding, id);
      if p.None? {
        seen := RefuseComponent(Rejection(Some(id), ResultUnrecognized), isEnd);
      } else if !ReportsSuccess(outstanding[p.value].kind) {
        ConcludeAt(p.value, Mistaken);
        seen := RefuseComponent(Rejection(Some(id), ResultUnexpected), isEnd);
      } else {
        if last {
          ConcludeAt(p.value, Succeeded);
        }
        seen := SeenResult(id, result);
      }
    }

    method ReceiveFailure(id: InvokeId, code: int, isEnd: bool) returns (seen: Seen)
      modifies this`outstanding, this`rejects, this`past
      ensures (Desk(), seen) == ReceiveError(old(Desk()), id, code, isEnd) && OnlyReceived(old(past))
    {
      var p := Find(outstanding, id);
      if p.None? {
        seen := RefuseComponent(Rejection(Some(id), ErrorUnrecognized), isEnd);
      } else if !ReportsFailure(outstanding[p.value].kind) {
        ConcludeAt(p.value, Mistaken);
        seen := RefuseComponent(Rejection(Some(id), ErrorUnexpected), isEnd);
      } else {
        ConcludeAt(p.value, Failed);
        seen := SeenError(id, code);
      }
    }

    method ReceiveRejection(r: Rejection) returns (seen: Seen)
      modifies this`outstanding, this`past
      ensures (Desk(), seen) == ReceiveReject(old(Desk()), r) && OnlyReceived(old(past))
    {
      if (r.problem.General? || r.problem.OfInvoke?) && r.id.Some? {
        var p := Find(outstanding, r.id.value);
        if p.Some? {
          ConcludeAt(p.value, Rejected);
        }
      }
      seen := SeenReject(r);
    }

    method ReceiveOne(c: Component, isEnd: bool) returns (seen: Seen)
      modifies this`outstanding, this`rejects, this`past
      ensures (Desk(), seen) == Receive(old(Desk()), c, isEnd) && OnlyReceived(old(past))
    {
      match c {
        case Invoke(id, linked, op, argument) =>
          if linked.Some? && linked.value !in IdsOf(outstanding) {
            seen := RefuseComponent(Rejection(Some(id), UnrecognizedLinkedId), isEnd);
          } else {
            seen := SeenInvoke(id, op, argument);
          }
        case ResultLast(id, result) => seen := ReceiveAnswer(id, result, true, isEnd);
        case ResultNotLast(id, result) => seen := ReceiveAnswer(id, result, false, isEnd);
        case ReturnError(id, code) => seen := ReceiveFailure(id, code, isEnd);
        case Reject(rejection) => seen := ReceiveRejection(rejection);
      }
    }

    method ReceiveNext(ghost b: Books, comps: seq<Component>, i: nat, isEnd: bool) returns (one: Seen)
      requires i < |comps| && Desk() == BooksAfter(b, comps, i, isEnd)
      modifies this`outstanding, this`rejects, this`past
      ensures Desk() == BooksAfter(b, comps, i + 1, isEnd) && OnlyReceived(old(past))
      ensures SeenOf(b, comps, i + 1, isEnd) == SeenOf(b, comps, i, isEnd) + [one]
    {
      one := ReceiveOne(comps[i], isEnd);
    }

    method ReceiveInOrder(comps: seq<Component>, isEnd: bool) returns (seen: seq<Seen>)
      modifies this`outstanding, this`rejects, this`past
      ensures Desk() == BooksAfter(old(Desk()), comps, |comps|, isEnd) && seen == SeenOf(old(Desk()), comps, |comps|, isEnd)
      ensures OnlyReceived(old(past))
    {
      ghost var b := Desk();
      seen := [];
      var i := 0;
      while i < |comps|
        invariant 0 <= i <= |comps|
        invariant Desk() == BooksAfter(b, comps, i, isEnd) && seen == SeenOf(b, comps, i, isEnd) && OnlyReceived(old(past))
      {
        var one := ReceiveNext(b, comps, i, isEnd);
        seen := seen + [one];
        i := i + 1;
      }
    }

    /** Take in the components of one message, in order. */
    method ReceiveComponents(codec: Codec, comps: seq<Component>, isEnd: bool) returns (seen: seq<Seen>)
      requires Lawful(codec, State()) && closed.None?
      modifies this`outstanding, this`rejects, this`past
      ensures State() == ReceiveAll(old(State()), comps, isEnd) && seen == SeenOf(BooksOf(old(State())), comps, |comps|, isEnd)
      ensures Lawful(codec, State()) && Extends(old(past), past)
      ensures rejects == if isEnd then old(rejects) else old(rejects) + Refused(seen)
    {
      ghost var d := State();
      seen := ReceiveInOrder(comps, isEnd);
      assert State() == ReceiveAll(d, comps, isEnd);
      ReceiveAllIsLawful(codec, d, comps, isEnd);
      ReceiveAllExtends(codec, d, comps, isEnd);
      RejectedIsStored(BooksOf(d), comps, |comps|, isEnd);
    }
  }
}
