/** What holds of a dialogue over its whole life, for every handler and every peer. */
module DialogueLaws {
  import opened Options
  import opened InvokeIds
  import opened Tcap
  import opened Utterances

  // ── Operations in progress ─────────────────────────────────────────────────

  /** No two invokes share an id or a number. */
  ghost predicate Distinct(s: seq<Operation>) {
    forall i, j | 0 <= i < j < |s| :: s[i].id != s[j].id && s[i].serial != s[j].serial
  }

  /** The invokes that are staged or in progress have ids and numbers of their own. */
  ghost predicate Apart(outstanding: seq<Operation>, staged: seq<Operation>, serial: nat) {
    && Distinct(outstanding) && Distinct(staged)
    && IdsOf(outstanding) !! IdsOf(staged) && Serials(outstanding) !! Serials(staged)
    && (forall i | 0 <= i < |staged| :: staged[i].serial < serial)
  }

  /** Every invoke ever sent is in progress or has come to one end, never both, and to an end its class allows. */
  ghost predicate Accounted(outstanding: seq<Operation>, serial: nat, sent: map<nat, Operation>, concluded: map<nat, Conclusion>) {
    && (forall n | n in sent :: n < serial)
    && Serials(outstanding) !! concluded.Keys
    && sent.Keys == Serials(outstanding) + concluded.Keys
    && (forall i | 0 <= i < |outstanding| :: Known(sent, outstanding[i]))
    && (forall n | n in concluded && n in sent :: Allows(sent[n].kind, concluded[n]))
  }

  /** An operation in progress is the one that was sent. */
  ghost predicate Known(sent: map<nat, Operation>, o: Operation) { o.serial in sent && Same(sent[o.serial], o) }

  ghost predicate Same(a: Operation, b: Operation) {
    a.id == b.id && a.op == b.op && a.argument == b.argument && a.kind == b.kind && a.serial == b.serial
  }

  predicate Allows(kind: OperationClass, how: Conclusion) {
    (how.Succeeded? ==> ReportsSuccess(kind)) && (how.Failed? ==> ReportsFailure(kind))
  }

  /** What is staged was never sent. */
  ghost predicate Unsent(staged: seq<Operation>, sent: map<nat, Operation>) { Serials(staged) !! sent.Keys }

  // ── What is said ───────────────────────────────────────────────────────────

  /** What of a dialogue never changes. */
  datatype Party = Party(role: Role, ourTid: Tid, ac: seq<nat>)

  function Who(d: Dialogue): Party { Party(d.role, d.ourTid, d.ac) }

  /** What portion message `i` has: a responder accepts the context it was offered with its first answer. */
  function Answering(codec: Codec, who: Party, i: nat): Option<Portion> {
    if who.role == Responder && who.ac != [] && i == 0 && codec.isOid(who.ac) then Some(Aare(who.ac)) else None
  }

  /** The right message at place `i` of what a dialogue says. */
  ghost predicate Fits(codec: Codec, who: Party, peerTid: Tid, m: Message, i: nat) {
    match m
    case Begin(otid, portion, _) =>
      i == 0 && who.role == Initiator && otid == who.ourTid && portion == (if codec.isOid(who.ac) then Some(Aarq(who.ac)) else None)
    case Continue(otid, dtid, portion, _) => otid == who.ourTid && dtid == peerTid != NoTid && portion == Answering(codec, who, i)
    case End(dtid, portion, _) => dtid == peerTid != NoTid && portion == Answering(codec, who, i)
    case Abort(dtid, portion) => dtid == peerTid != NoTid && portion == (if who.ac != [] then Some(Abrt) else None)
  }

  predicate Final(m: Message) { m.End? || m.Abort? }

  /** `Begin? Continue* (End | Abort)?`, a Begin exactly from an initiator, everything else to one peer transaction. */
  ghost predicate Grammar(codec: Codec, who: Party, peerTid: Tid, closed: bool, said: seq<Message>) {
    && (forall i | 0 <= i < |said| :: Fits(codec, who, peerTid, said[i], i))
    && (forall i | 0 <= i < |said| && Final(said[i]) :: i == |said| - 1 && closed)
    && (who.role == Initiator && said != [] ==> said[0].Begin?)
  }

  /** Where the dialogue is in what it says. */
  ghost predicate InStep(who: Party, closed: bool, begun: bool, aarePending: bool, said: seq<Message>) {
    && (who.role == Initiator ==> (begun <==> said != []) && !aarePending)
    && (!closed ==> (aarePending <==> who.role == Responder && who.ac != [] && said == []))
  }

  /** What waits to go out is the end of what was said. */
  ghost predicate Queued(out: seq<Message>, said: seq<Message>) { |out| <= |said| && said[|said| - |out|..] == out }

  // ── Stored Rejects ─────────────────────────────────────────────────────────

  /** The leading components of the first `count` messages. */
  ghost function Carried(said: seq<Message>, led: seq<nat>, count: nat): seq<Component>
    requires count <= |said| == |led|
  {
    if count == 0 then []
    else
      var comps := ComponentsOf(said[count - 1]);
      Carried(said, led, count - 1) + (if led[count - 1] <= |comps| then comps[..led[count - 1]] else comps)
  }

  /** Every Reject the component sub-layer ever stored left in one message, in order, or still waits. */
  ghost predicate RejectsKept(said: seq<Message>, led: seq<nat>, stored: seq<Rejection>, rejects: seq<Rejection>, closed: bool) {
    && |led| == |said| && (forall i | 0 <= i < |said| :: led[i] <= |ComponentsOf(said[i])|)
    && (!closed ==> AsComponents(stored) == Carried(said, led, |said|) + AsComponents(rejects))
  }

  // ── Invoke ids ─────────────────────────────────────────────────────────────

  /** The ids of a dialogue were given out one search after the other. */
  ghost predicate GivenInTurn(nextId: InvokeId, grants: seq<Grant>) {
    Run(grants) && (grants != [] ==> nextId == InvokeIds.After(grants[|grants| - 1].next, grants[|grants| - 1].id))
  }

  lemma OneMoreGiven(nextId: InvokeId, grants: seq<Grant>, g: Grant)
    requires GivenInTurn(nextId, grants) && g.next == nextId && Free(Start(g.next), g.used) == Some(g.id)
    ensures GivenInTurn(InvokeIds.After(g.next, g.id), grants + [g])
  {
    var more := grants + [g];
    forall k | 0 <= k < |more| - 1 ensures more[k + 1].next == InvokeIds.After(more[k].next, more[k].id) {
      if k < |grants| - 1 {
        assert more[k + 1] == grants[k + 1] && more[k] == grants[k];
      }
    }
  }

  /** The laws of a dialogue but for what it was asked to say. */
  ghost predicate Regular(codec: Codec, d: Dialogue) {
    && Apart(d.outstanding, d.staged, d.past.serial)
    && Accounted(d.outstanding, d.past.serial, d.past.sent, d.past.concluded)
    && Unsent(d.staged, d.past.sent)
    && GivenInTurn(d.nextId, d.past.grants)
    && Grammar(codec, Who(d), d.peerTid, d.closed.Some?, d.past.said)
    && InStep(Who(d), d.closed.Some?, d.begun, d.aarePending, d.past.said)
    && (d.role == Initiator && d.past.said == [] ==> d.peerTid == NoTid)
    && Queued(d.out, d.past.said)
    && RejectsKept(d.past.said, d.past.led, d.past.stored, d.rejects, d.closed.Some?)
    && (d.closed.Some? ==> d.outstanding == [] && d.rejects == [])
  }

  /** The laws of a dialogue. */
  ghost predicate Lawful(codec: Codec, d: Dialogue) { Regular(codec, d) && Voiced(d.past, d.pending, d.staged) }

  // ── Staging keeps the laws ─────────────────────────────────────────────────

  lemma NewIsLawful(codec: Codec, role: Role, ourTid: Tid, peerTid: Tid, ac: seq<nat>, idle: Option<nat>)
    requires role == Initiator ==> peerTid == NoTid
    ensures Lawful(codec, New(role, ourTid, peerTid, ac, idle))
  {}

  lemma DiscardIsRegular(codec: Codec, d: Dialogue)
    requires Regular(codec, d)
    ensures Regular(codec, DiscardStaged(d))
  {}

  lemma DiscardIsLawful(codec: Codec, d: Dialogue)
    requires Lawful(codec, d)
    ensures Lawful(codec, DiscardStaged(d))
  {
    DiscardIsRegular(codec, d);
    DroppedVoiced(d.past, d.pending, d.staged);
  }

  lemma OneMoreStaged(outstanding: seq<Operation>, staged: seq<Operation>, serial: nat, o: Operation,
                      sent: map<nat, Operation>)
    requires Apart(outstanding, staged, serial) && Unsent(staged, sent) && Serials(outstanding) <= sent.Keys
    requires forall n | n in sent :: n < serial
    requires o.id !in IdsOf(outstanding) + IdsOf(staged) && o.serial == serial
    ensures Apart(outstanding, staged + [o], serial + 1) && Unsent(staged + [o], sent)
  {
    var more := staged + [o];
    assert IdsOf(more) == IdsOf(staged) + {o.id} by {
      assert forall i | 0 <= i < |staged| :: more[i] == staged[i];
      assert more[|staged|] == o;
    }
    assert Serials(more) == Serials(staged) + {o.serial} by {
      assert forall i | 0 <= i < |staged| :: more[i] == staged[i];
      assert more[|staged|] == o;
    }
    forall i | 0 <= i < |staged| ensures staged[i].id != o.id {
      assert staged[i].id in IdsOf(staged);
    }
  }

  lemma InvokeIsRegular(codec: Codec, d: Dialogue, op: int, argument: Option<Octets>, kind: OperationClass, timeout: nat)
    requires Regular(codec, d)
    ensures Regular(codec, InvokeWith(d, op, argument, kind, timeout).0)
  {
    var id := Free(Start(d.nextId), UsedIds(d));
    if d.closed.None? && id.Some? {
      FreeMeaning(Start(d.nextId), UsedIds(d));
      OneMoreGiven(d.nextId, d.past.grants, Grant(d.nextId, UsedIds(d), id.value));
      var o := Operation(id.value, op, argument, kind, timeout, None, d.past.serial);
      OneMoreStaged(d.outstanding, d.staged, d.past.serial, o, d.past.sent);
    }
  }

  lemma InvokeIsVoiced(d: Dialogue, op: int, argument: Option<Octets>, kind: OperationClass, timeout: nat)
    requires Voiced(d.past, d.pending, d.staged)
    ensures var after := InvokeWith(d, op, argument, kind, timeout).0; Voiced(after.past, after.pending, after.staged)
  {
    var id := Free(Start(d.nextId), UsedIds(d));
    if id.Some? {
      var o := Operation(id.value, op, argument, kind, timeout, None, d.past.serial);
      InvokeVoiced(d.past, d.pending, d.staged, o, Grant(d.nextId, UsedIds(d), id.value));
    }
  }

  lemma InvokeIsLawful(codec: Codec, d: Dialogue, op: int, argument: Option<Octets>, kind: OperationClass, timeout: nat)
    requires Lawful(codec, d)
    ensures Lawful(codec, InvokeWith(d, op, argument, kind, timeout).0)
  {
    InvokeIsRegular(codec, d, op, argument, kind, timeout);
    InvokeIsVoiced(d, op, argument, kind, timeout);
  }

  lemma StageIsLawful(codec: Codec, d: Dialogue, c: Component)
    requires Lawful(codec, d) && !c.Invoke?
    ensures Lawful(codec, Stage(d, c))
  {
    ComponentVoiced(d.past, d.pending, d.staged, c);
  }

  // ── Sending keeps the laws ─────────────────────────────────────────────────

  lemma {:induction false} OperationIsKept(s: seq<Operation>, i: nat)
    requires Distinct(s) && i < |s|
    ensures OperationOf(s, s[i].serial) == s[i]
    decreases |s|
  {
    if i < |s| - 1 {
      OperationIsKept(s[..|s| - 1], i);
      assert s[..|s| - 1][i] == s[i];
    }
  }

  lemma StartedIsApart(outstanding: seq<Operation>, staged: seq<Operation>, now: int, serial: nat)
    requires Apart(outstanding, staged, serial)
    ensures Apart(outstanding + Started(staged, now), [], serial)
    ensures Serials(outstanding + Started(staged, now)) == Serials(outstanding) + Serials(staged)
  {
    var started := Started(staged, now);
    var after := outstanding + started;
    assert forall i | 0 <= i < |staged| :: started[i].serial == staged[i].serial && started[i].id == staged[i].id;
    assert Serials(started) == Serials(staged);
    SplitSets(outstanding, started);
    forall i, j | 0 <= i < j < |after| ensures after[i].id != after[j].id && after[i].serial != after[j].serial {
      if i < |outstanding| <= j {
        assert outstanding[i].id in IdsOf(outstanding) && staged[j - |outstanding|].id in IdsOf(staged);
        assert outstanding[i].serial in Serials(outstanding) && staged[j - |outstanding|].serial in Serials(staged);
      }
    }
  }

  lemma SentKnown(outstanding: seq<Operation>, staged: seq<Operation>, now: int, past: History, i: nat)
    requires Distinct(staged) && Unsent(staged, past.sent) && i < |outstanding| + |staged|
    requires forall k | 0 <= k < |outstanding| :: Known(past.sent, outstanding[k])
    ensures Known(WithSent(past.sent, staged), (outstanding + Started(staged, now))[i])
  {
    if i < |outstanding| {
      assert Known(past.sent, outstanding[i]);
      assert outstanding[i].serial !in Serials(staged);
    } else {
      OperationIsKept(staged, i - |outstanding|);
      assert staged[i - |outstanding|].serial in Serials(staged);
    }
  }

  /** The staged invokes are sent: they are in progress from now on. */
  lemma StagedIsSent(outstanding: seq<Operation>, staged: seq<Operation>, now: int, past: History)
    requires Apart(outstanding, staged, past.serial) && Accounted(outstanding, past.serial, past.sent, past.concluded) && Unsent(staged, past.sent)
    ensures Accounted(outstanding + Started(staged, now), past.serial, WithSent(past.sent, staged), past.concluded)
  {
    var after, sent := outstanding + Started(staged, now), WithSent(past.sent, staged);
    StartedIsApart(outstanding, staged, now, past.serial);
    assert sent.Keys == past.sent.Keys + Serials(staged);
    forall i | 0 <= i < |after| ensures Known(sent, after[i]) {
      SentKnown(outstanding, staged, now, past, i);
    }
    forall n | n in past.concluded && n in sent ensures Allows(sent[n].kind, past.concluded[n]) {
      assert n in past.sent && n !in Serials(staged);
    }
  }

  lemma SplitSets(a: seq<Operation>, b: seq<Operation>)
    ensures Serials(a + b) == Serials(a) + Serials(b) && IdsOf(a + b) == IdsOf(a) + IdsOf(b)
  {
    var all := a + b;
    assert forall i | 0 <= i < |a| :: all[i] == a[i];
    assert forall i | 0 <= i < |b| :: all[|a| + i] == b[i];
    forall n | n in Serials(all) ensures n in Serials(a) + Serials(b) {
      var i :| 0 <= i < |all| && all[i].serial == n;
      if i >= |a| { assert b[i - |a|].serial == n; }
    }
    forall n | n in IdsOf(all) ensures n in IdsOf(a) + IdsOf(b) {
      var i :| 0 <= i < |all| && all[i].id == n;
      if i >= |a| { assert b[i - |a|].id == n; }
    }
  }

  /** Every operation in progress comes to an end of the dialogue's making. */
  lemma AllConclude(outstanding: seq<Operation>, past: History, how: Conclusion)
    requires Accounted(outstanding, past.serial, past.sent, past.concluded) && !how.Succeeded? && !how.Failed?
    ensures Accounted([], past.serial, past.sent, WithConcluded(past.concluded, outstanding, how))
  {
    var after := WithConcluded(past.concluded, outstanding, how);
    assert after.Keys == past.concluded.Keys + Serials(outstanding);
    assert Serials([]) == {};
  }

  /** One more message, the last if it is final. */
  lemma OneMoreSaid(codec: Codec, who: Party, peerTid: Tid, closed: bool, said: seq<Message>, m: Message)
    requires Grammar(codec, who, peerTid, false, said) && Fits(codec, who, peerTid, m, |said|)
    requires Final(m) ==> closed
    requires who.role == Initiator && said == [] ==> m.Begin?
    ensures Grammar(codec, who, peerTid, closed, said + [m])
  {}

  lemma OneMoreQueued(out: seq<Message>, said: seq<Message>, m: Message)
    requires Queued(out, said)
    ensures Queued(out + [m], said + [m])
  {}

  lemma {:induction false} CarriedBefore(said: seq<Message>, led: seq<nat>, m: Message, leading: nat, count: nat)
    requires count <= |said| == |led|
    ensures Carried(said + [m], led + [leading], count) == Carried(said, led, count)
  {
    if count > 0 {
      CarriedBefore(said, led, m, leading, count - 1);
    }
  }

  /** A message takes every stored Reject with it, in front. */
  lemma RejectsLeave(said: seq<Message>, led: seq<nat>, stored: seq<Rejection>, rejects: seq<Rejection>, m: Message, pending: seq<Component>, closed: bool)
    requires RejectsKept(said, led, stored, rejects, false) && !m.Abort? && m.components == AsComponents(rejects) + pending
    ensures RejectsKept(said + [m], led + [|rejects|], stored, [], closed)
  {
    CarriedBefore(said, led, m, |rejects|, |said|);
    assert m.components[..|rejects|] == AsComponents(rejects);
    assert AsComponents([]) == [];
    assert (said + [m])[|said|] == m && (led + [|rejects|])[|said|] == |rejects|;
    assert Carried(said + [m], led + [|rejects|], |said| + 1) == Carried(said, led, |said|) + AsComponents(rejects);
  }

  lemma LegFits(codec: Codec, d: Dialogue, closing: bool)
    requires Regular(codec, d) && d.closed.None? && (Opening(d) || d.peerTid != NoTid)
    ensures Fits(codec, Who(d), d.peerTid, Leg(codec, d, closing), |d.past.said|)
    ensures d.role == Initiator && d.past.said == [] ==> Leg(codec, d, closing).Begin?
  {}

  /** What both kinds of flush keep of what is said. */
  lemma FlushedSays(codec: Codec, d: Dialogue, closing: bool)
    requires Regular(codec, d) && d.closed.None? && (Opening(d) || d.peerTid != NoTid)
    ensures var m := Leg(codec, d, closing); var said := d.past.said + [m];
            && Grammar(codec, Who(d), d.peerTid, closing, said) && Queued(d.out + [m], said)
            && InStep(Who(d), closing, true, false, said)
            && RejectsKept(said, d.past.led + [|d.rejects|], d.past.stored, [], closing)
  {
    var m := Leg(codec, d, closing);
    LegFits(codec, d, closing);
    OneMoreSaid(codec, Who(d), d.peerTid, closing, d.past.said, m);
    OneMoreQueued(d.out, d.past.said, m);
    RejectsLeave(d.past.said, d.past.led, d.past.stored, d.rejects, m, d.pending, closing);
  }

  lemma NothingUnsent(sent: map<nat, Operation>)
    ensures Unsent([], sent)
  {}

  lemma NothingApart(serial: nat)
    ensures Apart([], [], serial)
  {}

  /** A message carries the stored Rejects and behind them all that is staged, in order. */
  lemma LegCarriesAll(codec: Codec, d: Dialogue, closing: bool)
    ensures ComponentsOf(Leg(codec, d, closing)) == AsComponents(d.rejects) + d.pending
  {}

  lemma EndIsRegular(codec: Codec, d: Dialogue, now: int)
    requires Regular(codec, d) && d.closed.None? && (Opening(d) || d.peerTid != NoTid)
    ensures Regular(codec, Flushed(d, Leg(codec, d, true), true, now))
  {
    FlushedSays(codec, d, true);
    NothingUnsent(WithSent(d.past.sent, d.staged));
    NothingApart(d.past.serial);
    StagedIsSent(d.outstanding, d.staged, now, d.past);
    AllConclude(d.outstanding + Started(d.staged, now), Sent(d.past, d.staged), Dropped);
  }

  lemma SendIsRegular(codec: Codec, d: Dialogue, now: int)
    requires Regular(codec, d) && d.closed.None? && (Opening(d) || d.peerTid != NoTid)
    ensures Regular(codec, Flushed(d, Leg(codec, d, false), false, now))
  {
    FlushedSays(codec, d, false);
    NothingUnsent(WithSent(d.past.sent, d.staged));
    StartedIsApart(d.outstanding, d.staged, now, d.past.serial);
    StagedIsSent(d.outstanding, d.staged, now, d.past);
  }

  lemma FlushedIsVoiced(codec: Codec, d: Dialogue, closing: bool, now: int)
    requires Voiced(d.past, d.pending, d.staged)
    ensures var after := Flushed(d, Leg(codec, d, closing), closing, now); Voiced(after.past, after.pending, after.staged)
  {
    LegCarriesAll(codec, d, closing);
    SendVoiced(d.past, d.pending, d.staged, d.rejects, Leg(codec, d, closing));
  }

  lemma FlushedIsLawful(codec: Codec, d: Dialogue, closing: bool, now: int)
    requires Lawful(codec, d) && d.closed.None? && (Opening(d) || d.peerTid != NoTid)
    ensures Lawful(codec, Flushed(d, Leg(codec, d, closing), closing, now))
  {
    FlushedIsVoiced(codec, d, closing, now);
    if closing {
      EndIsRegular(codec, d, now);
    } else {
      SendIsRegular(codec, d, now);
    }
  }

  lemma FailIsLawful(codec: Codec, d: Dialogue, e: Failure)
    requires Lawful(codec, d)
    ensures Lawful(codec, Fail(d, e))
  {}

  lemma FlushIsLawful(codec: Codec, d: Dialogue, closing: bool, now: int)
    requires Lawful(codec, d)
    ensures Lawful(codec, Flush(codec, d, closing, now).0)
  {
    if d.closed.None? && (Opening(d) || d.peerTid != NoTid) {
      if !codec.encodes(Leg(codec, d, closing)) {
        DiscardIsLawful(codec, d);
        FailIsLawful(codec, DiscardStaged(d), NotEncoded);
      } else {
        FlushedIsLawful(codec, d, closing, now);
      }
    } else {
      FailIsLawful(codec, d, NoPeerTransaction);
    }
  }

  lemma ReleasedIsRegular(codec: Codec, d: Dialogue, reason: CloseReason)
    requires Regular(codec, d) && d.closed.None?
    ensures Regular(codec, Released(d, reason))
  {
    AllConclude(d.outstanding, d.past, Dropped);
  }

  lemma AbortIsRegular(codec: Codec, d: Dialogue, reason: CloseReason)
    requires Regular(codec, d)
    ensures Regular(codec, AbortAs(codec, d, reason).0)
  {
    if d.closed.None? {
      ReleasedIsRegular(codec, d, reason);
      if d.peerTid != NoTid && codec.encodes(AbortMessage(d)) {
        OneMoreSaid(codec, Who(d), d.peerTid, true, d.past.said, AbortMessage(d));
        OneMoreQueued(d.out, d.past.said, AbortMessage(d));
      }
    }
  }

  lemma AbortIsVoiced(codec: Codec, d: Dialogue, reason: CloseReason)
    requires Voiced(d.past, d.pending, d.staged)
    ensures var after := AbortAs(codec, d, reason).0; Voiced(after.past, after.pending, after.staged)
  {
    if d.closed.None? {
      var released := Released(d, reason);
      ReleasedVoiced(d.past, d.pending, d.staged, d.outstanding);
      if d.peerTid != NoTid && codec.encodes(AbortMessage(d)) {
        AbortVoiced(released.past, [], [], AbortMessage(d));
        assert AbortAs(codec, d, reason).0 == Say(released, AbortMessage(d), 0);
      } else {
        assert AbortAs(codec, d, reason).0.past == released.past;
      }
    }
  }

  lemma AbortIsLawful(codec: Codec, d: Dialogue, reason: CloseReason)
    requires Lawful(codec, d)
    ensures Lawful(codec, AbortAs(codec, d, reason).0)
  {
    AbortIsRegular(codec, d, reason);
    AbortIsVoiced(codec, d, reason);
  }

  // ── A turn of the handler keeps the laws ───────────────────────────────────

  lemma AnswerIsLawful(codec: Codec, d: Dialogue, cmd: Command, now: int)
    requires Lawful(codec, d) && (cmd.DoReply? || cmd.DoReplyTo? || cmd.DoError? || cmd.DoReject?)
    ensures Lawful(codec, Perform(codec, d, cmd, now).0)
  {
    match cmd
    case DoReply(result) => StageIsLawful(codec, d, ResultLast(d.replyId, result));
    case DoReplyTo(id, result) => StageIsLawful(codec, d, ResultLast(id, result));
    case DoError(id, code) => StageIsLawful(codec, d, ReturnError(id, code));
    case DoReject(rejection) => StageIsLawful(codec, d, Reject(rejection));
  }

  lemma PerformIsLawful(codec: Codec, d: Dialogue, cmd: Command, now: int)
    requires Lawful(codec, d)
    ensures Lawful(codec, Perform(codec, d, cmd, now).0)
  {
    match cmd
    case DoInvoke(op, argument, kind, timeout) =>
      if argument.Some? { InvokeIsLawful(codec, d, op, argument.value, kind, timeout); }
    case DoSend => FlushIsLawful(codec, d, false, now);
    case DoEnd => FlushIsLawful(codec, d, true, now);
    case DoAbort => AbortIsLawful(codec, d, Aborted);
    case DoIdleTimeout(_) =>
    case _ => AnswerIsLawful(codec, d, cmd, now);
  }

  /** Whatever a handler does in a turn, the laws hold after it. */
  lemma {:induction false} ReplayIsLawful(codec: Codec, d: Dialogue, cmds: seq<Command>, i: nat, now: int)
    requires Lawful(codec, d) && i <= |cmds|
    ensures Lawful(codec, ReplayFrom(codec, d, cmds, i, now).0)
    decreases |cmds| - i
  {
    if i < |cmds| {
      PerformIsLawful(codec, d, cmds[i], now);
      var (after, failure) := Perform(codec, d, cmds[i], now);
      if failure.Some? {
        DiscardIsLawful(codec, after);
      } else {
        ReplayIsLawful(codec, after, cmds, i + 1, now);
      }
    }
  }

  // ── Receiving keeps the laws ───────────────────────────────────────────────

  function Without(s: seq<Operation>, i: nat): seq<Operation>
    requires i < |s|
  {
    s[..i] + s[i + 1..]
  }

  lemma WithoutAt(s: seq<Operation>, i: nat, k: nat)
    requires i < |s| && k < |s| - 1
    ensures Without(s, i)[k] == s[if k < i then k else k + 1]
  {}

  lemma OneLessIsDistinct(s: seq<Operation>, i: nat)
    requires i < |s| && Distinct(s)
    ensures Distinct(Without(s, i))
  {
    var rest := Without(s, i);
    forall j, k | 0 <= j < k < |rest| ensures rest[j].id != rest[k].id && rest[j].serial != rest[k].serial {
      WithoutAt(s, i, j);
      WithoutAt(s, i, k);
    }
  }

  lemma OneLess(s: seq<Operation>, i: nat)
    requires i < |s| && Distinct(s)
    ensures Distinct(Without(s, i))
    ensures IdsOf(Without(s, i)) == IdsOf(s) - {s[i].id} && Serials(Without(s, i)) == Serials(s) - {s[i].serial}
  {
    OneLessIsDistinct(s, i);
    var a, b := s[..i], s[i + 1..];
    assert s == a + [s[i]] + b;
    SplitSets(a + [s[i]], b);
    SplitSets(a, [s[i]]);
    SplitSets(a, b);
    assert Serials([s[i]]) == {s[i].serial} && IdsOf([s[i]]) == {s[i].id} by { assert [s[i]][0] == s[i]; }
    OthersDiffer(s, i);
  }

  lemma OthersDiffer(s: seq<Operation>, i: nat)
    requires i < |s| && Distinct(s)
    ensures s[i].serial !in Serials(s[..i]) + Serials(s[i + 1..]) && s[i].id !in IdsOf(s[..i]) + IdsOf(s[i + 1..])
  {
    var a, b := s[..i], s[i + 1..];
    assert forall k | 0 <= k < |a| :: a[k] == s[k];
    assert forall k | 0 <= k < |b| :: b[k] == s[i + 1 + k];
  }

  lemma ConcludedAccounts(s: seq<Operation>, i: nat, serial: nat, sent: map<nat, Operation>, concluded: map<nat, Conclusion>, how: Conclusion)
    requires i < |s| && Distinct(s) && Accounted(s, serial, sent, concluded) && Allows(s[i].kind, how)
    ensures Accounted(Without(s, i), serial, sent, concluded[s[i].serial := how])
  {
    OneLess(s, i);
    assert s[i].serial in Serials(s);
    var rest := Without(s, i);
    assert Known(sent, s[i]);
    forall k | 0 <= k < |rest| ensures Known(sent, rest[k]) {
      assert rest[k] == s[if k < i then k else k + 1];
    }
  }

  /** The laws as far as receiving touches them; `carried` are the Rejects that messages took along. */
  ghost predicate LawfulBooks(b: Books, staged: seq<Operation>, serial: nat, sent: map<nat, Operation>, carried: seq<Component>) {
    && Apart(b.outstanding, staged, serial) && Accounted(b.outstanding, serial, sent, b.concluded)
    && AsComponents(b.stored) == carried + AsComponents(b.rejects)
  }

  lemma ConcludedIsLawful(b: Books, staged: seq<Operation>, serial: nat, sent: map<nat, Operation>, carried: seq<Component>, i: nat, how: Conclusion)
    requires LawfulBooks(b, staged, serial, sent, carried) && i < |b.outstanding| && Allows(b.outstanding[i].kind, how)
    ensures LawfulBooks(Concluded(b, i, how), staged, serial, sent, carried)
  {
    OneLess(b.outstanding, i);
    ConcludedAccounts(b.outstanding, i, serial, sent, b.concluded, how);
  }

  lemma RefuseIsLawful(b: Books, staged: seq<Operation>, serial: nat, sent: map<nat, Operation>, carried: seq<Component>, r: Rejection, isEnd: bool)
    requires LawfulBooks(b, staged, serial, sent, carried)
    ensures LawfulBooks(Refuse(b, r, isEnd), staged, serial, sent, carried)
  {
    assert AsComponents(b.stored + [r]) == AsComponents(b.stored) + [Reject(r)];
    assert AsComponents(b.rejects + [r]) == AsComponents(b.rejects) + [Reject(r)];
  }

  lemma ResultIsLawful(b: Books, staged: seq<Operation>, serial: nat, sent: map<nat, Operation>, carried: seq<Component>,
                       id: InvokeId, result: Option<Octets>, last: bool, isEnd: bool)
    requires LawfulBooks(b, staged, serial, sent, carried)
    ensures LawfulBooks(ReceiveResult(b, id, result, last, isEnd).0, staged, serial, sent, carried)
  {
    match Find(b.outstanding, id)
    case None => RefuseIsLawful(b, staged, serial, sent, carried, Rejection(Some(id), ResultUnrecognized), isEnd);
    case Some(i) =>
      if ReportsSuccess(b.outstanding[i].kind) {
        ConcludedIsLawful(b, staged, serial, sent, carried, i, Succeeded);
      } else {
        ConcludedIsLawful(b, staged, serial, sent, carried, i, Mistaken);
        RefuseIsLawful(Concluded(b, i, Mistaken), staged, serial, sent, carried, Rejection(Some(id), ResultUnexpected), isEnd);
      }
  }

  lemma ErrorIsLawful(b: Books, staged: seq<Operation>, serial: nat, sent: map<nat, Operation>, carried: seq<Component>,
                      id: InvokeId, code: int, isEnd: bool)
    requires LawfulBooks(b, staged, serial, sent, carried)
    ensures LawfulBooks(ReceiveError(b, id, code, isEnd).0, staged, serial, sent, carried)
  {
    match Find(b.outstanding, id)
    case None => RefuseIsLawful(b, staged, serial, sent, carried, Rejection(Some(id), ErrorUnrecognized), isEnd);
    case Some(i) =>
      if ReportsFailure(b.outstanding[i].kind) {
        ConcludedIsLawful(b, staged, serial, sent, carried, i, Failed);
      } else {
        ConcludedIsLawful(b, staged, serial, sent, carried, i, Mistaken);
        RefuseIsLawful(Concluded(b, i, Mistaken), staged, serial, sent, carried, Rejection(Some(id), ErrorUnexpected), isEnd);
      }
  }

  lemma RejectIsLawful(b: Books, staged: seq<Operation>, serial: nat, sent: map<nat, Operation>, carried: seq<Component>, r: Rejection)
    requires LawfulBooks(b, staged, serial, sent, carried)
    ensures LawfulBooks(ReceiveReject(b, r).0, staged, serial, sent, carried)
  {
    if r.id.Some? && Find(b.outstanding, r.id.value).Some? {
      ConcludedIsLawful(b, staged, serial, sent, carried, Find(b.outstanding, r.id.value).value, Rejected);
    }
  }

  lemma ReceiveIsLawful(b: Books, staged: seq<Operation>, serial: nat, sent: map<nat, Operation>, carried: seq<Component>, c: Component, isEnd: bool)
    requires LawfulBooks(b, staged, serial, sent, carried)
    ensures LawfulBooks(Receive(b, c, isEnd).0, staged, serial, sent, carried)
  {
    match c
    case Invoke(id, _, _, _) => RefuseIsLawful(b, staged, serial, sent, carried, Rejection(Some(id), UnrecognizedLinkedId), isEnd);
    case ResultLast(id, result) => ResultIsLawful(b, staged, serial, sent, carried, id, result, true, isEnd);
    case ResultNotLast(id, result) => ResultIsLawful(b, staged, serial, sent, carried, id, result, false, isEnd);
    case ReturnError(id, code) => ErrorIsLawful(b, staged, serial, sent, carried, id, code, isEnd);
    case Reject(r) => RejectIsLawful(b, staged, serial, sent, carried, r);
  }

  lemma {:induction false} BooksStayLawful(b: Books, staged: seq<Operation>, serial: nat, sent: map<nat, Operation>, carried: seq<Component>,
                                           comps: seq<Component>, count: nat, isEnd: bool)
    requires LawfulBooks(b, staged, serial, sent, carried) && count <= |comps|
    ensures LawfulBooks(BooksAfter(b, comps, count, isEnd), staged, serial, sent, carried)
  {
    if count > 0 {
      BooksStayLawful(b, staged, serial, sent, carried, comps, count - 1, isEnd);
      ReceiveIsLawful(BooksAfter(b, comps, count - 1, isEnd), staged, serial, sent, carried, comps[count - 1], isEnd);
    }
  }

  ghost function CarriedBy(d: Dialogue): seq<Component>
    requires |d.past.led| == |d.past.said|
  {
    Carried(d.past.said, d.past.led, |d.past.said|)
  }

  lemma LawfulHasBooks(codec: Codec, d: Dialogue)
    requires Lawful(codec, d) && d.closed.None?
    ensures LawfulBooks(BooksOf(d), d.staged, d.past.serial, d.past.sent, CarriedBy(d))
  {}

  lemma WithBooksIsLawful(codec: Codec, d: Dialogue, b: Books)
    requires Lawful(codec, d) && d.closed.None? && LawfulBooks(b, d.staged, d.past.serial, d.past.sent, CarriedBy(d))
    ensures Lawful(codec, WithBooks(d, b))
  {}

  /** Whatever the peer sends, the laws hold after it. */
  lemma ReceiveAllIsLawful(codec: Codec, d: Dialogue, comps: seq<Component>, isEnd: bool)
    requires Lawful(codec, d) && d.closed.None?
    ensures Lawful(codec, ReceiveAll(d, comps, isEnd))
  {
    LawfulHasBooks(codec, d);
    BooksStayLawful(BooksOf(d), d.staged, d.past.serial, d.past.sent, CarriedBy(d), comps, |comps|, isEnd);
    WithBooksIsLawful(codec, d, BooksAfter(BooksOf(d), comps, |comps|, isEnd));
  }

  lemma StageRejectedIsLawful(codec: Codec, d: Dialogue, r: Rejection, answered: bool, isEnd: bool)
    requires Lawful(codec, d) && d.closed.None?
    ensures Lawful(codec, StageRejected(d, r, answered, isEnd))
  {
    LawfulHasBooks(codec, d);
    RefuseIsLawful(BooksOf(d), d.staged, d.past.serial, d.past.sent, CarriedBy(d), r, isEnd);
    WithBooksIsLawful(codec, d, Refuse(BooksOf(d), r, isEnd));
  }

  /** Nothing was said to a peer transaction before it is known. */
  lemma LearnIsLawful(codec: Codec, d: Dialogue, otid: Tid)
    requires Lawful(codec, d) && (d.role == Initiator ==> d.begun)
    ensures Lawful(codec, Learn(d, otid))
  {
    if d.peerTid == NoTid {
      forall i | 0 <= i < |d.past.said| ensures Fits(codec, Who(d), otid, d.past.said[i], i) {
        assert Fits(codec, Who(d), d.peerTid, d.past.said[i], i);
      }
    }
  }

  lemma PeerEndIsLawful(codec: Codec, d: Dialogue)
    requires Lawful(codec, d) && d.closed.None?
    ensures Lawful(codec, PeerEnd(d))
  {
    AllConclude(d.outstanding, d.past, Dropped);
    assert IdsOf([]) == {} && Serials([]) == {};
  }

  // ── Timers keep the laws ───────────────────────────────────────────────────

  /** `o` behind operations that are among others which it differs from. */
  lemma OneMoreDistinct(s: seq<Operation>, all: seq<Operation>, o: Operation)
    requires Distinct(s) && forall i | 0 <= i < |s| :: s[i] in all
    requires Distinct(all + [o])
    ensures Distinct(s + [o]) && Serials(s + [o]) == Serials(s) + {o.serial} && IdsOf(s + [o]) == IdsOf(s) + {o.id}
    ensures o.serial !in Serials(s)
  {
    SplitSets(s, [o]);
    assert [o][0] == o;
    forall i | 0 <= i < |s| ensures s[i].id != o.id && s[i].serial != o.serial {
      var k :| 0 <= k < |all| && all[k] == s[i];
      assert (all + [o])[k] == s[i] && (all + [o])[|all|] == o;
    }
  }

  /** Splitting by deadline loses and invents nothing. */
  ghost predicate SplitsInto(s: seq<Operation>, now: int, expired: seq<Operation>, running: seq<Operation>) {
    && Distinct(expired) && Distinct(running)
    && (forall i | 0 <= i < |expired| :: Due(expired[i], now) && expired[i] in s)
    && (forall i | 0 <= i < |running| :: !Due(running[i], now) && running[i] in s)
    && Serials(expired) + Serials(running) == Serials(s) && Serials(expired) !! Serials(running)
    && IdsOf(running) <= IdsOf(s)
  }

  lemma SplitOneMore(front: seq<Operation>, last: Operation, now: int, expired: seq<Operation>, running: seq<Operation>)
    requires Distinct(front + [last]) && SplitsInto(front, now, expired, running) && Distinct(front)
    ensures Due(last, now) ==> SplitsInto(front + [last], now, expired + [last], running)
    ensures !Due(last, now) ==> SplitsInto(front + [last], now, expired, running + [last])
  {
    OneMoreDistinct(front, front, last);
    OneMoreDistinct(expired, front, last);
    OneMoreDistinct(running, front, last);
  }

  lemma {:induction false} SplitIsComplete(s: seq<Operation>, now: int)
    requires Distinct(s)
    ensures SplitsInto(s, now, Split(s, now).0, Split(s, now).1)
    decreases |s|
  {
    if s == [] {
      assert Serials([]) == {} && IdsOf([]) == {};
    } else {
      var front, last := s[..|s| - 1], s[|s| - 1];
      SplitIsComplete(front, now);
      assert s == front + [last];
      SplitOneMore(front, last, now, Split(front, now).0, Split(front, now).1);
    }
  }

  lemma ExpireAccounts(s: seq<Operation>, now: int, past: History)
    requires Distinct(s) && Accounted(s, past.serial, past.sent, past.concluded)
    ensures Accounted(Split(s, now).1, past.serial, past.sent, WithConcluded(past.concluded, Split(s, now).0, TimedOut))
  {
    SplitIsComplete(s, now);
    var (expired, running) := Split(s, now);
    var after := WithConcluded(past.concluded, expired, TimedOut);
    assert after.Keys == past.concluded.Keys + Serials(expired);
    forall i | 0 <= i < |running| ensures Known(past.sent, running[i]) {
      var k :| 0 <= k < |s| && s[k] == running[i];
      assert Known(past.sent, s[k]);
    }
  }

  lemma ExpireIsLawful(codec: Codec, d: Dialogue, now: int)
    requires Lawful(codec, d)
    ensures Lawful(codec, Expire(d, now))
  {
    SplitIsComplete(d.outstanding, now);
    ExpireAccounts(d.outstanding, now, d.past);
    if d.closed.Some? {
      assert Split([], now) == ([], []);
    }
  }

  lemma DrainIsLawful(codec: Codec, d: Dialogue)
    requires Lawful(codec, d)
    ensures Lawful(codec, d.(out := [], sendError := None))
  {
    assert d.past.said[|d.past.said| - 0..] == [];
  }
}
