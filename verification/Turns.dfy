/** What a handler's commands put into the messages that go out. */
module Turns {
  import opened Options
  import opened InvokeIds
  import opened Tcap
  import opened Utterances
  import opened DialogueLaws
  import opened DialogueRuns
  import opened Termination
  import opened Lives

  // ── A flush ────────────────────────────────────────────────────────────────

  /** The operations a flush puts in progress are those that were staged, with their timers running. */
  ghost predicate Running(o: Operation, staged: Operation, now: int) {
    Same(o, staged) && o.timeout == staged.timeout && o.deadline == Some(now + staged.timeout)
  }

  /** A flush that succeeds says one message: the stored Rejects in order, and behind them all that waited, in order. */
  lemma FlushSaysAll(codec: Codec, d: Dialogue, closing: bool, now: int)
    requires Flush(codec, d, closing, now).1.None?
    ensures var after := Flush(codec, d, closing, now).0;
            && |after.out| == |d.out| + 1 && after.out[..|d.out|] == d.out && after.past.said == d.past.said + after.out[|d.out|..]
            && var comps := ComponentsOf(after.out[|d.out|]);
               && |comps| == |d.rejects| + |d.pending| && comps[|d.rejects|..] == d.pending
               && (forall i | 0 <= i < |d.rejects| :: comps[i] == Reject(d.rejects[i]))
               && after.pending == [] && after.rejects == [] && after.past.given == d.past.given
  {
    LegCarriesAll(codec, d, closing);
  }

  /** Unless it closes the dialogue, it puts the staged invokes in progress. */
  lemma FlushStartsInvokes(codec: Codec, d: Dialogue, now: int, i: nat)
    requires Flush(codec, d, false, now).1.None? && i < |d.staged|
    ensures var after := Flush(codec, d, false, now).0.outstanding;
            && |after| == |d.outstanding| + |d.staged| && after[..|d.outstanding|] == d.outstanding
            && Running(after[|d.outstanding| + i], d.staged[i], now)
  {}

  // ── A turn ─────────────────────────────────────────────────────────────────

  predicate Stages(cmd: Command) { cmd.DoInvoke? || cmd.DoReply? || cmd.DoReplyTo? || cmd.DoError? || cmd.DoReject? }

  /** The commands from number `i` on that ask for a component, in order. */
  function Stagings(cmds: seq<Command>, i: nat): seq<Command>
    requires i <= |cmds|
    decreases |cmds| - i
  {
    if i == |cmds| then [] else (if Stages(cmds[i]) then [cmds[i]] else []) + Stagings(cmds, i + 1)
  }

  /** The component that a command asks for; an answer without an id is for invoke `replyId`. */
  ghost predicate Fulfils(cmd: Command, c: Component, replyId: InvokeId) {
    match cmd
    case DoInvoke(op, argument, _, _) => argument.Some? && c.Invoke? && c.linked.None? && c.op == op && c.argument == argument.value
    case DoReply(result) => c == ResultLast(replyId, result)
    case DoReplyTo(id, result) => c == ResultLast(id, result)
    case DoError(id, code) => c == ReturnError(id, code)
    case DoReject(rejection) => c == Reject(rejection)
    case _ => false
  }

  ghost predicate AllFulfilled(cmds: seq<Command>, comps: seq<Component>, replyId: InvokeId) {
    |cmds| == |comps| && forall k | 0 <= k < |cmds| :: Fulfils(cmds[k], comps[k], replyId)
  }

  /** A command that succeeds and is no abort adds just what it asks for to all that was staged. */
  lemma CommandStages(codec: Codec, d: Dialogue, cmd: Command, now: int) returns (comps: seq<Component>)
    requires Perform(codec, d, cmd, now).1.None? && !cmd.DoAbort?
    ensures var after := Perform(codec, d, cmd, now).0; after.past.given == d.past.given + comps && after.replyId == d.replyId
    ensures AllFulfilled(if Stages(cmd) then [cmd] else [], comps, d.replyId)
  {
    var after := Perform(codec, d, cmd, now).0;
    comps := [];
    match cmd
    case DoInvoke(op, argument, kind, timeout) => comps := [Invoke(Free(Start(d.nextId), UsedIds(d)).value, None, op, argument.value)];
    case DoReply(result) => comps := [ResultLast(d.replyId, result)];
    case DoReplyTo(id, result) => comps := [ResultLast(id, result)];
    case DoError(id, code) => comps := [ReturnError(id, code)];
    case DoReject(rejection) => comps := [Reject(rejection)];
    case _ =>
  }

  lemma FulfilledJoin(a: seq<Command>, b: seq<Command>, x: seq<Component>, y: seq<Component>, replyId: InvokeId)
    requires AllFulfilled(a, x, replyId) && AllFulfilled(b, y, replyId)
    ensures AllFulfilled(a + b, x + y, replyId)
  {}

  /** A turn that succeeds, and is no abort, stages what its commands ask for, one component each, in order. */
  lemma {:induction false} TurnStages(codec: Codec, d: Dialogue, cmds: seq<Command>, i: nat, now: int) returns (comps: seq<Component>)
    requires i <= |cmds| && DoAbort !in cmds[i..] && ReplayFrom(codec, d, cmds, i, now).1.None?
    ensures var after := ReplayFrom(codec, d, cmds, i, now).0; after.past.given == d.past.given + comps && after.replyId == d.replyId
    ensures AllFulfilled(Stagings(cmds, i), comps, d.replyId)
    decreases |cmds| - i
  {
    comps := [];
    if i < |cmds| {
      assert cmds[i] in cmds[i..];
      var first := CommandStages(codec, d, cmds[i], now);
      var after := Perform(codec, d, cmds[i], now).0;
      var rest := TurnStages(codec, after, cmds, i + 1, now);
      FulfilledJoin(if Stages(cmds[i]) then [cmds[i]] else [], Stagings(cmds, i + 1), first, rest, d.replyId);
      comps := first + rest;
    }
  }

  // ── The turn a Begin opens ─────────────────────────────────────────────────

  /** The first invoke shown that a handler could serve. */
  ghost predicate FirstShown(seen: seq<Seen>, first: nat) {
    first < |seen| && Dispatchable(seen[first]) && forall k | 0 <= k < first :: !Dispatchable(seen[k])
  }

  lemma {:induction false} FirstInvokeIsFirst(seen: seq<Seen>, i: nat, first: nat)
    requires i <= first && FirstShown(seen, first)
    ensures FirstInvoke(seen, i) == Some(first)
    decreases first - i
  {
    if i < first {
      FirstInvokeIsFirst(seen, i + 1, first);
    }
  }

  /** What waits for sending, beside what was ever said. */
  function Gap(d: Dialogue): int { |d.past.said| - |d.out| }

  lemma FlushKeepsGap(codec: Codec, d: Dialogue, closing: bool, now: int)
    ensures Gap(Flush(codec, d, closing, now).0) == Gap(d)
  {}

  lemma AbortKeepsGap(codec: Codec, d: Dialogue)
    ensures Gap(AbortAs(codec, d, Aborted).0) == Gap(d)
  {
    assert Gap(Released(d, Aborted)) == Gap(d);
  }

  lemma PerformKeepsGap(codec: Codec, d: Dialogue, cmd: Command, now: int)
    ensures Gap(Perform(codec, d, cmd, now).0) == Gap(d)
  {
    match cmd
    case DoSend => FlushKeepsGap(codec, d, false, now);
    case DoEnd => FlushKeepsGap(codec, d, true, now);
    case DoAbort => AbortKeepsGap(codec, d);
    case _ =>
  }

  lemma {:induction false} TurnKeepsGap(codec: Codec, d: Dialogue, cmds: seq<Command>, i: nat, now: int)
    requires i <= |cmds|
    ensures Gap(ReplayFrom(codec, d, cmds, i, now).0) == Gap(d)
    decreases |cmds| - i
  {
    if i < |cmds| {
      PerformKeepsGap(codec, d, cmds[i], now);
      if Perform(codec, d, cmds[i], now).1.None? {
        TurnKeepsGap(codec, Perform(codec, d, cmds[i], now).0, cmds, i + 1, now);
      }
    }
  }

  /** A dialogue before anything is staged or said. */
  ghost predicate Unused(d: Dialogue) {
    d.closed.None? && d.pending == [] && d.staged == [] && d.out == [] && d.past.said == [] && d.past.given == []
  }

  /** What the first turn of a dialogue asks for is said or waits, and all that is said waits for sending. */
  lemma FirstTurnIsSaid(codec: Codec, d: Dialogue, cmds: seq<Command>, now: int)
    requires Lawful(codec, d) && Unused(d) && DoAbort !in cmds && Replay(codec, d, cmds, now).1.None?
    ensures var after := Replay(codec, d, cmds, now).0;
            && after.past.said == after.out && |after.past.led| == |after.out|
            && AllFulfilled(Stagings(cmds, 0), Tails(after.out, after.past.led, |after.out|) + after.pending, d.replyId)
  {
    var after := Replay(codec, d, cmds, now).0;
    ReplayIsLawful(codec, d, cmds, 0, now);
    TurnKeepsGap(codec, d, cmds, 0, now);
    assert after.past.said[0..] == after.past.said;
    assert cmds[0..] == cmds;
    var comps := TurnStages(codec, d, cmds, 0, now);
    assert after.past.given == comps;
  }

  lemma TakeInIsUnused(d0: Dialogue, b: BeginMessage)
    requires Unused(d0)
    ensures Unused(TakeIn(d0, b).0)
  {}

  lemma TakeInIsLawful(codec: Codec, d0: Dialogue, b: BeginMessage)
    requires Lawful(codec, d0) && d0.closed.None?
    ensures Lawful(codec, TakeIn(d0, b).0)
  {
    ReceiveAllIsLawful(codec, d0, b.comps, false);
    if b.damaged.Some? {
      StageRejectedIsLawful(codec, ReceiveAll(d0, b.comps, false), b.damaged.value.0, b.damaged.value.1, false);
    }
  }

  /** The dialogue of a Begin as its handler's turn finds it. */
  function AtTurn(d0: Dialogue, b: BeginMessage, first: nat): Dialogue
    requires first < |TakeIn(d0, b).1| && Dispatchable(TakeIn(d0, b).1[first])
  {
    TakeIn(d0, b).0.(replyId := TakeIn(d0, b).1[first].id)
  }

  /**
   A Begin that a handler serves: what its turn asks for is said, in order and behind
   the Rejects each message carries, or still waits; an answer without an id is for the
   first invoke shown.
   */
  lemma TurnIsSaid(codec: Codec, d0: Dialogue, b: BeginMessage, cmds: seq<Command>, first: nat, now: int)
    requires Lawful(codec, d0) && Unused(d0) && FirstShown(TakeIn(d0, b).1, first) && DoAbort !in cmds
    requires Replay(codec, AtTurn(d0, b, first), cmds, now).1.None? && Replay(codec, AtTurn(d0, b, first), cmds, now).0.out != []
    ensures var after := Served(codec, d0, b, Some(cmds), now);
            && after.past.said == after.out && |after.past.led| == |after.out|
            && AllFulfilled(Stagings(cmds, 0), Tails(after.out, after.past.led, |after.out|) + after.pending, TakeIn(d0, b).1[first].id)
  {
    var d := AtTurn(d0, b, first);
    FirstInvokeIsFirst(TakeIn(d0, b).1, 0, first);
    TakeInIsLawful(codec, d0, b);
    TakeInIsUnused(d0, b);
    ReplyingIsLawful(codec, TakeIn(d0, b).0, d.replyId);
    FirstTurnIsSaid(codec, d, cmds, now);
    assert Served(codec, d0, b, Some(cmds), now) == Replay(codec, d, cmds, now).0;
  }

  // ── Where a sent invoke went ───────────────────────────────────────────────

  /** What message `i` carries behind its Rejects. */
  ghost function Tail(said: seq<Message>, led: seq<nat>, i: nat): seq<Component>
    requires i < |said| == |led|
  {
    var comps := ComponentsOf(said[i]);
    if led[i] <= |comps| then comps[led[i]..] else []
  }

  /** The invokes that each message says. */
  ghost function Voices(said: seq<Message>, led: seq<nat>): (voices: seq<seq<Component>>)
    requires |said| == |led|
    ensures |voices| == |said| && forall i | 0 <= i < |said| :: voices[i] == InvokesIn(Tail(said, led, i))
  {
    seq(|said|, i requires 0 <= i < |said| => InvokesIn(Tail(said, led, i)))
  }

  /** The first `count` parts in a row. */
  ghost function Row(parts: seq<seq<Component>>, count: nat): seq<Component>
    requires count <= |parts|
  {
    if count == 0 then [] else Row(parts, count - 1) + parts[count - 1]
  }

  /** Place `k` of the row is in part `i`. */
  ghost predicate StandsIn(parts: seq<seq<Component>>, k: nat, i: nat) {
    i < |parts| && |Row(parts, i)| <= k < |Row(parts, i)| + |parts[i]|
  }

  lemma {:induction false} RowGrows(parts: seq<seq<Component>>, i: nat, j: nat)
    requires i <= j <= |parts|
    ensures |Row(parts, i)| <= |Row(parts, j)|
    decreases j
  {
    if i < j {
      RowGrows(parts, i, j - 1);
    }
  }

  lemma StandsInOne(parts: seq<seq<Component>>, k: nat, i: nat, j: nat)
    requires StandsIn(parts, k, i) && StandsIn(parts, k, j)
    ensures i == j
  {
    if i < j {
      RowGrows(parts, i + 1, j);
    } else if j < i {
      RowGrows(parts, j + 1, i);
    }
  }

  lemma {:induction false} StandsSomewhere(parts: seq<seq<Component>>, count: nat, k: nat) returns (i: nat)
    requires count <= |parts| && k < |Row(parts, count)|
    ensures StandsIn(parts, k, i) && parts[i][k - |Row(parts, i)|] == Row(parts, count)[k]
    decreases count
  {
    if k < |Row(parts, count - 1)| {
      i := StandsSomewhere(parts, count - 1, k);
    } else {
      i := count - 1;
    }
  }

  lemma TailsOn(said: seq<Message>, led: seq<nat>, count: nat, row: seq<Component>)
    requires 0 < count <= |said| == |led| && InvokesIn(Tails(said, led, count - 1)) == row
    ensures InvokesIn(Tails(said, led, count)) == row + InvokesIn(Tail(said, led, count - 1))
  {
    InvokesJoin(Tails(said, led, count - 1), Tail(said, led, count - 1));
  }

  lemma {:induction false} VoicesInRow(said: seq<Message>, led: seq<nat>, voices: seq<seq<Component>>, count: nat)
    requires count <= |said| == |led| == |voices| && forall i | 0 <= i < |said| :: voices[i] == InvokesIn(Tail(said, led, i))
    ensures InvokesIn(Tails(said, led, count)) == Row(voices, count)
    decreases count
  {
    if count > 0 {
      VoicesInRow(said, led, voices, count - 1);
      TailsOn(said, led, count, Row(voices, count - 1));
      assert voices[count - 1] == InvokesIn(Tail(said, led, count - 1));
    }
  }

  lemma {:induction false} InvokeOf(s: seq<Operation>, k: nat)
    requires k < |s|
    ensures |InvokesOf(s)| == |s| && InvokesOf(s)[k] == AsInvoke(s[k])
    decreases |s|
  {
    if |s| > 1 {
      InvokeOf(s[..|s| - 1], if k < |s| - 1 then k else 0);
    }
  }

  lemma {:induction false} PlaceOf(s: seq<Operation>, bound: nat, serial: nat) returns (k: nat)
    requires Ascending(s, bound) && serial in Serials(s)
    ensures k < |s| && s[k].serial == serial && OperationOf(s, serial) == s[k]
    decreases |s|
  {
    if s[|s| - 1].serial == serial {
      k := |s| - 1;
    } else {
      var front := s[..|s| - 1];
      var i :| 0 <= i < |s| && s[i].serial == serial;
      assert front[i] == s[i];
      k := PlaceOf(front, s[|s| - 1].serial, serial);
    }
  }

  /** Below the last, no number stands twice. */
  lemma {:induction false} PlacesDiffer(s: seq<Operation>, bound: nat, i: nat, j: nat)
    requires Ascending(s, bound) && i < j < |s|
    ensures s[i].serial < s[j].serial < bound
    decreases |s|
  {
    var front, last := s[..|s| - 1], s[|s| - 1];
    if j < |s| - 1 {
      PlacesDiffer(front, last.serial, i, j);
    } else if i < |s| - 2 {
      PlacesDiffer(front, last.serial, i, |s| - 2);
    }
  }

  /** Invoke number `serial` is the `k`-th that was sent, and that one only. */
  ghost predicate SentAs(invoked: seq<Operation>, serial: nat, k: nat) {
    k < |invoked| && invoked[k].serial == serial && forall j | 0 <= j < |invoked| && invoked[j].serial == serial :: j == k
  }

  /** Invoke number `serial` stands in message `i` as the `k`-th that was sent, with its id, operation and argument. */
  ghost predicate SaidIn(past: History, serial: nat, k: nat, i: nat)
    requires |past.said| == |past.led| && serial in past.sent
  {
    var o, voices := past.sent[serial], Voices(past.said, past.led);
    SentAs(past.invoked, serial, k) && StandsIn(voices, k, i) && voices[i][k - |Row(voices, i)|] == Invoke(o.id, None, o.op, o.argument)
  }

  ghost predicate OnlyThere(past: History, serial: nat, k: nat, i: nat)
    requires |past.said| == |past.led| && serial in past.sent
  {
    forall l: nat, j: nat | SaidIn(past, serial, l, j) :: l == k && j == i
  }

  lemma SaidThere(past: History, serial: nat, k: nat) returns (i: nat)
    requires |past.said| == |past.led| && serial in past.sent && SentAs(past.invoked, serial, k)
    requires k < |InvokesIn(Tails(past.said, past.led, |past.said|))|
    requires var o := past.sent[serial]; InvokesIn(Tails(past.said, past.led, |past.said|))[k] == Invoke(o.id, None, o.op, o.argument)
    ensures SaidIn(past, serial, k, i) && OnlyThere(past, serial, k, i)
  {
    i := WhereSaid(past.said, past.led, k);
  }

  /** What of the laws says which component an invoke that was sent is. */
  lemma VoicedAs(past: History, pending: seq<Component>, staged: seq<Operation>, serial: nat) returns (k: nat)
    requires Voiced(past, pending, staged) && serial in past.sent
    ensures |past.said| == |past.led| && SentAs(past.invoked, serial, k) && k < |InvokesIn(Tails(past.said, past.led, |past.said|))|
    ensures var o := past.sent[serial]; InvokesIn(Tails(past.said, past.led, |past.said|))[k] == Invoke(o.id, None, o.op, o.argument)
  {
    k := WhichSent(past.invoked, staged, past.serial, serial);
    assert past.sent[serial] == past.invoked[k];
  }

  /** Each invoke that was sent stands, with its id, operation and argument, in one message that was said, and no other. */
  lemma SentInvokeIsSaidOnce(codec: Codec, d: Dialogue, serial: nat) returns (k: nat, i: nat)
    requires Lawful(codec, d) && serial in d.past.sent
    ensures |d.past.led| == |d.past.said| && SaidIn(d.past, serial, k, i) && OnlyThere(d.past, serial, k, i)
  {
    k := VoicedAs(d.past, d.pending, d.staged, serial);
    i := SaidThere(d.past, serial, k);
  }

  lemma WhichSent(invoked: seq<Operation>, staged: seq<Operation>, bound: nat, serial: nat) returns (k: nat)
    requires Ascending(invoked + staged, bound) && serial in Serials(invoked)
    ensures SentAs(invoked, serial, k) && OperationOf(invoked, serial) == invoked[k]
    ensures |InvokesOf(invoked)| == |invoked| && InvokesOf(invoked)[k] == AsInvoke(invoked[k])
  {
    AscendingFront(invoked, staged, bound);
    k := PlaceOf(invoked, bound, serial);
    SentOnce(invoked, bound, k);
    InvokeOf(invoked, k);
  }

  lemma WhereSaid(said: seq<Message>, led: seq<nat>, k: nat) returns (i: nat)
    requires |said| == |led| && k < |InvokesIn(Tails(said, led, |said|))|
    ensures var voices := Voices(said, led);
            && StandsIn(voices, k, i) && voices[i][k - |Row(voices, i)|] == InvokesIn(Tails(said, led, |said|))[k]
            && forall j: nat | StandsIn(voices, k, j) :: j == i
  {
    var voices := Voices(said, led);
    VoicesInRow(said, led, voices, |said|);
    i := StandsSomewhere(voices, |said|, k);
    forall j: nat | StandsIn(voices, k, j) ensures j == i {
      StandsInOne(voices, k, i, j);
    }
  }

  lemma SentOnce(invoked: seq<Operation>, bound: nat, k: nat)
    requires Ascending(invoked, bound) && k < |invoked|
    ensures SentAs(invoked, invoked[k].serial, k)
  {
    forall j: nat | j < |invoked| && invoked[j].serial == invoked[k].serial ensures j == k {
      if j < k {
        PlacesDiffer(invoked, bound, j, k);
      } else if k < j {
        PlacesDiffer(invoked, bound, k, j);
      }
    }
  }

  /** And no message says an invoke that was not sent. */
  lemma OnlySentIsSaid(codec: Codec, d: Dialogue)
    requires Lawful(codec, d)
    ensures |d.past.led| == |d.past.said| && |Row(Voices(d.past.said, d.past.led), |d.past.said|)| == |d.past.invoked|
    ensures forall k | 0 <= k < |d.past.invoked| :: d.past.invoked[k].serial in d.past.sent
  {
    VoicesInRow(d.past.said, d.past.led, Voices(d.past.said, d.past.led), |d.past.said|);
    if d.past.invoked != [] {
      InvokeOf(d.past.invoked, 0);
    }
    forall k | 0 <= k < |d.past.invoked| ensures d.past.invoked[k].serial in d.past.sent {
      assert d.past.invoked[k].serial in Serials(d.past.invoked);
    }
  }
}
