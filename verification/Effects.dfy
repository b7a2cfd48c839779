/**
 What a call does from the step that gives it a dialogue to its return, said in
 one piece: what its handler is called with, what is handed out to be sent, and
 what is stored. Other threads' steps in between make no difference.
 */
module Effects {
  import opened Options
  import opened Tcap
  import opened Lives
  import opened Termination
  import opened Bookkeeping
  import opened Engine
  import opened Calls
  import opened Programs
  import opened Interleaving
  import opened Replies
  import opened Openings

  /** Where a dialogue is in the end and what its handler was called with, what was handed out, and its record in the store. */
  datatype Effect = Effect(entry: Option<Entry>, sent: seq<Frame>, kept: Option<Record>)

  /** One turn of a handler. */
  datatype Play = Play(cmds: seq<Command>, now: int)

  /** The handler is told that the dialogue is over. */
  function Over(calls: seq<Callback>, reason: CloseReason, sent: seq<Frame>): Effect {
    Effect(Some(Entry(Gone, calls + [OnClosed(reason)])), sent, None)
  }

  /** The engine drops a dialogue no handler was given. */
  function Dropped(sent: seq<Frame>): Effect { Effect(None, sent, None) }

  /** What is said goes out, and the dialogue into the store. */
  function Kept(calls: seq<Callback>, d: Dialogue, at: int): Effect {
    Effect(Some(Entry(Stored, calls)), Framed(d.out), Some(Record(Drained(d), at, false)))
  }

  /** A turn that leaves the dialogue as `d` ends: a dialogue that is closed is over, one never begun was not sent, any other is stored. */
  function Settled(cfg: Config, turn: Turn, d: Dialogue, calls: seq<Callback>, last: int, now: int): Effect {
    var after := if turn.OfBegin? then Answered(cfg.codec, d) else d;
    if after.closed.Some? then Over(calls, after.closed.value, if turn.OfStart? then [] else Framed(after.out))
    else if turn.OfStart? && after.out == [] then Over(calls, NotSent, [])
    else Kept(calls, after, if turn.OfTimer? && after.out == [] then last else now)
  }

  /** A message of the peer is taken in. */
  function Received(d: Dialogue, otid: Option<Tid>, comps: seq<Component>, damaged: Option<(Rejection, bool)>, isEnd: bool): Dialogue {
    var known := if otid.Some? then Learn(d, otid.value) else d;
    if isEnd then PeerEnd(Checked(known, comps, damaged, true)) else Checked(known, comps, damaged, false)
  }

  /** Its components are. */
  function Checked(d: Dialogue, comps: seq<Component>, damaged: Option<(Rejection, bool)>, isEnd: bool): Dialogue {
    var received := ReceiveAll(d, comps, isEnd);
    if damaged.Some? then StageRejected(received, damaged.value.0, damaged.value.1, isEnd) else received
  }

  // ── Timers ─────────────────────────────────────────────────────────────────

  /** Those of the operations that a handler is told of, in order. */
  function NotFour(s: seq<Operation>): seq<Operation> {
    if s == [] then [] else (if s[0].kind.Four? then [] else [s[0]]) + NotFour(s[1..])
  }

  /** The dialogue once the handler had a turn about `o`. */
  function Turned(codec: Codec, d: Dialogue, o: Operation, play: Play): Dialogue {
    Relabelled(Replay(codec, d, play.cmds, play.now).0, InvokeTimedOut(o.id, o.op))
  }

  /** The dialogue once the handler had these turns, about the first of the operations. */
  function AfterTurns(codec: Codec, d: Dialogue, ops: seq<Operation>, plays: seq<Play>): Dialogue
    requires |plays| <= |ops|
    decreases |plays|
  {
    if plays == [] then d else AfterTurns(codec, Turned(codec, d, ops[0], plays[0]), ops[1..], plays[1..])
  }

  /** The handler has a turn about each operation in order, until the dialogue is closed. */
  ghost predicate UntilClosed(codec: Codec, d: Dialogue, ops: seq<Operation>, plays: seq<Play>)
    decreases |plays|
  {
    if plays == [] then ops == [] || d.closed.Some?
    else ops != [] && d.closed.None? && UntilClosed(codec, Turned(codec, d, ops[0], plays[0]), ops[1..], plays[1..])
  }

  function Timeouts(ops: seq<Operation>): (calls: seq<Callback>)
    ensures |calls| == |ops| && forall i | 0 <= i < |ops| :: calls[i] == OnInvokeTimeout(ops[i].id, ops[i].op, ops[i].kind)
  {
    seq(|ops|, i requires 0 <= i < |ops| => OnInvokeTimeout(ops[i].id, ops[i].op, ops[i].kind))
  }

  /** The end of a timer call that told the handler of the first |plays| of the operations. */
  function TimersEnd(cfg: Config, d: Dialogue, ops: seq<Operation>, calls: seq<Callback>, idle: bool, last: int, plays: seq<Play>, now: int): Effect
    requires |plays| <= |ops|
  {
    var after := AfterTurns(cfg.codec, d, ops, plays);
    Settled(cfg, OfTimer, if idle then AbortAs(cfg.codec, after, IdleTimedOut).0 else after, calls + Timeouts(ops[..|plays|]), last, now)
  }

  ghost predicate TimersMayEnd(cfg: Config, d: Dialogue, ops: seq<Operation>, calls: seq<Callback>, idle: bool, last: int, e: Effect) {
    exists plays, now :: |plays| <= |ops| && UntilClosed(cfg.codec, d, ops, plays) && e == TimersEnd(cfg, d, ops, calls, idle, last, plays, now)
  }

  // ── Every call ─────────────────────────────────────────────────────────────

  ghost predicate TurnMayEnd(cfg: Config, turn: Turn, d: Dialogue, calls: seq<Callback>, e: Effect) {
    exists cmds, now, at :: e == Settled(cfg, turn, Replay(cfg.codec, d, cmds, now).0, calls, now, at)
  }

  ghost predicate BeginMayEnd(cfg: Config, d: Dialogue, b: BeginMessage, handled: bool, e: Effect) {
    var (taken, seen) := TakeIn(d, b);
    match FirstInvoke(seen, 0)
    case None => exists now :: e == Dropped(Framed(Unserved(cfg.codec, taken, false, now).out))
    case Some(first) =>
      var given := taken.(replyId := seen[first].id);
      if !handled then exists now :: e == Dropped(Framed(Unserved(cfg.codec, given, true, now).out))
      else TurnMayEnd(cfg, OfBegin, given, [OnBegin(seen[first], OthersOf(seen, first))], e)
  }

  ghost predicate ContinueMayEnd(cfg: Config, d: Dialogue, seen: seq<Seen>, isEnd: bool, calls: seq<Callback>, e: Effect) {
    if isEnd then e == Over(calls + [OnContinue(seen, true)], PeerEnded, [])
    else TurnMayEnd(cfg, OfContinue, d, calls + [OnContinue(seen, false)], e)
  }

  /** This is how the call may end, by what a handler may yet do. */
  ghost predicate MayEnd(cfg: Config, pc: Pc, d: Dialogue, calls: seq<Callback>, e: Effect) {
    match pc
    case TakeInBegin(_, b, handled) => BeginMayEnd(cfg, d, b, handled, e)
    case GiveBegin(_, first, further) => TurnMayEnd(cfg, OfBegin, d, [OnBegin(first, further)], e)
    case GiveStart(_) => TurnMayEnd(cfg, OfStart, d, [OnStart], e)
    case TakeInTurn(_, otid, comps, damaged, isEnd) =>
      ContinueMayEnd(cfg, Received(d, otid, comps, damaged, isEnd), Views(d, comps, damaged, isEnd), isEnd, calls, e)
    case CallContinue(_, seen, isEnd) => ContinueMayEnd(cfg, d, seen, isEnd, calls, e)
    case CloseNow(_, reason) => e == Over(calls, reason, [])
    case ExpireInvokes(_, at, idle, last) => TimersMayEnd(cfg, Expire(d, at), NotFour(Split(d.outstanding, at).0), calls, idle, last, e)
    case CallTimeout(_, expired, idle, last) => TimersMayEnd(cfg, d, NotFour(expired), calls, idle, last, e)
    case AbortIdle(_, idle, last) => TimersMayEnd(cfg, d, [], calls, idle, last, e)
    case Finish(_, turn, last) => exists now :: e == Settled(cfg, turn, d, calls, last, now)
    case _ => false
  }

  // ── One step of the call itself ────────────────────────────────────────────

  /** The call has its dialogue; before anything was done with it, that is open, and one of our own said its Begin. */
  ghost predicate Ready(c: Core, pc: Pc) {
    && Holds(pc) && pc.tid in c.hands && pc.tid in c.book.entries && pc.tid !in c.store
    && (pc.TakeInBegin? || pc.TakeInTurn? ==> c.hands[pc.tid].closed.None?) && (pc.TakeInTurn? ==> Begun(c.hands[pc.tid]))
  }

  ghost predicate MayEndAt(cfg: Config, c: Core, pc: Pc, e: Effect)
    requires Holds(pc) && pc.tid in c.hands && pc.tid in c.book.entries
  {
    MayEnd(cfg, pc, c.hands[pc.tid], c.book.entries[pc.tid].calls, e)
  }

  function Observed(c: Core, tid: Tid, sent: seq<Frame>): Effect {
    Effect(if tid in c.book.entries then Some(c.book.entries[tid]) else None, sent, if tid in c.store then Some(c.store[tid]) else None)
  }

  /** The step ends the call so, or hands out nothing and leaves the end to what follows. */
  ghost predicate Leads(cfg: Config, c: Core, pc: Pc, o: Outcome, sent: seq<Frame>)
    requires Ready(c, pc)
  {
    match o.next
    case None => MayEndAt(cfg, c, pc, Observed(o.core, pc.tid, sent))
    case Some(next) =>
      && sent == [] && Ready(o.core, next) && next.tid == pc.tid
      && forall e | MayEndAt(cfg, o.core, next, e) :: MayEndAt(cfg, c, pc, e)
  }

  /** The call goes on, with the dialogue and the calls as given. */
  lemma LeadsOn(cfg: Config, c: Core, pc: Pc, core: Core, next: Pc, d: Dialogue, calls: seq<Callback>)
    requires Ready(c, pc) && Holds(next) && !next.TakeInBegin? && !next.TakeInTurn? && next.tid == pc.tid && core.store == c.store
    requires pc.tid in core.hands && core.hands[pc.tid] == d && pc.tid in core.book.entries && core.book.entries[pc.tid].calls == calls
    requires forall e | MayEnd(cfg, next, d, calls, e) :: MayEndAt(cfg, c, pc, e)
    ensures Leads(cfg, c, pc, Outcome(core, Some(next)), [])
  {}

  lemma TakeInBeginLeads(cfg: Config, c: Core, pc: Pc, now: int)
    requires pc.TakeInBegin? && Ready(c, pc)
    ensures Leads(cfg, c, pc, TakeInBeginStep(cfg, c, pc), Replies.Sent(cfg, c, pc, now))
  {
    var d := c.hands[pc.tid];
    var (taken, seen) := TakeIn(d, pc.b);
    var first := FirstInvoke(seen, 0);
    if first.None? {
      assert Observed(DropIn(c, pc.tid), pc.tid, Replies.Sent(cfg, c, pc, now)) == Dropped(Framed(Unserved(cfg.codec, taken, false, now).out));
    } else if !pc.handled {
      var given := taken.(replyId := seen[first.value].id);
      assert Observed(DropIn(c, pc.tid), pc.tid, Replies.Sent(cfg, c, pc, now)) == Dropped(Framed(Unserved(cfg.codec, given, true, now).out));
    } else {
      var given, next := taken.(replyId := seen[first.value].id), GiveBegin(pc.tid, seen[first.value], OthersOf(seen, first.value));
      IntakeIsTakeIn(cfg.codec, d, pc.b, seen[first.value].id);
      assert TakeInBeginStep(cfg, c, pc) == Outcome(WorkIn(c, pc.tid, given), Some(next));
      LeadsOn(cfg, c, pc, WorkIn(c, pc.tid, given), next, given, c.book.entries[pc.tid].calls);
    }
  }

  lemma GiveLeads(cfg: Config, c: Core, pc: Pc, cmds: seq<Command>, now: int)
    requires (pc.GiveBegin? || pc.GiveStart?) && Ready(c, pc)
    ensures Leads(cfg, c, pc, GiveStep(c, pc, Replay(cfg.codec, c.hands[pc.tid], cmds, now).0, now), [])
  {
    var acted := Replay(cfg.codec, c.hands[pc.tid], cmds, now).0;
    var first, turn := if pc.GiveBegin? then OnBegin(pc.first, pc.further) else OnStart, if pc.GiveBegin? then OfBegin else OfStart;
    forall e | MayEnd(cfg, Finish(pc.tid, turn, now), acted, [first], e) ensures MayEndAt(cfg, c, pc, e) {
      var at :| e == Settled(cfg, turn, acted, [first], now, at);
      assert TurnMayEnd(cfg, turn, c.hands[pc.tid], [first], e);
    }
    LeadsOn(cfg, c, pc, GiveIn(c, pc.tid, first, acted), Finish(pc.tid, turn, now), acted, [first]);
  }

  lemma IntakeIsWork(codec: Codec, d: Dialogue, comps: seq<Component>, damaged: Option<(Rejection, bool)>, isEnd: bool)
    requires d.closed.None?
    ensures Lived(codec, d, Intake(comps, damaged, isEnd)) == Checked(d, comps, damaged, isEnd)
  {
    var works := Intake(comps, damaged, isEnd);
    FirstWork(codec, d, works[..1]);
    if damaged.Some? {
      assert works[..|works| - 1] == works[..1];
    } else {
      assert works == works[..1];
    }
  }

  lemma EndIsWork(codec: Codec, d: Dialogue, comps: seq<Component>, damaged: Option<(Rejection, bool)>, isEnd: bool)
    requires d.closed.None?
    ensures Lived(codec, d, Intake(comps, damaged, isEnd) + (if isEnd then [PeerEnding] else []))
            == if isEnd then PeerEnd(Checked(d, comps, damaged, true)) else Checked(d, comps, damaged, false)
  {
    var b, z := Intake(comps, damaged, isEnd), if isEnd then [PeerEnding] else [];
    IntakeIsWork(codec, d, comps, damaged, isEnd);
    LivedOn(codec, d, b, z);
    FirstWork(codec, Checked(d, comps, damaged, isEnd), z);
  }

  lemma LearningIsWork(codec: Codec, d: Dialogue, otid: Option<Tid>)
    requires Begun(d)
    ensures Lived(codec, d, if otid.Some? then [Learning(otid.value)] else []) == if otid.Some? then Learn(d, otid.value) else d
  {
    FirstWork(codec, d, if otid.Some? then [Learning(otid.value)] else []);
  }

  /** Taking a message in is the work the engine does. */
  lemma WorksAreReceived(codec: Codec, d: Dialogue, otid: Option<Tid>, comps: seq<Component>, damaged: Option<(Rejection, bool)>, isEnd: bool)
    requires d.closed.None? && Begun(d)
    ensures Lived(codec, d, (if otid.Some? then [Learning(otid.value)] else []) + Intake(comps, damaged, isEnd) + (if isEnd then [PeerEnding] else []))
            == Received(d, otid, comps, damaged, isEnd)
  {
    var a, b, z := if otid.Some? then [Learning(otid.value)] else [], Intake(comps, damaged, isEnd), if isEnd then [PeerEnding] else [];
    var known := if otid.Some? then Learn(d, otid.value) else d;
    LearningIsWork(codec, d, otid);
    EndIsWork(codec, known, comps, damaged, isEnd);
    LivedThen(codec, d, a, b, z, known);
  }

  lemma LivedThen(codec: Codec, d: Dialogue, a: seq<Work>, b: seq<Work>, z: seq<Work>, after: Dialogue)
    requires Lived(codec, d, a) == after
    ensures Lived(codec, d, a + b + z) == Lived(codec, after, b + z)
  {
    LivedOn(codec, d, a, b + z);
    assert a + b + z == a + (b + z);
  }

  lemma FirstWork(codec: Codec, d: Dialogue, works: seq<Work>)
    requires |works| <= 1
    ensures Lived(codec, d, works) == if works == [] then d else Done(codec, d, works[0])
  {
    if works != [] {
      assert works[..0] == [];
      assert Lived(codec, d, []) == d;
    }
  }

  lemma {:induction false} LivedOn(codec: Codec, d: Dialogue, a: seq<Work>, b: seq<Work>)
    ensures Lived(codec, d, a + b) == Lived(codec, Lived(codec, d, a), b)
    decreases |b|
  {
    if b == [] {
      assert a + b == a;
    } else {
      LivedOn(codec, d, a, b[..|b| - 1]);
      assert (a + b)[..|a + b| - 1] == a + b[..|b| - 1];
    }
  }

  lemma TakeInTurnLeads(cfg: Config, c: Core, pc: Pc)
    requires pc.TakeInTurn? && Ready(c, pc)
    ensures Leads(cfg, c, pc, TakeInTurnStep(cfg, c, pc), [])
  {
    var d := c.hands[pc.tid];
    var after := Received(d, pc.otid, pc.comps, pc.damaged, pc.isEnd);
    var next := CallContinue(pc.tid, Views(d, pc.comps, pc.damaged, pc.isEnd), pc.isEnd);
    WorksAreReceived(cfg.codec, d, pc.otid, pc.comps, pc.damaged, pc.isEnd);
    assert TakeInTurnStep(cfg, c, pc) == Outcome(WorkIn(c, pc.tid, after), Some(next));
    LeadsOn(cfg, c, pc, WorkIn(c, pc.tid, after), next, after, c.book.entries[pc.tid].calls);
  }

  lemma ContinueLeads(cfg: Config, c: Core, pc: Pc, cmds: seq<Command>, now: int)
    requires pc.CallContinue? && Ready(c, pc)
    ensures Leads(cfg, c, pc, ContinueStep(c, pc, Replay(cfg.codec, c.hands[pc.tid], cmds, now).0, now), [])
  {
    var acted := Replay(cfg.codec, c.hands[pc.tid], cmds, now).0;
    var next := if pc.isEnd then CloseNow(pc.tid, PeerEnded) else Finish(pc.tid, OfContinue, now);
    var calls := c.book.entries[pc.tid].calls + [OnContinue(pc.seen, pc.isEnd)];
    forall e | MayEnd(cfg, next, acted, calls, e) ensures MayEndAt(cfg, c, pc, e) {
      if !pc.isEnd {
        var at :| e == Settled(cfg, OfContinue, acted, calls, now, at);
        assert TurnMayEnd(cfg, OfContinue, c.hands[pc.tid], calls, e);
      }
    }
    LeadsOn(cfg, c, pc, CallIn(c, pc.tid, OnContinue(pc.seen, pc.isEnd), acted), next, acted, calls);
  }

  lemma ExpireLeads(cfg: Config, c: Core, pc: Pc)
    requires pc.ExpireInvokes? && Ready(c, pc)
    ensures Leads(cfg, c, pc, ExpireStep(cfg, c, pc), [])
  {
    var d := c.hands[pc.tid];
    var after, next := Expire(d, pc.at), CallTimeout(pc.tid, Split(d.outstanding, pc.at).0, pc.idle, pc.last);
    assert ExpireStep(cfg, c, pc) == Outcome(WorkIn(c, pc.tid, after), Some(next));
    LeadsOn(cfg, c, pc, WorkIn(c, pc.tid, after), next, after, c.book.entries[pc.tid].calls);
  }

  /** A turn about `o` before the others. */
  lemma OneMoreTurn(cfg: Config, d: Dialogue, o: Operation, ops: seq<Operation>, calls: seq<Callback>, idle: bool, last: int, play: Play, e: Effect)
    requires d.closed.None? && TimersMayEnd(cfg, Turned(cfg.codec, d, o, play), ops, calls + [TimeoutOf(o)], idle, last, e)
    ensures TimersMayEnd(cfg, d, [o] + ops, calls, idle, last, e)
  {
    var after := Turned(cfg.codec, d, o, play);
    var plays, now :| |plays| <= |ops| && UntilClosed(cfg.codec, after, ops, plays)
                      && e == TimersEnd(cfg, after, ops, calls + [TimeoutOf(o)], idle, last, plays, now);
    var all, more := [o] + ops, [play] + plays;
    assert all[1..] == ops && more[1..] == plays;
    assert calls + Timeouts(all[..|more|]) == (calls + [TimeoutOf(o)]) + Timeouts(ops[..|plays|]);
    assert TimersEnd(cfg, d, all, calls, idle, last, more, now) == e;
  }

  /** No more turns. */
  lemma NoMoreTurns(cfg: Config, d: Dialogue, ops: seq<Operation>, calls: seq<Callback>, idle: bool, last: int, e: Effect)
    requires (ops == [] || d.closed.Some?) && TimersMayEnd(cfg, d, [], calls, idle, last, e)
    ensures TimersMayEnd(cfg, d, ops, calls, idle, last, e)
  {
    var plays, now :| |plays| <= 0 && UntilClosed(cfg.codec, d, [], plays) && e == TimersEnd(cfg, d, [], calls, idle, last, plays, now);
    assert ops[..0] == [][..0];
    assert TimersEnd(cfg, d, ops, calls, idle, last, plays, now) == e;
  }

  lemma TimeoutLeads(cfg: Config, c: Core, pc: Pc, cmds: seq<Command>, now: int)
    requires pc.CallTimeout? && Ready(c, pc)
    ensures Leads(cfg, c, pc, TimeoutStep(c, pc, Replay(cfg.codec, c.hands[pc.tid], cmds, now).0), [])
  {
    var d, calls := c.hands[pc.tid], c.book.entries[pc.tid].calls;
    if pc.expired == [] || d.closed.Some? {
      var next := AbortIdle(pc.tid, pc.idle, pc.last);
      forall e | MayEnd(cfg, next, d, calls, e) ensures MayEndAt(cfg, c, pc, e) {
        NoMoreTurns(cfg, d, NotFour(pc.expired), calls, pc.idle, pc.last, e);
      }
      LeadsOn(cfg, c, pc, c, next, d, calls);
    } else {
      var o, next := pc.expired[0], CallTimeout(pc.tid, pc.expired[1..], pc.idle, pc.last);
      if o.kind.Four? {
        assert NotFour(pc.expired) == NotFour(pc.expired[1..]);
        LeadsOn(cfg, c, pc, c, next, d, calls);
      } else {
        var play := Play(cmds, now);
        var after := Turned(cfg.codec, d, o, play);
        forall e | MayEnd(cfg, next, after, calls + [TimeoutOf(o)], e) ensures MayEndAt(cfg, c, pc, e) {
          OneMoreTurn(cfg, d, o, NotFour(pc.expired[1..]), calls, pc.idle, pc.last, play, e);
        }
        LeadsOn(cfg, c, pc, CallIn(c, pc.tid, TimeoutOf(o), after), next, after, calls + [TimeoutOf(o)]);
      }
    }
  }

  lemma IdleLeads(cfg: Config, c: Core, pc: Pc)
    requires pc.AbortIdle? && Ready(c, pc)
    ensures Leads(cfg, c, pc, IdleStep(cfg, c, pc), [])
  {
    var d, calls := c.hands[pc.tid], c.book.entries[pc.tid].calls;
    var after := if pc.idle then AbortAs(cfg.codec, d, IdleTimedOut).0 else d;
    var next := Finish(pc.tid, OfTimer, pc.last);
    forall e | MayEnd(cfg, next, after, calls, e) ensures MayEndAt(cfg, c, pc, e) {
      var now :| e == Settled(cfg, OfTimer, after, calls, pc.last, now);
      assert calls + Timeouts([]) == calls;
      assert UntilClosed(cfg.codec, d, [], []) && e == TimersEnd(cfg, d, [], calls, pc.idle, pc.last, [], now);
    }
    LeadsOn(cfg, c, pc, if pc.idle then WorkIn(c, pc.tid, after) else c, next, after, calls);
  }

  lemma FinishLeads(cfg: Config, c: Core, pc: Pc, now: int)
    requires pc.Finish? && Ready(c, pc)
    ensures Leads(cfg, c, pc, FinishStep(cfg, c, pc, now), Replies.Sent(cfg, c, pc, now))
  {
    var d, calls := c.hands[pc.tid], c.book.entries[pc.tid].calls;
    FirstWork(cfg.codec, d, Answering(d, pc.turn));
    assert Lived(cfg.codec, d, Answering(d, pc.turn)) == if pc.turn.OfBegin? then Answered(cfg.codec, d) else d;
    assert Observed(FinishStep(cfg, c, pc, now).core, pc.tid, Replies.Sent(cfg, c, pc, now)) == Settled(cfg, pc.turn, d, calls, pc.last, now);
  }

  lemma CloseLeads(cfg: Config, c: Core, pc: Pc)
    requires pc.CloseNow? && Ready(c, pc)
    ensures Leads(cfg, c, pc, CloseStep(c, pc), [])
  {
    assert Observed(CloseStep(c, pc).core, pc.tid, []) == Over(c.book.entries[pc.tid].calls, pc.reason, []);
  }

  lemma StepLeads(cfg: Config, c: Core, pc: Pc, cmds: seq<Command>, now: int)
    requires Ready(c, pc)
    ensures Leads(cfg, c, pc, Advance(cfg, c, pc, cmds, now), Replies.Sent(cfg, c, pc, now))
  {
    var o := Advance(cfg, c, pc, cmds, now);
    match pc
    case TakeInBegin(_, _, _) => TakeInBeginLeads(cfg, c, pc, now); assert o == TakeInBeginStep(cfg, c, pc);
    case GiveBegin(_, _, _) => GiveLeads(cfg, c, pc, cmds, now);
    case GiveStart(_) => GiveLeads(cfg, c, pc, cmds, now);
    case TakeInTurn(_, _, _, _, _) => TakeInTurnLeads(cfg, c, pc); assert o == TakeInTurnStep(cfg, c, pc);
    case CallContinue(_, _, _) => ContinueLeads(cfg, c, pc, cmds, now);
    case ExpireInvokes(_, _, _, _) => ExpireLeads(cfg, c, pc); assert o == ExpireStep(cfg, c, pc);
    case CallTimeout(_, _, _, _) => TimeoutLeads(cfg, c, pc, cmds, now);
    case AbortIdle(_, _, _) => IdleLeads(cfg, c, pc); assert o == IdleStep(cfg, c, pc);
    case Finish(_, _, _) => FinishLeads(cfg, c, pc, now); assert o == FinishStep(cfg, c, pc, now);
    case CloseNow(_, _) => CloseLeads(cfg, c, pc); assert o == CloseStep(c, pc);
  }

  // ── Any steps ──────────────────────────────────────────────────────────────

  /** Another thread's step changes nothing of a dialogue in hand. */
  lemma OthersLeaveEntry(cfg: Config, law: Dialogue -> bool, m: Machine, step: Step, q: ThreadId)
    requires MachineSound(law, m) && HoldsOfNew(law) && KeptByWork(cfg.codec, law) && q in m.threads && Holds(m.threads[q])
    requires Next(cfg, m, step).core.book.counter < TwoTo31 && !(step.Go? && step.thread == q)
    ensures var after, tid := Next(cfg, m, step), m.threads[q].tid;
            && q in after.threads && after.threads[q] == m.threads[q]
            && tid in m.core.hands && tid in after.core.hands && after.core.hands[tid] == m.core.hands[tid]
            && tid in m.core.book.entries && tid in after.core.book.entries && after.core.book.entries[tid] == m.core.book.entries[tid]
  {
    AlwaysAble(law, m, q);
    InHandOf(law, m.core, m.threads[q]);
    match step
    case Start(p, call) => StartsApart(cfg, m, p, call, q);
    case Go(p, cmds, now) =>
      StaysPut(cfg, m, p, cmds, now, q);
      if p in m.threads {
        HandsApart(m.threads, m.core.book, p, q);
        NobodyElseWorksOnIt(cfg, law, m, p, cmds, now, m.threads[q].tid);
      } else {
        assert Next(cfg, m, step) == m;
      }
  }

  /** Nothing in hand is in the store. */
  lemma HandsAreNotStored(law: Dialogue -> bool, m: Machine, p: ThreadId)
    requires MachineSound(law, m) && p in m.threads && Holds(m.threads[p])
    ensures var tid := m.threads[p].tid; tid in m.core.hands && tid in m.core.book.entries && tid !in m.core.store
  {
    AlwaysAble(law, m, p);
    InHandOf(law, m.core, m.threads[p]);
  }

  /** After the first step the call has ended so, or its end is left to the steps that follow. */
  ghost predicate Progress(cfg: Config, m: Machine, after: Machine, p: ThreadId, sent: seq<Frame>)
    requires p in m.threads && Ready(m.core, m.threads[p])
  {
    var pc := m.threads[p];
    if p !in after.threads then MayEndAt(cfg, m.core, pc, Observed(after.core, pc.tid, sent))
    else
      && sent == [] && Ready(after.core, after.threads[p]) && after.threads[p].tid == pc.tid
      && forall e | MayEndAt(cfg, after.core, after.threads[p], e) :: MayEndAt(cfg, m.core, pc, e)
  }

  lemma OutcomeProgresses(cfg: Config, m: Machine, p: ThreadId, o: Outcome, sent: seq<Frame>)
    requires p in m.threads && Ready(m.core, m.threads[p]) && Leads(cfg, m.core, m.threads[p], o, sent)
    ensures Progress(cfg, m, Machine(o.core, Moved(m.threads, p, o.next)), p, sent)
  {}

  lemma OwnStepProgresses(cfg: Config, law: Dialogue -> bool, m: Machine, p: ThreadId, cmds: seq<Command>, now: int)
    requires MachineSound(law, m) && p in m.threads && Ready(m.core, m.threads[p])
    ensures Progress(cfg, m, Next(cfg, m, Go(p, cmds, now)), p, SentNow(cfg, m, p, Go(p, cmds, now)))
  {
    var pc := m.threads[p];
    AlwaysAble(law, m, p);
    StepLeads(cfg, m.core, pc, cmds, now);
    var o := Advance(cfg, m.core, pc, cmds, now);
    OutcomeProgresses(cfg, m, p, o, Replies.Sent(cfg, m.core, pc, now));
    assert Next(cfg, m, Go(p, cmds, now)) == Machine(o.core, Moved(m.threads, p, o.next));
    assert SentNow(cfg, m, p, Go(p, cmds, now)) == Replies.Sent(cfg, m.core, pc, now);
  }

  lemma OthersProgress(cfg: Config, law: Dialogue -> bool, m: Machine, p: ThreadId, step: Step)
    requires MachineSound(law, m) && MachineSound(law, Next(cfg, m, step)) && HoldsOfNew(law) && KeptByWork(cfg.codec, law)
    requires p in m.threads && Ready(m.core, m.threads[p])
    requires Next(cfg, m, step).core.book.counter < TwoTo31 && !(step.Go? && step.thread == p)
    ensures Progress(cfg, m, Next(cfg, m, step), p, SentNow(cfg, m, p, step))
  {
    OthersLeaveEntry(cfg, law, m, step, p);
    HandsAreNotStored(law, Next(cfg, m, step), p);
    SameEntry(cfg, m.core, Next(cfg, m, step).core, m.threads[p]);
  }

  lemma SameEntry(cfg: Config, before: Core, after: Core, pc: Pc)
    requires Ready(before, pc) && pc.tid in after.hands && pc.tid in after.book.entries && pc.tid !in after.store
    requires after.hands[pc.tid] == before.hands[pc.tid] && after.book.entries[pc.tid] == before.book.entries[pc.tid]
    ensures Ready(after, pc) && forall e | MayEndAt(cfg, after, pc, e) :: MayEndAt(cfg, before, pc, e)
  {}

  lemma StepProgresses(cfg: Config, law: Dialogue -> bool, m: Machine, p: ThreadId, step: Step)
    requires MachineSound(law, m) && MachineSound(law, Next(cfg, m, step)) && HoldsOfNew(law) && KeptByWork(cfg.codec, law)
    requires p in m.threads && Ready(m.core, m.threads[p]) && Next(cfg, m, step).core.book.counter < TwoTo31
    ensures Progress(cfg, m, Next(cfg, m, step), p, SentNow(cfg, m, p, step))
  {
    if step.Go? && step.thread == p {
      OwnStepProgresses(cfg, law, m, p, step.cmds, step.now);
    } else {
      OthersProgress(cfg, law, m, p, step);
    }
  }

  /** Whatever other calls do in between, a call that has a dialogue ends as it may. */
  lemma {:induction false} CallEnds(cfg: Config, law: Dialogue -> bool, m: Machine, p: ThreadId, steps: seq<Step>)
    requires MachineSound(law, m) && HoldsOfNew(law) && KeptByWork(cfg.codec, law) && After(cfg, m, steps).core.book.counter < TwoTo31
    requires p in m.threads && Ready(m.core, m.threads[p]) && ReturnsWith(cfg, m, p, steps)
    ensures MayEndAt(cfg, m.core, m.threads[p], Observed(After(cfg, m, steps).core, m.threads[p].tid, SentBy(cfg, m, p, steps)))
    decreases |steps|
  {
    var after := Next(cfg, m, steps[0]);
    AfterCounts(cfg, after, steps[1..]);
    NextIsSound(cfg, law, m, steps[0]);
    StepProgresses(cfg, law, m, p, steps[0]);
    NothingAhead(SentNow(cfg, m, p, steps[0]), SentBy(cfg, after, p, steps[1..]));
    if p in after.threads {
      CallEnds(cfg, law, after, p, steps[1..]);
    }
  }

  // ── What each call does ────────────────────────────────────────────────────

  /** The thread's next step is the first, and with the last its call returns. */
  ghost predicate CallRuns(cfg: Config, m: Machine, p: ThreadId, steps: seq<Step>) {
    p in m.threads && steps != [] && steps[0].Go? && steps[0].thread == p && ReturnsWith(cfg, m, p, steps) && After(cfg, m, steps).core.book.counter < TwoTo31
  }

  /** A call that gets a dialogue with its first step ends as it may from there. */
  lemma GetsAndEnds(cfg: Config, law: Dialogue -> bool, m: Machine, p: ThreadId, steps: seq<Step>, core: Core, next: Pc,
                    d: Dialogue, calls: seq<Callback>)
    requires MachineSound(law, m) && HoldsOfNew(law) && KeptByWork(cfg.codec, law) && CallRuns(cfg, m, p, steps)
    requires FirstStep(cfg, m, p, steps, Outcome(core, Some(next))) && Ready(core, next)
    requires core.hands[next.tid] == d && core.book.entries[next.tid].calls == calls
    ensures MayEnd(cfg, next, d, calls, Observed(After(cfg, m, steps).core, next.tid, SentBy(cfg, m, p, steps)))
  {
    var after := Next(cfg, m, steps[0]);
    assert after == Machine(core, m.threads[p := next]);
    AfterCounts(cfg, after, steps[1..]);
    NextIsSound(cfg, law, m, steps[0]);
    CallEnds(cfg, law, after, p, steps[1..]);
    NothingAhead(SentNow(cfg, m, p, steps[0]), SentBy(cfg, after, p, steps[1..]));
  }

  /** The first step of the call leads there and hands out nothing. */
  ghost predicate FirstStep(cfg: Config, m: Machine, p: ThreadId, steps: seq<Step>, o: Outcome)
    requires CallRuns(cfg, m, p, steps)
  {
    && Able(m.core, m.threads[p]) && Advance(cfg, m.core, m.threads[p], steps[0].cmds, steps[0].now) == o
    && Replies.Sent(cfg, m.core, m.threads[p], steps[0].now) == []
  }

  lemma RunIsAble(cfg: Config, before: seq<Step>, p: ThreadId, steps: seq<Step>, law: Dialogue -> bool)
    requires CallRuns(cfg, Run(cfg, before), p, steps) && HoldsOfNew(law) && KeptByWork(cfg.codec, law)
    ensures var m := Run(cfg, before); MachineSound(law, m) && Able(m.core, m.threads[p])
  {
    AfterCounts(cfg, Run(cfg, before), steps);
    RunIsSound(cfg, law, before);
    AlwaysAble(law, Run(cfg, before), p);
  }

  lemma StoredIsKnown(law: Dialogue -> bool, c: Core, tid: Tid)
    requires CoreSound(law, c) && tid in c.store
    ensures tid in c.book.entries
  {}

  /** What is in the store is known and open, and ready once it is taken out. */
  lemma TakenIsReady(law: Dialogue -> bool, c: Core, tid: Tid, next: Pc)
    requires CoreSound(law, c) && tid in c.store && Holds(next) && next.tid == tid && (next.TakeInTurn? ==> Begun(c.store[tid].dialogue))
    ensures tid in c.book.entries && Ready(TakeOut(c, tid), next) && TakeOut(c, tid).hands[tid] == c.store[tid].dialogue
    ensures TakeOut(c, tid).book.entries[tid].calls == c.book.entries[tid].calls
  {}

  lemma TakeDueTakes(cfg: Config, c: Core, pc: Pc, cmds: seq<Command>, now: int)
    requires pc.TakeDue? && pc.wanted in c.book.entries && pc.wanted in c.store && TimersDue(c.store[pc.wanted], pc.at)
    ensures var r := c.store[pc.wanted];
            Advance(cfg, c, pc, cmds, now)
            == Outcome(TakeOut(c, pc.wanted), Some(ExpireInvokes(pc.wanted, pc.at, IdleDue(r, pc.at), r.lastActivity)))
    ensures Replies.Sent(cfg, c, pc, now) == []
  {}

  lemma TakeTurnTakes(cfg: Config, c: Core, pc: Pc, cmds: seq<Command>, now: int)
    requires pc.TakeTurn? && pc.wanted in c.book.entries && pc.wanted in c.store
    ensures Advance(cfg, c, pc, cmds, now)
            == Outcome(TakeOut(c, pc.wanted), Some(TakeInTurn(pc.wanted, pc.otid, pc.comps, pc.damaged, pc.isEnd)))
    ensures Replies.Sent(cfg, c, pc, now) == []
  {}

  lemma TakeToCloseTakes(cfg: Config, c: Core, pc: Pc, cmds: seq<Command>, now: int)
    requires pc.TakeToClose? && pc.wanted in c.book.entries && pc.wanted in c.store
    ensures Advance(cfg, c, pc, cmds, now) == Outcome(TakeOut(c, pc.wanted), Some(CloseNow(pc.wanted, pc.reason)))
    ensures Replies.Sent(cfg, c, pc, now) == []
  {}

  /** The id a dialogue gets that is made now. */
  predicate NewTid(c: Core, tid: Tid) { tid == TidOf(c.book.counter + 1) }

  /** What is new is in hand and nowhere else. */
  lemma NewIsReady(law: Dialogue -> bool, c: Core, d: Dialogue, next: Pc)
    requires CoreSound(law, c) && MakeIn(c, d).book.counter < TwoTo31
    requires Holds(next) && !next.TakeInTurn? && NewTid(c, next.tid) && d.closed.None?
    ensures Ready(MakeIn(c, d), next) && MakeIn(c, d).hands[next.tid] == d && MakeIn(c, d).book.entries[next.tid].calls == []
  {
    MakeIsSound(c.book);
  }

  lemma OpenResponderMakes(cfg: Config, law: Dialogue -> bool, c: Core, pc: Pc, cmds: seq<Command>, now: int) returns (core: Core, tid: Tid)
    requires CoreSound(law, c) && pc.OpenResponder? && Advance(cfg, c, pc, cmds, now).core.book.counter < TwoTo31
    ensures var next := TakeInBegin(tid, pc.b, pc.handled);
            && NewTid(c, tid) && Advance(cfg, c, pc, cmds, now) == Outcome(core, Some(next)) && Ready(core, next)
    ensures core.hands[tid] == New(Responder, tid, pc.b.otid, ContextOf(pc.b.offer), cfg.idle) && core.book.entries[tid].calls == []
    ensures Replies.Sent(cfg, c, pc, now) == []
  {
    tid := TidOf(c.book.counter + 1);
    var d := New(Responder, tid, pc.b.otid, ContextOf(pc.b.offer), cfg.idle);
    core := MakeIn(c, d);
    NewIsReady(law, c, d, TakeInBegin(tid, pc.b, pc.handled));
  }

  lemma OpenInitiatorMakes(cfg: Config, law: Dialogue -> bool, c: Core, pc: Pc, cmds: seq<Command>, now: int) returns (core: Core, tid: Tid)
    requires CoreSound(law, c) && pc.OpenInitiator? && Advance(cfg, c, pc, cmds, now).core.book.counter < TwoTo31
    ensures var next := GiveStart(tid);
            && NewTid(c, tid) && Advance(cfg, c, pc, cmds, now) == Outcome(core, Some(next)) && Ready(core, next)
    ensures core.hands[tid] == New(Initiator, tid, NoTid, pc.ac, cfg.idle) && core.book.entries[tid].calls == []
    ensures Replies.Sent(cfg, c, pc, now) == []
  {
    tid := TidOf(c.book.counter + 1);
    var d := New(Initiator, tid, NoTid, pc.ac, cfg.idle);
    core := MakeIn(c, d);
    NewIsReady(law, c, d, GiveStart(tid));
  }

  /** The call's first step takes a dialogue out of the store. */
  lemma TakesAndEnds(cfg: Config, law: Dialogue -> bool, m: Machine, p: ThreadId, steps: seq<Step>, tid: Tid, next: Pc)
    requires MachineSound(law, m) && HoldsOfNew(law) && KeptByWork(cfg.codec, law) && CallRuns(cfg, m, p, steps)
    requires Holds(next) && next.tid == tid && tid in m.core.store && tid in m.core.book.entries
    requires next.TakeInTurn? ==> Begun(m.core.store[tid].dialogue)
    requires FirstStep(cfg, m, p, steps, Outcome(TakeOut(m.core, tid), Some(next)))
    ensures MayEnd(cfg, next, m.core.store[tid].dialogue, m.core.book.entries[tid].calls,
                   Observed(After(cfg, m, steps).core, tid, SentBy(cfg, m, p, steps)))
  {
    TakenIsReady(law, m.core, tid, next);
    GetsAndEnds(cfg, law, m, p, steps, TakeOut(m.core, tid), next, m.core.store[tid].dialogue, m.core.book.entries[tid].calls);
  }

  lemma BeginEnd(cfg: Config, tid: Tid, b: BeginMessage, handled: bool, d: Dialogue, e: Effect)
    requires MayEnd(cfg, TakeInBegin(tid, b, handled), d, [], e)
    ensures BeginMayEnd(cfg, d, b, handled, e)
  {}

  lemma StartEnd(cfg: Config, tid: Tid, d: Dialogue, e: Effect)
    requires MayEnd(cfg, GiveStart(tid), d, [], e)
    ensures TurnMayEnd(cfg, OfStart, d, [OnStart], e)
  {}

  lemma FirstCounts(cfg: Config, m: Machine, p: ThreadId, steps: seq<Step>)
    requires CallRuns(cfg, m, p, steps) && Able(m.core, m.threads[p])
    ensures Advance(cfg, m.core, m.threads[p], steps[0].cmds, steps[0].now).core.book.counter < TwoTo31
  {
    AfterCounts(cfg, Next(cfg, m, steps[0]), steps[1..]);
  }

  /**
   A timer call that finds its dialogue due: from the step that takes it to the
   return, whatever other calls do in between, the handler is told of the operations
   that were outstanding and due then, but for those of class 4, in order, until one of
   its turns closes the dialogue; then, if the dialogue was idle too long, it is aborted;
   then it is stored or the handler told of its end.
   */
  lemma TimersAreRun(cfg: Config, before: seq<Step>, p: ThreadId, steps: seq<Step>)
    requires CallRuns(cfg, Run(cfg, before), p, steps) && Run(cfg, before).threads[p].TakeDue?
    requires var m := Run(cfg, before); var pc := m.threads[p]; pc.wanted in m.core.store && TimersDue(m.core.store[pc.wanted], pc.at)
    ensures var m := Run(cfg, before);
            var pc := m.threads[p];
            var r := m.core.store[pc.wanted];
            pc.wanted in m.core.book.entries
            && TimersMayEnd(cfg, Expire(r.dialogue, pc.at), NotFour(Split(r.dialogue.outstanding, pc.at).0), m.core.book.entries[pc.wanted].calls,
                            IdleDue(r, pc.at), r.lastActivity, Observed(After(cfg, m, steps).core, pc.wanted, SentBy(cfg, m, p, steps)))
  {
    var m := Run(cfg, before);
    var pc := m.threads[p];
    var law := (d: Dialogue) => true;
    RunIsAble(cfg, before, p, steps, law);
    StoredIsKnown(law, m.core, pc.wanted);
    var r := m.core.store[pc.wanted];
    var next := ExpireInvokes(pc.wanted, pc.at, IdleDue(r, pc.at), r.lastActivity);
    TakeDueTakes(cfg, m.core, pc, steps[0].cmds, steps[0].now);
    TakesAndEnds(cfg, law, m, p, steps, pc.wanted, next);
  }

  /**
   A Continue or End for a dialogue in the store: its handler has one turn, with the
   views of the components; an End is reported then, and otherwise the dialogue is
   stored, or its end reported if that turn closed it.
   */
  lemma TurnIsRun(cfg: Config, before: seq<Step>, p: ThreadId, steps: seq<Step>)
    requires CallRuns(cfg, Run(cfg, before), p, steps) && Run(cfg, before).threads[p].TakeTurn?
    requires var m := Run(cfg, before); m.threads[p].wanted in m.core.store
    ensures var m := Run(cfg, before);
            var pc := m.threads[p];
            var d := m.core.store[pc.wanted].dialogue;
            pc.wanted in m.core.book.entries
            && ContinueMayEnd(cfg, Received(d, pc.otid, pc.comps, pc.damaged, pc.isEnd), Views(d, pc.comps, pc.damaged, pc.isEnd), pc.isEnd,
                              m.core.book.entries[pc.wanted].calls, Observed(After(cfg, m, steps).core, pc.wanted, SentBy(cfg, m, p, steps)))
  {
    var m := Run(cfg, before);
    var pc := m.threads[p];
    var law := (d: Dialogue) => true;
    RunIsAble(cfg, before, p, steps, law);
    StoredIsKnown(law, m.core, pc.wanted);
    AfterCounts(cfg, m, steps);
    StoredHasBegun(cfg, before, pc.wanted);
    var next := TakeInTurn(pc.wanted, pc.otid, pc.comps, pc.damaged, pc.isEnd);
    TakeTurnTakes(cfg, m.core, pc, steps[0].cmds, steps[0].now);
    TakesAndEnds(cfg, law, m, p, steps, pc.wanted, next);
  }

  /** An Abort of the peer for a dialogue in the store: its handler is told of that end, and nothing is sent. */
  lemma AbortIsReported(cfg: Config, before: seq<Step>, p: ThreadId, steps: seq<Step>)
    requires CallRuns(cfg, Run(cfg, before), p, steps) && Run(cfg, before).threads[p].TakeToClose?
    requires var m := Run(cfg, before); m.threads[p].wanted in m.core.store
    ensures var m := Run(cfg, before);
            var pc := m.threads[p];
            pc.wanted in m.core.book.entries
            && Observed(After(cfg, m, steps).core, pc.wanted, SentBy(cfg, m, p, steps)) == Over(m.core.book.entries[pc.wanted].calls, pc.reason, [])
  {
    var m := Run(cfg, before);
    var pc := m.threads[p];
    var law := (d: Dialogue) => true;
    RunIsAble(cfg, before, p, steps, law);
    StoredIsKnown(law, m.core, pc.wanted);
    var next := CloseNow(pc.wanted, pc.reason);
    TakeToCloseTakes(cfg, m.core, pc, steps[0].cmds, steps[0].now);
    TakesAndEnds(cfg, law, m, p, steps, pc.wanted, next);
  }

  /** A dialogue of our own: its handler starts it, and it is stored, or its end reported if nothing was sent or that turn closed it. */
  lemma StartIsRun(cfg: Config, before: seq<Step>, p: ThreadId, steps: seq<Step>) returns (tid: Tid)
    requires CallRuns(cfg, Run(cfg, before), p, steps) && Run(cfg, before).threads[p].OpenInitiator?
    ensures var m := Run(cfg, before);
            && NewTid(m.core, tid)
            && TurnMayEnd(cfg, OfStart, New(Initiator, tid, NoTid, m.threads[p].ac, cfg.idle), [OnStart],
                          Observed(After(cfg, m, steps).core, tid, SentBy(cfg, m, p, steps)))
  {
    var m := Run(cfg, before);
    var pc, law := m.threads[p], (d: Dialogue) => true;
    RunIsAble(cfg, before, p, steps, law);
    FirstCounts(cfg, m, p, steps);
    var core;
    core, tid := OpenInitiatorMakes(cfg, law, m.core, pc, steps[0].cmds, steps[0].now);
    GetsAndEnds(cfg, law, m, p, steps, core, GiveStart(tid), core.hands[tid], []);
    StartEnd(cfg, tid, core.hands[tid], Observed(After(cfg, m, steps).core, tid, SentBy(cfg, m, p, steps)));
  }

  /**
   A Begin there is room for: an engine that has no handler for it answers it itself; a
   handler has its turn, with the first invoke, and what it leaves is answered, and
   stored or over.
   */
  lemma BeginIsRun(cfg: Config, before: seq<Step>, p: ThreadId, steps: seq<Step>) returns (tid: Tid)
    requires CallRuns(cfg, Run(cfg, before), p, steps) && Run(cfg, before).threads[p].OpenResponder?
    ensures var m := Run(cfg, before);
            var pc := m.threads[p];
            && NewTid(m.core, tid)
            && BeginMayEnd(cfg, New(Responder, tid, pc.b.otid, ContextOf(pc.b.offer), cfg.idle), pc.b, pc.handled,
                           Observed(After(cfg, m, steps).core, tid, SentBy(cfg, m, p, steps)))
  {
    var m := Run(cfg, before);
    var pc, law := m.threads[p], (d: Dialogue) => true;
    RunIsAble(cfg, before, p, steps, law);
    FirstCounts(cfg, m, p, steps);
    var core;
    core, tid := OpenResponderMakes(cfg, law, m.core, pc, steps[0].cmds, steps[0].now);
    GetsAndEnds(cfg, law, m, p, steps, core, TakeInBegin(tid, pc.b, pc.handled), core.hands[tid], []);
    BeginEnd(cfg, tid, pc.b, pc.handled, core.hands[tid], Observed(After(cfg, m, steps).core, tid, SentBy(cfg, m, p, steps)));
  }

  // ── What a timer call tells the handler ────────────────────────────────────

  /** The operations that are due and of a class that a handler is told of, in order. */
  function Overdue(s: seq<Operation>, now: int): seq<Operation> {
    if s == [] then [] else (if Due(s[0], now) && !s[0].kind.Four? then [s[0]] else []) + Overdue(s[1..], now)
  }

  lemma {:induction false} NotFourJoin(a: seq<Operation>, o: Operation)
    ensures NotFour(a + [o]) == NotFour(a) + (if o.kind.Four? then [] else [o])
    decreases |a|
  {
    if a == [] {
      assert [] + [o] == [o] && [o][1..] == [];
    } else {
      assert (a + [o])[1..] == a[1..] + [o];
      NotFourJoin(a[1..], o);
    }
  }

  lemma {:induction false} OverdueJoin(a: seq<Operation>, o: Operation, now: int)
    ensures Overdue(a + [o], now) == Overdue(a, now) + (if Due(o, now) && !o.kind.Four? then [o] else [])
    decreases |a|
  {
    if a == [] {
      assert [] + [o] == [o] && [o][1..] == [];
    } else {
      assert (a + [o])[1..] == a[1..] + [o];
      OverdueJoin(a[1..], o, now);
    }
  }

  /** Those that ran out, but for class 4, are those. */
  lemma {:induction false} ExpiredIsOverdue(s: seq<Operation>, now: int)
    ensures NotFour(Split(s, now).0) == Overdue(s, now)
    decreases |s|
  {
    if s != [] {
      var front, last := s[..|s| - 1], s[|s| - 1];
      ExpiredIsOverdue(front, now);
      assert s == front + [last];
      OverdueJoin(front, last, now);
      NotFourJoin(Split(front, now).0, last);
    }
  }

  /** An operation is among them exactly if it is one of the sequence, due, and not of class 4. */
  lemma {:induction false} OverdueMeans(s: seq<Operation>, now: int, o: Operation)
    ensures o in Overdue(s, now) <==> o in s && Due(o, now) && !o.kind.Four?
    decreases |s|
  {
    if s != [] {
      OverdueMeans(s[1..], now, o);
    }
  }

  /** The handler has a turn only about an open dialogue, and the last about the last operation or one that closed it. */
  lemma {:induction false} TurnsStopAtTheEnd(codec: Codec, d: Dialogue, ops: seq<Operation>, plays: seq<Play>, k: nat)
    requires |plays| <= |ops| && UntilClosed(codec, d, ops, plays) && k <= |plays|
    ensures k < |plays| ==> AfterTurns(codec, d, ops[..k], plays[..k]).closed.None?
    ensures k == |plays| < |ops| ==> AfterTurns(codec, d, ops[..k], plays[..k]).closed.Some?
    decreases |plays|
  {
    if k > 0 {
      assert ops[..k][1..] == ops[1..][..k - 1] && plays[..k][1..] == plays[1..][..k - 1];
      TurnsStopAtTheEnd(codec, Turned(codec, d, ops[0], plays[0]), ops[1..], plays[1..], k - 1);
    }
  }

  /** An abort of a dialogue that is open closes it, and one that is closed stays so. */
  lemma AbortCloses(codec: Codec, d: Dialogue, reason: CloseReason)
    ensures AbortAs(codec, d, reason).0.closed == if d.closed.Some? then d.closed else Some(reason)
  {}

  lemma {:induction false} AfterFewer(codec: Codec, d: Dialogue, ops: seq<Operation>, plays: seq<Play>)
    requires |plays| <= |ops|
    ensures AfterTurns(codec, d, ops[..|plays|], plays) == AfterTurns(codec, d, ops, plays)
    decreases |plays|
  {
    if plays != [] {
      assert ops[..|plays|][1..] == ops[1..][..|plays| - 1];
      AfterFewer(codec, Turned(codec, d, ops[0], plays[0]), ops[1..], plays[1..]);
    }
  }

  /** The calls that a timer call adds: a timeout for each of the first operations, and the end if the dialogue is over. */
  ghost predicate Tells(before: seq<Callback>, ops: seq<Operation>, k: nat, entry: Entry) {
    && k <= |ops|
    && (k < |ops| ==> entry.place.Gone?)
    && if entry.place.Gone? then |entry.calls| == |before| + k + 1 && entry.calls[..|before| + k] == before + Timeouts(ops[..k]) && entry.calls[|before| + k].OnClosed?
       else entry.place.Stored? && entry.calls == before + Timeouts(ops[..k])
  }

  lemma TimersTell(cfg: Config, d: Dialogue, ops: seq<Operation>, calls: seq<Callback>, idle: bool, last: int, e: Effect) returns (k: nat)
    requires TimersMayEnd(cfg, d, ops, calls, idle, last, e)
    ensures e.entry.Some? && Tells(calls, ops, k, e.entry.value) && (idle ==> e.entry.value.place.Gone?)
    ensures e.entry.value.place.Stored? <==> e.kept.Some?
    ensures e.kept.Some? && e.sent == [] ==> e.kept.value.lastActivity == last
  {
    var plays, now :| |plays| <= |ops| && UntilClosed(cfg.codec, d, ops, plays) && e == TimersEnd(cfg, d, ops, calls, idle, last, plays, now);
    k := |plays|;
    var after := AfterTurns(cfg.codec, d, ops, plays);
    AfterFewer(cfg.codec, d, ops, plays);
    TurnsStopAtTheEnd(cfg.codec, d, ops, plays, k);
    assert plays[..k] == plays;
    AbortCloses(cfg.codec, after, IdleTimedOut);
  }

  /**
   In every run, of a timer call that finds its dialogue due: by its return the handler
   was told of the operations that were outstanding and due when the dialogue was taken,
   of class 1, 2 or 3 and of no other, each once and in order: of all of them, unless the
   dialogue is over.
   */
  lemma TimeoutsAreTold(cfg: Config, before: seq<Step>, p: ThreadId, steps: seq<Step>) returns (k: nat)
    requires CallRuns(cfg, Run(cfg, before), p, steps) && Run(cfg, before).threads[p].TakeDue?
    requires var m := Run(cfg, before); var pc := m.threads[p]; pc.wanted in m.core.store && TimersDue(m.core.store[pc.wanted], pc.at)
    ensures var m, after := Run(cfg, before), After(cfg, Run(cfg, before), steps).core;
            var pc := m.threads[p];
            && pc.wanted in m.core.book.entries && pc.wanted in after.book.entries
            && Tells(m.core.book.entries[pc.wanted].calls, Overdue(m.core.store[pc.wanted].dialogue.outstanding, pc.at), k, after.book.entries[pc.wanted])
            && (IdleDue(m.core.store[pc.wanted], pc.at) ==> after.book.entries[pc.wanted].place.Gone?)
  {
    var m := Run(cfg, before);
    var pc := m.threads[p];
    TimersAreRun(cfg, before, p, steps);
    var r := m.core.store[pc.wanted];
    ExpiredIsOverdue(r.dialogue.outstanding, pc.at);
    k := TimersTell(cfg, Expire(r.dialogue, pc.at), Overdue(r.dialogue.outstanding, pc.at), m.core.book.entries[pc.wanted].calls, IdleDue(r, pc.at),
                    r.lastActivity, Observed(After(cfg, m, steps).core, pc.wanted, SentBy(cfg, m, p, steps)));
  }

  // ── Calls that find nothing ────────────────────────────────────────────────

  /**
   A call whose dialogue is not there, or whose timers are no longer due, returns at
   once and calls no handler; a Continue is answered with an abort, and a timer call
   gives its claim back.
   */
  lemma NothingThere(cfg: Config, c: Core, pc: Pc, cmds: seq<Command>, now: int)
    requires Able(c, pc) && (pc.TakeTurn? || pc.TakeToClose? || pc.TakeDue?)
    requires pc.wanted in c.store ==> pc.TakeDue? && !TimersDue(c.store[pc.wanted], pc.at)
    ensures var o := Advance(cfg, c, pc, cmds, now);
            o.next.None? && o.core.book == c.book && o.core.hands == c.hands && o.core.store.Keys == c.store.Keys
    ensures forall tid | tid in c.store :: Advance(cfg, c, pc, cmds, now).core.store[tid] ==
              if tid == pc.wanted then c.store[tid].(claimed := false) else c.store[tid]
    ensures Replies.Sent(cfg, c, pc, now) ==
            if pc.TakeTurn? && pc.otid.Some? && cfg.sends(UnrecognizedTransaction(pc.otid.value)) then [UnrecognizedTransaction(pc.otid.value)] else []
  {}
}
