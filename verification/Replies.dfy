/** What the calls of the engine hand out to be sent: the answer to a Begin, in any interleaving. */
module Replies {
  import opened Options
  import InvokeIds
  import opened Tcap
  import opened Lives
  import opened Termination
  import opened Bookkeeping
  import opened Engine
  import opened Calls
  import opened Programs
  import opened Interleaving

  /** The frames a step of a call hands out: those of a refusal, those the engine says for want of a handler, or those of the turn. */
  function Sent(cfg: Config, c: Core, pc: Pc, now: int): seq<Frame>
    requires Holds(pc) ==> pc.tid in c.hands
  {
    match pc
    case Admit(b, handled) =>
      if |c.store| >= cfg.limit || !Acceptable(b.offer) then IfSent(cfg.sends, Refusal(b, |c.store| < cfg.limit)) else []
    case TakeInBegin(tid, b, handled) =>
      var (d, seen) := TakeIn(c.hands[tid], b);
      var first := FirstInvoke(seen, 0);
      if first.None? then Framed(Unserved(cfg.codec, d, false, now).out)
      else if !handled then Framed(Unserved(cfg.codec, d.(replyId := seen[first.value].id), true, now).out)
      else []
    case TakeTurn(wanted, otid, _, _, _) =>
      if wanted !in c.store && otid.Some? then IfSent(cfg.sends, UnrecognizedTransaction(otid.value)) else []
    case Finish(tid, turn, last) =>
      // A dialogue of our own that its handler closed at once sends nothing.
      if turn.OfStart? && c.hands[tid].closed.Some? then []
      else Framed(Lived(cfg.codec, c.hands[tid], Answering(c.hands[tid], turn)).out)
    case _ => []
  }

  /** All that the call of one thread hands out in these steps. */
  function SentBy(cfg: Config, m: Machine, p: ThreadId, steps: seq<Step>): seq<Frame>
    decreases |steps|
  {
    if steps == [] then []
    else SentNow(cfg, m, p, steps[0]) + SentBy(cfg, Next(cfg, m, steps[0]), p, steps[1..])
  }

  function SentNow(cfg: Config, m: Machine, p: ThreadId, step: Step): seq<Frame> {
    if step.Go? && step.thread == p && p in m.threads && Able(m.core, m.threads[p]) then Sent(cfg, m.core, m.threads[p], step.now) else []
  }

  /** The call that the thread runs returns with the last of these steps. */
  ghost predicate ReturnsWith(cfg: Config, m: Machine, p: ThreadId, steps: seq<Step>)
    decreases |steps|
  {
    if steps == [] then p !in m.threads else p in m.threads && ReturnsWith(cfg, Next(cfg, m, steps[0]), p, steps[1..])
  }

  /** There is room for a dialogue when the thread takes its next step. */
  ghost predicate RoomFor(cfg: Config, m: Machine, p: ThreadId, steps: seq<Step>)
    decreases |steps|
  {
    steps != [] &&
    if steps[0].Go? && steps[0].thread == p then |m.core.store| < cfg.limit else RoomFor(cfg, Next(cfg, m, steps[0]), p, steps[1..])
  }

  function HandlerOf(handled: bool, cmds: seq<Command>): Option<seq<Command>> { if handled then Some(cmds) else None }

  /** A call for a Begin, wherever it is. */
  predicate ForBegin(pc: Pc) {
    pc.Admit? || pc.OpenResponder? || pc.TakeInBegin? || pc.GiveBegin? || (pc.Finish? && pc.turn.OfBegin?)
  }

  /** What is in hand before its components are taken in is open. */
  ghost predicate InOrder(c: Core, pc: Pc) {
    && (Holds(pc) ==> pc.tid in c.hands)
    && (pc.OpenResponder? ==> Acceptable(pc.b.offer))
    && (pc.TakeInBegin? ==> c.hands[pc.tid].closed.None?)
  }

  /** These frames are what the call may yet hand out, by what a handler may yet do. */
  ghost predicate MayAnswer(cfg: Config, c: Core, pc: Pc, room: bool, frames: seq<Frame>)
    requires Holds(pc) ==> pc.tid in c.hands
  {
    match pc
    case Admit(b, handled) =>
      exists tid, cmds, now :: frames == AnswerBegin(cfg.sends, cfg.isOid, b, room, tid, cfg.idle, HandlerOf(handled, cmds), now)
    case OpenResponder(b, handled) =>
      exists tid, cmds, now :: frames == Framed(
        Served(cfg.codec, New(Responder, tid, b.otid, ContextOf(b.offer), cfg.idle), b, HandlerOf(handled, cmds), now).out)
    case TakeInBegin(tid, b, handled) =>
      exists cmds, now :: frames == Framed(Served(cfg.codec, c.hands[tid], b, HandlerOf(handled, cmds), now).out)
    case GiveBegin(tid, _, _) =>
      exists cmds, now :: frames == Framed(Answered(cfg.codec, Replay(cfg.codec, c.hands[tid], cmds, now).0).out)
    case Finish(tid, turn, last) => frames == Framed(Answered(cfg.codec, c.hands[tid]).out)
    case _ => false
  }

  // ── One step of the call itself ────────────────────────────────────────────

  /** A step hands out the answer and returns, or hands out nothing and leaves the answer to what follows. */
  ghost predicate Answers(cfg: Config, c: Core, pc: Pc, room: bool, o: Outcome, sent: seq<Frame>) {
    && InOrder(c, pc)
    && match o.next
       case None => MayAnswer(cfg, c, pc, room, sent)
       case Some(next) =>
         && sent == [] && ForBegin(next) && !next.Admit? && InOrder(o.core, next)
         && forall other, frames | MayAnswer(cfg, o.core, next, other, frames) :: MayAnswer(cfg, c, pc, room, frames)
  }

  lemma AdmitAnswers(cfg: Config, c: Core, pc: Pc, now: int)
    requires pc.Admit?
    ensures Answers(cfg, c, pc, |c.store| < cfg.limit, AdmitStep(cfg, c, pc), Sent(cfg, c, pc, now))
  {
    var room := |c.store| < cfg.limit;
    if !room || !Acceptable(pc.b.offer) {
      assert Sent(cfg, c, pc, now) == AnswerBegin(cfg.sends, cfg.isOid, pc.b, room, NoTid, cfg.idle, HandlerOf(pc.handled, []), now);
    } else {
      var next := OpenResponder(pc.b, pc.handled);
      forall other, frames | MayAnswer(cfg, c, next, other, frames) ensures MayAnswer(cfg, c, pc, room, frames) {
        var tid, cmds, at :| frames == Framed(
          Served(cfg.codec, New(Responder, tid, pc.b.otid, ContextOf(pc.b.offer), cfg.idle), pc.b, HandlerOf(pc.handled, cmds), at).out);
        assert frames == AnswerBegin(cfg.sends, cfg.isOid, pc.b, room, tid, cfg.idle, HandlerOf(pc.handled, cmds), at);
      }
    }
  }

  lemma OpenAnswers(cfg: Config, c: Core, pc: Pc, room: bool, now: int)
    requires pc.OpenResponder? && InOrder(c, pc)
    ensures Answers(cfg, c, pc, room, OpenStep(cfg, c, pc), Sent(cfg, c, pc, now))
  {
    var tid := TidOf(c.book.counter + 1);
    var d0 := New(Responder, tid, pc.b.otid, ContextOf(pc.b.offer), cfg.idle);
    var o, next := OpenStep(cfg, c, pc), TakeInBegin(tid, pc.b, pc.handled);
    assert o == Outcome(MakeIn(c, d0), Some(next)) && o.core.hands[tid] == d0;
    forall other, frames | MayAnswer(cfg, o.core, next, other, frames) ensures MayAnswer(cfg, c, pc, room, frames) {
      var cmds, at :| frames == Framed(Served(cfg.codec, o.core.hands[tid], pc.b, HandlerOf(pc.handled, cmds), at).out);
      assert frames == Framed(Served(cfg.codec, d0, pc.b, HandlerOf(pc.handled, cmds), at).out);
    }
  }

  /** Taking the components in is the work the engine does. */
  lemma IntakeIsTakeIn(codec: Codec, d: Dialogue, b: BeginMessage, id: InvokeIds.InvokeId)
    requires d.closed.None?
    ensures Lived(codec, d, Intake(b.comps, b.damaged, false) + [Replying(id)]) == TakeIn(d, b).0.(replyId := id)
  {
    var intake := Intake(b.comps, b.damaged, false);
    var works := intake + [Replying(id)];
    assert works[..|works| - 1] == intake;
    var received := ReceiveAll(d, b.comps, false);
    assert [Receiving(b.comps, false)][..0] == [];
    assert Lived(codec, d, [Receiving(b.comps, false)]) == received;
    if b.damaged.Some? {
      assert intake[..1] == [Receiving(b.comps, false)];
    }
  }

  lemma TakeInAnswers(cfg: Config, c: Core, pc: Pc, room: bool, now: int)
    requires pc.TakeInBegin? && InOrder(c, pc)
    ensures Answers(cfg, c, pc, room, TakeInBeginStep(cfg, c, pc), Sent(cfg, c, pc, now))
  {
    var d := c.hands[pc.tid];
    var (taken, seen) := TakeIn(d, pc.b);
    var first := FirstInvoke(seen, 0);
    if first.None? || !pc.handled {
      assert Sent(cfg, c, pc, now) == Framed(Served(cfg.codec, d, pc.b, HandlerOf(pc.handled, []), now).out);
    } else {
      var given := taken.(replyId := seen[first.value].id);
      IntakeIsTakeIn(cfg.codec, d, pc.b, seen[first.value].id);
      var o := TakeInBeginStep(cfg, c, pc);
      var next := GiveBegin(pc.tid, seen[first.value], OthersOf(seen, first.value));
      assert o == Outcome(WorkIn(c, pc.tid, given), Some(next));
      forall other, frames | MayAnswer(cfg, o.core, next, other, frames) ensures MayAnswer(cfg, c, pc, room, frames) {
        var cmds, at :| frames == Framed(Answered(cfg.codec, Replay(cfg.codec, o.core.hands[pc.tid], cmds, at).0).out);
        assert Served(cfg.codec, d, pc.b, HandlerOf(pc.handled, cmds), at) == Answered(cfg.codec, Replay(cfg.codec, given, cmds, at).0);
      }
    }
  }

  lemma GiveAnswers(cfg: Config, c: Core, pc: Pc, room: bool, cmds: seq<Command>, now: int)
    requires pc.GiveBegin? && InOrder(c, pc)
    ensures Answers(cfg, c, pc, room, GiveStep(c, pc, Done(cfg.codec, c.hands[pc.tid], Acting(cmds, now)), now), Sent(cfg, c, pc, now))
  {
    var acted := Replay(cfg.codec, c.hands[pc.tid], cmds, now).0;
    var o := GiveStep(c, pc, acted, now);
    assert o == Outcome(GiveIn(c, pc.tid, OnBegin(pc.first, pc.further), acted), Some(Finish(pc.tid, OfBegin, now))) && o.core.hands[pc.tid] == acted;
    forall other, frames | MayAnswer(cfg, o.core, Finish(pc.tid, OfBegin, now), other, frames) ensures MayAnswer(cfg, c, pc, room, frames) {
      assert frames == Framed(Answered(cfg.codec, Replay(cfg.codec, c.hands[pc.tid], cmds, now).0).out);
    }
  }

  lemma FinishAnswers(cfg: Config, c: Core, pc: Pc, room: bool, now: int)
    requires pc.Finish? && pc.turn.OfBegin? && InOrder(c, pc) && pc.tid in c.book.entries
    ensures Answers(cfg, c, pc, room, FinishStep(cfg, c, pc, now), Sent(cfg, c, pc, now))
  {
    var d := c.hands[pc.tid];
    assert [Aborting(NoAnswer)][..0] == [];
    assert Lived(cfg.codec, d, [Aborting(NoAnswer)]) == AbortAs(cfg.codec, d, NoAnswer).0;
    assert Lived(cfg.codec, d, Answering(d, OfBegin)) == Answered(cfg.codec, d);
  }

  lemma OwnStepAnswers(cfg: Config, c: Core, pc: Pc, room: bool, cmds: seq<Command>, now: int)
    requires ForBegin(pc) && Able(c, pc) && InOrder(c, pc) && (pc.Admit? ==> room == (|c.store| < cfg.limit))
    ensures Answers(cfg, c, pc, room, Advance(cfg, c, pc, cmds, now), Sent(cfg, c, pc, now))
  {
    var o := Advance(cfg, c, pc, cmds, now);
    if pc.Admit? {
      AdmitAnswers(cfg, c, pc, now);
      assert o == AdmitStep(cfg, c, pc);
    } else if pc.OpenResponder? {
      OpenAnswers(cfg, c, pc, room, now);
      assert o == OpenStep(cfg, c, pc);
    } else if pc.TakeInBegin? {
      TakeInAnswers(cfg, c, pc, room, now);
      assert o == TakeInBeginStep(cfg, c, pc);
    } else if pc.GiveBegin? {
      GiveAnswers(cfg, c, pc, room, cmds, now);
      assert o == GiveStep(c, pc, Done(cfg.codec, c.hands[pc.tid], Acting(cmds, now)), now);
    } else {
      FinishAnswers(cfg, c, pc, room, now);
      assert o == FinishStep(cfg, c, pc, now);
    }
  }

  // ── Any steps ──────────────────────────────────────────────────────────────

  /** What a call may yet hand out hangs on its own dialogue alone. */
  lemma SameHand(cfg: Config, before: Core, after: Core, pc: Pc)
    requires InOrder(before, pc) && (Holds(pc) ==> pc.tid in after.hands && after.hands[pc.tid] == before.hands[pc.tid])
    ensures InOrder(after, pc)
    ensures forall room, frames | MayAnswer(cfg, after, pc, room, frames) :: MayAnswer(cfg, before, pc, room, frames)
  {}

  lemma OthersLeaveHand(cfg: Config, law: Dialogue -> bool, m: Machine, step: Step, q: ThreadId)
    requires MachineSound(law, m) && HoldsOfNew(law) && KeptByWork(cfg.codec, law) && q in m.threads
    requires Next(cfg, m, step).core.book.counter < TwoTo31 && !(step.Go? && step.thread == q)
    ensures var after, pc := Next(cfg, m, step), m.threads[q];
            && q in after.threads && after.threads[q] == pc
            && (Holds(pc) ==> pc.tid in m.core.hands && pc.tid in after.core.hands && after.core.hands[pc.tid] == m.core.hands[pc.tid])
  {
    AlwaysAble(law, m, q);
    match step
    case Start(p, call) => StartsApart(cfg, m, p, call, q);
    case Go(p, cmds, now) =>
      StaysPut(cfg, m, p, cmds, now, q);
      if p in m.threads && Holds(m.threads[q]) {
        HandsApart(m.threads, m.core.book, p, q);
        InHandOf(law, m.core, m.threads[q]);
        NobodyElseWorksOnIt(cfg, law, m, p, cmds, now, m.threads[q].tid);
      }
  }

  /** After the first step the answer was handed out, or is left to the steps that follow. */
  ghost predicate Proceeds(cfg: Config, m: Machine, after: Machine, p: ThreadId, room: bool, later: bool, sent: seq<Frame>)
    requires p in m.threads && InOrder(m.core, m.threads[p])
  {
    if p !in after.threads then MayAnswer(cfg, m.core, m.threads[p], room, sent)
    else
      && sent == [] && ForBegin(after.threads[p]) && InOrder(after.core, after.threads[p])
      && forall frames | MayAnswer(cfg, after.core, after.threads[p], later, frames) :: MayAnswer(cfg, m.core, m.threads[p], room, frames)
  }

  lemma OwnStepProceeds(cfg: Config, law: Dialogue -> bool, m: Machine, p: ThreadId, cmds: seq<Command>, now: int, later: bool)
    requires MachineSound(law, m) && p in m.threads && ForBegin(m.threads[p]) && InOrder(m.core, m.threads[p])
    ensures Proceeds(cfg, m, Next(cfg, m, Go(p, cmds, now)), p, |m.core.store| < cfg.limit, later, SentNow(cfg, m, p, Go(p, cmds, now)))
  {
    var pc := m.threads[p];
    AlwaysAble(law, m, p);
    OwnStepAnswers(cfg, m.core, pc, |m.core.store| < cfg.limit, cmds, now);
    var o := Advance(cfg, m.core, pc, cmds, now);
    OutcomeProceeds(cfg, m, p, o, |m.core.store| < cfg.limit, later, Sent(cfg, m.core, pc, now));
    assert Next(cfg, m, Go(p, cmds, now)) == Machine(o.core, Moved(m.threads, p, o.next));
    assert SentNow(cfg, m, p, Go(p, cmds, now)) == Sent(cfg, m.core, pc, now);
  }

  lemma OutcomeProceeds(cfg: Config, m: Machine, p: ThreadId, o: Outcome, room: bool, later: bool, sent: seq<Frame>)
    requires p in m.threads && Answers(cfg, m.core, m.threads[p], room, o, sent)
    ensures Proceeds(cfg, m, Machine(o.core, Moved(m.threads, p, o.next)), p, room, later, sent)
  {}

  lemma OthersProceed(cfg: Config, law: Dialogue -> bool, m: Machine, p: ThreadId, step: Step, room: bool)
    requires MachineSound(law, m) && HoldsOfNew(law) && KeptByWork(cfg.codec, law)
    requires p in m.threads && ForBegin(m.threads[p]) && InOrder(m.core, m.threads[p])
    requires Next(cfg, m, step).core.book.counter < TwoTo31 && !(step.Go? && step.thread == p)
    ensures Proceeds(cfg, m, Next(cfg, m, step), p, room, room, SentNow(cfg, m, p, step))
  {
    OthersLeaveHand(cfg, law, m, step, p);
    SameHand(cfg, m.core, Next(cfg, m, step).core, m.threads[p]);
  }

  lemma StepProceeds(cfg: Config, law: Dialogue -> bool, m: Machine, p: ThreadId, steps: seq<Step>)
    requires MachineSound(law, m) && HoldsOfNew(law) && KeptByWork(cfg.codec, law) && steps != []
    requires p in m.threads && ForBegin(m.threads[p]) && InOrder(m.core, m.threads[p]) && Next(cfg, m, steps[0]).core.book.counter < TwoTo31
    ensures var after := Next(cfg, m, steps[0]);
            Proceeds(cfg, m, after, p, RoomFor(cfg, m, p, steps), RoomFor(cfg, after, p, steps[1..]), SentNow(cfg, m, p, steps[0]))
  {
    var step := steps[0];
    if step.Go? && step.thread == p {
      OwnStepProceeds(cfg, law, m, p, step.cmds, step.now, RoomFor(cfg, Next(cfg, m, step), p, steps[1..]));
    } else {
      OthersProceed(cfg, law, m, p, step, RoomFor(cfg, m, p, steps));
    }
  }

  lemma NothingAhead(frames: seq<Frame>, later: seq<Frame>)
    ensures frames == [] ==> frames + later == later
    ensures later == [] ==> frames + later == frames
  {}

  lemma {:induction false} BeginCallAnswers(cfg: Config, law: Dialogue -> bool, m: Machine, p: ThreadId, steps: seq<Step>)
    requires MachineSound(law, m) && HoldsOfNew(law) && KeptByWork(cfg.codec, law) && After(cfg, m, steps).core.book.counter < TwoTo31
    requires p in m.threads && ForBegin(m.threads[p]) && InOrder(m.core, m.threads[p]) && ReturnsWith(cfg, m, p, steps)
    ensures MayAnswer(cfg, m.core, m.threads[p], RoomFor(cfg, m, p, steps), SentBy(cfg, m, p, steps))
    decreases |steps|
  {
    var after := Next(cfg, m, steps[0]);
    AfterCounts(cfg, after, steps[1..]);
    NextIsSound(cfg, law, m, steps[0]);
    StepProceeds(cfg, law, m, p, steps);
    NothingAhead(SentNow(cfg, m, p, steps[0]), SentBy(cfg, after, p, steps[1..]));
    if p in after.threads {
      BeginCallAnswers(cfg, law, after, p, steps[1..]);
    }
  }

  /**
   In every run, whatever other calls do in between: what the call for a Begin hands
   out from its first step to its return is an answer by `AnswerBegin`, with the room
   there was at its first step, for some turn of the handler.
   */
  lemma BeginAnswersInRuns(cfg: Config, before: seq<Step>, p: ThreadId, steps: seq<Step>)
    requires After(cfg, Run(cfg, before), steps).core.book.counter < TwoTo31
    requires p in Run(cfg, before).threads && Run(cfg, before).threads[p].Admit? && ReturnsWith(cfg, Run(cfg, before), p, steps)
    ensures var m := Run(cfg, before);
            exists tid, cmds, now ::
              SentBy(cfg, m, p, steps) == AnswerBegin(cfg.sends, cfg.isOid, m.threads[p].b, RoomFor(cfg, m, p, steps), tid, cfg.idle,
                                                      HandlerOf(m.threads[p].handled, cmds), now)
  {
    var m := Run(cfg, before);
    AfterCounts(cfg, m, steps);
    RunIsSound(cfg, d => true, before);
    BeginCallAnswers(cfg, d => true, m, p, steps);
  }

  /** So if every abort can be sent, and every End of Rejects, no run leaves a Begin unanswered. */
  lemma NoBeginIsLeft(cfg: Config, before: seq<Step>, p: ThreadId, steps: seq<Step>)
    requires After(cfg, Run(cfg, before), steps).core.book.counter < TwoTo31
    requires p in Run(cfg, before).threads && Run(cfg, before).threads[p].Admit? && ReturnsWith(cfg, Run(cfg, before), p, steps)
    requires Run(cfg, before).threads[p].b.otid != NoTid
    requires (forall f: Frame | IsAbort(f) :: cfg.sends(f)) && forall m: Message | OnlyRejects(m) :: cfg.sends(Frame.Leg(m))
    ensures SentBy(cfg, Run(cfg, before), p, steps) != []
  {
    BeginAnswersInRuns(cfg, before, p, steps);
    var m := Run(cfg, before);
    var b, room := m.threads[p].b, RoomFor(cfg, m, p, steps);
    var tid, cmds, now :| SentBy(cfg, m, p, steps) ==
      AnswerBegin(cfg.sends, cfg.isOid, b, room, tid, cfg.idle, HandlerOf(m.threads[p].handled, cmds), now);
    BeginIsAnswered(cfg.sends, cfg.isOid, b, room, tid, cfg.idle, HandlerOf(m.threads[p].handled, cmds), now);
  }
}
