/** A dialogue of our own is stored only once its Begin was said: in every run. */
module Openings {
  import opened Options
  import opened Tcap
  import opened Lives
  import opened Bookkeeping
  import opened Engine
  import opened Calls
  import opened Programs
  import opened Interleaving
  import opened Replies

  /** A dialogue of our own said its Begin. */
  predicate Begun(d: Dialogue) { d.role == Initiator ==> d.begun }

  /** Before that it knows no peer, and says nothing. */
  predicate Unspoken(d: Dialogue) { !Begun(d) ==> d.peerTid == NoTid && d.out == [] }

  ghost predicate GoesOnFrom(d: Dialogue, after: Dialogue) { Unspoken(after) && (Begun(d) ==> Begun(after)) }

  // ── Work ───────────────────────────────────────────────────────────────────

  lemma PerformGoesOn(codec: Codec, d: Dialogue, cmd: Command, now: int)
    requires Unspoken(d)
    ensures GoesOnFrom(d, Perform(codec, d, cmd, now).0)
  {}

  lemma {:induction false} ReplayGoesOn(codec: Codec, d: Dialogue, cmds: seq<Command>, i: nat, now: int)
    requires Unspoken(d) && i <= |cmds|
    ensures GoesOnFrom(d, ReplayFrom(codec, d, cmds, i, now).0)
    decreases |cmds| - i
  {
    if i < |cmds| {
      PerformGoesOn(codec, d, cmds[i], now);
      var (after, failure) := Perform(codec, d, cmds[i], now);
      if failure.None? {
        ReplayGoesOn(codec, after, cmds, i + 1, now);
      }
    }
  }

  lemma DoneGoesOn(codec: Codec, d: Dialogue, work: Work)
    requires Unspoken(d)
    ensures GoesOnFrom(d, Done(codec, d, work))
  {
    match work
    case Acting(cmds, now) => ReplayGoesOn(codec, d, cmds, 0, now);
    case _ =>
  }

  lemma {:induction false} LivedGoesOn(codec: Codec, d: Dialogue, works: seq<Work>)
    requires Unspoken(d)
    ensures GoesOnFrom(d, Lived(codec, d, works))
    decreases |works|
  {
    if works != [] {
      LivedGoesOn(codec, d, works[..|works| - 1]);
      DoneGoesOn(codec, Lived(codec, d, works[..|works| - 1]), works[|works| - 1]);
    }
  }

  lemma UnspokenIsKept(codec: Codec)
    ensures HoldsOfNew(d => Unspoken(d)) && KeptByWork(codec, d => Unspoken(d))
  {
    forall d, work | Unspoken(d) ensures Unspoken(Done(codec, d, work)) {
      DoneGoesOn(codec, d, work);
    }
  }

  // ── One step of a call ─────────────────────────────────────────────────────

  /** A handler is still to say the Begin, or just may have. */
  predicate Starting(pc: Pc) { pc.GiveStart? || (pc.Finish? && pc.turn.OfStart?) }

  ghost predicate StoreBegun(store: Store) { forall tid | tid in store :: Begun(store[tid].dialogue) }

  ghost predicate HandBegun(hands: map<Tid, Dialogue>, pc: Pc) { Holds(pc) && !Starting(pc) ==> pc.tid in hands && Begun(hands[pc.tid]) }

  ghost predicate StaysBegun(o: Outcome) { StoreBegun(o.core.store) && (o.next.Some? ==> HandBegun(o.core.hands, o.next.value)) }

  lemma OutsideStaysBegun(cfg: Config, c: Core, pc: Pc)
    requires !Holds(pc) && Able(c, pc) && StoreBegun(c.store)
    ensures StaysBegun(OutsideStep(cfg, c, pc))
  {}

  lemma HandlerStaysBegun(c: Core, pc: Pc, acted: Dialogue, now: int)
    requires CallsHandler(pc) && Able(c, pc) && StoreBegun(c.store) && HandBegun(c.hands, pc) && GoesOnFrom(c.hands[pc.tid], acted)
    ensures StaysBegun(HandlerStep(c, pc, acted, now))
  {}

  lemma OwnStaysBegun(cfg: Config, c: Core, pc: Pc)
    requires WorksItself(pc) && Able(c, pc) && StoreBegun(c.store) && HandBegun(c.hands, pc) && Unspoken(c.hands[pc.tid])
    ensures StaysBegun(OwnStep(cfg, c, pc))
  {
    var d := c.hands[pc.tid];
    match pc
    case TakeInBegin(_, b, _) =>
      var seen := Termination.TakeIn(d, b).1;
      var first := Termination.FirstInvoke(seen, 0);
      if first.Some? {
        LivedGoesOn(cfg.codec, d, Intake(b.comps, b.damaged, false) + [Replying(seen[first.value].id)]);
      }
    case TakeInTurn(_, otid, comps, damaged, isEnd) =>
      LivedGoesOn(cfg.codec, d, (if otid.Some? then [Learning(otid.value)] else []) + Intake(comps, damaged, isEnd) + (if isEnd then [PeerEnding] else []));
    case ExpireInvokes(_, at, _, _) => DoneGoesOn(cfg.codec, d, Expiring(at));
    case AbortIdle(_, _, _) => DoneGoesOn(cfg.codec, d, Aborting(IdleTimedOut));
  }

  /** A dialogue of our own whose start said nothing is not stored; one that said something said its Begin. */
  lemma LastStaysBegun(cfg: Config, c: Core, pc: Pc, now: int)
    requires (pc.Finish? || pc.CloseNow?) && Able(c, pc) && StoreBegun(c.store) && HandBegun(c.hands, pc) && Unspoken(c.hands[pc.tid])
    ensures StaysBegun(LastStep(cfg, c, pc, now))
  {
    if pc.Finish? {
      var d := c.hands[pc.tid];
      LivedGoesOn(cfg.codec, d, Answering(d, pc.turn));
      var after := Lived(cfg.codec, d, Answering(d, pc.turn));
      DoneGoesOn(cfg.codec, after, Draining);
      assert pc.turn.OfStart? ==> after == d;
    }
  }

  lemma StepStaysBegun(cfg: Config, c: Core, pc: Pc, cmds: seq<Command>, now: int)
    requires Able(c, pc) && StoreBegun(c.store) && HandBegun(c.hands, pc) && (Holds(pc) ==> Unspoken(c.hands[pc.tid]))
    ensures StaysBegun(Advance(cfg, c, pc, cmds, now))
  {
    var o := Advance(cfg, c, pc, cmds, now);
    if !Holds(pc) {
      OutsideStaysBegun(cfg, c, pc);
      assert o == OutsideStep(cfg, c, pc);
    } else if CallsHandler(pc) {
      var acted := Done(cfg.codec, c.hands[pc.tid], Acting(cmds, now));
      DoneGoesOn(cfg.codec, c.hands[pc.tid], Acting(cmds, now));
      HandlerStaysBegun(c, pc, acted, now);
      assert o == HandlerStep(c, pc, acted, now);
    } else if WorksItself(pc) {
      OwnStaysBegun(cfg, c, pc);
      assert o == OwnStep(cfg, c, pc);
    } else {
      LastStaysBegun(cfg, c, pc, now);
      assert o == LastStep(cfg, c, pc, now);
    }
  }

  // ── Every run ──────────────────────────────────────────────────────────────

  ghost predicate HandsBegun(hands: map<Tid, Dialogue>, threads: map<ThreadId, Pc>) { forall p | p in threads :: HandBegun(hands, threads[p]) }

  ghost predicate AllBegun(m: Machine) { StoreBegun(m.core.store) && HandsBegun(m.core.hands, m.threads) }

  lemma OtherStaysBegun(cfg: Config, law: Dialogue -> bool, m: Machine, step: Step, q: ThreadId)
    requires MachineSound(law, m) && HoldsOfNew(law) && KeptByWork(cfg.codec, law) && q in m.threads
    requires Next(cfg, m, step).core.book.counter < TwoTo31 && !(step.Go? && step.thread == q)
    requires HandBegun(m.core.hands, m.threads[q])
    ensures q in Next(cfg, m, step).threads && HandBegun(Next(cfg, m, step).core.hands, Next(cfg, m, step).threads[q])
  {
    OthersLeaveHand(cfg, law, m, step, q);
  }

  lemma UnspokenInHand(law: Dialogue -> bool, m: Machine, p: ThreadId)
    requires MachineSound(law, m) && p in m.threads && forall d | law(d) :: Unspoken(d)
    ensures Able(m.core, m.threads[p]) && (Holds(m.threads[p]) ==> Unspoken(m.core.hands[m.threads[p].tid]))
  {
    AlwaysAble(law, m, p);
    if Holds(m.threads[p]) {
      InHandIsSane(law, m.core, m.threads[p].tid);
    }
  }

  lemma GoStaysBegun(cfg: Config, law: Dialogue -> bool, m: Machine, p: ThreadId, cmds: seq<Command>, now: int)
    requires MachineSound(law, m) && p in m.threads && (forall d | law(d) :: Unspoken(d)) && AllBegun(m)
    ensures var after := Next(cfg, m, Go(p, cmds, now));
            StoreBegun(after.core.store) && (p in after.threads ==> HandBegun(after.core.hands, after.threads[p]))
            && forall q | q in after.threads :: q in m.threads
  {
    UnspokenInHand(law, m, p);
    StepStaysBegun(cfg, m.core, m.threads[p], cmds, now);
    var o := Advance(cfg, m.core, m.threads[p], cmds, now);
    assert Next(cfg, m, Go(p, cmds, now)) == Machine(o.core, Moved(m.threads, p, o.next));
  }

  lemma StartStaysBegun(cfg: Config, m: Machine, p: ThreadId, call: Pc)
    requires AllBegun(m)
    ensures AllBegun(Next(cfg, m, Start(p, call)))
  {}

  lemma NextStaysBegun(cfg: Config, law: Dialogue -> bool, m: Machine, step: Step)
    requires MachineSound(law, m) && HoldsOfNew(law) && KeptByWork(cfg.codec, law) && (forall d | law(d) :: Unspoken(d)) && AllBegun(m)
    requires Next(cfg, m, step).core.book.counter < TwoTo31
    ensures AllBegun(Next(cfg, m, step))
  {
    match step
    case Start(p, call) => StartStaysBegun(cfg, m, p, call);
    case Go(p, cmds, now) =>
      var after := Next(cfg, m, step);
      if p in m.threads {
        GoStaysBegun(cfg, law, m, p, cmds, now);
        forall q | q in after.threads ensures HandBegun(after.core.hands, after.threads[q]) {
          if q != p {
            OtherStaysBegun(cfg, law, m, step, q);
          }
        }
      } else {
        assert after == m;
      }
  }

  lemma {:induction false} RunStaysBegun(cfg: Config, law: Dialogue -> bool, steps: seq<Step>)
    requires HoldsOfNew(law) && KeptByWork(cfg.codec, law) && (forall d | law(d) :: Unspoken(d)) && Run(cfg, steps).core.book.counter < TwoTo31
    ensures AllBegun(Run(cfg, steps))
    decreases |steps|
  {
    if steps != [] {
      var front, last := steps[..|steps| - 1], steps[|steps| - 1];
      CounterGrows(cfg, Run(cfg, front), last);
      RunStaysBegun(cfg, law, front);
      RunIsSound(cfg, law, front);
      NextStaysBegun(cfg, law, Run(cfg, front), last);
    }
  }

  /** In every run a dialogue of our own that is in the store said its Begin. */
  lemma StoredHasBegun(cfg: Config, steps: seq<Step>, tid: Tid)
    requires Run(cfg, steps).core.book.counter < TwoTo31 && tid in Run(cfg, steps).core.store
    ensures Begun(Run(cfg, steps).core.store[tid].dialogue)
  {
    UnspokenIsKept(cfg.codec);
    RunStaysBegun(cfg, d => Unspoken(d), steps);
  }
}
