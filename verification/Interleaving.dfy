/** Any number of threads run calls of the engine at once: what holds in every run. */
module Interleaving {
  import opened Options
  import opened InvokeIds
  import opened Tcap
  import opened DialogueLaws
  import opened DialogueRuns
  import opened Lives
  import opened Bookkeeping
  import opened Engine
  import opened Calls
  import opened Programs

  /** What is shared, and where each call that runs is. */
  datatype Machine = Machine(core: Core, threads: map<ThreadId, Pc>)

  const Idle := Machine(Core(NoDialogues, map[], map[]), map[])

  /** A call begins, or goes on by one step; `cmds` is what the handler does if it is called. */
  datatype Step = Start(thread: ThreadId, call: Pc) | Go(thread: ThreadId, cmds: seq<Command>, now: int)

  predicate Able(c: Core, pc: Pc) {
    && (Holds(pc) ==> pc.tid in c.book.entries && pc.tid in c.hands)
    && (pc.TakeTurn? || pc.TakeToClose? || pc.TakeDue? ==> (pc.wanted in c.store ==> pc.wanted in c.book.entries))
  }

  function Moved(threads: map<ThreadId, Pc>, p: ThreadId, next: Option<Pc>): map<ThreadId, Pc> {
    if next.Some? then threads[p := next.value] else threads - {p}
  }

  /** One step of the machine; one that does not apply changes nothing. */
  function Next(cfg: Config, m: Machine, step: Step): Machine {
    match step
    case Start(p, call) => if p !in m.threads && IsCall(call) then m.(threads := m.threads[p := call]) else m
    case Go(p, cmds, now) =>
      if p in m.threads && Able(m.core, m.threads[p]) then
        var o := Advance(cfg, m.core, m.threads[p], cmds, now);
        Machine(o.core, Moved(m.threads, p, o.next))
      else m
  }

  /** The machine after any steps of any threads. */
  function Run(cfg: Config, steps: seq<Step>): Machine {
    if steps == [] then Idle else Next(cfg, Run(cfg, steps[..|steps| - 1]), steps[|steps| - 1])
  }

  // ── Who has what in hand ───────────────────────────────────────────────────

  ghost function Holding(threads: map<ThreadId, Pc>): map<ThreadId, Tid> {
    map p | p in threads && Holds(threads[p]) :: threads[p].tid
  }

  /** The dialogue a call has in hand is where its next step needs it. */
  ghost predicate InPlace(threads: map<ThreadId, Pc>, b: Book) {
    forall p | p in threads && Holds(threads[p]) :: At(b, threads[p].tid, PlaceFor(threads[p]))
  }

  ghost predicate ThreadsOk(threads: map<ThreadId, Pc>, b: Book) { Owned(Holding(threads), b.entries) && InPlace(threads, b) }

  ghost predicate MachineSound(law: Dialogue -> bool, m: Machine) { CoreSound(law, m.core) && ThreadsOk(m.threads, m.core.book) }

  lemma HoldingPut(threads: map<ThreadId, Pc>, p: ThreadId, pc: Pc)
    ensures Holding(threads[p := pc]) == if Holds(pc) then Holding(threads)[p := pc.tid] else Holding(threads) - {p}
  {}

  lemma HoldingDrop(threads: map<ThreadId, Pc>, p: ThreadId)
    ensures Holding(threads - {p}) == Holding(threads) - {p}
  {}

  /** The dialogues of other threads are where they were. */
  lemma OthersInPlace(threads: map<ThreadId, Pc>, before: Book, after: Book, p: ThreadId, tid: Tid, q: ThreadId)
    requires ThreadsOk(threads, before) && OnlyAt(before.entries, after.entries, tid) && q in threads && Holds(threads[q]) && q != p
    requires (p in threads && Holds(threads[p]) && threads[p].tid == tid) || (tid in before.entries ==> !InHand(before.entries[tid].place))
    ensures At(after, threads[q].tid, PlaceFor(threads[q])) && threads[q].tid != tid
  {
    var hands := Holding(threads);
    assert hands[q] == threads[q].tid && At(before, threads[q].tid, PlaceFor(threads[q]));
    if p in threads && Holds(threads[p]) && threads[p].tid == tid {
      assert hands[p] == tid;
    }
  }

  lemma ThreadGoesOn(threads: map<ThreadId, Pc>, before: Book, after: Book, p: ThreadId, next: Pc)
    requires ThreadsOk(threads, before) && p in threads && StepOk(before, after, threads[p], Some(next)) && Holds(threads[p])
    ensures ThreadsOk(threads[p := next], after)
  {
    var hands := Holding(threads);
    HoldingPut(threads, p, next);
    assert hands[p] == next.tid && hands[p := next.tid] == hands;
    HandKeeps(hands, before.entries, p, after.entries);
    forall q | q in threads && q != p && Holds(threads[q]) ensures At(after, threads[q].tid, PlaceFor(threads[q])) {
      OthersInPlace(threads, before, after, p, next.tid, q);
    }
  }

  lemma ThreadLetsGo(threads: map<ThreadId, Pc>, before: Book, after: Book, p: ThreadId)
    requires ThreadsOk(threads, before) && p in threads && StepOk(before, after, threads[p], None) && Holds(threads[p])
    ensures ThreadsOk(threads - {p}, after)
  {
    var hands := Holding(threads);
    HoldingDrop(threads, p);
    assert hands[p] == threads[p].tid;
    HandLoses(hands, before.entries, p, after.entries);
    forall q | q in threads && q != p && Holds(threads[q]) ensures At(after, threads[q].tid, PlaceFor(threads[q])) {
      OthersInPlace(threads, before, after, p, threads[p].tid, q);
    }
  }

  lemma ThreadGets(threads: map<ThreadId, Pc>, before: Book, after: Book, p: ThreadId, next: Pc)
    requires ThreadsOk(threads, before) && p in threads && StepOk(before, after, threads[p], Some(next)) && !Holds(threads[p]) && Holds(next)
    ensures ThreadsOk(threads[p := next], after)
  {
    var hands := Holding(threads);
    HoldingPut(threads, p, next);
    assert p !in hands;
    HandGains(hands, before.entries, p, next.tid, after.entries);
    forall q | q in threads && q != p && Holds(threads[q]) ensures At(after, threads[q].tid, PlaceFor(threads[q])) {
      OthersInPlace(threads, before, after, p, next.tid, q);
    }
  }

  /** A call that has no dialogue, and gets none, changes nobody's. */
  lemma ThreadWithout(threads: map<ThreadId, Pc>, before: Book, after: Book, p: ThreadId, next: Option<Pc>)
    requires ThreadsOk(threads, before) && (p in threads ==> !Holds(threads[p])) && (next.Some? ==> !Holds(next.value))
    requires after.entries == before.entries
    ensures ThreadsOk(Moved(threads, p, next), after)
  {
    var hands := Holding(threads);
    assert hands - {p} == hands;
    HoldingDrop(threads, p);
    if next.Some? {
      HoldingPut(threads, p, next.value);
    }
  }

  lemma MovedIsOk(threads: map<ThreadId, Pc>, before: Book, after: Book, p: ThreadId, next: Option<Pc>)
    requires ThreadsOk(threads, before) && p in threads && StepOk(before, after, threads[p], next)
    ensures ThreadsOk(Moved(threads, p, next), after)
  {
    if Holds(threads[p]) {
      if next.Some? {
        ThreadGoesOn(threads, before, after, p, next.value);
      } else {
        ThreadLetsGo(threads, before, after, p);
      }
    } else if next.Some? && Holds(next.value) {
      ThreadGets(threads, before, after, p, next.value);
    } else {
      ThreadWithout(threads, before, after, p, next);
    }
  }

  // ── Every step of every run ────────────────────────────────────────────────

  /** In a sound machine every call can take its next step. */
  lemma AlwaysAble(law: Dialogue -> bool, m: Machine, p: ThreadId)
    requires MachineSound(law, m) && p in m.threads
    ensures Able(m.core, m.threads[p]) && Fit(m.core, m.threads[p])
  {
    if Holds(m.threads[p]) {
      assert At(m.core.book, m.threads[p].tid, PlaceFor(m.threads[p]));
    }
  }

  lemma GoIsSound(cfg: Config, law: Dialogue -> bool, m: Machine, p: ThreadId, cmds: seq<Command>, now: int)
    requires MachineSound(law, m) && HoldsOfNew(law) && KeptByWork(cfg.codec, law) && p in m.threads
    requires Next(cfg, m, Go(p, cmds, now)).core.book.counter < TwoTo31
    ensures MachineSound(law, Next(cfg, m, Go(p, cmds, now))) && Able(m.core, m.threads[p])
    ensures Advanced(law, m.core, m.threads[p], Advance(cfg, m.core, m.threads[p], cmds, now))
  {
    AlwaysAble(law, m, p);
    var o := Advance(cfg, m.core, m.threads[p], cmds, now);
    assert Next(cfg, m, Go(p, cmds, now)) == Machine(o.core, Moved(m.threads, p, o.next));
    AdvanceIsOk(cfg, law, m.core, m.threads[p], cmds, now);
    MovedIsOk(m.threads, m.core.book, o.core.book, p, o.next);
  }

  lemma StartIsSound(cfg: Config, law: Dialogue -> bool, m: Machine, p: ThreadId, call: Pc)
    requires MachineSound(law, m)
    ensures MachineSound(law, Next(cfg, m, Start(p, call)))
  {
    if p !in m.threads && IsCall(call) {
      ThreadWithout(m.threads, m.core.book, m.core.book, p, Some(call));
      assert Next(cfg, m, Start(p, call)) == m.(threads := m.threads[p := call]);
    }
  }

  lemma NextIsSound(cfg: Config, law: Dialogue -> bool, m: Machine, step: Step)
    requires MachineSound(law, m) && HoldsOfNew(law) && KeptByWork(cfg.codec, law) && Next(cfg, m, step).core.book.counter < TwoTo31
    ensures MachineSound(law, Next(cfg, m, step))
  {
    match step
    case Start(p, call) => StartIsSound(cfg, law, m, p, call);
    case Go(p, cmds, now) =>
      if p in m.threads {
        GoIsSound(cfg, law, m, p, cmds, now);
      } else {
        assert Next(cfg, m, step) == m;
      }
  }

  lemma OutsideCounter(cfg: Config, c: Core, pc: Pc)
    requires !Holds(pc) && Able(c, pc)
    ensures OutsideStep(cfg, c, pc).core.book.counter >= c.book.counter
  {}

  lemma HandlerCounter(c: Core, pc: Pc, acted: Dialogue, now: int)
    requires CallsHandler(pc) && Able(c, pc)
    ensures HandlerStep(c, pc, acted, now).core.book.counter == c.book.counter
  {}

  lemma OwnCounter(cfg: Config, c: Core, pc: Pc)
    requires WorksItself(pc) && Able(c, pc)
    ensures OwnStep(cfg, c, pc).core.book.counter == c.book.counter
  {}

  lemma LastCounter(cfg: Config, c: Core, pc: Pc, now: int)
    requires (pc.Finish? || pc.CloseNow?) && Able(c, pc)
    ensures LastStep(cfg, c, pc, now).core.book.counter == c.book.counter
  {}

  lemma CounterGrows(cfg: Config, m: Machine, step: Step)
    ensures Next(cfg, m, step).core.book.counter >= m.core.book.counter
  {
    if step.Go? && step.thread in m.threads && Able(m.core, m.threads[step.thread]) {
      var pc := m.threads[step.thread];
      var o := Advance(cfg, m.core, pc, step.cmds, step.now);
      assert Next(cfg, m, step).core == o.core;
      if !Holds(pc) {
        OutsideCounter(cfg, m.core, pc);
        assert o == OutsideStep(cfg, m.core, pc);
      } else if CallsHandler(pc) {
        var acted := Done(cfg.codec, m.core.hands[pc.tid], Acting(step.cmds, step.now));
        HandlerCounter(m.core, pc, acted, step.now);
        assert o == HandlerStep(m.core, pc, acted, step.now);
      } else if WorksItself(pc) {
        OwnCounter(cfg, m.core, pc);
        assert o == OwnStep(cfg, m.core, pc);
      } else {
        LastCounter(cfg, m.core, pc, step.now);
        assert o == LastStep(cfg, m.core, pc, step.now);
      }
    }
  }

  lemma IdleIsSound(law: Dialogue -> bool)
    ensures MachineSound(law, Idle)
  {}

  /** With fewer transaction ids given out than there are, every run in every interleaving is sound. */
  lemma {:induction false} RunIsSound(cfg: Config, law: Dialogue -> bool, steps: seq<Step>)
    requires HoldsOfNew(law) && KeptByWork(cfg.codec, law) && Run(cfg, steps).core.book.counter < TwoTo31
    ensures MachineSound(law, Run(cfg, steps))
    decreases |steps|
  {
    if steps == [] {
      IdleIsSound(law);
    } else {
      var front, last := steps[..|steps| - 1], steps[|steps| - 1];
      CounterGrows(cfg, Run(cfg, front), last);
      RunIsSound(cfg, law, front);
      NextIsSound(cfg, law, Run(cfg, front), last);
    }
  }

  // ── What follows ───────────────────────────────────────────────────────────

  /** In every run a dialogue outside the store that is not over is in the hands of exactly one call that runs. */
  lemma OneOwner(cfg: Config, steps: seq<Step>, tid: Tid)
    requires Run(cfg, steps).core.book.counter < TwoTo31
    requires var entries := Run(cfg, steps).core.book.entries; tid in entries && InHand(entries[tid].place)
    ensures var threads := Run(cfg, steps).threads;
            exists p :: p in threads && Holds(threads[p]) && threads[p].tid == tid &&
                        forall q | q in threads && Holds(threads[q]) && threads[q].tid == tid :: q == p
  {
    var m := Run(cfg, steps);
    RunIsSound(cfg, d => true, steps);
    var hands := Holding(m.threads);
    var p :| p in hands && hands[p] == tid;
    forall q | q in m.threads && Holds(m.threads[q]) && m.threads[q].tid == tid ensures q == p {
      assert hands[q] == hands[p];
    }
  }

  /**
   When no call is in progress, nothing is in anybody's hands: every dialogue that a
   handler was given is in the store, its handler not told of an end, or is over,
   its handler told of the end once, in the last call it ever got.
   */
  lemma ClosedExactlyOnce(cfg: Config, steps: seq<Step>, tid: Tid)
    requires Run(cfg, steps).core.book.counter < TwoTo31 && Run(cfg, steps).threads == map[]
    ensures Run(cfg, steps).core.hands == map[]
    ensures var c := Run(cfg, steps).core;
            tid in c.book.entries ==>
              var entry := c.book.entries[tid];
              && (entry.place == Stored || entry.place == Gone) && (entry.place == Stored <==> tid in c.store)
              && entry.calls != [] && (entry.calls[0].OnBegin? || entry.calls[0].OnStart?)
              && forall k | 0 <= k < |entry.calls| :: entry.calls[k].OnClosed? <==> entry.place == Gone && k == |entry.calls| - 1
    ensures |Run(cfg, steps).core.store| == Run(cfg, steps).core.book.opens - Run(cfg, steps).core.book.closes
  {
    var m := Run(cfg, steps);
    RunIsSound(cfg, d => true, steps);
    assert Holding(m.threads) == map[];
    forall other | other in m.core.book.entries ensures !InHand(m.core.book.entries[other].place) {
      NothingInHand(m.core.book, Holding(m.threads), other);
    }
    StoreIsCounted(d => true, m.core);
    if tid in m.core.book.entries {
      NothingInHand(m.core.book, Holding(m.threads), tid);
      assert EntryOk(m.core.book.entries[tid]);
    }
  }

  lemma StoreIsCounted(law: Dialogue -> bool, c: Core)
    requires CoreSound(law, c)
    ensures |c.store| == c.book.opens - c.book.closes
  {
    assert c.store.Keys == StoredIn(c.book.entries);
    assert |c.store.Keys| == |c.store|;
  }

  /**
   While calls run, too, the handler is told of the end once, last, and of nothing
   afterwards. A dialogue's id is one that was given out, and the gauge is right.
   */
  lemma NeverTwice(cfg: Config, steps: seq<Step>, tid: Tid)
    requires Run(cfg, steps).core.book.counter < TwoTo31 && tid in Run(cfg, steps).core.book.entries
    ensures EntryOk(Run(cfg, steps).core.book.entries[tid])
    ensures exists k: nat :: 0 < k <= Run(cfg, steps).core.book.counter && tid == TidOf(k)
    ensures |Run(cfg, steps).core.store| == Run(cfg, steps).core.book.opens - Run(cfg, steps).core.book.closes
  {
    RunIsSound(cfg, d => true, steps);
    StoreIsCounted(d => true, Run(cfg, steps).core);
    IssuedMeans(Run(cfg, steps).core.book.counter, tid);
  }

  /** A step of one thread leaves alone the dialogue another thread has in hand, and any that is over. */
  lemma NobodyElseWorksOnIt(cfg: Config, law: Dialogue -> bool, m: Machine, p: ThreadId, cmds: seq<Command>, now: int, tid: Tid)
    requires MachineSound(law, m) && HoldsOfNew(law) && KeptByWork(cfg.codec, law) && p in m.threads
    requires Next(cfg, m, Go(p, cmds, now)).core.book.counter < TwoTo31
    requires tid in m.core.book.entries && !(Holds(m.threads[p]) && m.threads[p].tid == tid) && !m.core.book.entries[tid].place.Stored?
    ensures var after := Next(cfg, m, Go(p, cmds, now)).core;
            && tid in after.book.entries && after.book.entries[tid] == m.core.book.entries[tid]
            && (tid in m.core.hands ==> tid in after.hands && after.hands[tid] == m.core.hands[tid])
  {
    GoIsSound(cfg, law, m, p, cmds, now);
    var o := Advance(cfg, m.core, m.threads[p], cmds, now);
    assert Next(cfg, m, Go(p, cmds, now)).core == o.core;
  }

  // ── Every call returns ─────────────────────────────────────────────────────

  /** How many steps a call has yet to take, at most. */
  function Rank(c: Core, pc: Pc): nat {
    match pc
    case Admit(_, _) => 5
    case OpenResponder(_, _) => 4
    case TakeInBegin(_, _, _) => 3
    case GiveBegin(_, _, _) => 2
    case TakeTurn(_, _, _, _, _) => 4
    case TakeInTurn(_, _, _, _, _) => 3
    case CallContinue(_, _, _) => 2
    case TakeToClose(_, _) => 2
    case CloseNow(_, _) => 1
    case OpenInitiator(_) => 3
    case GiveStart(_) => 2
    case ClaimDue(_) => 1
    case GiveBack(_) => 1
    case TakeDue(tid, _) => 5 + if tid in c.store then |c.store[tid].dialogue.outstanding| else 0
    case ExpireInvokes(tid, _, _, _) => 4 + if tid in c.hands then |c.hands[tid].outstanding| else 0
    case CallTimeout(_, expired, _, _) => 3 + |expired|
    case AbortIdle(_, _, _) => 2
    case Finish(_, _, _) => 1
  }

  lemma {:induction false} NoMoreExpire(s: seq<Operation>, now: int)
    ensures |Split(s, now).0| <= |s|
    decreases |s|
  {
    if s != [] {
      NoMoreExpire(s[..|s| - 1], now);
    }
  }

  lemma OutsideGetsOn(cfg: Config, c: Core, pc: Pc)
    requires !Holds(pc) && Able(c, pc)
    ensures var o := OutsideStep(cfg, c, pc); o.next.Some? ==> Rank(o.core, o.next.value) < Rank(c, pc)
  {}

  lemma HandlerGetsOn(c: Core, pc: Pc, acted: Dialogue, now: int)
    requires CallsHandler(pc) && Able(c, pc)
    ensures var o := HandlerStep(c, pc, acted, now); o.next.Some? ==> Rank(o.core, o.next.value) < Rank(c, pc)
  {}

  lemma OwnGetsOn(cfg: Config, c: Core, pc: Pc)
    requires WorksItself(pc) && Able(c, pc)
    ensures var o := OwnStep(cfg, c, pc); o.next.Some? ==> Rank(o.core, o.next.value) < Rank(c, pc)
  {
    if pc.ExpireInvokes? {
      NoMoreExpire(c.hands[pc.tid].outstanding, pc.at);
    }
  }

  lemma LastReturns(cfg: Config, c: Core, pc: Pc, now: int)
    requires (pc.Finish? || pc.CloseNow?) && Able(c, pc)
    ensures LastStep(cfg, c, pc, now).next.None?
  {}

  /** Each step brings a call nearer to its return. */
  lemma CallGetsOn(cfg: Config, c: Core, pc: Pc, cmds: seq<Command>, now: int)
    requires Able(c, pc)
    ensures var o := Advance(cfg, c, pc, cmds, now); o.next.Some? ==> Rank(o.core, o.next.value) < Rank(c, pc)
  {
    var o := Advance(cfg, c, pc, cmds, now);
    if !Holds(pc) {
      OutsideGetsOn(cfg, c, pc);
      assert o == OutsideStep(cfg, c, pc);
    } else if CallsHandler(pc) {
      var acted := Done(cfg.codec, c.hands[pc.tid], Acting(cmds, now));
      HandlerGetsOn(c, pc, acted, now);
      assert o == HandlerStep(c, pc, acted, now);
    } else if WorksItself(pc) {
      OwnGetsOn(cfg, c, pc);
      assert o == OwnStep(cfg, c, pc);
    } else {
      LastReturns(cfg, c, pc, now);
      assert o == LastStep(cfg, c, pc, now);
    }
  }

  /** Two calls never have the same dialogue. */
  lemma HandsApart(threads: map<ThreadId, Pc>, b: Book, p: ThreadId, q: ThreadId)
    requires ThreadsOk(threads, b) && p in threads && q in threads && p != q && Holds(threads[q])
    ensures At(b, threads[q].tid, PlaceFor(threads[q])) && (Holds(threads[p]) ==> threads[p].tid != threads[q].tid)
  {
    var hands := Holding(threads);
    assert hands[q] == threads[q].tid;
    if Holds(threads[p]) {
      assert hands[p] == threads[p].tid;
    }
  }

  lemma RankOfHolder(before: Core, after: Core, pc: Pc)
    requires Holds(pc) && pc.tid in before.hands && pc.tid in after.hands && after.hands[pc.tid] == before.hands[pc.tid]
    ensures Rank(after, pc) == Rank(before, pc)
  {}

  /** Other threads do not hold up a call that has a dialogue. */
  lemma OthersDoNotHoldUp(cfg: Config, law: Dialogue -> bool, m: Machine, p: ThreadId, cmds: seq<Command>, now: int, q: ThreadId)
    requires MachineSound(law, m) && HoldsOfNew(law) && KeptByWork(cfg.codec, law) && p in m.threads && q in m.threads && p != q
    requires Next(cfg, m, Go(p, cmds, now)).core.book.counter < TwoTo31 && Holds(m.threads[q])
    ensures var after := Next(cfg, m, Go(p, cmds, now));
            q in after.threads && after.threads[q] == m.threads[q] && Rank(after.core, after.threads[q]) == Rank(m.core, m.threads[q])
  {
    var pc := m.threads[q];
    HandsApart(m.threads, m.core.book, p, q);
    InHandOf(law, m.core, pc);
    NobodyElseWorksOnIt(cfg, law, m, p, cmds, now, pc.tid);
    RankOfHolder(m.core, Next(cfg, m, Go(p, cmds, now)).core, pc);
    StaysPut(cfg, m, p, cmds, now, q);
  }

  lemma InHandOf(law: Dialogue -> bool, c: Core, pc: Pc)
    requires CoreSound(law, c) && Holds(pc) && At(c.book, pc.tid, PlaceFor(pc))
    ensures pc.tid in c.hands && !c.book.entries[pc.tid].place.Stored?
  {}

  /** A step of one thread moves no other. */
  lemma StaysPut(cfg: Config, m: Machine, p: ThreadId, cmds: seq<Command>, now: int, q: ThreadId)
    requires q in m.threads && p != q
    ensures q in Next(cfg, m, Go(p, cmds, now)).threads && Next(cfg, m, Go(p, cmds, now)).threads[q] == m.threads[q]
  {
    if p in m.threads && Able(m.core, m.threads[p]) {
      var o := Advance(cfg, m.core, m.threads[p], cmds, now);
      assert Next(cfg, m, Go(p, cmds, now)) == Machine(o.core, Moved(m.threads, p, o.next));
    }
  }

  /** A law by which a dialogue has no more operations in progress than there are ids. */
  ghost predicate WithinIds(law: Dialogue -> bool) { forall d | law(d) :: |d.outstanding| <= 256 }

  /**
   The steps a call has yet to take, at most, whatever others do: the dialogue that a
   timer call is after may change before it is taken.
   */
  function Bound(c: Core, pc: Pc): (steps: nat)
    ensures IsCall(pc) ==> steps <= 5 + 256
  {
    if pc.TakeDue? then 5 + 256 else Rank(c, pc)
  }

  /** Where a call is going is up to it alone. */
  lemma OthersMayAct(cfg: Config, law: Dialogue -> bool, m: Machine, step: Step, q: ThreadId)
    requires MachineSound(law, m) && HoldsOfNew(law) && KeptByWork(cfg.codec, law) && q in m.threads
    requires Next(cfg, m, step).core.book.counter < TwoTo31 && !(step.Go? && step.thread == q)
    ensures var after := Next(cfg, m, step);
            q in after.threads && after.threads[q] == m.threads[q] && Bound(after.core, after.threads[q]) == Bound(m.core, m.threads[q])
  {
    match step
    case Start(p, call) => StartsApart(cfg, m, p, call, q);
    case Go(p, cmds, now) =>
      if p in m.threads && Holds(m.threads[q]) {
        OthersDoNotHoldUp(cfg, law, m, p, cmds, now, q);
      } else {
        StaysPut(cfg, m, p, cmds, now, q);
        BoundWithout(m.core, Next(cfg, m, step).core, m.threads[q]);
      }
  }

  lemma BoundWithout(before: Core, after: Core, pc: Pc)
    requires Holds(pc) ==> before == after
    ensures Bound(after, pc) == Bound(before, pc)
  {}

  lemma StartsApart(cfg: Config, m: Machine, p: ThreadId, call: Pc, q: ThreadId)
    requires q in m.threads
    ensures var after := Next(cfg, m, Start(p, call)); q in after.threads && after.threads[q] == m.threads[q] && after.core == m.core
  {}

  /** The machine after further steps. */
  function After(cfg: Config, m: Machine, steps: seq<Step>): Machine
    decreases |steps|
  {
    if steps == [] then m else After(cfg, Next(cfg, m, steps[0]), steps[1..])
  }

  /** At some point of the steps the thread has no call in progress. */
  ghost predicate Returned(cfg: Config, m: Machine, p: ThreadId, steps: seq<Step>) {
    exists k :: 0 <= k <= |steps| && p !in After(cfg, m, steps[..k]).threads
  }

  /** How many of the steps are the thread's. */
  function StepsOf(p: ThreadId, steps: seq<Step>): nat
    decreases |steps|
  {
    if steps == [] then 0 else (if steps[0].Go? && steps[0].thread == p then 1 else 0) + StepsOf(p, steps[1..])
  }

  lemma {:induction false} AfterCounts(cfg: Config, m: Machine, steps: seq<Step>)
    ensures After(cfg, m, steps).core.book.counter >= m.core.book.counter
    decreases |steps|
  {
    if steps != [] {
      CounterGrows(cfg, m, steps[0]);
      AfterCounts(cfg, Next(cfg, m, steps[0]), steps[1..]);
    }
  }

  /** Once a call that waited for a dialogue has gone on, it has one or has returned. */
  lemma NeverWaitsAgain(cfg: Config, c: Core, pc: Pc, cmds: seq<Command>, now: int)
    requires Able(c, pc)
    ensures var o := Advance(cfg, c, pc, cmds, now); o.next.Some? ==> !o.next.value.TakeDue?
  {}

  lemma {:induction false} CallReturns(cfg: Config, law: Dialogue -> bool, m: Machine, p: ThreadId, steps: seq<Step>)
    requires MachineSound(law, m) && HoldsOfNew(law) && KeptByWork(cfg.codec, law) && WithinIds(law)
    requires After(cfg, m, steps).core.book.counter < TwoTo31
    requires p in m.threads ==> StepsOf(p, steps) >= Bound(m.core, m.threads[p])
    ensures Returned(cfg, m, p, steps)
    decreases |steps|
  {
    if p !in m.threads {
      NotRunning(cfg, m, p, steps);
    } else {
      var after := Next(cfg, m, steps[0]);
      AfterCounts(cfg, after, steps[1..]);
      NextIsSound(cfg, law, m, steps[0]);
      StepGetsOn(cfg, law, m, p, steps[0]);
      CallReturns(cfg, law, after, p, steps[1..]);
      OneStepLater(cfg, m, p, steps);
    }
  }

  /**
   Whatever the handler does and however other threads get in between, a call that
   takes its steps returns: within `Bound` many of its own from where it is in a run,
   and so within 261 from where it begins.
   */
  lemma EveryCallReturns(cfg: Config, before: seq<Step>, p: ThreadId, steps: seq<Step>)
    requires After(cfg, Run(cfg, before), steps).core.book.counter < TwoTo31
    requires var m := Run(cfg, before); p in m.threads ==> StepsOf(p, steps) >= Bound(m.core, m.threads[p])
    ensures Returned(cfg, Run(cfg, before), p, steps)
  {
    var law := (d: Dialogue) => Lawful(cfg.codec, d);
    LawsAreKept(cfg.codec);
    AfterCounts(cfg, Run(cfg, before), steps);
    RunIsSound(cfg, law, before);
    forall d | law(d) ensures |d.outstanding| <= 256 {
      IdsAreFew(cfg.codec, d);
    }
    CallReturns(cfg, law, Run(cfg, before), p, steps);
  }

  lemma OneStepLater(cfg: Config, m: Machine, p: ThreadId, steps: seq<Step>)
    requires steps != [] && Returned(cfg, Next(cfg, m, steps[0]), p, steps[1..])
    ensures Returned(cfg, m, p, steps)
  {
    var after := Next(cfg, m, steps[0]);
    var k :| 0 <= k <= |steps| - 1 && p !in After(cfg, after, steps[1..][..k]).threads;
    assert steps[..k + 1][1..] == steps[1..][..k];
    assert After(cfg, m, steps[..k + 1]) == After(cfg, after, steps[1..][..k]);
  }

  lemma NotRunning(cfg: Config, m: Machine, p: ThreadId, steps: seq<Step>)
    requires p !in m.threads
    ensures Returned(cfg, m, p, steps)
  {
    assert After(cfg, m, steps[..0]) == m;
  }

  lemma StepGetsOn(cfg: Config, law: Dialogue -> bool, m: Machine, p: ThreadId, step: Step)
    requires MachineSound(law, m) && HoldsOfNew(law) && KeptByWork(cfg.codec, law) && WithinIds(law) && p in m.threads
    requires Next(cfg, m, step).core.book.counter < TwoTo31
    ensures var after := Next(cfg, m, step);
            p in after.threads ==>
              Bound(after.core, after.threads[p]) + (if step.Go? && step.thread == p then 1 else 0) <= Bound(m.core, m.threads[p])
  {
    if step.Go? && step.thread == p {
      OwnStepGetsOn(cfg, law, m, p, step);
    } else {
      OthersMayAct(cfg, law, m, step, p);
    }
  }

  lemma RankIsWithin(law: Dialogue -> bool, c: Core, pc: Pc)
    requires CoreSound(law, c) && WithinIds(law)
    ensures Rank(c, pc) <= Bound(c, pc)
  {
    if pc.TakeDue? && pc.wanted in c.store {
      assert Sane(law, pc.wanted, c.store[pc.wanted].dialogue);
    }
  }

  lemma OwnStepGetsOn(cfg: Config, law: Dialogue -> bool, m: Machine, p: ThreadId, step: Step)
    requires MachineSound(law, m) && WithinIds(law) && p in m.threads && step.Go? && step.thread == p
    ensures var after := Next(cfg, m, step); p in after.threads ==> Bound(after.core, after.threads[p]) < Bound(m.core, m.threads[p])
  {
    AlwaysAble(law, m, p);
    RankIsWithin(law, m.core, m.threads[p]);
    var o := Advance(cfg, m.core, m.threads[p], step.cmds, step.now);
    CallGetsOn(cfg, m.core, m.threads[p], step.cmds, step.now);
    NeverWaitsAgain(cfg, m.core, m.threads[p], step.cmds, step.now);
    assert Next(cfg, m, step) == Machine(o.core, Moved(m.threads, p, o.next));
  }

  // ── Every dialogue ─────────────────────────────────────────────────────────

  lemma LawsAreKept(codec: Codec)
    ensures HoldsOfNew(d => Lawful(codec, d)) && KeptByWork(codec, d => Lawful(codec, d))
  {
    forall role, tid, peer, ac, idle | role == Initiator ==> peer == NoTid ensures Lawful(codec, New(role, tid, peer, ac, idle)) {
      NewIsLawful(codec, role, tid, peer, ac, idle);
    }
    forall d, work | Lawful(codec, d) ensures Lawful(codec, Done(codec, d, work)) {
      DoneIsLawful(codec, d, work);
    }
  }

  /** In every run every dialogue, in the store or in hand, obeys its laws, and those in the store are open. */
  lemma EveryDialogueIsLawful(cfg: Config, steps: seq<Step>, tid: Tid)
    requires Run(cfg, steps).core.book.counter < TwoTo31
    ensures tid in Run(cfg, steps).core.hands ==> Lawful(cfg.codec, Run(cfg, steps).core.hands[tid])
    ensures tid in Run(cfg, steps).core.store ==>
              Lawful(cfg.codec, Run(cfg, steps).core.store[tid].dialogue) && Run(cfg, steps).core.store[tid].dialogue.closed.None?
  {
    var law := (d: Dialogue) => Lawful(cfg.codec, d);
    LawsAreKept(cfg.codec);
    RunIsSound(cfg, law, steps);
    var c := Run(cfg, steps).core;
    assert tid in c.hands ==> Sane(law, tid, c.hands[tid]);
    assert tid in c.store ==> Sane(law, tid, c.store[tid].dialogue);
  }

  /** The dialogue is what becomes of a new one by some work in some order. */
  ghost predicate HasLived(codec: Codec, d: Dialogue) {
    exists role, tid, peer, ac, idle, works ::
      (role == Initiator ==> peer == NoTid) && d == Lived(codec, New(role, tid, peer, ac, idle), works)
  }

  lemma LivesAreKept(codec: Codec)
    ensures HoldsOfNew(d => HasLived(codec, d)) && KeptByWork(codec, d => HasLived(codec, d))
  {
    forall role, tid, peer, ac, idle | role == Initiator ==> peer == NoTid ensures HasLived(codec, New(role, tid, peer, ac, idle)) {
      assert New(role, tid, peer, ac, idle) == Lived(codec, New(role, tid, peer, ac, idle), []);
    }
    forall d, work | HasLived(codec, d) ensures HasLived(codec, Done(codec, d, work)) {
      LivesOn(codec, d, work);
    }
  }

  lemma LivesOn(codec: Codec, d: Dialogue, work: Work)
    requires HasLived(codec, d)
    ensures HasLived(codec, Done(codec, d, work))
  {
    var role, tid, peer, ac, idle, works :|
      (role == Initiator ==> peer == NoTid) && d == Lived(codec, New(role, tid, peer, ac, idle), works);
    assert (works + [work])[..|works|] == works;
    assert Done(codec, d, work) == Lived(codec, New(role, tid, peer, ac, idle), works + [work]);
  }

  /** So in every run what is proved of the life of a dialogue holds of every dialogue there is. */
  lemma EveryDialogueHasLived(cfg: Config, steps: seq<Step>, tid: Tid)
    requires Run(cfg, steps).core.book.counter < TwoTo31
    ensures tid in Run(cfg, steps).core.hands ==> HasLived(cfg.codec, Run(cfg, steps).core.hands[tid])
    ensures tid in Run(cfg, steps).core.store ==> HasLived(cfg.codec, Run(cfg, steps).core.store[tid].dialogue)
  {
    var law := (d: Dialogue) => HasLived(cfg.codec, d);
    LivesAreKept(cfg.codec);
    RunIsSound(cfg, law, steps);
    var c := Run(cfg, steps).core;
    assert tid in c.hands ==> Sane(law, tid, c.hands[tid]);
    assert tid in c.store ==> Sane(law, tid, c.store[tid].dialogue);
  }
}
