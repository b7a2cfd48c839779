/** The steps of the engine's calls, and what holds in every interleaving of them. */
module Programs {
  import opened Options
  import opened InvokeIds
  import opened Tcap
  import opened DialogueLaws
  import opened DialogueRuns
  import opened Lives
  import opened Termination
  import opened Bookkeeping
  import opened Engine
  import opened Calls

  // ── One step of a call ─────────────────────────────────────────────────────

  /** What a step leads to: what is shared then, and where the call is, unless it has returned. */
  datatype Outcome = Outcome(core: Core, next: Option<Pc>)

  /** Is there room, and can the dialogue portion be accepted? */
  function AdmitStep(cfg: Config, c: Core, pc: Pc): Outcome
    requires pc.Admit?
  {
    Outcome(c, if |c.store| >= cfg.limit || !Acceptable(pc.b.offer) then None else Some(OpenResponder(pc.b, pc.handled)))
  }

  function OpenStep(cfg: Config, c: Core, pc: Pc): Outcome
    requires pc.OpenResponder? || pc.OpenInitiator?
  {
    var tid := TidOf(c.book.counter + 1);
    if pc.OpenResponder?
    then Outcome(MakeIn(c, New(Responder, tid, pc.b.otid, ContextOf(pc.b.offer), cfg.idle)), Some(TakeInBegin(tid, pc.b, pc.handled)))
    else Outcome(MakeIn(c, New(Initiator, tid, NoTid, pc.ac, cfg.idle)), Some(GiveStart(tid)))
  }

  /** What is done with the components of a message. */
  function Intake(comps: seq<Component>, damaged: Option<(Rejection, bool)>, isEnd: bool): seq<Work> {
    [Receiving(comps, isEnd)] + (if damaged.Some? then [StagingRejected(damaged.value.0, damaged.value.1, isEnd)] else [])
  }

  /** What the handler is shown of them. */
  function Views(d: Dialogue, comps: seq<Component>, damaged: Option<(Rejection, bool)>, isEnd: bool): seq<Seen> {
    SeenOf(BooksOf(d), comps, |comps|, isEnd) + (if damaged.Some? then [LocalReject(damaged.value.0)] else [])
  }

  function OthersOf(seen: seq<Seen>, first: nat): seq<Seen>
    requires first < |seen|
  {
    seen[..first] + seen[first + 1..]
  }

  /** A Begin that no handler serves is answered by the engine, and its dialogue dropped; any other goes to its handler. */
  function TakeInBeginStep(cfg: Config, c: Core, pc: Pc): Outcome
    requires pc.TakeInBegin? && pc.tid in c.hands
  {
    var d := c.hands[pc.tid];
    var seen := TakeIn(d, pc.b).1;
    var first := FirstInvoke(seen, 0);
    if first.None? || !pc.handled then Outcome(DropIn(c, pc.tid), None)
    else
      var works := Intake(pc.b.comps, pc.b.damaged, false) + [Replying(seen[first.value].id)];
      Outcome(WorkIn(c, pc.tid, Lived(cfg.codec, d, works)), Some(GiveBegin(pc.tid, seen[first.value], OthersOf(seen, first.value))))
  }

  /** The handler's first turn left the dialogue as `acted`. */
  function GiveStep(c: Core, pc: Pc, acted: Dialogue, now: int): Outcome
    requires pc.GiveBegin? || pc.GiveStart?
  {
    if pc.GiveBegin? then Outcome(GiveIn(c, pc.tid, OnBegin(pc.first, pc.further), acted), Some(Finish(pc.tid, OfBegin, now)))
    else Outcome(GiveIn(c, pc.tid, OnStart, acted), Some(Finish(pc.tid, OfStart, now)))
  }

  /** The dialogue is taken out of the store, if it is there. */
  function TakeStep(c: Core, pc: Pc): Outcome
    requires pc.TakeTurn? || pc.TakeToClose?
    requires pc.wanted in c.store ==> pc.wanted in c.book.entries
  {
    if pc.wanted !in c.store then Outcome(c, None)
    else
      Outcome(TakeOut(c, pc.wanted),
              Some(if pc.TakeTurn? then TakeInTurn(pc.wanted, pc.otid, pc.comps, pc.damaged, pc.isEnd) else CloseNow(pc.wanted, pc.reason)))
  }

  function TakeInTurnStep(cfg: Config, c: Core, pc: Pc): Outcome
    requires pc.TakeInTurn? && pc.tid in c.hands
  {
    var works := (if pc.otid.Some? then [Learning(pc.otid.value)] else []) + Intake(pc.comps, pc.damaged, pc.isEnd) +
                 (if pc.isEnd then [PeerEnding] else []);
    var seen := Views(c.hands[pc.tid], pc.comps, pc.damaged, pc.isEnd);
    Outcome(WorkIn(c, pc.tid, Lived(cfg.codec, c.hands[pc.tid], works)), Some(CallContinue(pc.tid, seen, pc.isEnd)))
  }

  /** A further turn of the handler; after an End of the peer there is only the report of it. */
  function ContinueStep(c: Core, pc: Pc, acted: Dialogue, now: int): Outcome
    requires pc.CallContinue? && pc.tid in c.book.entries
  {
    Outcome(CallIn(c, pc.tid, OnContinue(pc.seen, pc.isEnd), acted),
            Some(if pc.isEnd then CloseNow(pc.tid, PeerEnded) else Finish(pc.tid, OfContinue, now)))
  }

  function CloseStep(c: Core, pc: Pc): Outcome
    requires pc.CloseNow? && pc.tid in c.book.entries
  {
    Outcome(CloseIn(c, pc.tid, pc.reason), None)
  }

  /** A dialogue whose timers are no longer due is left alone. */
  function TakeDueStep(c: Core, pc: Pc): Outcome
    requires pc.TakeDue? && (pc.wanted in c.store ==> pc.wanted in c.book.entries)
  {
    if pc.wanted !in c.store then Outcome(c, None)
    else
      var r := c.store[pc.wanted];
      if !TimersDue(r, pc.at) then Outcome(c.(store := Unclaimed(c.store, pc.wanted)), None)
      else Outcome(TakeOut(c, pc.wanted), Some(ExpireInvokes(pc.wanted, pc.at, IdleDue(r, pc.at), r.lastActivity)))
  }

  function ClaimStep(c: Core, pc: Pc): Outcome
    requires pc.ClaimDue? || pc.GiveBack?
  {
    Outcome(c.(store := if pc.ClaimDue? then Claimed(c.store, pc.at) else Unclaimed(c.store, pc.wanted)), None)
  }

  function ExpireStep(cfg: Config, c: Core, pc: Pc): Outcome
    requires pc.ExpireInvokes? && pc.tid in c.hands
  {
    var d := c.hands[pc.tid];
    Outcome(WorkIn(c, pc.tid, Done(cfg.codec, d, Expiring(pc.at))),
            Some(CallTimeout(pc.tid, Split(d.outstanding, pc.at).0, pc.idle, pc.last)))
  }

  /** What a handler is told of an invoke that timed out. */
  function TimeoutOf(o: Operation): Callback { OnInvokeTimeout(o.id, o.op, o.kind) }

  /** The handler is told of each invoke that timed out, until it closes the dialogue; a class 4 one only returns to idle. */
  function TimeoutStep(c: Core, pc: Pc, acted: Dialogue): Outcome
    requires pc.CallTimeout? && pc.tid in c.hands && pc.tid in c.book.entries
  {
    if pc.expired == [] || c.hands[pc.tid].closed.Some? then Outcome(c, Some(AbortIdle(pc.tid, pc.idle, pc.last)))
    else
      var o, rest := pc.expired[0], CallTimeout(pc.tid, pc.expired[1..], pc.idle, pc.last);
      if o.kind.Four? then Outcome(c, Some(rest))
      else Outcome(CallIn(c, pc.tid, TimeoutOf(o), Relabelled(acted, InvokeTimedOut(o.id, o.op))), Some(rest))
  }

  function IdleStep(cfg: Config, c: Core, pc: Pc): Outcome
    requires pc.AbortIdle? && pc.tid in c.hands
  {
    var d := c.hands[pc.tid];
    Outcome(if pc.idle then WorkIn(c, pc.tid, Done(cfg.codec, d, Aborting(IdleTimedOut))) else c, Some(Finish(pc.tid, OfTimer, pc.last)))
  }

  /** A Begin that its handler left unanswered is answered with an abort. */
  function Answering(d: Dialogue, turn: Turn): seq<Work> {
    if turn.OfBegin? && d.closed.None? && d.out == [] then [Aborting(NoAnswer)] else []
  }

  /** The handler of a dialogue that is closed, or that it never began, is told; any other dialogue is stored. */
  function FinishStep(cfg: Config, c: Core, pc: Pc, now: int): Outcome
    requires pc.Finish? && pc.tid in c.hands && pc.tid in c.book.entries
  {
    var d := Lived(cfg.codec, c.hands[pc.tid], Answering(c.hands[pc.tid], pc.turn));
    if d.closed.Some? then Outcome(CloseIn(c, pc.tid, d.closed.value), None)
    else if pc.turn.OfStart? && d.out == [] then Outcome(CloseIn(c, pc.tid, NotSent), None)
    else
      // A timer turn counts as activity only if something was sent.
      Outcome(KeepIn(c, pc.tid, Done(cfg.codec, d, Draining), if pc.turn.OfTimer? && d.out == [] then pc.last else now), None)
  }

  /** The call has what its next step needs. */
  ghost predicate Fit(c: Core, pc: Pc) {
    && (Holds(pc) ==> At(c.book, pc.tid, PlaceFor(pc)) && pc.tid in c.hands)
    && (pc.TakeTurn? || pc.TakeToClose? || pc.TakeDue? ==> (pc.wanted in c.store ==> pc.wanted in c.book.entries))
  }

  /** A call without a dialogue looks for one, makes one, or only claims. */
  function OutsideStep(cfg: Config, c: Core, pc: Pc): Outcome
    requires !Holds(pc)
    requires pc.TakeTurn? || pc.TakeToClose? || pc.TakeDue? ==> (pc.wanted in c.store ==> pc.wanted in c.book.entries)
  {
    if pc.Admit? then AdmitStep(cfg, c, pc)
    else if pc.OpenResponder? || pc.OpenInitiator? then OpenStep(cfg, c, pc)
    else if pc.TakeTurn? || pc.TakeToClose? then TakeStep(c, pc)
    else if pc.TakeDue? then TakeDueStep(c, pc)
    else ClaimStep(c, pc)
  }

  /** The handler has its turn. */
  predicate CallsHandler(pc: Pc) { pc.GiveBegin? || pc.GiveStart? || pc.CallContinue? || pc.CallTimeout? }

  function HandlerStep(c: Core, pc: Pc, acted: Dialogue, now: int): Outcome
    requires CallsHandler(pc) && pc.tid in c.book.entries && pc.tid in c.hands
  {
    if pc.CallContinue? then ContinueStep(c, pc, acted, now)
    else if pc.CallTimeout? then TimeoutStep(c, pc, acted)
    else GiveStep(c, pc, acted, now)
  }

  /** The engine works on the dialogue in hand itself. */
  predicate WorksItself(pc: Pc) { pc.TakeInBegin? || pc.TakeInTurn? || pc.ExpireInvokes? || pc.AbortIdle? }

  function OwnStep(cfg: Config, c: Core, pc: Pc): Outcome
    requires WorksItself(pc) && pc.tid in c.hands
  {
    if pc.TakeInBegin? then TakeInBeginStep(cfg, c, pc)
    else if pc.TakeInTurn? then TakeInTurnStep(cfg, c, pc)
    else if pc.ExpireInvokes? then ExpireStep(cfg, c, pc)
    else IdleStep(cfg, c, pc)
  }

  /** The last step of a call with a dialogue. */
  function LastStep(cfg: Config, c: Core, pc: Pc, now: int): Outcome
    requires (pc.Finish? || pc.CloseNow?) && pc.tid in c.book.entries && pc.tid in c.hands
  {
    if pc.Finish? then FinishStep(cfg, c, pc, now) else CloseStep(c, pc)
  }

  /** One step of a call; `cmds` is what the handler does if it is called. */
  function Advance(cfg: Config, c: Core, pc: Pc, cmds: seq<Command>, now: int): Outcome
    requires (Holds(pc) ==> pc.tid in c.book.entries && pc.tid in c.hands)
    requires pc.TakeTurn? || pc.TakeToClose? || pc.TakeDue? ==> (pc.wanted in c.store ==> pc.wanted in c.book.entries)
  {
    if !Holds(pc) then OutsideStep(cfg, c, pc)
    else if CallsHandler(pc) then HandlerStep(c, pc, Done(cfg.codec, c.hands[pc.tid], Acting(cmds, now)), now)
    else if WorksItself(pc) then OwnStep(cfg, c, pc)
    else LastStep(cfg, c, pc, now)
  }

  // ── Dialogues in hand stay what they should be ─────────────────────────────

  lemma {:induction false} LivedIsSane(codec: Codec, law: Dialogue -> bool, tid: Tid, d: Dialogue, works: seq<Work>)
    requires KeptByWork(codec, law) && Sane(law, tid, d)
    ensures Sane(law, tid, Lived(codec, d, works))
    decreases |works|
  {
    if works != [] {
      LivedIsSane(codec, law, tid, d, works[..|works| - 1]);
      DoneIsSane(codec, law, tid, Lived(codec, d, works[..|works| - 1]), works[|works| - 1]);
    }
  }

  lemma DoneIsSane(codec: Codec, law: Dialogue -> bool, tid: Tid, d: Dialogue, work: Work)
    requires KeptByWork(codec, law) && Sane(law, tid, d)
    ensures Sane(law, tid, Done(codec, d, work))
  {
    DoneKeepsTid(codec, d, work);
  }

  lemma InHandIsSane(law: Dialogue -> bool, c: Core, tid: Tid)
    requires CoreSound(law, c) && tid in c.hands
    ensures Sane(law, tid, c.hands[tid]) && tid in c.book.entries && InHand(c.book.entries[tid].place)
  {}

  // ── What each step does to the book ────────────────────────────────────────

  /**
   A step of a call leaves the entries of all dialogues but one alone: that of the
   dialogue it has in hand, or of the one it gets. It goes on with a dialogue that
   is where its next step needs it, or returns with none.
   */
  ghost predicate StepOk(before: Book, after: Book, pc: Pc, next: Option<Pc>) {
    if Holds(pc) then
      && OnlyAt(before.entries, after.entries, pc.tid)
      && if next.Some? then Holds(next.value) && next.value.tid == pc.tid && At(after, pc.tid, PlaceFor(next.value))
         else pc.tid in after.entries ==> !InHand(after.entries[pc.tid].place)
    else if next.Some? && Holds(next.value) then
      && (next.value.tid in before.entries ==> before.entries[next.value.tid].place.Stored?)
      && OnlyAt(before.entries, after.entries, next.value.tid) && At(after, next.value.tid, PlaceFor(next.value))
    else after.entries == before.entries
  }

  /** What every step of every call keeps. */
  ghost predicate Advanced(law: Dialogue -> bool, c: Core, pc: Pc, o: Outcome) {
    CoreSound(law, o.core) && StepOk(c.book, o.core.book, pc, o.next) && HandsOk(c.hands, o.core.hands, pc, o.next)
  }

  /** A step changes no dialogue in hand but the one of its call. */
  ghost predicate HandsOk(before: map<Tid, Dialogue>, after: map<Tid, Dialogue>, pc: Pc, next: Option<Pc>) {
    if Holds(pc) then OnlyHand(before, after, pc.tid)
    else if next.Some? && Holds(next.value) then OnlyHand(before, after, next.value.tid)
    else after == before
  }

  /** The call goes on with the dialogue it has. */
  lemma GoesOn(law: Dialogue -> bool, c: Core, pc: Pc, core: Core, next: Pc)
    requires Holds(pc) && Holds(next) && next.tid == pc.tid && CoreSound(law, core)
    requires OnlyAt(c.book.entries, core.book.entries, pc.tid) && At(core.book, pc.tid, PlaceFor(next)) && OnlyHand(c.hands, core.hands, pc.tid)
    ensures Advanced(law, c, pc, Outcome(core, Some(next)))
  {}

  /** The call returns, with no dialogue. */
  lemma Returns(law: Dialogue -> bool, c: Core, pc: Pc, core: Core)
    requires CoreSound(law, core)
    requires Holds(pc) ==> OnlyAt(c.book.entries, core.book.entries, pc.tid) && (pc.tid in core.book.entries ==> !InHand(core.book.entries[pc.tid].place))
    requires Holds(pc) ==> OnlyHand(c.hands, core.hands, pc.tid)
    requires !Holds(pc) ==> core.book.entries == c.book.entries && core.hands == c.hands
    ensures Advanced(law, c, pc, Outcome(core, None))
  {}

  /** The call gets a dialogue that nobody had. */
  lemma Gets(law: Dialogue -> bool, c: Core, pc: Pc, core: Core, next: Pc)
    requires !Holds(pc) && Holds(next) && CoreSound(law, core) && (next.tid in c.book.entries ==> c.book.entries[next.tid].place.Stored?)
    requires OnlyAt(c.book.entries, core.book.entries, next.tid) && At(core.book, next.tid, PlaceFor(next)) && OnlyHand(c.hands, core.hands, next.tid)
    ensures Advanced(law, c, pc, Outcome(core, Some(next)))
  {}

  lemma OpenIsOk(cfg: Config, law: Dialogue -> bool, c: Core, pc: Pc)
    requires CoreSound(law, c) && HoldsOfNew(law) && (pc.OpenResponder? || pc.OpenInitiator?) && c.book.counter + 1 < TwoTo31
    ensures Advanced(law, c, pc, OpenStep(cfg, c, pc))
  {
    var tid := TidOf(c.book.counter + 1);
    var d := if pc.OpenResponder? then New(Responder, tid, pc.b.otid, ContextOf(pc.b.offer), cfg.idle) else New(Initiator, tid, NoTid, pc.ac, cfg.idle);
    var next := if pc.OpenResponder? then TakeInBegin(tid, pc.b, pc.handled) else GiveStart(tid);
    assert Sane(law, tid, d);
    MakeInIsSound(law, c, d);
    Gets(law, c, pc, MakeIn(c, d), next);
    assert OpenStep(cfg, c, pc) == Outcome(MakeIn(c, d), Some(next));
  }

  /** Work on the dialogue in hand. */
  lemma WorkIsOk(cfg: Config, law: Dialogue -> bool, c: Core, pc: Pc, works: seq<Work>, next: Pc)
    requires CoreSound(law, c) && KeptByWork(cfg.codec, law) && Holds(pc) && Fit(c, pc)
    requires Holds(next) && next.tid == pc.tid && PlaceFor(next) == PlaceFor(pc)
    ensures Advanced(law, c, pc, Outcome(WorkIn(c, pc.tid, Lived(cfg.codec, c.hands[pc.tid], works)), Some(next)))
  {
    var d := Lived(cfg.codec, c.hands[pc.tid], works);
    InHandIsSane(law, c, pc.tid);
    LivedIsSane(cfg.codec, law, pc.tid, c.hands[pc.tid], works);
    WorkInIsSound(law, c, pc.tid, d);
    GoesOn(law, c, pc, WorkIn(c, pc.tid, d), next);
  }

  lemma {:induction false} OneWork(codec: Codec, d: Dialogue, work: Work)
    ensures Lived(codec, d, [work]) == Done(codec, d, work)
  {
    assert [work][..0] == [];
    assert Lived(codec, d, []) == d;
  }

  lemma TakeInBeginIsOk(cfg: Config, law: Dialogue -> bool, c: Core, pc: Pc)
    requires CoreSound(law, c) && KeptByWork(cfg.codec, law) && pc.TakeInBegin? && Fit(c, pc)
    ensures Advanced(law, c, pc, TakeInBeginStep(cfg, c, pc))
  {
    var d := c.hands[pc.tid];
    InHandIsSane(law, c, pc.tid);
    var seen := TakeIn(d, pc.b).1;
    var first := FirstInvoke(seen, 0);
    if first.None? || !pc.handled {
      DropInIsSound(law, c, pc.tid);
      Returns(law, c, pc, DropIn(c, pc.tid));
      assert TakeInBeginStep(cfg, c, pc) == Outcome(DropIn(c, pc.tid), None);
    } else {
      var works := Intake(pc.b.comps, pc.b.damaged, false) + [Replying(seen[first.value].id)];
      var next := GiveBegin(pc.tid, seen[first.value], OthersOf(seen, first.value));
      WorkIsOk(cfg, law, c, pc, works, next);
      assert TakeInBeginStep(cfg, c, pc) == Outcome(WorkIn(c, pc.tid, Lived(cfg.codec, d, works)), Some(next));
    }
  }

  lemma GiveIsOk(law: Dialogue -> bool, c: Core, pc: Pc, acted: Dialogue, now: int)
    requires CoreSound(law, c) && (pc.GiveBegin? || pc.GiveStart?) && Fit(c, pc) && Sane(law, pc.tid, acted)
    ensures Advanced(law, c, pc, GiveStep(c, pc, acted, now))
  {
    var first, turn := if pc.GiveBegin? then OnBegin(pc.first, pc.further) else OnStart, if pc.GiveBegin? then OfBegin else OfStart;
    GiveInIsSound(law, c, pc.tid, first, acted);
    GoesOn(law, c, pc, GiveIn(c, pc.tid, first, acted), Finish(pc.tid, turn, now));
  }

  /** The call takes a dialogue out of the store. */
  lemma TakenIsOk(law: Dialogue -> bool, c: Core, pc: Pc, tid: Tid, next: Pc)
    requires CoreSound(law, c) && !Holds(pc) && tid in c.store && Holds(next) && next.tid == tid && PlaceFor(next) == Flying
    ensures tid in c.book.entries && Advanced(law, c, pc, Outcome(TakeOut(c, tid), Some(next)))
  {
    TakeOutIsSound(law, c, tid);
    Gets(law, c, pc, TakeOut(c, tid), next);
  }

  lemma TakeIsOk(law: Dialogue -> bool, c: Core, pc: Pc)
    requires CoreSound(law, c) && (pc.TakeTurn? || pc.TakeToClose?) && Fit(c, pc)
    ensures Advanced(law, c, pc, TakeStep(c, pc))
  {
    if pc.wanted !in c.store {
      Returns(law, c, pc, c);
      assert TakeStep(c, pc) == Outcome(c, None);
    } else if pc.TakeTurn? {
      TakenIsOk(law, c, pc, pc.wanted, TakeInTurn(pc.wanted, pc.otid, pc.comps, pc.damaged, pc.isEnd));
    } else {
      TakenIsOk(law, c, pc, pc.wanted, CloseNow(pc.wanted, pc.reason));
    }
  }

  lemma TakeInTurnIsOk(cfg: Config, law: Dialogue -> bool, c: Core, pc: Pc)
    requires CoreSound(law, c) && KeptByWork(cfg.codec, law) && pc.TakeInTurn? && Fit(c, pc)
    ensures Advanced(law, c, pc, TakeInTurnStep(cfg, c, pc))
  {
    var works := (if pc.otid.Some? then [Learning(pc.otid.value)] else []) + Intake(pc.comps, pc.damaged, pc.isEnd) +
                 (if pc.isEnd then [PeerEnding] else []);
    var next := CallContinue(pc.tid, Views(c.hands[pc.tid], pc.comps, pc.damaged, pc.isEnd), pc.isEnd);
    WorkIsOk(cfg, law, c, pc, works, next);
    assert TakeInTurnStep(cfg, c, pc) == Outcome(WorkIn(c, pc.tid, Lived(cfg.codec, c.hands[pc.tid], works)), Some(next));
  }

  lemma ContinueIsOk(law: Dialogue -> bool, c: Core, pc: Pc, acted: Dialogue, now: int)
    requires CoreSound(law, c) && pc.CallContinue? && Fit(c, pc) && Sane(law, pc.tid, acted)
    ensures Advanced(law, c, pc, ContinueStep(c, pc, acted, now))
  {
    var callback := OnContinue(pc.seen, pc.isEnd);
    CallInIsSound(law, c, pc.tid, callback, acted);
    GoesOn(law, c, pc, CallIn(c, pc.tid, callback, acted), if pc.isEnd then CloseNow(pc.tid, PeerEnded) else Finish(pc.tid, OfContinue, now));
  }

  lemma CloseIsOk(law: Dialogue -> bool, c: Core, pc: Pc)
    requires CoreSound(law, c) && pc.CloseNow? && Fit(c, pc)
    ensures Advanced(law, c, pc, CloseStep(c, pc))
  {
    CloseInIsSound(law, c, pc.tid, pc.reason);
    Returns(law, c, pc, CloseIn(c, pc.tid, pc.reason));
    assert CloseStep(c, pc) == Outcome(CloseIn(c, pc.tid, pc.reason), None);
  }

  lemma UnclaimIsOk(law: Dialogue -> bool, c: Core, pc: Pc, tid: Tid)
    requires CoreSound(law, c) && !Holds(pc)
    ensures Advanced(law, c, pc, Outcome(c.(store := Unclaimed(c.store, tid)), None))
  {
    SameStore(law, c.book.entries, c.store, c.hands, Unclaimed(c.store, tid));
    Returns(law, c, pc, c.(store := Unclaimed(c.store, tid)));
  }

  lemma TakeDueIsOk(law: Dialogue -> bool, c: Core, pc: Pc)
    requires CoreSound(law, c) && pc.TakeDue? && Fit(c, pc)
    ensures Advanced(law, c, pc, TakeDueStep(c, pc))
  {
    if pc.wanted !in c.store {
      Returns(law, c, pc, c);
      assert TakeDueStep(c, pc) == Outcome(c, None);
    } else if !TimersDue(c.store[pc.wanted], pc.at) {
      UnclaimIsOk(law, c, pc, pc.wanted);
      assert TakeDueStep(c, pc) == Outcome(c.(store := Unclaimed(c.store, pc.wanted)), None);
    } else {
      var r := c.store[pc.wanted];
      TakenIsOk(law, c, pc, pc.wanted, ExpireInvokes(pc.wanted, pc.at, IdleDue(r, pc.at), r.lastActivity));
    }
  }

  lemma ClaimIsOk(law: Dialogue -> bool, c: Core, pc: Pc)
    requires CoreSound(law, c) && (pc.ClaimDue? || pc.GiveBack?)
    ensures Advanced(law, c, pc, ClaimStep(c, pc))
  {
    if pc.ClaimDue? {
      SameStore(law, c.book.entries, c.store, c.hands, Claimed(c.store, pc.at));
      Returns(law, c, pc, c.(store := Claimed(c.store, pc.at)));
      assert ClaimStep(c, pc) == Outcome(c.(store := Claimed(c.store, pc.at)), None);
    } else {
      UnclaimIsOk(law, c, pc, pc.wanted);
      assert ClaimStep(c, pc) == Outcome(c.(store := Unclaimed(c.store, pc.wanted)), None);
    }
  }

  lemma ExpireIsOk(cfg: Config, law: Dialogue -> bool, c: Core, pc: Pc)
    requires CoreSound(law, c) && KeptByWork(cfg.codec, law) && pc.ExpireInvokes? && Fit(c, pc)
    ensures Advanced(law, c, pc, ExpireStep(cfg, c, pc))
  {
    var d := c.hands[pc.tid];
    var next := CallTimeout(pc.tid, Split(d.outstanding, pc.at).0, pc.idle, pc.last);
    OneWork(cfg.codec, d, Expiring(pc.at));
    WorkIsOk(cfg, law, c, pc, [Expiring(pc.at)], next);
    assert ExpireStep(cfg, c, pc) == Outcome(WorkIn(c, pc.tid, Done(cfg.codec, d, Expiring(pc.at))), Some(next));
  }

  lemma TimeoutIsOk(cfg: Config, law: Dialogue -> bool, c: Core, pc: Pc, acted: Dialogue)
    requires CoreSound(law, c) && KeptByWork(cfg.codec, law) && pc.CallTimeout? && Fit(c, pc) && Sane(law, pc.tid, acted)
    ensures Advanced(law, c, pc, TimeoutStep(c, pc, acted))
  {
    if pc.expired == [] || c.hands[pc.tid].closed.Some? {
      GoesOn(law, c, pc, c, AbortIdle(pc.tid, pc.idle, pc.last));
    } else {
      var o, rest := pc.expired[0], CallTimeout(pc.tid, pc.expired[1..], pc.idle, pc.last);
      if o.kind.Four? {
        GoesOn(law, c, pc, c, rest);
      } else {
        var after := Relabelled(acted, InvokeTimedOut(o.id, o.op));
        RelabelledIsSane(cfg.codec, law, pc.tid, acted, InvokeTimedOut(o.id, o.op));
        CallInIsSound(law, c, pc.tid, TimeoutOf(o), after);
        GoesOn(law, c, pc, CallIn(c, pc.tid, TimeoutOf(o), after), rest);
      }
    }
  }

  lemma RelabelledIsSane(codec: Codec, law: Dialogue -> bool, tid: Tid, d: Dialogue, reason: CloseReason)
    requires KeptByWork(codec, law) && Sane(law, tid, d)
    ensures Sane(law, tid, Relabelled(d, reason))
  {
    DoneIsSane(codec, law, tid, d, Relabelling(reason));
  }

  lemma IdleIsOk(cfg: Config, law: Dialogue -> bool, c: Core, pc: Pc)
    requires CoreSound(law, c) && KeptByWork(cfg.codec, law) && pc.AbortIdle? && Fit(c, pc)
    ensures Advanced(law, c, pc, IdleStep(cfg, c, pc))
  {
    var d, next := c.hands[pc.tid], Finish(pc.tid, OfTimer, pc.last);
    if pc.idle {
      OneWork(cfg.codec, d, Aborting(IdleTimedOut));
      WorkIsOk(cfg, law, c, pc, [Aborting(IdleTimedOut)], next);
      assert IdleStep(cfg, c, pc) == Outcome(WorkIn(c, pc.tid, Done(cfg.codec, d, Aborting(IdleTimedOut))), Some(next));
    } else {
      GoesOn(law, c, pc, c, next);
      assert IdleStep(cfg, c, pc) == Outcome(c, Some(next));
    }
  }

  lemma FinishIsOk(cfg: Config, law: Dialogue -> bool, c: Core, pc: Pc, now: int)
    requires CoreSound(law, c) && KeptByWork(cfg.codec, law) && pc.Finish? && Fit(c, pc)
    ensures Advanced(law, c, pc, FinishStep(cfg, c, pc, now))
  {
    InHandIsSane(law, c, pc.tid);
    var d := Lived(cfg.codec, c.hands[pc.tid], Answering(c.hands[pc.tid], pc.turn));
    LivedIsSane(cfg.codec, law, pc.tid, c.hands[pc.tid], Answering(c.hands[pc.tid], pc.turn));
    if d.closed.Some? || (pc.turn.OfStart? && d.out == []) {
      var reason := if d.closed.Some? then d.closed.value else NotSent;
      CloseInIsSound(law, c, pc.tid, reason);
      Returns(law, c, pc, CloseIn(c, pc.tid, reason));
      assert FinishStep(cfg, c, pc, now) == Outcome(CloseIn(c, pc.tid, reason), None);
    } else {
      DoneIsSane(cfg.codec, law, pc.tid, d, Draining);
      var at := if pc.turn.OfTimer? && d.out == [] then pc.last else now;
      KeepInIsSound(law, c, pc.tid, Done(cfg.codec, d, Draining), at);
      Returns(law, c, pc, KeepIn(c, pc.tid, Done(cfg.codec, d, Draining), at));
      assert FinishStep(cfg, c, pc, now) == Outcome(KeepIn(c, pc.tid, Done(cfg.codec, d, Draining), at), None);
    }
  }

  lemma OutsideStepIsOk(cfg: Config, law: Dialogue -> bool, c: Core, pc: Pc)
    requires CoreSound(law, c) && HoldsOfNew(law) && !Holds(pc) && Fit(c, pc) && OutsideStep(cfg, c, pc).core.book.counter < TwoTo31
    ensures Advanced(law, c, pc, OutsideStep(cfg, c, pc))
  {
    if pc.Admit? {
      assert OutsideStep(cfg, c, pc) == AdmitStep(cfg, c, pc);
    } else if pc.OpenResponder? || pc.OpenInitiator? {
      assert OutsideStep(cfg, c, pc) == OpenStep(cfg, c, pc);
      OpenIsOk(cfg, law, c, pc);
    } else if pc.TakeTurn? || pc.TakeToClose? {
      TakeIsOk(law, c, pc);
      assert OutsideStep(cfg, c, pc) == TakeStep(c, pc);
    } else if pc.TakeDue? {
      TakeDueIsOk(law, c, pc);
      assert OutsideStep(cfg, c, pc) == TakeDueStep(c, pc);
    } else {
      ClaimIsOk(law, c, pc);
      assert OutsideStep(cfg, c, pc) == ClaimStep(c, pc);
    }
  }

  lemma HandlerStepIsOk(cfg: Config, law: Dialogue -> bool, c: Core, pc: Pc, acted: Dialogue, now: int)
    requires CoreSound(law, c) && KeptByWork(cfg.codec, law) && CallsHandler(pc) && Fit(c, pc) && Sane(law, pc.tid, acted)
    ensures Advanced(law, c, pc, HandlerStep(c, pc, acted, now))
  {
    if pc.CallContinue? {
      ContinueIsOk(law, c, pc, acted, now);
    } else if pc.CallTimeout? {
      TimeoutIsOk(cfg, law, c, pc, acted);
    } else {
      GiveIsOk(law, c, pc, acted, now);
    }
  }

  lemma OwnStepIsOk(cfg: Config, law: Dialogue -> bool, c: Core, pc: Pc)
    requires CoreSound(law, c) && KeptByWork(cfg.codec, law) && WorksItself(pc) && Fit(c, pc)
    ensures Advanced(law, c, pc, OwnStep(cfg, c, pc))
  {
    if pc.TakeInBegin? {
      TakeInBeginIsOk(cfg, law, c, pc);
      assert OwnStep(cfg, c, pc) == TakeInBeginStep(cfg, c, pc);
    } else if pc.TakeInTurn? {
      TakeInTurnIsOk(cfg, law, c, pc);
      assert OwnStep(cfg, c, pc) == TakeInTurnStep(cfg, c, pc);
    } else if pc.ExpireInvokes? {
      ExpireIsOk(cfg, law, c, pc);
      assert OwnStep(cfg, c, pc) == ExpireStep(cfg, c, pc);
    } else {
      IdleIsOk(cfg, law, c, pc);
      assert OwnStep(cfg, c, pc) == IdleStep(cfg, c, pc);
    }
  }

  lemma LastStepIsOk(cfg: Config, law: Dialogue -> bool, c: Core, pc: Pc, now: int)
    requires CoreSound(law, c) && KeptByWork(cfg.codec, law) && (pc.Finish? || pc.CloseNow?) && Fit(c, pc)
    ensures Advanced(law, c, pc, LastStep(cfg, c, pc, now))
  {
    if pc.Finish? {
      FinishIsOk(cfg, law, c, pc, now);
      assert LastStep(cfg, c, pc, now) == FinishStep(cfg, c, pc, now);
    } else {
      CloseIsOk(law, c, pc);
      assert LastStep(cfg, c, pc, now) == CloseStep(c, pc);
    }
  }

  /** Every step of every call leaves what is shared sound, and touches no dialogue but its own. */
  lemma AdvanceIsOk(cfg: Config, law: Dialogue -> bool, c: Core, pc: Pc, cmds: seq<Command>, now: int)
    requires CoreSound(law, c) && HoldsOfNew(law) && KeptByWork(cfg.codec, law) && Fit(c, pc)
    requires Advance(cfg, c, pc, cmds, now).core.book.counter < TwoTo31
    ensures Advanced(law, c, pc, Advance(cfg, c, pc, cmds, now))
  {
    if !Holds(pc) {
      OutsideStepIsOk(cfg, law, c, pc);
      assert Advance(cfg, c, pc, cmds, now) == OutsideStep(cfg, c, pc);
    } else if CallsHandler(pc) {
      var acted := Done(cfg.codec, c.hands[pc.tid], Acting(cmds, now));
      InHandIsSane(law, c, pc.tid);
      DoneIsSane(cfg.codec, law, pc.tid, c.hands[pc.tid], Acting(cmds, now));
      HandlerStepIsOk(cfg, law, c, pc, acted, now);
      assert Advance(cfg, c, pc, cmds, now) == HandlerStep(c, pc, acted, now);
    } else if WorksItself(pc) {
      OwnStepIsOk(cfg, law, c, pc);
      assert Advance(cfg, c, pc, cmds, now) == OwnStep(cfg, c, pc);
    } else {
      LastStepIsOk(cfg, law, c, pc, now);
      assert Advance(cfg, c, pc, cmds, now) == LastStep(cfg, c, pc, now);
    }
  }
}
