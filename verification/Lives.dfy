/** The life of a dialogue: whatever is done to it, in any order, and what the handler is told of its invokes. */
module Lives {
  import opened Options
  import opened InvokeIds
  import opened Tcap
  import opened DialogueLaws
  import opened DialogueRuns

  datatype Work =
    | Learning(otid: Tid)
    | Replying(id: InvokeId)
    | Receiving(comps: seq<Component>, isEnd: bool)
    | StagingRejected(r: Rejection, answered: bool, isEnd: bool)
    | PeerEnding
    | Expiring(now: int)
    | Acting(cmds: seq<Command>, now: int)
    | Flushing(closing: bool, now: int)
    | Aborting(reason: CloseReason)
    | Relabelling(reason: CloseReason)
    | Draining

  function Done(codec: Codec, d: Dialogue, work: Work): Dialogue {
    match work
    case Learning(otid) => if d.role == Initiator && !d.begun then d else Learn(d, otid)
    case Replying(id) => d.(replyId := id)
    case Receiving(comps, isEnd) => if d.closed.Some? then d else ReceiveAll(d, comps, isEnd)
    case StagingRejected(r, answered, isEnd) => if d.closed.Some? then d else StageRejected(d, r, answered, isEnd)
    case PeerEnding => if d.closed.Some? then d else PeerEnd(d)
    case Expiring(now) => Expire(d, now)
    case Acting(cmds, now) => Replay(codec, d, cmds, now).0
    case Flushing(closing, now) => Flush(codec, d, closing, now).0
    case Aborting(reason) => AbortAs(codec, d, reason).0
    case Relabelling(reason) => Relabelled(d, reason)
    case Draining => Drained(d)
  }

  /** An abort of the handler's is reported as what led to it. */
  function Relabelled(d: Dialogue, reason: CloseReason): Dialogue {
    if d.closed == Some(Aborted) then d.(closed := Some(reason)) else d
  }

  /** What was said goes out. */
  function Drained(d: Dialogue): Dialogue { d.(out := [], sendError := None) }

  // ── The laws ───────────────────────────────────────────────────────────────

  lemma RelabelIsLawful(codec: Codec, d: Dialogue, reason: CloseReason)
    requires Lawful(codec, d)
    ensures Lawful(codec, Relabelled(d, reason))
  {}

  lemma ReplyingIsLawful(codec: Codec, d: Dialogue, id: InvokeId)
    requires Lawful(codec, d)
    ensures Lawful(codec, d.(replyId := id))
  {}

  /** Whatever is done to a dialogue keeps its laws. */
  lemma DoneIsLawful(codec: Codec, d: Dialogue, work: Work)
    requires Lawful(codec, d)
    ensures Lawful(codec, Done(codec, d, work))
  {
    match work
    case Learning(otid) => if !(d.role == Initiator && !d.begun) { LearnIsLawful(codec, d, otid); }
    case Replying(id) => ReplyingIsLawful(codec, d, id);
    case Receiving(comps, isEnd) => if d.closed.None? { ReceiveAllIsLawful(codec, d, comps, isEnd); }
    case StagingRejected(r, answered, isEnd) => if d.closed.None? { StageRejectedIsLawful(codec, d, r, answered, isEnd); }
    case PeerEnding => if d.closed.None? { PeerEndIsLawful(codec, d); }
    case Expiring(now) => ExpireIsLawful(codec, d, now);
    case Acting(cmds, now) => ReplayIsLawful(codec, d, cmds, 0, now);
    case Flushing(closing, now) => FlushIsLawful(codec, d, closing, now);
    case Aborting(reason) => AbortIsLawful(codec, d, reason);
    case Relabelling(reason) => RelabelIsLawful(codec, d, reason);
    case Draining => DrainIsLawful(codec, d);
  }

  lemma QuietWorkExtends(codec: Codec, d: Dialogue, work: Work)
    requires Quiet(work)
    ensures Extends(d.past, Done(codec, d, work).past)
  {
    if work.StagingRejected? {
      StageRejectedExtends(d, work.r, work.answered, work.isEnd);
    }
  }

  /** Whatever is done to a dialogue only adds to its past: nothing is unsaid, and no invoke's end is changed. */
  lemma DoneExtends(codec: Codec, d: Dialogue, work: Work)
    requires Lawful(codec, d)
    ensures Extends(d.past, Done(codec, d, work).past)
  {
    LawfulIsSeparate(codec, d);
    match work
    case Receiving(comps, isEnd) => if d.closed.None? { ReceiveAllExtends(codec, d, comps, isEnd); }
    case PeerEnding => PeerEndExtends(d);
    case Expiring(now) => ExpireExtends(codec, d, now);
    case Acting(cmds, now) => ReplayExtends(codec, d, cmds, 0, now);
    case Flushing(closing, now) => FlushExtends(codec, d, closing, now);
    case Aborting(reason) => AbortExtends(codec, d, reason);
    case _ => QuietWorkExtends(codec, d, work);
  }

  // ── A dialogue keeps its id ────────────────────────────────────────────────

  lemma PerformKeepsTid(codec: Codec, d: Dialogue, cmd: Command, now: int)
    ensures Perform(codec, d, cmd, now).0.ourTid == d.ourTid
  {}

  lemma {:induction false} ReplayKeepsTid(codec: Codec, d: Dialogue, cmds: seq<Command>, i: nat, now: int)
    requires i <= |cmds|
    ensures ReplayFrom(codec, d, cmds, i, now).0.ourTid == d.ourTid
    decreases |cmds| - i
  {
    if i < |cmds| {
      PerformKeepsTid(codec, d, cmds[i], now);
      var (after, failure) := Perform(codec, d, cmds[i], now);
      if failure.None? {
        ReplayKeepsTid(codec, after, cmds, i + 1, now);
      }
    }
  }

  lemma DoneKeepsTid(codec: Codec, d: Dialogue, work: Work)
    ensures Done(codec, d, work).ourTid == d.ourTid
  {
    match work
    case Acting(cmds, now) => ReplayKeepsTid(codec, d, cmds, 0, now);
    case _ =>
  }

  // ── Final answers over a life ──────────────────────────────────────────────

  /** The invokes that are answered for good while this is done, in order. */
  function AnswersOf(d: Dialogue, work: Work): seq<nat> {
    if work.Receiving? && d.closed.None? then FinalAnswers(BooksOf(d), work.comps, |work.comps|, work.isEnd) else []
  }

  lemma FlushAnswersNothing(codec: Codec, d: Dialogue, closing: bool, now: int)
    requires Separate(d)
    ensures Answered(Flush(codec, d, closing, now).0.past.concluded) == Answered(d.past.concluded)
  {
    var active := d.outstanding + Started(d.staged, now);
    if Flush(codec, d, closing, now).1.Some? {
      FailedFlushKeepsRejects(codec, d, closing, now);
    } else if closing {
      SplitSets(d.outstanding, Started(d.staged, now));
      OtherEndsAnswerNothing(d.past.concluded, active, Dropped);
      assert Flush(codec, d, closing, now).0.past.concluded == WithConcluded(d.past.concluded, active, Dropped);
    }
  }

  lemma AbortAnswersNothing(codec: Codec, d: Dialogue, reason: CloseReason)
    requires Separate(d)
    ensures Answered(AbortAs(codec, d, reason).0.past.concluded) == Answered(d.past.concluded)
  {
    OtherEndsAnswerNothing(d.past.concluded, d.outstanding, Dropped);
  }

  lemma PerformAnswersNothing(codec: Codec, d: Dialogue, cmd: Command, now: int)
    requires Separate(d)
    ensures Answered(Perform(codec, d, cmd, now).0.past.concluded) == Answered(d.past.concluded)
  {
    match cmd
    case DoSend => FlushAnswersNothing(codec, d, false, now);
    case DoEnd => FlushAnswersNothing(codec, d, true, now);
    case DoAbort => AbortAnswersNothing(codec, d, Aborted);
    case _ =>
  }

  lemma {:induction false} ReplayAnswersNothing(codec: Codec, d: Dialogue, cmds: seq<Command>, i: nat, now: int)
    requires Lawful(codec, d) && i <= |cmds|
    ensures Answered(ReplayFrom(codec, d, cmds, i, now).0.past.concluded) == Answered(d.past.concluded)
    decreases |cmds| - i
  {
    if i < |cmds| {
      LawfulIsSeparate(codec, d);
      PerformAnswersNothing(codec, d, cmds[i], now);
      PerformIsLawful(codec, d, cmds[i], now);
      var (after, failure) := Perform(codec, d, cmds[i], now);
      if failure.None? {
        ReplayAnswersNothing(codec, after, cmds, i + 1, now);
      }
    }
  }

  lemma ExpireAnswersNothing(codec: Codec, d: Dialogue, now: int)
    requires Lawful(codec, d)
    ensures Answered(Expire(d, now).past.concluded) == Answered(d.past.concluded)
  {
    SplitIsComplete(d.outstanding, now);
    OtherEndsAnswerNothing(d.past.concluded, Split(d.outstanding, now).0, TimedOut);
  }

  lemma PeerEndAnswersNothing(d: Dialogue)
    requires Separate(d)
    ensures Answered(PeerEnd(d).past.concluded) == Answered(d.past.concluded)
  {
    OtherEndsAnswerNothing(d.past.concluded, d.outstanding, Dropped);
  }

  /** Work that ends no invoke. */
  predicate Quiet(work: Work) {
    work.Learning? || work.Replying? || work.StagingRejected? || work.Relabelling? || work.Draining?
  }

  lemma QuietWorkEndsNothing(codec: Codec, d: Dialogue, work: Work)
    requires Quiet(work)
    ensures Done(codec, d, work).past.concluded == d.past.concluded
  {}

  lemma OtherWorkAnswersNothing(codec: Codec, d: Dialogue, work: Work)
    requires Lawful(codec, d) && !work.Receiving?
    ensures Answered(Done(codec, d, work).past.concluded) == Answered(d.past.concluded)
  {
    LawfulIsSeparate(codec, d);
    if Quiet(work) {
      QuietWorkEndsNothing(codec, d, work);
    } else if work.PeerEnding? {
      PeerEndAnswersNothing(d);
      assert Done(codec, d, work) == if d.closed.Some? then d else PeerEnd(d);
    } else if work.Expiring? {
      ExpireAnswersNothing(codec, d, work.now);
      assert Done(codec, d, work) == Expire(d, work.now);
    } else if work.Acting? {
      ReplayAnswersNothing(codec, d, work.cmds, 0, work.now);
      assert Done(codec, d, work) == ReplayFrom(codec, d, work.cmds, 0, work.now).0;
    } else if work.Flushing? {
      FlushAnswersNothing(codec, d, work.closing, work.now);
      assert Done(codec, d, work) == Flush(codec, d, work.closing, work.now).0;
    } else {
      AbortAnswersNothing(codec, d, work.reason);
      assert Done(codec, d, work) == AbortAs(codec, d, work.reason).0;
    }
  }

  /** What is delivered for good while something is done is new, once each, and all that is answered by it. */
  lemma WorkAnswers(codec: Codec, d: Dialogue, work: Work)
    requires Lawful(codec, d)
    ensures AnsweredBy(d.past.concluded, Done(codec, d, work).past.concluded, AnswersOf(d, work))
  {
    if work.Receiving? && d.closed.None? {
      LawfulHasBooks(codec, d);
      FinalAnswersAnswer(BooksOf(d), d.staged, d.past.serial, d.past.sent, CarriedBy(d), work.comps, |work.comps|, work.isEnd);
    } else {
      if !work.Receiving? {
        OtherWorkAnswersNothing(codec, d, work);
      }
      NothingAnswered(d.past.concluded, Done(codec, d, work).past.concluded);
    }
  }

  /** A dialogue after all that was done to it. */
  function Lived(codec: Codec, d: Dialogue, works: seq<Work>): Dialogue {
    if works == [] then d else Done(codec, Lived(codec, d, works[..|works| - 1]), works[|works| - 1])
  }

  /** The invokes that were answered for good in all that was done, in order. */
  function AllAnswers(codec: Codec, d: Dialogue, works: seq<Work>): seq<nat> {
    if works == [] then []
    else
      var before := works[..|works| - 1];
      AllAnswers(codec, d, before) + AnswersOf(Lived(codec, d, before), works[|works| - 1])
  }

  lemma {:induction false} LivedIsLawful(codec: Codec, d: Dialogue, works: seq<Work>)
    requires Lawful(codec, d)
    ensures Lawful(codec, Lived(codec, d, works))
    decreases |works|
  {
    if works != [] {
      LivedIsLawful(codec, d, works[..|works| - 1]);
      DoneIsLawful(codec, Lived(codec, d, works[..|works| - 1]), works[|works| - 1]);
    }
  }

  lemma {:induction false} LivedExtends(codec: Codec, d: Dialogue, works: seq<Work>)
    requires Lawful(codec, d)
    ensures Extends(d.past, Lived(codec, d, works).past)
    decreases |works|
  {
    if works != [] {
      var before := Lived(codec, d, works[..|works| - 1]);
      LivedExtends(codec, d, works[..|works| - 1]);
      LivedIsLawful(codec, d, works[..|works| - 1]);
      DoneExtends(codec, before, works[|works| - 1]);
      ExtendsOn(d.past, before.past, Lived(codec, d, works).past);
    }
  }

  lemma {:induction false} LivedAnswers(codec: Codec, d: Dialogue, works: seq<Work>)
    requires Lawful(codec, d)
    ensures AnsweredBy(d.past.concluded, Lived(codec, d, works).past.concluded, AllAnswers(codec, d, works))
    decreases |works|
  {
    if works == [] {
      NothingAnswered(d.past.concluded, d.past.concluded);
    } else {
      var front, last := works[..|works| - 1], works[|works| - 1];
      var before := Lived(codec, d, front);
      LivedAnswers(codec, d, front);
      LivedIsLawful(codec, d, front);
      WorkAnswers(codec, before, last);
      AnsweredOn(d.past.concluded, before.past.concluded, Lived(codec, d, works).past.concluded,
                 AllAnswers(codec, d, front), AnswersOf(before, last));
    }
  }

  /**
   Over the whole life of a dialogue no invoke gets two final answers, and the
   invokes that got one are exactly those that ended in a result or an error.
   */
  lemma AnsweredOnceInALife(codec: Codec, role: Role, ourTid: Tid, peerTid: Tid, ac: seq<nat>, idle: Option<nat>, works: seq<Work>, n: nat)
    requires role == Initiator ==> peerTid == NoTid
    ensures var d := New(role, ourTid, peerTid, ac, idle);
            var answers, concluded := AllAnswers(codec, d, works), Lived(codec, d, works).past.concluded;
            && NoRepeats(answers)
            && (n in answers <==> n in concluded && (concluded[n].Succeeded? || concluded[n].Failed?))
  {
    var d := New(role, ourTid, peerTid, ac, idle);
    NewIsLawful(codec, role, ourTid, peerTid, ac, idle);
    LivedAnswers(codec, d, works);
    assert n in Members(AllAnswers(codec, d, works)) <==> n in AllAnswers(codec, d, works);
  }

  /** Once an invoke has come to an end, nothing that is done later gives it a final answer. */
  lemma EndedIsNeverAnswered(codec: Codec, d: Dialogue, works: seq<Work>, n: nat)
    requires Lawful(codec, d) && n in d.past.concluded
    ensures n !in AllAnswers(codec, d, works)
    ensures n in Lived(codec, d, works).past.concluded && Lived(codec, d, works).past.concluded[n] == d.past.concluded[n]
  {
    LivedExtends(codec, d, works);
    LivedAnswers(codec, d, works);
    var answers, after := AllAnswers(codec, d, works), Lived(codec, d, works).past.concluded;
    assert n in answers ==> n in Members(answers);
    assert n in Members(answers) ==> n in Answered(after);
    assert n in Answered(after) ==> n in Answered(d.past.concluded);
  }
}
