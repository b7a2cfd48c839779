/** What the steps of a dialogue add to its past, and what they deliver. */
module DialogueRuns {
  import opened Options
  import opened InvokeIds
  import opened Tcap
  import opened Utterances
  import opened DialogueLaws

  /** Every entry of `a` is in `b`. */
  ghost predicate Kept<V>(a: map<nat, V>, b: map<nat, V>) { forall n | n in a :: n in b && b[n] == a[n] }

  /** The past only grows: nothing is unsaid, and an invoke that came to an end stays there. */
  ghost predicate Extends(a: History, b: History) {
    a.said <= b.said && a.stored <= b.stored && a.serial <= b.serial && a.grants <= b.grants && a.invoked <= b.invoked
    && Kept(a.sent, b.sent) && Kept(a.concluded, b.concluded)
  }

  lemma ExtendsOn(a: History, b: History, c: History)
    requires Extends(a, b) && Extends(b, c)
    ensures Extends(a, c)
  {}

  lemma SentIsKept(sent: map<nat, Operation>, staged: seq<Operation>)
    requires Unsent(staged, sent)
    ensures Kept(sent, WithSent(sent, staged))
  {}

  lemma ConcludedIsKept(concluded: map<nat, Conclusion>, s: seq<Operation>, how: Conclusion)
    requires Serials(s) !! concluded.Keys
    ensures Kept(concluded, WithConcluded(concluded, s, how))
  {}

  /** What the steps below need of the laws. */
  ghost predicate Separate(d: Dialogue) {
    Unsent(d.staged, d.past.sent) && Serials(d.outstanding) + Serials(d.staged) !! d.past.concluded.Keys
  }

  lemma LawfulIsSeparate(codec: Codec, d: Dialogue)
    requires Lawful(codec, d)
    ensures Separate(d)
  {}

  lemma SendExtends(d: Dialogue, m: Message, now: int)
    requires Separate(d)
    ensures Extends(d.past, Flushed(d, m, false, now).past)
  {
    SentIsKept(d.past.sent, d.staged);
  }

  lemma EndExtends(d: Dialogue, m: Message, now: int)
    requires Separate(d)
    ensures Extends(d.past, Flushed(d, m, true, now).past)
  {
    var active := d.outstanding + Started(d.staged, now);
    SentIsKept(d.past.sent, d.staged);
    SplitSets(d.outstanding, Started(d.staged, now));
    ConcludedIsKept(d.past.concluded, active, Dropped);
  }

  lemma FlushExtends(codec: Codec, d: Dialogue, closing: bool, now: int)
    requires Separate(d)
    ensures Extends(d.past, Flush(codec, d, closing, now).0.past)
  {
    var after := Flush(codec, d, closing, now).0;
    if Flush(codec, d, closing, now).1.Some? {
      FailedFlushKeepsRejects(codec, d, closing, now);
    } else if closing {
      EndExtends(d, Leg(codec, d, closing), now);
      assert after == Flushed(d, Leg(codec, d, closing), true, now);
    } else {
      SendExtends(d, Leg(codec, d, closing), now);
      assert after == Flushed(d, Leg(codec, d, closing), false, now);
    }
  }

  lemma ReleasedExtends(d: Dialogue, reason: CloseReason)
    requires Separate(d)
    ensures Extends(d.past, Released(d, reason).past)
  {
    ConcludedIsKept(d.past.concluded, d.outstanding, Dropped);
  }

  lemma SayExtends(d: Dialogue, m: Message, leading: nat)
    ensures Extends(d.past, Say(d, m, leading).past)
  {}

  lemma AbortExtends(codec: Codec, d: Dialogue, reason: CloseReason)
    requires Separate(d)
    ensures Extends(d.past, AbortAs(codec, d, reason).0.past)
  {
    var released := Released(d, reason);
    ReleasedExtends(d, reason);
    SayExtends(released, AbortMessage(d), 0);
    ExtendsOn(d.past, released.past, Say(released, AbortMessage(d), 0).past);
  }

  lemma PerformExtends(codec: Codec, d: Dialogue, cmd: Command, now: int)
    requires Separate(d)
    ensures Extends(d.past, Perform(codec, d, cmd, now).0.past)
  {
    match cmd
    case DoSend => FlushExtends(codec, d, false, now);
    case DoEnd => FlushExtends(codec, d, true, now);
    case DoAbort => AbortExtends(codec, d, Aborted);
    case _ =>
  }

  lemma {:induction false} ReplayExtends(codec: Codec, d: Dialogue, cmds: seq<Command>, i: nat, now: int)
    requires Lawful(codec, d) && i <= |cmds|
    ensures Extends(d.past, ReplayFrom(codec, d, cmds, i, now).0.past)
    decreases |cmds| - i
  {
    if i < |cmds| {
      LawfulIsSeparate(codec, d);
      PerformExtends(codec, d, cmds[i], now);
      PerformIsLawful(codec, d, cmds[i], now);
      var (after, failure) := Perform(codec, d, cmds[i], now);
      if failure.None? {
        ReplayExtends(codec, after, cmds, i + 1, now);
        ExtendsOn(d.past, after.past, ReplayFrom(codec, after, cmds, i + 1, now).0.past);
      }
    }
  }

  /** Receiving forgets no end an invoke came to, and no Reject. */
  ghost predicate Grown(a: Books, b: Books) { Kept(a.concluded, b.concluded) && a.stored <= b.stored }

  lemma GrownOn(a: Books, b: Books, c: Books)
    requires Grown(a, b) && Grown(b, c)
    ensures Grown(a, c)
  {}

  lemma ConcludedGrows(b: Books, i: nat, how: Conclusion)
    requires i < |b.outstanding| && Serials(b.outstanding) !! b.concluded.Keys
    ensures Grown(b, Concluded(b, i, how))
  {
    assert b.outstanding[i].serial in Serials(b.outstanding);
  }

  lemma RefuseGrows(b: Books, r: Rejection, isEnd: bool)
    ensures Grown(b, Refuse(b, r, isEnd))
  {}

  lemma MistakenGrows(b: Books, i: nat, r: Rejection, isEnd: bool)
    requires i < |b.outstanding| && Serials(b.outstanding) !! b.concluded.Keys
    ensures Grown(b, Refuse(Concluded(b, i, Mistaken), r, isEnd))
  {
    ConcludedGrows(b, i, Mistaken);
    RefuseGrows(Concluded(b, i, Mistaken), r, isEnd);
    GrownOn(b, Concluded(b, i, Mistaken), Refuse(Concluded(b, i, Mistaken), r, isEnd));
  }

  lemma ResultGrows(b: Books, id: InvokeId, result: Option<Octets>, last: bool, isEnd: bool)
    requires Serials(b.outstanding) !! b.concluded.Keys
    ensures Grown(b, ReceiveResult(b, id, result, last, isEnd).0)
  {
    match Find(b.outstanding, id)
    case None => RefuseGrows(b, Rejection(Some(id), ResultUnrecognized), isEnd);
    case Some(i) =>
      ConcludedGrows(b, i, Succeeded);
      MistakenGrows(b, i, Rejection(Some(id), ResultUnexpected), isEnd);
  }

  lemma ErrorGrows(b: Books, id: InvokeId, code: int, isEnd: bool)
    requires Serials(b.outstanding) !! b.concluded.Keys
    ensures Grown(b, ReceiveError(b, id, code, isEnd).0)
  {
    match Find(b.outstanding, id)
    case None => RefuseGrows(b, Rejection(Some(id), ErrorUnrecognized), isEnd);
    case Some(i) =>
      ConcludedGrows(b, i, Failed);
      MistakenGrows(b, i, Rejection(Some(id), ErrorUnexpected), isEnd);
  }

  lemma ReceiveGrows(b: Books, c: Component, isEnd: bool)
    requires Serials(b.outstanding) !! b.concluded.Keys
    ensures Grown(b, Receive(b, c, isEnd).0)
  {
    match c
    case Invoke(id, _, _, _) => RefuseGrows(b, Rejection(Some(id), UnrecognizedLinkedId), isEnd);
    case ResultLast(id, result) => ResultGrows(b, id, result, true, isEnd);
    case ResultNotLast(id, result) => ResultGrows(b, id, result, false, isEnd);
    case ReturnError(id, code) => ErrorGrows(b, id, code, isEnd);
    case Reject(r) =>
      if r.id.Some? && Find(b.outstanding, r.id.value).Some? {
        ConcludedGrows(b, Find(b.outstanding, r.id.value).value, Rejected);
      }
  }

  lemma {:induction false} BooksGrow(b: Books, staged: seq<Operation>, serial: nat, sent: map<nat, Operation>, carried: seq<Component>,
                                     comps: seq<Component>, count: nat, isEnd: bool)
    requires LawfulBooks(b, staged, serial, sent, carried) && count <= |comps|
    ensures Grown(b, BooksAfter(b, comps, count, isEnd))
  {
    if count > 0 {
      var before := BooksAfter(b, comps, count - 1, isEnd);
      BooksGrow(b, staged, serial, sent, carried, comps, count - 1, isEnd);
      BooksStayLawful(b, staged, serial, sent, carried, comps, count - 1, isEnd);
      ReceiveGrows(before, comps[count - 1], isEnd);
      GrownOn(b, before, BooksAfter(b, comps, count, isEnd));
    }
  }

  lemma GrownExtends(d: Dialogue, b: Books)
    requires Grown(BooksOf(d), b)
    ensures Extends(d.past, WithBooks(d, b).past)
  {}

  lemma ReceiveAllExtends(codec: Codec, d: Dialogue, comps: seq<Component>, isEnd: bool)
    requires Lawful(codec, d) && d.closed.None?
    ensures Extends(d.past, ReceiveAll(d, comps, isEnd).past)
  {
    LawfulHasBooks(codec, d);
    BooksGrow(BooksOf(d), d.staged, d.past.serial, d.past.sent, CarriedBy(d), comps, |comps|, isEnd);
    GrownExtends(d, BooksAfter(BooksOf(d), comps, |comps|, isEnd));
  }

  lemma StageRejectedExtends(d: Dialogue, r: Rejection, answered: bool, isEnd: bool)
    ensures Extends(d.past, StageRejected(d, r, answered, isEnd).past)
  {
    RefuseGrows(BooksOf(d), r, isEnd);
    GrownExtends(d, Refuse(BooksOf(d), r, isEnd));
  }

  lemma PeerEndExtends(d: Dialogue)
    requires Separate(d)
    ensures Extends(d.past, PeerEnd(d).past)
  {
    ConcludedIsKept(d.past.concluded, d.outstanding, Dropped);
  }

  lemma ExpireExtends(codec: Codec, d: Dialogue, now: int)
    requires Lawful(codec, d)
    ensures Extends(d.past, Expire(d, now).past)
  {
    SplitIsComplete(d.outstanding, now);
    ConcludedIsKept(d.past.concluded, Split(d.outstanding, now).0, TimedOut);
  }

  // ── What is delivered ──────────────────────────────────────────────────────

  predicate Answers(c: Component) { c.ResultLast? || c.ResultNotLast? || c.ReturnError? }

  /** The class of an operation has room for this answer. */
  predicate Welcome(c: Component, kind: OperationClass) {
    if c.ReturnError? then ReportsFailure(kind) else ReportsSuccess(kind)
  }

  /** An answer finds the one operation in progress with its id. */
  lemma FindsTheOne(s: seq<Operation>, id: InvokeId, i: nat)
    requires Distinct(s) && i < |s| && s[i].id == id
    ensures Find(s, id) == Some(i)
  {
    assert s[i].id in IdsOf(s);
  }

  /**
   Table 5 of ITU-T Q.774: an answer is delivered exactly when an operation in
   progress has its id and is of a class that reports it; any other becomes a
   Reject.
   */
  lemma AnswerByClass(b: Books, c: Component, isEnd: bool)
    requires Distinct(b.outstanding) && Answers(c)
    ensures Receive(b, c, isEnd).1.LocalReject? <==>
              !exists i :: 0 <= i < |b.outstanding| && b.outstanding[i].id == c.id && Welcome(c, b.outstanding[i].kind)
    ensures c.ReturnError? && !Receive(b, c, isEnd).1.LocalReject? ==> Receive(b, c, isEnd).1 == SeenError(c.id, c.code)
    ensures !c.ReturnError? && !Receive(b, c, isEnd).1.LocalReject? ==> Receive(b, c, isEnd).1 == SeenResult(c.id, c.result)
  {
    forall i: nat | i < |b.outstanding| && b.outstanding[i].id == c.id ensures Find(b.outstanding, c.id) == Some(i) {
      FindsTheOne(b.outstanding, c.id, i);
    }
  }

  /** An answer that is the last word, or against its class, ends the operation it names; nothing else does. */
  lemma AnswerConcludes(b: Books, c: Component, isEnd: bool)
    requires Distinct(b.outstanding) && Answers(c)
    ensures var after := Receive(b, c, isEnd).0;
            if c.ResultNotLast? && !Receive(b, c, isEnd).1.LocalReject? then after.outstanding == b.outstanding
            else IdsOf(after.outstanding) == IdsOf(b.outstanding) - {c.id}
  {
    if Find(b.outstanding, c.id).Some? {
      OneLess(b.outstanding, Find(b.outstanding, c.id).value);
    }
  }

  /** An invoke of the peer is shown as it came, unless it is linked to none of ours in progress: then it is rejected. It ends nothing. */
  lemma LinkedIsChecked(b: Books, id: InvokeId, linked: Option<InvokeId>, op: int, argument: Option<Octets>, isEnd: bool)
    ensures var (after, seen) := Receive(b, Invoke(id, linked, op, argument), isEnd);
            && after.outstanding == b.outstanding && after.concluded == b.concluded
            && seen == if linked.Some? && forall i | 0 <= i < |b.outstanding| :: b.outstanding[i].id != linked.value
                       then LocalReject(Rejection(Some(id), OfInvoke(5))) else SeenInvoke(id, op, argument)
  {
    if linked.Some? {
      assert linked.value in IdsOf(b.outstanding) <==> exists i :: 0 <= i < |b.outstanding| && b.outstanding[i].id == linked.value;
    }
  }

  /** A result or error is shown as it came where its operation is in progress and reports such; otherwise the Reject says why not. */
  lemma AnswerIsShownOrRejected(b: Books, c: Component, isEnd: bool, i: nat)
    requires Answers(c) && Distinct(b.outstanding) && i < |b.outstanding| && b.outstanding[i].id == c.id
    ensures var seen, kind := Receive(b, c, isEnd).1, b.outstanding[i].kind;
            seen == if c.ReturnError? then if kind.One? || kind.Two? then SeenError(c.id, c.code) else LocalReject(Rejection(Some(c.id), OfError(1)))
                    else if kind.One? || kind.Three? then SeenResult(c.id, c.result) else LocalReject(Rejection(Some(c.id), OfResult(1)))
  {
    var p := Find(b.outstanding, c.id);
    assert c.id in IdsOf(b.outstanding);
    assert p.value == i;
  }

  lemma StrayAnswerIsRejected(b: Books, c: Component, isEnd: bool)
    requires Answers(c) && c.id !in IdsOf(b.outstanding)
    ensures Receive(b, c, isEnd).1 == LocalReject(Rejection(Some(c.id), if c.ReturnError? then OfError(0) else OfResult(0)))
    ensures Receive(b, c, isEnd).0.outstanding == b.outstanding
  {}

  /** A Reject of an invoke ends the operation it names, if that is in progress; one of a result or an error ends nothing. All are shown. */
  lemma RejectConcludes(b: Books, r: Rejection, isEnd: bool)
    requires Distinct(b.outstanding)
    ensures var (after, seen) := Receive(b, Reject(r), isEnd);
            && seen == SeenReject(r) && after.rejects == b.rejects && after.stored == b.stored
            && var ends := (r.problem.General? || r.problem.OfInvoke?) && r.id.Some? && r.id.value in IdsOf(b.outstanding);
               IdsOf(after.outstanding) == (if ends then IdsOf(b.outstanding) - {r.id.value} else IdsOf(b.outstanding))
  {
    if r.id.Some? && Find(b.outstanding, r.id.value).Some? {
      OneLess(b.outstanding, Find(b.outstanding, r.id.value).value);
    }
  }

  // ── Final answers ──────────────────────────────────────────────────────────

  /** The invoke that a component is the final answer to, if it is delivered as one. */
  function FinalAnswerTo(b: Books, c: Component): Option<nat> {
    if !c.ResultLast? && !c.ReturnError? then None
    else match Find(b.outstanding, c.id)
      case None => None
      case Some(i) => if Welcome(c, b.outstanding[i].kind) then Some(b.outstanding[i].serial) else None
  }

  /** It is delivered exactly when the handler is shown a last result, or an error. */
  lemma FinalAnswerIsShown(b: Books, c: Component, isEnd: bool)
    ensures FinalAnswerTo(b, c).Some? <==> (c.ResultLast? && Receive(b, c, isEnd).1.SeenResult?) || Receive(b, c, isEnd).1.SeenError?
  {}

  /** The invokes that were answered for good. */
  ghost function Answered(concluded: map<nat, Conclusion>): set<nat> {
    set n | n in concluded && (concluded[n].Succeeded? || concluded[n].Failed?)
  }

  lemma ConcludedAnswers(b: Books, i: nat, how: Conclusion)
    requires i < |b.outstanding| && Serials(b.outstanding) !! b.concluded.Keys
    ensures b.outstanding[i].serial !in b.concluded
    ensures Answered(Concluded(b, i, how).concluded) ==
            Answered(b.concluded) + if how.Succeeded? || how.Failed? then {b.outstanding[i].serial} else {}
  {
    assert b.outstanding[i].serial in Serials(b.outstanding);
  }

  /** A final answer is delivered exactly to the invoke that is answered by it, which was not before. */
  lemma OneFinalAnswer(b: Books, c: Component, isEnd: bool)
    requires Serials(b.outstanding) !! b.concluded.Keys
    ensures var n := FinalAnswerTo(b, c);
            Answered(Receive(b, c, isEnd).0.concluded) == Answered(b.concluded) + if n.Some? then {n.value} else {}
    ensures FinalAnswerTo(b, c).Some? ==> FinalAnswerTo(b, c).value !in b.concluded
  {
    var p := match c
      case ResultLast(id, _) => Find(b.outstanding, id)
      case ResultNotLast(id, _) => Find(b.outstanding, id)
      case ReturnError(id, _) => Find(b.outstanding, id)
      case Reject(r) => if r.id.Some? then Find(b.outstanding, r.id.value) else None
      case Invoke(_, _, _, _) => None;
    if p.Some? {
      ConcludedAnswers(b, p.value, Succeeded);
      ConcludedAnswers(b, p.value, Failed);
      ConcludedAnswers(b, p.value, Mistaken);
      ConcludedAnswers(b, p.value, Rejected);
    }
  }

  /** The invokes that the first `count` components answer for good, in order. */
  function FinalAnswers(b: Books, comps: seq<Component>, count: nat, isEnd: bool): seq<nat>
    requires count <= |comps|
  {
    if count == 0 then []
    else
      var n := FinalAnswerTo(BooksAfter(b, comps, count - 1, isEnd), comps[count - 1]);
      FinalAnswers(b, comps, count - 1, isEnd) + (if n.Some? then [n.value] else [])
  }

  ghost predicate NoRepeats(s: seq<nat>) { forall i, j | 0 <= i < j < |s| :: s[i] != s[j] }

  ghost function Members(s: seq<nat>): set<nat> { set n | n in s }

  /** `answers` were given, each to an invoke that had none and once, and no other invoke was answered. */
  ghost predicate AnsweredBy(before: map<nat, Conclusion>, after: map<nat, Conclusion>, answers: seq<nat>) {
    NoRepeats(answers) && Members(answers) !! Answered(before) && Answered(after) == Answered(before) + Members(answers)
  }

  lemma AnsweredOn(a: map<nat, Conclusion>, b: map<nat, Conclusion>, c: map<nat, Conclusion>, first: seq<nat>, second: seq<nat>)
    requires AnsweredBy(a, b, first) && AnsweredBy(b, c, second)
    ensures AnsweredBy(a, c, first + second)
  {
    assert Members(first + second) == Members(first) + Members(second);
    forall i, j | 0 <= i < j < |first + second| ensures (first + second)[i] != (first + second)[j] {
      if i < |first| <= j {
        assert first[i] in Members(first) && second[j - |first|] in Members(second);
      }
    }
  }

  lemma NothingAnswered(a: map<nat, Conclusion>, b: map<nat, Conclusion>)
    requires Answered(a) == Answered(b)
    ensures AnsweredBy(a, b, [])
  {}

  lemma OneAnswered(a: map<nat, Conclusion>, b: map<nat, Conclusion>, n: nat)
    requires n !in a && Answered(b) == Answered(a) + {n}
    ensures AnsweredBy(a, b, [n])
  {
    assert Members([n]) == {n};
  }

  lemma {:induction false} FinalAnswersAnswer(b: Books, staged: seq<Operation>, serial: nat, sent: map<nat, Operation>, carried: seq<Component>,
                                              comps: seq<Component>, count: nat, isEnd: bool)
    requires LawfulBooks(b, staged, serial, sent, carried) && count <= |comps|
    ensures AnsweredBy(b.concluded, BooksAfter(b, comps, count, isEnd).concluded, FinalAnswers(b, comps, count, isEnd))
  {
    if count == 0 {
      NothingAnswered(b.concluded, b.concluded);
    } else {
      var before := BooksAfter(b, comps, count - 1, isEnd);
      var n := FinalAnswerTo(before, comps[count - 1]);
      FinalAnswersAnswer(b, staged, serial, sent, carried, comps, count - 1, isEnd);
      BooksStayLawful(b, staged, serial, sent, carried, comps, count - 1, isEnd);
      OneFinalAnswer(before, comps[count - 1], isEnd);
      var after := BooksAfter(b, comps, count, isEnd).concluded;
      if n.Some? {
        OneAnswered(before.concluded, after, n.value);
      } else {
        NothingAnswered(before.concluded, after);
      }
      AnsweredOn(b.concluded, before.concluded, after, FinalAnswers(b, comps, count - 1, isEnd), if n.Some? then [n.value] else []);
    }
  }

  /** Ends that are not answers answer nothing. */
  lemma OtherEndsAnswerNothing(concluded: map<nat, Conclusion>, s: seq<Operation>, how: Conclusion)
    requires Serials(s) !! concluded.Keys && !how.Succeeded? && !how.Failed?
    ensures Answered(WithConcluded(concluded, s, how)) == Answered(concluded)
  {}

  // ── What is shown and stored ───────────────────────────────────────────────

  /** The Rejects that the handler is told of. */
  function Refused(seen: seq<Seen>): seq<Rejection> {
    if seen == [] then []
    else
      Refused(seen[..|seen| - 1]) + (if seen[|seen| - 1].LocalReject? then [seen[|seen| - 1].rejection] else [])
  }

  /** What is shown of component `k`, once those before it are taken in. */
  function View(b: Books, comps: seq<Component>, k: nat, isEnd: bool): Seen
    requires k < |comps|
  {
    Receive(BooksAfter(b, comps, k, isEnd), comps[k], isEnd).1
  }

  /** One view per component, in order. */
  lemma {:induction false} OneViewPerComponent(b: Books, comps: seq<Component>, count: nat, k: nat, isEnd: bool)
    requires k < count <= |comps|
    ensures |SeenOf(b, comps, count, isEnd)| == count && SeenOf(b, comps, count, isEnd)[k] == View(b, comps, k, isEnd)
  {
    assert SeenOf(b, comps, count, isEnd) == SeenOf(b, comps, count - 1, isEnd) + [View(b, comps, count - 1, isEnd)];
    if count > 1 {
      OneViewPerComponent(b, comps, count - 1, if k < count - 1 then k else 0, isEnd);
    }
  }

  lemma RefusedOneMore(seen: seq<Seen>, one: Seen)
    ensures Refused(seen + [one]) == Refused(seen) + (if one.LocalReject? then [one.rejection] else [])
  {
    assert (seen + [one])[..|seen|] == seen;
  }

  lemma OneRejectedIsStored(b: Books, c: Component, isEnd: bool)
    ensures var (after, seen) := Receive(b, c, isEnd);
            after.rejects == if isEnd || !seen.LocalReject? then b.rejects else b.rejects + [seen.rejection]
  {}

  lemma OneMoreRejected(b: Books, now: Books, seen: seq<Seen>, c: Component, isEnd: bool)
    requires now.rejects == if isEnd then b.rejects else b.rejects + Refused(seen)
    ensures var (after, view) := Receive(now, c, isEnd);
            after.rejects == if isEnd then b.rejects else b.rejects + Refused(seen + [view])
  {
    OneRejectedIsStored(now, c, isEnd);
    RefusedOneMore(seen, Receive(now, c, isEnd).1);
  }

  lemma SeenOn(b: Books, comps: seq<Component>, count: nat, isEnd: bool)
    requires 0 < count <= |comps|
    ensures var now := BooksAfter(b, comps, count - 1, isEnd);
            && BooksAfter(b, comps, count, isEnd) == Receive(now, comps[count - 1], isEnd).0
            && SeenOf(b, comps, count, isEnd) == SeenOf(b, comps, count - 1, isEnd) + [Receive(now, comps[count - 1], isEnd).1]
  {}

  /** What is rejected is stored to be sent, in order, unless the peer ended the dialogue. */
  lemma {:induction false} RejectedIsStored(b: Books, comps: seq<Component>, count: nat, isEnd: bool)
    requires count <= |comps|
    ensures BooksAfter(b, comps, count, isEnd).rejects ==
            if isEnd then b.rejects else b.rejects + Refused(SeenOf(b, comps, count, isEnd))
  {
    if count > 0 {
      var now, seen := BooksAfter(b, comps, count - 1, isEnd), SeenOf(b, comps, count - 1, isEnd);
      RejectedIsStored(b, comps, count - 1, isEnd);
      OneMoreRejected(b, now, seen, comps[count - 1], isEnd);
      SeenOn(b, comps, count, isEnd);
    }
  }

  // ── Failure ────────────────────────────────────────────────────────────────

  /** A flush that fails says nothing and loses no stored Reject; what could not be encoded is gone. */
  lemma FailedFlushKeepsRejects(codec: Codec, d: Dialogue, closing: bool, now: int)
    requires Flush(codec, d, closing, now).1.Some?
    ensures var after := Flush(codec, d, closing, now).0;
            && after.past == (if after.pending == [] then Withdrawn(d.past, |d.pending|) else d.past)
            && after.rejects == d.rejects && after.outstanding == d.outstanding
            && after.closed == d.closed && after.out == d.out && after.begun == d.begun && after.aarePending == d.aarePending
            && (Flush(codec, d, closing, now).1 == Some(NotEncoded) ==> after.pending == [] && after.staged == [])
  {}

  /** A dialogue that is closed says nothing more, and stays closed for the reason it closed. */
  lemma ClosedSaysNothing(codec: Codec, d: Dialogue, cmd: Command, now: int)
    requires d.closed.Some?
    ensures var past := Perform(codec, d, cmd, now).0.past; past == d.past.(given := past.given)
    ensures Perform(codec, d, cmd, now).0.closed == d.closed
    ensures Perform(codec, d, cmd, now).0.out == d.out
  {}

  lemma {:induction false} ClosedStaysClosed(codec: Codec, d: Dialogue, cmds: seq<Command>, i: nat, now: int)
    requires d.closed.Some? && i <= |cmds|
    ensures var past := ReplayFrom(codec, d, cmds, i, now).0.past; past == d.past.(given := past.given)
    ensures ReplayFrom(codec, d, cmds, i, now).0.closed == d.closed
    ensures ReplayFrom(codec, d, cmds, i, now).0.out == d.out
    decreases |cmds| - i
  {
    if i < |cmds| {
      ClosedSaysNothing(codec, d, cmds[i], now);
      var (after, failure) := Perform(codec, d, cmds[i], now);
      if failure.None? {
        ClosedStaysClosed(codec, after, cmds, i + 1, now);
      }
    }
  }

  /** A turn that fails leaves nothing staged: no part of an answer goes out without the rest. */
  lemma {:induction false} FailedTurnLeavesNothingStaged(codec: Codec, d: Dialogue, cmds: seq<Command>, i: nat, now: int)
    requires i <= |cmds| && ReplayFrom(codec, d, cmds, i, now).1.Some?
    ensures ReplayFrom(codec, d, cmds, i, now).0.pending == [] && ReplayFrom(codec, d, cmds, i, now).0.staged == []
    decreases |cmds| - i
  {
    if i < |cmds| {
      var (after, failure) := Perform(codec, d, cmds[i], now);
      if failure.None? {
        FailedTurnLeavesNothingStaged(codec, after, cmds, i + 1, now);
      }
    }
  }

  // ── What the laws say ──────────────────────────────────────────────────────

  /** An invoke that was sent is in progress or has come to an end, not both, and to one its class reports. */
  lemma InvokeConcludesOnce(codec: Codec, d: Dialogue, n: nat)
    requires Lawful(codec, d) && n in d.past.sent
    ensures (exists i :: 0 <= i < |d.outstanding| && d.outstanding[i].serial == n) <==> n !in d.past.concluded
    ensures n in d.past.concluded ==>
              && (d.past.concluded[n] == Succeeded ==> ReportsSuccess(d.past.sent[n].kind))
              && (d.past.concluded[n] == Failed ==> ReportsFailure(d.past.sent[n].kind))
    ensures d.closed.Some? ==> n in d.past.concluded
  {
    assert n in Serials(d.outstanding) <==> exists i :: 0 <= i < |d.outstanding| && d.outstanding[i].serial == n;
    assert Serials([]) == {};
  }

  /** No two invokes that are staged or in progress share an id. */
  lemma InvokesHaveTheirOwnIds(codec: Codec, d: Dialogue, i: nat, j: nat)
    requires Lawful(codec, d) && i < j < |d.outstanding + d.staged|
    ensures (d.outstanding + d.staged)[i].id != (d.outstanding + d.staged)[j].id
  {
    if i < |d.outstanding| <= j {
      assert d.outstanding[i].id in IdsOf(d.outstanding);
      assert d.staged[j - |d.outstanding|].id in IdsOf(d.staged);
    }
  }

  lemma {:induction false} OwnIds(s: seq<Operation>)
    requires forall i, j | 0 <= i < j < |s| :: s[i].id != s[j].id
    ensures |IdsOf(s)| == |s|
    decreases |s|
  {
    if s != [] {
      var front, last := s[..|s| - 1], s[|s| - 1];
      OwnIds(front);
      assert IdsOf(s) == IdsOf(front) + {last.id};
      assert last.id !in IdsOf(front);
    }
  }

  /** So no more than 256 are staged or in progress at a time. */
  lemma IdsAreFew(codec: Codec, d: Dialogue)
    requires Lawful(codec, d)
    ensures |d.outstanding| + |d.staged| <= 256
  {
    var all := d.outstanding + d.staged;
    forall i, j | 0 <= i < j < |all| ensures all[i].id != all[j].id {
      InvokesHaveTheirOwnIds(codec, d, i, j);
    }
    OwnIds(all);
    IdsBelow(IdsOf(all), 256);
  }

  /** The order of what a dialogue says, and to whom. */
  lemma SaidInOrder(codec: Codec, d: Dialogue, i: nat)
    requires Lawful(codec, d) && i < |d.past.said|
    ensures d.past.said[i].Begin? <==> i == 0 && d.role == Initiator
    ensures Final(d.past.said[i]) ==> i == |d.past.said| - 1 && d.closed.Some?
    ensures !d.past.said[i].Begin? ==> d.past.said[i].dtid == d.peerTid && d.peerTid != NoTid
    ensures (d.past.said[i].Continue? || d.past.said[i].End?) ==>
              (d.past.said[i].portion == Some(Aare(d.ac)) <==> i == 0 && d.role == Responder && d.ac != [] && codec.isOid(d.ac))
  {
    assert Fits(codec, Who(d), d.peerTid, d.past.said[i], i);
  }

  /** Between two hand-outs of a non-negative invoke id of a dialogue, every other one was handed out or found in progress. */
  lemma IdsNotReusedAtOnce(codec: Codec, d: Dialogue, i: nat, j: nat, x: Ring)
    requires Lawful(codec, d) && i < j < |d.past.grants|
    requires d.past.grants[i].id == d.past.grants[j].id && d.past.grants[i].id >= 0 && x != d.past.grants[i].id
    ensures exists k :: i < k <= j && (d.past.grants[k].id == x || x in d.past.grants[k].used)
  {
    NotReusedAtOnce(d.past.grants, i, j, x);
  }

  // ── Where a stored Reject went ─────────────────────────────────────────────

  /** How many Rejects the first `count` messages took along. */
  ghost function Taken(led: seq<nat>, count: nat): nat
    requires count <= |led|
  {
    if count == 0 then 0 else Taken(led, count - 1) + led[count - 1]
  }

  lemma {:induction false} TakenGrows(led: seq<nat>, i: nat, j: nat)
    requires i <= j <= |led|
    ensures Taken(led, i) <= Taken(led, j)
    decreases j
  {
    if i < j {
      TakenGrows(led, i, j - 1);
    }
  }

  /** Reject number `k` left in message number `i`. */
  ghost predicate LeftIn(led: seq<nat>, k: nat, i: int) { 0 <= i < |led| && Taken(led, i) <= k < Taken(led, i + 1) }

  /** The message that took Reject number `k` along. */
  lemma {:induction false} CarriedAt(said: seq<Message>, led: seq<nat>, count: nat, k: nat) returns (i: nat)
    requires count <= |said| == |led| && (forall i | 0 <= i < |said| :: led[i] <= |ComponentsOf(said[i])|) && k < Taken(led, count)
    ensures |Carried(said, led, count)| == Taken(led, count) && i < count && LeftIn(led, k, i) && k - Taken(led, i) < |ComponentsOf(said[i])|
    ensures ComponentsOf(said[i])[k - Taken(led, i)] == Carried(said, led, count)[k]
    decreases count
  {
    CarriedLength(said, led, count - 1);
    if k < Taken(led, count - 1) {
      i := CarriedAt(said, led, count - 1, k);
    } else {
      i := count - 1;
    }
  }

  lemma {:induction false} CarriedLength(said: seq<Message>, led: seq<nat>, count: nat)
    requires count <= |said| == |led| && forall i | 0 <= i < |said| :: led[i] <= |ComponentsOf(said[i])|
    ensures |Carried(said, led, count)| == Taken(led, count)
    decreases count
  {
    if count > 0 {
      CarriedLength(said, led, count - 1);
    }
  }

  /** Reject `r`, the `k`-th, still waits, or left in a message. */
  ghost predicate WaitsOrLeft(said: seq<Message>, led: seq<nat>, rejects: seq<Rejection>, k: nat, r: Rejection)
    requires |said| == |led|
  {
    var gone := Taken(led, |led|);
    if k >= gone then k - gone < |rejects| && rejects[k - gone] == r
    else exists i :: LeftIn(led, k, i) && k - Taken(led, i) < |ComponentsOf(said[i])| && ComponentsOf(said[i])[k - Taken(led, i)] == Reject(r)
  }

  lemma RejectIsPlaced(said: seq<Message>, led: seq<nat>, stored: seq<Rejection>, rejects: seq<Rejection>, k: nat)
    requires RejectsKept(said, led, stored, rejects, false) && k < |stored|
    ensures WaitsOrLeft(said, led, rejects, k, stored[k])
  {
    CarriedLength(said, led, |said|);
    assert AsComponents(stored)[k] == Reject(stored[k]);
    if k < Taken(led, |led|) {
      var i := CarriedAt(said, led, |said|, k);
    } else {
      assert AsComponents(rejects)[k - Taken(led, |led|)] == Reject(stored[k]);
    }
  }

  lemma LeftOnce(led: seq<nat>, k: nat, i: nat, j: nat)
    requires LeftIn(led, k, i) && LeftIn(led, k, j)
    ensures i == j
  {
    if i < j {
      TakenGrows(led, i + 1, j);
    } else if j < i {
      TakenGrows(led, j + 1, i);
    }
  }

  /** While a dialogue is open, each Reject it ever stored still waits, or left in one message. */
  lemma StoredRejectLeavesOnce(codec: Codec, d: Dialogue, k: nat)
    requires Lawful(codec, d) && d.closed.None? && k < |d.past.stored|
    ensures WaitsOrLeft(d.past.said, d.past.led, d.rejects, k, d.past.stored[k])
    ensures forall i: nat, j: nat | LeftIn(d.past.led, k, i) && LeftIn(d.past.led, k, j) :: i == j
  {
    RejectIsPlaced(d.past.said, d.past.led, d.past.stored, d.rejects, k);
    forall i: nat, j: nat | LeftIn(d.past.led, k, i) && LeftIn(d.past.led, k, j) ensures i == j {
      LeftOnce(d.past.led, k, i, j);
    }
  }
}
