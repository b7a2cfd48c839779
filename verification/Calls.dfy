/**
 The calls of the dialogue engine as programs: each takes a dialogue out of the
 store or makes one, works on it, calls its handler, and puts it back or reports
 its end. Threads run them a step at a time, in any interleaving; a step is one
 critical section or work on the dialogue the thread has in hand.
 */
module Calls {
  import opened Options
  import opened InvokeIds
  import opened Tcap
  import opened DialogueLaws
  import opened Lives
  import opened Termination
  import opened Bookkeeping
  import opened Engine

  /** Which frames can be sent, how many dialogues may be open, and the configured idle timeout. */
  datatype Config = Config(sends: Frame -> bool, isOid: seq<nat> -> bool, limit: nat, idle: Option<nat>) {
    const codec: Codec := CodecOf(sends, isOid)
  }

  datatype Turn = OfBegin | OfStart | OfContinue | OfTimer

  /** Where a call is; one that holds a dialogue names it first. */
  datatype Pc =
    // A Begin from a peer.
    | Admit(b: BeginMessage, handled: bool)
    | OpenResponder(b: BeginMessage, handled: bool)
    | TakeInBegin(tid: Tid, b: BeginMessage, handled: bool)
    | GiveBegin(tid: Tid, first: Seen, further: seq<Seen>)
    // A Continue or End from a peer.
    | TakeTurn(wanted: Tid, otid: Option<Tid>, comps: seq<Component>, damaged: Option<(Rejection, bool)>, isEnd: bool)
    | TakeInTurn(tid: Tid, otid: Option<Tid>, comps: seq<Component>, damaged: Option<(Rejection, bool)>, isEnd: bool)
    | CallContinue(tid: Tid, seen: seq<Seen>, isEnd: bool)
    // An Abort from a peer, or a message too damaged to go on with.
    | TakeToClose(wanted: Tid, reason: CloseReason)
    | CloseNow(tid: Tid, reason: CloseReason)
    // A dialogue of our own.
    | OpenInitiator(ac: seq<nat>)
    | GiveStart(tid: Tid)
    // Timers.
    | ClaimDue(at: int)
    | GiveBack(wanted: Tid)
    | TakeDue(wanted: Tid, at: int)
    | ExpireInvokes(tid: Tid, at: int, idle: bool, last: int)
    | CallTimeout(tid: Tid, expired: seq<Operation>, idle: bool, last: int)
    | AbortIdle(tid: Tid, idle: bool, last: int)
    // The end of a turn.
    | Finish(tid: Tid, turn: Turn, last: int)

  predicate IsCall(pc: Pc) {
    pc.Admit? || pc.TakeTurn? || pc.TakeToClose? || pc.OpenInitiator? || pc.ClaimDue? || pc.GiveBack? || pc.TakeDue?
  }

  predicate Holds(pc: Pc) { !IsCall(pc) && !pc.OpenResponder? }

  /** No handler was given the dialogue in hand yet. */
  predicate BeforeHandler(pc: Pc) { pc.TakeInBegin? || pc.GiveBegin? || pc.GiveStart? }

  function PlaceFor(pc: Pc): Place { if BeforeHandler(pc) then Made else Flying }

  // ── What threads share ─────────────────────────────────────────────────────

  /** Where every dialogue is, those in the store, and those in hand. */
  datatype Core = Core(book: Book, store: Store, hands: map<Tid, Dialogue>)

  function MakeIn(c: Core, d: Dialogue): Core { Core(Make(c.book), c.store, c.hands[TidOf(c.book.counter + 1) := d]) }

  function DropIn(c: Core, tid: Tid): Core { Core(Discard(c.book, tid), c.store, c.hands - {tid}) }

  function GiveIn(c: Core, tid: Tid, first: Callback, d: Dialogue): Core { Core(Give(c.book, tid, first), c.store, c.hands[tid := d]) }

  function WorkIn(c: Core, tid: Tid, d: Dialogue): Core { c.(hands := c.hands[tid := d]) }

  function TakeOut(c: Core, tid: Tid): Core
    requires tid in c.book.entries && tid in c.store
  {
    Core(Take(c.book, tid), WithoutRecord(c.store, tid), c.hands[tid := c.store[tid].dialogue])
  }

  function CallIn(c: Core, tid: Tid, callback: Callback, d: Dialogue): Core
    requires tid in c.book.entries
  {
    Core(Call(c.book, tid, callback), c.store, c.hands[tid := d])
  }

  function CloseIn(c: Core, tid: Tid, reason: CloseReason): Core
    requires tid in c.book.entries
  {
    Core(Close(c.book, tid, reason), c.store, c.hands - {tid})
  }

  function KeepIn(c: Core, tid: Tid, d: Dialogue, at: int): Core
    requires tid in c.book.entries
  {
    Core(Keep(c.book, tid), WithRecord(c.store, tid, d, at), c.hands - {tid})
  }

  /** All dialogues in hand but one are as before. */
  ghost predicate OnlyHand(before: map<Tid, Dialogue>, after: map<Tid, Dialogue>, tid: Tid) {
    forall other | other != tid :: (other in after <==> other in before) && (other in before ==> after[other] == before[other])
  }

  // ── What the core keeps ────────────────────────────────────────────────────

  /** A law that holds of every new dialogue. */
  ghost predicate HoldsOfNew(law: Dialogue -> bool) {
    forall role, tid, peer, ac, idle | role == Initiator ==> peer == NoTid :: law(New(role, tid, peer, ac, idle))
  }

  /** A law that no work on a dialogue breaks. */
  ghost predicate KeptByWork(codec: Codec, law: Dialogue -> bool) {
    forall d, work | law(d) :: law(Done(codec, d, work))
  }

  /** Our id of a dialogue is the one it is known by, and the law holds of it. */
  ghost predicate Sane(law: Dialogue -> bool, tid: Tid, d: Dialogue) { d.ourTid == tid && law(d) }

  /** The store and the hands hold the dialogues that the book says are there; those in the store are open. */
  ghost predicate Contents(law: Dialogue -> bool, entries: Entries, store: Store, hands: map<Tid, Dialogue>) {
    && (forall tid :: tid in store <==> tid in entries && entries[tid].place.Stored?)
    && (forall tid :: tid in hands <==> tid in entries && InHand(entries[tid].place))
    && (forall tid | tid in store :: Sane(law, tid, store[tid].dialogue) && store[tid].dialogue.closed.None?)
    && (forall tid | tid in hands :: Sane(law, tid, hands[tid]))
  }

  ghost predicate CoreSound(law: Dialogue -> bool, c: Core) { Sound(c.book) && Contents(law, c.book.entries, c.store, c.hands) }

  lemma PutInHand(law: Dialogue -> bool, entries: Entries, store: Store, hands: map<Tid, Dialogue>, tid: Tid, entry: Entry, d: Dialogue)
    requires Contents(law, entries, store, hands) && InHand(entry.place) && Sane(law, tid, d)
    ensures Contents(law, entries[tid := entry], store - {tid}, hands[tid := d])
  {}

  lemma PutInStore(law: Dialogue -> bool, entries: Entries, store: Store, hands: map<Tid, Dialogue>, tid: Tid, entry: Entry, r: Record)
    requires Contents(law, entries, store, hands) && entry.place.Stored? && Sane(law, tid, r.dialogue) && r.dialogue.closed.None?
    ensures Contents(law, entries[tid := entry], store[tid := r], hands - {tid})
  {}

  lemma PutAway(law: Dialogue -> bool, entries: Entries, store: Store, hands: map<Tid, Dialogue>, tid: Tid, entry: Entry)
    requires Contents(law, entries, store, hands) && entry.place.Gone?
    ensures Contents(law, entries[tid := entry], store - {tid}, hands - {tid})
  {}

  lemma PutOut(law: Dialogue -> bool, entries: Entries, store: Store, hands: map<Tid, Dialogue>, tid: Tid)
    requires Contents(law, entries, store, hands)
    ensures Contents(law, entries - {tid}, store - {tid}, hands - {tid})
  {}

  /** Claims do not change which dialogues are in the store, or what they are. */
  lemma SameStore(law: Dialogue -> bool, entries: Entries, store: Store, hands: map<Tid, Dialogue>, after: Store)
    requires Contents(law, entries, store, hands)
    requires after.Keys == store.Keys && forall tid | tid in store :: after[tid].dialogue == store[tid].dialogue
    ensures Contents(law, entries, after, hands)
  {
    forall tid ensures tid in after <==> tid in store {
      assert tid in after.Keys <==> tid in store.Keys;
    }
  }

  lemma NotStored(law: Dialogue -> bool, c: Core, tid: Tid)
    requires CoreSound(law, c) && (tid in c.book.entries ==> !c.book.entries[tid].place.Stored?)
    ensures c.store - {tid} == c.store
  {}

  lemma MadeInHand(law: Dialogue -> bool, c: Core, tid: Tid, d: Dialogue)
    requires CoreSound(law, c) && tid !in c.book.entries && Sane(law, tid, d)
    ensures Contents(law, c.book.entries[tid := Entry(Made, [])], c.store, c.hands[tid := d])
  {
    NotStored(law, c, tid);
    PutInHand(law, c.book.entries, c.store, c.hands, tid, Entry(Made, []), d);
  }

  lemma MakeInIsSound(law: Dialogue -> bool, c: Core, d: Dialogue)
    requires CoreSound(law, c) && c.book.counter + 1 < TwoTo31 && Sane(law, TidOf(c.book.counter + 1), d)
    ensures CoreSound(law, MakeIn(c, d)) && TidOf(c.book.counter + 1) !in c.book.entries
    ensures OnlyAt(c.book.entries, MakeIn(c, d).book.entries, TidOf(c.book.counter + 1)) && At(MakeIn(c, d).book, TidOf(c.book.counter + 1), Made)
  {
    MakeIsSound(c.book);
    MadeInHand(law, c, TidOf(c.book.counter + 1), d);
  }

  lemma DropInIsSound(law: Dialogue -> bool, c: Core, tid: Tid)
    requires CoreSound(law, c) && At(c.book, tid, Made)
    ensures CoreSound(law, DropIn(c, tid))
    ensures OnlyAt(c.book.entries, DropIn(c, tid).book.entries, tid) && tid !in DropIn(c, tid).book.entries
  {
    DiscardIsSound(c.book, tid);
    NotStored(law, c, tid);
    PutOut(law, c.book.entries, c.store, c.hands, tid);
  }

  lemma GiveInIsSound(law: Dialogue -> bool, c: Core, tid: Tid, first: Callback, d: Dialogue)
    requires CoreSound(law, c) && At(c.book, tid, Made) && (first.OnBegin? || first.OnStart?) && Sane(law, tid, d)
    ensures CoreSound(law, GiveIn(c, tid, first, d))
    ensures OnlyAt(c.book.entries, GiveIn(c, tid, first, d).book.entries, tid) && At(GiveIn(c, tid, first, d).book, tid, Flying)
  {
    GiveIsSound(c.book, tid, first);
    NotStored(law, c, tid);
    PutInHand(law, c.book.entries, c.store, c.hands, tid, Entry(Flying, [first]), d);
  }

  lemma WorkInIsSound(law: Dialogue -> bool, c: Core, tid: Tid, d: Dialogue)
    requires CoreSound(law, c) && tid in c.hands && Sane(law, tid, d)
    ensures CoreSound(law, WorkIn(c, tid, d))
  {
    NotStored(law, c, tid);
    PutInHand(law, c.book.entries, c.store, c.hands, tid, c.book.entries[tid], d);
    assert c.book.entries[tid := c.book.entries[tid]] == c.book.entries;
  }

  lemma TakeOutIsSound(law: Dialogue -> bool, c: Core, tid: Tid)
    requires CoreSound(law, c) && tid in c.store
    ensures tid in c.book.entries && CoreSound(law, TakeOut(c, tid)) && c.store[tid].dialogue.closed.None?
    ensures OnlyAt(c.book.entries, TakeOut(c, tid).book.entries, tid) && At(TakeOut(c, tid).book, tid, Flying) && At(c.book, tid, Stored)
  {
    TakeIsSound(c.book, tid);
    PutInHand(law, c.book.entries, c.store, c.hands, tid, c.book.entries[tid].(place := Flying), c.store[tid].dialogue);
  }

  lemma CallInIsSound(law: Dialogue -> bool, c: Core, tid: Tid, callback: Callback, d: Dialogue)
    requires CoreSound(law, c) && At(c.book, tid, Flying) && (callback.OnContinue? || callback.OnInvokeTimeout?) && Sane(law, tid, d)
    ensures CoreSound(law, CallIn(c, tid, callback, d))
    ensures OnlyAt(c.book.entries, CallIn(c, tid, callback, d).book.entries, tid) && At(CallIn(c, tid, callback, d).book, tid, Flying)
  {
    CallIsSound(c.book, tid, callback);
    NotStored(law, c, tid);
    PutInHand(law, c.book.entries, c.store, c.hands, tid, Entry(Flying, c.book.entries[tid].calls + [callback]), d);
  }

  lemma CloseInIsSound(law: Dialogue -> bool, c: Core, tid: Tid, reason: CloseReason)
    requires CoreSound(law, c) && At(c.book, tid, Flying)
    ensures CoreSound(law, CloseIn(c, tid, reason))
    ensures OnlyAt(c.book.entries, CloseIn(c, tid, reason).book.entries, tid) && At(CloseIn(c, tid, reason).book, tid, Gone)
  {
    CloseIsSound(c.book, tid, reason);
    NotStored(law, c, tid);
    PutAway(law, c.book.entries, c.store, c.hands, tid, Entry(Gone, c.book.entries[tid].calls + [OnClosed(reason)]));
  }

  lemma KeepInIsSound(law: Dialogue -> bool, c: Core, tid: Tid, d: Dialogue, at: int)
    requires CoreSound(law, c) && At(c.book, tid, Flying) && Sane(law, tid, d) && d.closed.None?
    ensures CoreSound(law, KeepIn(c, tid, d, at)) && tid !in c.store
    ensures OnlyAt(c.book.entries, KeepIn(c, tid, d, at).book.entries, tid) && At(KeepIn(c, tid, d, at).book, tid, Stored)
  {
    KeepIsSound(c.book, tid);
    PutInStore(law, c.book.entries, c.store, c.hands, tid, c.book.entries[tid].(place := Stored), Record(d, at, false));
  }
}
