/**
 Where every dialogue is, by its transaction id: made and not yet given to a
 handler, in a turn, in the store, or over. Which thread has it in hand, and what
 its handler was called with.
 */
module Bookkeeping {
  import opened Options
  import opened InvokeIds
  import opened Tcap

  const TwoTo31 := 0x8000_0000

  /** The id the counter gives: four octets with the high bit set. */
  function TidOf(counter: nat): Tid { Tid(4, TwoTo31 + counter % TwoTo31) }

  /** What a handler is called with: of a message, the views of its components; of a timeout, which invoke it was. */
  datatype Callback =
    | OnBegin(first: Seen, further: seq<Seen>)
    | OnStart
    | OnContinue(seen: seq<Seen>, ended: bool)
    | OnInvokeTimeout(id: InvokeId, op: int, kind: OperationClass)
    | OnClosed(reason: CloseReason)

  /** Made and not yet given to a handler, in a turn, in the store, or over. */
  datatype Place = Made | Flying | Stored | Gone

  /** Where a dialogue is, and what its handler was called with. */
  datatype Entry = Entry(place: Place, calls: seq<Callback>)

  type Entries = map<Tid, Entry>

  /** `opens` and `closes` count how often a dialogue entered and left the store. */
  datatype Book = Book(entries: Entries, counter: nat, opens: nat, closes: nat)

  const NoDialogues := Book(map[], 0, 0, 0)

  predicate At(b: Book, tid: Tid, place: Place) { tid in b.entries && b.entries[tid].place == place }

  // ── Steps ──────────────────────────────────────────────────────────────────

  function Make(b: Book): Book { b.(counter := b.counter + 1, entries := b.entries[TidOf(b.counter + 1) := Entry(Made, [])]) }

  function Discard(b: Book, tid: Tid): Book { b.(entries := b.entries - {tid}) }

  /** The handler is given the dialogue. */
  function Give(b: Book, tid: Tid, first: Callback): Book { b.(entries := b.entries[tid := Entry(Flying, [first])]) }

  function Take(b: Book, tid: Tid): Book
    requires tid in b.entries
  {
    b.(entries := b.entries[tid := b.entries[tid].(place := Flying)], closes := b.closes + 1)
  }

  function Call(b: Book, tid: Tid, callback: Callback): Book
    requires tid in b.entries
  {
    b.(entries := b.entries[tid := Entry(Flying, b.entries[tid].calls + [callback])])
  }

  /** The handler is told that the dialogue is over. */
  function Close(b: Book, tid: Tid, reason: CloseReason): Book
    requires tid in b.entries
  {
    b.(entries := b.entries[tid := Entry(Gone, b.entries[tid].calls + [OnClosed(reason)])])
  }

  function Keep(b: Book, tid: Tid): Book
    requires tid in b.entries
  {
    b.(entries := b.entries[tid := b.entries[tid].(place := Stored)], opens := b.opens + 1)
  }

  // ── What every step keeps ──────────────────────────────────────────────────

  /** A handler is called first to begin, and last, once, to be told of the end. */
  ghost predicate CalledInOrder(calls: seq<Callback>, gone: bool) {
    && calls != [] && (calls[0].OnBegin? || calls[0].OnStart?)
    && (forall i | 0 < i < |calls| :: !calls[i].OnBegin? && !calls[i].OnStart?)
    && (forall i | 0 <= i < |calls| :: calls[i].OnClosed? <==> gone && i == |calls| - 1)
  }

  ghost predicate EntryOk(entry: Entry) {
    if entry.place.Made? then entry.calls == [] else CalledInOrder(entry.calls, entry.place.Gone?)
  }

  /** The id was given out. */
  ghost predicate Issued(counter: nat, tid: Tid) { tid.Tid? && tid.octets == 4 && TwoTo31 < tid.value <= TwoTo31 + counter }

  /** As long as the counter has not gone round, that is so of the ids it gave and of no other. */
  lemma IssuedMeans(counter: nat, tid: Tid)
    requires counter < TwoTo31
    ensures Issued(counter, tid) <==> exists k: nat :: 0 < k <= counter && tid == TidOf(k)
  {
    if Issued(counter, tid) {
      var k := tid.value - TwoTo31;
      assert k % TwoTo31 == k && tid == TidOf(k);
    }
    forall k: nat | 0 < k <= counter ensures TidOf(k).value == TwoTo31 + k {
      assert k % TwoTo31 == k;
    }
  }

  ghost predicate EntriesOk(entries: Entries, counter: nat) {
    forall tid | tid in entries :: Issued(counter, tid) && EntryOk(entries[tid])
  }

  ghost function StoredIn(entries: Entries): set<Tid> { set tid | tid in entries && entries[tid].place.Stored? }

  ghost predicate Sound(b: Book) { EntriesOk(b.entries, b.counter) && b.opens == b.closes + |StoredIn(b.entries)| }

  lemma NextTid(counter: nat)
    requires counter + 1 < TwoTo31
    ensures TidOf(counter + 1) == Tid(4, TwoTo31 + counter + 1)
  {
    assert (counter + 1) % TwoTo31 == counter + 1;
  }

  /** The entry of one dialogue changes. */
  lemma OneChanges(entries: Entries, counter: nat, tid: Tid, entry: Entry)
    requires EntriesOk(entries, counter) && Issued(counter, tid) && EntryOk(entry)
    ensures EntriesOk(entries[tid := entry], counter)
    ensures StoredIn(entries[tid := entry]) == if entry.place.Stored? then StoredIn(entries) + {tid} else StoredIn(entries) - {tid}
  {}

  lemma MakeIsSound(b: Book)
    requires Sound(b) && b.counter + 1 < TwoTo31
    ensures Sound(Make(b)) && TidOf(b.counter + 1) !in b.entries
  {
    NextTid(b.counter);
    OneChanges(b.entries, b.counter + 1, TidOf(b.counter + 1), Entry(Made, []));
    assert StoredIn(b.entries) - {TidOf(b.counter + 1)} == StoredIn(b.entries);
  }

  lemma DiscardIsSound(b: Book, tid: Tid)
    requires Sound(b) && At(b, tid, Made)
    ensures Sound(Discard(b, tid))
  {
    assert StoredIn(b.entries - {tid}) == StoredIn(b.entries);
  }

  lemma GiveIsSound(b: Book, tid: Tid, first: Callback)
    requires Sound(b) && At(b, tid, Made) && (first.OnBegin? || first.OnStart?)
    ensures Sound(Give(b, tid, first))
  {
    OneChanges(b.entries, b.counter, tid, Entry(Flying, [first]));
    assert StoredIn(b.entries) - {tid} == StoredIn(b.entries);
  }

  lemma TakeIsSound(b: Book, tid: Tid)
    requires Sound(b) && At(b, tid, Stored)
    ensures Sound(Take(b, tid))
  {
    assert EntryOk(b.entries[tid]);
    OneChanges(b.entries, b.counter, tid, b.entries[tid].(place := Flying));
    assert tid in StoredIn(b.entries);
  }

  lemma LastCall(calls: seq<Callback>, reason: CloseReason)
    requires CalledInOrder(calls, false)
    ensures CalledInOrder(calls + [OnClosed(reason)], true)
  {}

  lemma CloseIsSound(b: Book, tid: Tid, reason: CloseReason)
    requires Sound(b) && At(b, tid, Flying)
    ensures Sound(Close(b, tid, reason))
  {
    assert EntryOk(b.entries[tid]);
    LastCall(b.entries[tid].calls, reason);
    OneChanges(b.entries, b.counter, tid, Entry(Gone, b.entries[tid].calls + [OnClosed(reason)]));
    assert StoredIn(b.entries) - {tid} == StoredIn(b.entries);
  }

  lemma OneMoreCall(calls: seq<Callback>, callback: Callback)
    requires CalledInOrder(calls, false) && (callback.OnContinue? || callback.OnInvokeTimeout?)
    ensures CalledInOrder(calls + [callback], false)
  {}

  lemma CallIsSound(b: Book, tid: Tid, callback: Callback)
    requires Sound(b) && At(b, tid, Flying) && (callback.OnContinue? || callback.OnInvokeTimeout?)
    ensures Sound(Call(b, tid, callback))
  {
    assert EntryOk(b.entries[tid]);
    OneMoreCall(b.entries[tid].calls, callback);
    OneChanges(b.entries, b.counter, tid, Entry(Flying, b.entries[tid].calls + [callback]));
    assert StoredIn(b.entries) - {tid} == StoredIn(b.entries);
  }

  lemma KeepIsSound(b: Book, tid: Tid)
    requires Sound(b) && At(b, tid, Flying)
    ensures Sound(Keep(b, tid))
  {
    assert EntryOk(b.entries[tid]);
    OneChanges(b.entries, b.counter, tid, b.entries[tid].(place := Stored));
    assert tid !in StoredIn(b.entries);
  }

  // ── In whose hands ─────────────────────────────────────────────────────────

  type ThreadId = nat

  predicate InHand(place: Place) { place.Made? || place.Flying? }

  /** Every dialogue in hand is in the hands of exactly one thread, and a thread has no other. */
  ghost predicate Owned(hands: map<ThreadId, Tid>, entries: Entries) {
    && (forall p | p in hands :: hands[p] in entries && InHand(entries[hands[p]].place))
    && (forall tid | tid in entries && InHand(entries[tid].place) :: exists p :: p in hands && hands[p] == tid)
    && (forall p, q | p in hands && q in hands && hands[p] == hands[q] :: p == q)
  }

  /** All entries but one are as before. */
  ghost predicate OnlyAt(before: Entries, after: Entries, tid: Tid) {
    forall other | other != tid :: (other in after <==> other in before) && (other in before ==> after[other] == before[other])
  }

  /** A thread takes a dialogue that nobody had. */
  lemma HandGains(hands: map<ThreadId, Tid>, entries: Entries, p: ThreadId, tid: Tid, after: Entries)
    requires Owned(hands, entries) && p !in hands && (tid in entries ==> !InHand(entries[tid].place))
    requires OnlyAt(entries, after, tid) && tid in after && InHand(after[tid].place)
    ensures Owned(hands[p := tid], after)
  {
    var now := hands[p := tid];
    forall other | other in after && InHand(after[other].place) ensures exists q :: q in now && now[q] == other {
      if other == tid {
        assert now[p] == tid;
      } else {
        var q :| q in hands && hands[q] == other;
        assert now[q] == other;
      }
    }
  }

  /** A thread goes on with the dialogue it has. */
  lemma HandKeeps(hands: map<ThreadId, Tid>, entries: Entries, p: ThreadId, after: Entries)
    requires Owned(hands, entries) && p in hands
    requires OnlyAt(entries, after, hands[p]) && hands[p] in after && InHand(after[hands[p]].place)
    ensures Owned(hands, after)
  {
    forall other | other in after && InHand(after[other].place) ensures exists q :: q in hands && hands[q] == other {
      if other == hands[p] {
        assert hands[p] == other;
      }
    }
  }

  /** A thread lets go of the dialogue it has: into the store, or because it is over. */
  lemma HandLoses(hands: map<ThreadId, Tid>, entries: Entries, p: ThreadId, after: Entries)
    requires Owned(hands, entries) && p in hands
    requires OnlyAt(entries, after, hands[p]) && (hands[p] in after ==> !InHand(after[hands[p]].place))
    ensures Owned(hands - {p}, after)
  {
    forall other | other in after && InHand(after[other].place)
      ensures exists q :: q in hands - {p} && (hands - {p})[q] == other
    {
      assert other != hands[p];
      var q :| q in hands && hands[q] == other;
      assert q in hands - {p} && (hands - {p})[q] == other;
    }
  }

  /** With nothing in any hand, each dialogue that is known is in the store or over, its handler told of the end once and last, or not yet. */
  lemma NothingInHand(b: Book, hands: map<ThreadId, Tid>, tid: Tid)
    requires Sound(b) && Owned(hands, b.entries) && hands == map[] && tid in b.entries
    ensures b.entries[tid].place.Stored? || b.entries[tid].place.Gone?
    ensures b.entries[tid].calls != []
    ensures forall k | 0 <= k < |b.entries[tid].calls| ::
              b.entries[tid].calls[k].OnClosed? <==> b.entries[tid].place.Gone? && k == |b.entries[tid].calls| - 1
  {
    assert EntryOk(b.entries[tid]);
  }
}
