/**
 The dialogue engine's critical sections: what its one lock protects is the store
 of open dialogues and the counter of transaction ids.
 */
module Engine {
  import opened Options
  import opened Tcap
  import opened Bookkeeping

  datatype Record = Record(dialogue: Dialogue, lastActivity: int, claimed: bool)

  type Store = map<Tid, Record>

  /** An invocation timer of the dialogue, or its idle timeout, ran out. */
  predicate TimersDue(r: Record, now: int) {
    || (exists i :: 0 <= i < |r.dialogue.outstanding| && Due(r.dialogue.outstanding[i], now))
    || IdleDue(r, now)
  }

  predicate IdleDue(r: Record, now: int) {
    r.dialogue.idleTimeout.Some? && (if now < r.lastActivity then 0 else now - r.lastActivity) >= r.dialogue.idleTimeout.value
  }

  /** The dialogues whose timers are due and that no one claimed. */
  function Claimable(store: Store, now: int): set<Tid> {
    set tid | tid in store && !store[tid].claimed && TimersDue(store[tid], now)
  }

  function Claimed(store: Store, now: int): (after: Store)
    ensures after.Keys == store.Keys && forall tid | tid in store :: after[tid].dialogue == store[tid].dialogue
  {
    var due := Claimable(store, now);
    map tid | tid in store :: if tid in due then store[tid].(claimed := true) else store[tid]
  }

  function Unclaimed(store: Store, tid: Tid): (after: Store)
    ensures after.Keys == store.Keys && forall other | other in store :: after[other].dialogue == store[other].dialogue
  {
    if tid in store then store[tid := store[tid].(claimed := false)] else store
  }

  /** A dialogue leaves the store. */
  function WithoutRecord(store: Store, tid: Tid): Store { store - {tid} }

  /** A dialogue goes back into the store, unclaimed. */
  function WithRecord(store: Store, tid: Tid, d: Dialogue, lastActivity: int): Store {
    store[tid := Record(d, lastActivity, false)]
  }

  /** A claim returns only dialogues that are due; until one is given back or has its turn, a second claim passes it by. */
  lemma ClaimedOnce(store: Store, now: int, later: int)
    ensures forall tid | tid in Claimable(store, now) :: tid in store && TimersDue(store[tid], now)
    ensures Claimable(store, now) !! Claimable(Claimed(store, now), later)
  {
    forall tid | tid in Claimable(store, now) ensures tid !in Claimable(Claimed(store, now), later) {
      assert Claimed(store, now)[tid].claimed;
    }
  }

  /** The engine behind its lock: each method is one critical section. */
  class DialogueEngine {
    var dialogues: Store
    var counter: nat

    constructor ()
      ensures dialogues == map[] && counter == 0
    {
      dialogues, counter := map[], 0;
    }

    method OpenDialogues() returns (count: nat)
      ensures count == |dialogues|
    {
      count := |dialogues|;
    }

    /** A transaction id that none of the fewer than 2^31 ids given out before is equal to. */
    method AllocateTid() returns (tid: Tid)
      modifies this`counter
      ensures counter == old(counter) + 1 && tid == TidOf(counter)
      ensures counter < TwoTo31 ==> forall k: nat | k < counter :: TidOf(k) != tid
    {
      counter := counter + 1;
      tid := TidOf(counter);
      forall k: nat | k < counter && counter < TwoTo31 ensures TidOf(k) != tid {
        assert k % TwoTo31 == k && counter % TwoTo31 == counter;
      }
    }

    /** The dialogue with this id leaves the store, if it is there. */
    method Take(tid: Tid) returns (r: Option<Record>)
      modifies this`dialogues
      ensures dialogues == WithoutRecord(old(dialogues), tid)
      ensures r == if tid in old(dialogues) then Some(old(dialogues)[tid]) else None
    {
      r := if tid in dialogues then Some(dialogues[tid]) else None;
      dialogues := dialogues - {tid};
    }

    /** A dialogue whose turn left it open goes back into the store, unclaimed. */
    method Store(d: Dialogue, lastActivity: int)
      modifies this`dialogues
      ensures dialogues == WithRecord(old(dialogues), d.ourTid, d, lastActivity)
    {
      dialogues := dialogues[d.ourTid := Record(d, lastActivity, false)];
    }

    /** The dialogues whose timers are due, each claimed until its timers have run. */
    method ClaimExpired(now: int) returns (due: set<Tid>)
      modifies this`dialogues
      ensures dialogues == Claimed(old(dialogues), now) && due == Claimable(old(dialogues), now)
      ensures forall later :: due !! Claimable(dialogues, later)
    {
      ghost var before := dialogues;
      due := set tid | tid in dialogues && !dialogues[tid].claimed && TimersDue(dialogues[tid], now);
      dialogues := map tid | tid in dialogues :: if tid in due then dialogues[tid].(claimed := true) else dialogues[tid];
      forall later ensures due !! Claimable(dialogues, later) {
        ClaimedOnce(before, now, later);
      }
    }

    method ReleaseClaim(tid: Tid)
      modifies this`dialogues
      ensures dialogues == Unclaimed(old(dialogues), tid)
    {
      if tid in dialogues {
        dialogues := dialogues[tid := dialogues[tid].(claimed := false)];
      }
    }

    /** A dialogue whose timers are still due leaves the store for them to run; any other only loses its claim. */
    method TakeExpired(tid: Tid, now: int) returns (r: Option<Record>)
      modifies this`dialogues
      ensures r.Some? <==> tid in old(dialogues) && TimersDue(old(dialogues)[tid], now)
      ensures r.Some? ==> r.value == old(dialogues)[tid] && dialogues == WithoutRecord(old(dialogues), tid)
      ensures r.None? ==> dialogues == Unclaimed(old(dialogues), tid)
    {
      if tid !in dialogues {
        return None;
      }
      if !TimersDue(dialogues[tid], now) {
        ReleaseClaim(tid);
        return None;
      }
      r := Take(tid);
    }
  }
}
