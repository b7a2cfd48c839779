/**
 The allocation of invoke ids (section 3.2.1.1.2 of ITU-T Q.774): a ring over the
 non-negative ids, so that a released id is not given out again at once, and the
 negative ids only when all of those are in progress.
 */
module InvokeIds {
  import opened Options

  type InvokeId = n: int | -128 <= n < 128

  /** There are 256 ids. */
  lemma {:induction false} IdsBelow(ids: set<InvokeId>, count: nat)
    requires forall id | id in ids :: id < count - 128
    ensures |ids| <= count
    decreases count
  {
    if count == 0 {
      assert ids == {};
    } else if id :| id in ids && id == count - 129 {
      IdsBelow(ids - {id}, count - 1);
    } else {
      IdsBelow(ids, count - 1);
    }
  }

  type Ring = n: int | 0 <= n < 128

  /** The `k`-th id that is tried when the search starts at `start`. */
  function Tried(start: Ring, k: nat): (id: InvokeId)
    requires k < 256
    ensures k < 128 <==> id >= 0
  {
    if k < 128 then (start + k) % 128 else 127 - k
  }

  /** How far behind `start` an id of the ring is. */
  function Distance(start: Ring, id: Ring): (k: nat)
    ensures k < 128 && Tried(start, k) == id
  {
    (id - start) % 128
  }

  lemma TriedOnce(start: Ring, j: nat, k: nat)
    requires j < 256 && k < 256 && Tried(start, j) == Tried(start, k)
    ensures j == k
  {}

  lemma EachIsTried(start: Ring, id: InvokeId)
    ensures exists k: nat :: k < 256 && Tried(start, k) == id
  {
    if id >= 0 {
      assert Tried(start, Distance(start, id)) == id;
    } else {
      assert Tried(start, 127 - id) == id;
    }
  }

  function FreeFrom(start: Ring, used: set<InvokeId>, k: nat): Option<nat>
    requires k <= 256
    decreases 256 - k
  {
    if k == 256 then None else if Tried(start, k) !in used then Some(k) else FreeFrom(start, used, k + 1)
  }

  /** The first free id in the order they are tried. */
  function Free(start: Ring, used: set<InvokeId>): Option<InvokeId> {
    FreeFromMeaning(start, used, 0);
    match FreeFrom(start, used, 0)
    case None => None
    case Some(k) => Some(Tried(start, k))
  }

  lemma {:induction false} FreeFromMeaning(start: Ring, used: set<InvokeId>, k: nat)
    requires k <= 256 && forall j: nat | j < k :: Tried(start, j) in used
    ensures FreeFrom(start, used, k).None? ==> forall j: nat | j < 256 :: Tried(start, j) in used
    ensures FreeFrom(start, used, k).Some? ==>
              var found := FreeFrom(start, used, k).value;
              found < 256 && Tried(start, found) !in used && forall j: nat | j < found :: Tried(start, j) in used
    decreases 256 - k
  {
    if k < 256 && Tried(start, k) in used {
      FreeFromMeaning(start, used, k + 1);
    }
  }

  /**
   An id is given out unless all 256 are in progress. It is a free one, negative
   only if every non-negative one is in progress, and otherwise the nearest free
   one in the ring.
   */
  lemma FreeMeaning(start: Ring, used: set<InvokeId>)
    ensures Free(start, used).None? <==> forall id: InvokeId :: id in used
    ensures Free(start, used).Some? ==>
              var id := Free(start, used).value;
              && id !in used
              && (id < 0 ==> forall other: InvokeId | other >= 0 :: other in used)
              && (id >= 0 ==> forall other: Ring | Distance(start, other) < Distance(start, id) :: other in used)
  {
    FreeFromMeaning(start, used, 0);
    match FreeFrom(start, used, 0) {
      case None =>
        forall id: InvokeId ensures id in used {
          EachIsTried(start, id);
        }
      case Some(found) =>
        var id := Tried(start, found);
        if id < 0 {
          forall other: InvokeId | other >= 0 ensures other in used {
            assert Tried(start, Distance(start, other)) == other;
          }
        } else {
          forall other: Ring | Distance(start, other) < Distance(start, id) ensures other in used {
            TriedOnce(start, found, Distance(start, id));
            assert Tried(start, Distance(start, other)) == other;
          }
        }
    }
  }

  /** Where the next search starts. */
  function After(start: InvokeId, id: InvokeId): InvokeId { if id >= 0 then (id + 1) % 128 else start }

  function Start(next: InvokeId): Ring { if next < 0 then 0 else next }

  /** Search for a free id: around the ring, then among the negative ids. */
  method Allocate(next: InvokeId, used: set<InvokeId>) returns (id: Option<InvokeId>, after: InvokeId)
    ensures id == Free(Start(next), used)
    ensures after == if id.Some? then After(next, id.value) else next
  {
    var start := Start(next);
    var k := 0;
    while k < 256
      invariant 0 <= k <= 256
      invariant FreeFrom(start, used, 0) == FreeFrom(start, used, k)
    {
      var candidate := Tried(start, k);
      if candidate !in used {
        return Some(candidate), After(next, candidate);
      }
      k := k + 1;
    }
    return None, next;
  }

  // ── The ring over time ─────────────────────────────────────────────────────

  /** One allocation: where the search started, what was in progress and what was given out. */
  datatype Grant = Grant(next: InvokeId, used: set<InvokeId>, id: InvokeId)

  /** A run of allocations, each starting where the one before left off. */
  ghost predicate Run(grants: seq<Grant>) {
    && (forall k | 0 <= k < |grants| :: Free(Start(grants[k].next), grants[k].used) == Some(grants[k].id))
    && (forall k | 0 <= k < |grants| - 1 :: grants[k + 1].next == After(grants[k].next, grants[k].id))
  }

  /** An id was given out, or found in progress, in one of the allocations `lo..hi`. */
  ghost predicate Visited(grants: seq<Grant>, lo: nat, hi: nat, x: InvokeId) {
    exists k :: lo <= k < hi <= |grants| && (grants[k].id == x || x in grants[k].used)
  }

  /** Having gone `travelled` places on from `s`, the ring has visited that many places. */
  ghost predicate Swept(grants: seq<Grant>, lo: nat, hi: nat, s: Ring, travelled: nat) {
    forall x: Ring | Distance(s, x) < travelled :: Visited(grants, lo, hi, x)
  }

  lemma VisitedLater(grants: seq<Grant>, lo: nat, hi: nat, x: InvokeId)
    requires Visited(grants, lo, hi, x) && hi < |grants|
    ensures Visited(grants, lo, hi + 1, x)
  {
    var k :| lo <= k < hi && (grants[k].id == x || x in grants[k].used);
    assert lo <= k < hi + 1;
  }

  /** A place `m` or fewer on from where the search starts was in progress, or is given out. */
  lemma OneGrantVisits(g: Grant, x: Ring)
    requires Free(Start(g.next), g.used) == Some(g.id)
    requires g.id < 0 || Distance(Start(g.next), x) <= Distance(Start(g.next), g.id)
    ensures g.id == x || x in g.used
  {
    FreeMeaning(Start(g.next), g.used);
    if g.id >= 0 && Distance(Start(g.next), x) == Distance(Start(g.next), g.id) {
      TriedOnce(Start(g.next), Distance(Start(g.next), x), Distance(Start(g.next), g.id));
    }
  }

  lemma DistanceOn(s: Ring, p: Ring, travelled: nat, x: Ring)
    requires p == (s + travelled) % 128 && travelled <= Distance(s, x)
    ensures Distance(p, x) == Distance(s, x) - travelled
  {}

  lemma SweptOneMore(grants: seq<Grant>, lo: nat, hi: nat, s: Ring, travelled: nat)
    requires Run(grants) && lo <= hi < |grants| && Swept(grants, lo, hi, s, travelled)
    requires grants[hi].id >= 0 && Points(grants[hi].next, s, travelled)
    ensures Swept(grants, lo, hi + 1, s, travelled + Distance(Start(grants[hi].next), grants[hi].id) + 1)
  {
    var g := grants[hi];
    var p := Start(g.next);
    forall x: Ring | Distance(s, x) < travelled + Distance(p, g.id) + 1
      ensures Visited(grants, lo, hi + 1, x)
    {
      if Distance(s, x) < travelled {
        VisitedLater(grants, lo, hi, x);
      } else {
        DistanceOn(s, p, travelled, x);
        OneGrantVisits(g, x);
        assert lo <= hi < hi + 1;
      }
    }
  }

  /** The search starts where `travelled` places on from `s` leads. */
  ghost predicate Points(next: InvokeId, s: Ring, travelled: nat) { next >= 0 && next == (s + travelled) % 128 }

  lemma Onward(s: Ring, travelled: nat, next: InvokeId, id: Ring)
    requires Points(next, s, travelled)
    ensures Points(After(next, id), s, travelled + Distance(Start(next), id) + 1)
  {
    var turns, ahead := (s + travelled) / 128, Distance(Start(next), id);
    assert s + travelled == 128 * turns + next;
    assert ahead == if id >= next then id - next else id - next + 128;
    FullTurnsVanish(if id >= next then turns else turns + 1, id + 1);
  }

  lemma FullTurnsVanish(turns: int, place: int)
    ensures (128 * turns + place) % 128 == place % 128
  {}

  /** A negative id is given out without moving on in the ring. */
  lemma SweptNoFurther(grants: seq<Grant>, lo: nat, hi: nat, s: Ring, travelled: nat)
    requires Run(grants) && lo <= hi < |grants| && Swept(grants, lo, hi, s, travelled)
    ensures Swept(grants, lo, hi + 1, s, travelled)
  {
    forall x: Ring | Distance(s, x) < travelled ensures Visited(grants, lo, hi + 1, x) {
      VisitedLater(grants, lo, hi, x);
    }
  }

  /** How far the allocations `lo..hi` went on in the ring. */
  ghost function Travelled(grants: seq<Grant>, lo: nat, hi: nat): nat
    requires lo <= hi <= |grants|
  {
    if lo == hi then 0
    else
      var g := grants[hi - 1];
      Travelled(grants, lo, hi - 1) + (if g.id < 0 then 0 else Distance(Start(g.next), g.id) + 1)
  }

  /** The ring is swept as far as it travelled, and the next search starts there. */
  ghost predicate SweptSoFar(grants: seq<Grant>, lo: nat, hi: nat, s: Ring) {
    lo <= hi < |grants| && Swept(grants, lo, hi, s, Travelled(grants, lo, hi)) && Points(grants[hi].next, s, Travelled(grants, lo, hi))
  }

  lemma SweepStep(grants: seq<Grant>, lo: nat, hi: nat, s: Ring)
    requires Run(grants) && hi + 1 < |grants| && SweptSoFar(grants, lo, hi, s)
    ensures SweptSoFar(grants, lo, hi + 1, s)
  {
    var g, travelled := grants[hi], Travelled(grants, lo, hi);
    assert grants[hi + 1].next == After(g.next, g.id);
    if g.id < 0 {
      assert Travelled(grants, lo, hi + 1) == travelled;
      SweptNoFurther(grants, lo, hi, s, travelled);
    } else {
      assert Travelled(grants, lo, hi + 1) == travelled + (Distance(Start(g.next), g.id) + 1);
      SweptOneMore(grants, lo, hi, s, travelled);
      Onward(s, travelled, g.next, g.id);
    }
  }

  lemma NextSwept(grants: seq<Grant>, lo: nat, before: nat, hi: nat, s: Ring)
    requires Run(grants) && before + 1 == hi < |grants| && SweptSoFar(grants, lo, before, s)
    ensures SweptSoFar(grants, lo, hi, s)
  {
    SweepStep(grants, lo, before, s);
  }

  lemma SweepStart(grants: seq<Grant>, lo: nat, s: Ring)
    requires lo < |grants| && grants[lo].next == s
    ensures SweptSoFar(grants, lo, lo, s)
  {
    assert Travelled(grants, lo, lo) == 0 && (s + 0) % 128 == s;
  }

  /** The allocations `lo..hi` swept the ring as far as it travelled. */
  lemma {:induction false} RingSweeps(grants: seq<Grant>, lo: nat, hi: nat, s: Ring)
    requires Run(grants) && lo <= hi < |grants| && grants[lo].next == s
    ensures SweptSoFar(grants, lo, hi, s)
    decreases hi
  {
    if lo == hi {
      SweepStart(grants, lo, s);
    } else {
      RingSweeps(grants, lo, hi - 1, s);
      NextSwept(grants, lo, hi - 1, hi, s);
    }
  }

  /**
   Between two hand-outs of the same non-negative id, every other non-negative id
   was handed out or found in progress.
   */
  lemma NotReusedAtOnce(grants: seq<Grant>, i: nat, j: nat, x: Ring)
    requires Run(grants) && i < j < |grants| && grants[i].id == grants[j].id && grants[i].id >= 0 && x != grants[i].id
    ensures Visited(grants, i + 1, j + 1, x)
  {
    var s: Ring := (grants[i].id + 1) % 128;
    assert grants[i + 1].next == After(grants[i].next, grants[i].id);
    RingSweeps(grants, i + 1, j, s);
    var travelled := Travelled(grants, i + 1, j);
    SweptOneMore(grants, i + 1, j, s, travelled);
    FullTurn(s, travelled, Start(grants[j].next), grants[j].id);
  }

  lemma FullTurn(s: Ring, travelled: nat, p: Ring, id: Ring)
    requires p == (s + travelled) % 128 && s == (id + 1) % 128
    ensures travelled + Distance(p, id) + 1 >= 128
  {}
}
