/**
 Facts about the status of routes and the marks deferred for them: what one new
 status, one new mark, or the release of a destination changes.
 */
module RouteMarks {
  import opened Options
  import opened RouteChoice
  import opened Signalling
  import opened Observer
  import opened Invariants

  // ── The status of a route ──────────────────────────────────────────────────

  /** The routes of a destination after its first route through `ls` got a new status. */
  function WithStatus(routes: seq<RouteState>, p: nat, status: RouteStatus): seq<RouteState>
    requires p < |routes|
  {
    routes[p := routes[p].(status := status)]
  }

  lemma SameViasSameFirst(a: seq<RouteState>, b: seq<RouteState>, ls: LinksetId)
    requires |a| == |b| && forall i | 0 <= i < |a| :: a[i].via == b[i].via
    ensures FirstVia(a, ls) == FirstVia(b, ls)
  {
    var p, q := FirstVia(a, ls), FirstVia(b, ls);
    if p.Some? && q.Some? {
      if p.value < q.value {
        assert false;
      } else if q.value < p.value {
        assert false;
      }
    }
  }

  lemma StatusOfMarked(routes: seq<RouteState>, ls: LinksetId, p: nat, status: RouteStatus, other: LinksetId)
    requires FirstVia(routes, ls) == Some(p)
    ensures StatusVia(WithStatus(routes, p, status), other) == if other == ls then status else StatusVia(routes, other)
  {
    SameViasSameFirst(routes, WithStatus(routes, p, status), other);
  }

  /** The routes of a destination with every route through `ls` allowed. */
  function Reopened(routes: seq<RouteState>, ls: LinksetId): (r: seq<RouteState>)
    ensures |r| == |routes|
    ensures forall i | 0 <= i < |routes| ::
              r[i] == if routes[i].via == ViaLinkset(ls) then routes[i].(status := Allowed) else routes[i]
  {
    seq(|routes|, i requires 0 <= i < |routes| =>
      if routes[i].via == ViaLinkset(ls) then routes[i].(status := Allowed) else routes[i])
  }

  lemma StatusOfReopened(routes: seq<RouteState>, ls: LinksetId, other: LinksetId)
    ensures StatusVia(Reopened(routes, ls), other) == if other == ls then Allowed else StatusVia(routes, other)
  {
    SameViasSameFirst(routes, Reopened(routes, ls), other);
  }

  /** How many routes through `ls` are not allowed. */
  function Barred(routes: seq<RouteState>, ls: LinksetId): (count: nat)
    ensures count > 0 <==> exists i :: 0 <= i < |routes| && routes[i].via == ViaLinkset(ls) && routes[i].status != Allowed
  {
    if routes == [] then 0
    else
      var last := routes[|routes| - 1];
      Barred(routes[..|routes| - 1], ls) + (if last.via == ViaLinkset(ls) && last.status != Allowed then 1 else 0)
  }

  lemma BarredIsMarked(routes: seq<RouteState>, ls: LinksetId)
    requires MarkedFirstOnly(routes)
    ensures Barred(routes, ls) > 0 <==> StatusVia(routes, ls) != Allowed
  {
    if Barred(routes, ls) > 0 {
      var i :| 0 <= i < |routes| && routes[i].via == ViaLinkset(ls) && routes[i].status != Allowed;
      var p := FirstVia(routes, ls).value;
      if p < i {
        assert false;
      }
    }
  }

  lemma ConfiguredReopened(t: Topology, routes: Routes, ls: LinksetId)
    requires Configured(t, routes)
    ensures Configured(t, AllReopened(routes, ls))
  {
    forall d | d in t.routes
      ensures AsConfigured(t.routes[d], AllReopened(routes, ls)[d])
    {
      assert AsConfigured(t.routes[d], routes[d]);
    }
  }

  lemma ConfiguredMarked(t: Topology, routes: Routes, d: PointCode, p: nat, status: RouteStatus)
    requires Configured(t, routes) && d in routes && p < |routes[d]|
    ensures Configured(t, routes[d := WithStatus(routes[d], p, status)])
  {
    var after := routes[d := WithStatus(routes[d], p, status)];
    assert after.Keys == routes.Keys;
    forall e | e in t.routes
      ensures AsConfigured(t.routes[e], after[e])
    {
      assert AsConfigured(t.routes[e], routes[e]);
    }
  }

  /** A route that is marked goes through a linkset there is. */
  lemma MarkedInRange(t: Topology, routes: Routes, d: PointCode, ls: LinksetId)
    requires t.Valid() && Configured(t, routes) && d in routes && StatusVia(routes[d], ls) != Allowed
    ensures ls < |t.linksets|
  {
    var p := FirstVia(routes[d], ls).value;
    assert AsConfigured(t.routes[d], routes[d]);
    assert InRange(t.routes[d], |t.linksets|);
    assert t.routes[d][p].via == ViaLinkset(ls);
  }

  // ── Deferred marks ─────────────────────────────────────────────────────────

  lemma LastOfOneMore(deferred: seq<Action>, a: Action, ls: LinksetId, base: RouteStatus)
    requires a.Route?
    ensures LastMark(deferred + [a], ls, base) == if a.linkset == ls then a.status else LastMark(deferred, ls, base)
  {
    assert (deferred + [a])[..|deferred|] == deferred;
  }

  lemma {:induction false} LastMarkOfMarked(deferred: seq<Action>, ls: LinksetId, base: RouteStatus, other: RouteStatus)
    ensures HasMark(deferred, ls) ==> LastMark(deferred, ls, base) == LastMark(deferred, ls, other)
    ensures !HasMark(deferred, ls) ==> LastMark(deferred, ls, base) == base
    decreases |deferred|
  {
    if deferred != [] {
      var last, before := deferred[|deferred| - 1], deferred[..|deferred| - 1];
      assert last in deferred;
      LastMarkOfMarked(before, ls, base, other);
      if !(last.Route? && last.linkset == ls) && HasMark(deferred, ls) {
        var a :| a in deferred && a.Route? && a.linkset == ls;
        assert a in before;
      }
    }
  }

  // ── Allowing every route through a linkset ─────────────────────────────────

  function AllReopened(routes: Routes, ls: LinksetId): Routes {
    map d | d in routes :: Reopened(routes[d], ls)
  }

  /** The routes that are allowed again although a mark for them is still to be applied. */
  function Overtaken(routes: Routes, deferred: Deferred, ls: LinksetId): set<(PointCode, LinksetId)> {
    set d | d in routes && StatusVia(routes[d], ls) != Allowed && HasMark(DeferredOf(deferred, d), ls) :: (d, ls)
  }

  lemma PairReopened(routes: Routes, deferred: Deferred, marks: Marks, stale: set<(PointCode, LinksetId)>,
                     ls: LinksetId, after: Marks, d: PointCode, other: LinksetId)
    requires d in routes && PairRight(routes, deferred, marks, stale, d, other)
    requires MarkOf(after, d, other) == if other == ls && StatusVia(routes[d], ls) != Allowed then Allowed else MarkOf(marks, d, other)
    ensures PairRight(AllReopened(routes, ls), deferred, after, stale + Overtaken(routes, deferred, ls), d, other)
  {
    StatusOfReopened(routes[d], ls, other);
    var over := Overtaken(routes, deferred, ls);
    if other == ls {
      LastMarkOfMarked(DeferredOf(deferred, d), ls, MarkOf(marks, d, ls), MarkOf(after, d, ls));
      LastMarkOfMarked(DeferredOf(deferred, d), ls, MarkOf(after, d, ls), MarkOf(marks, d, ls));
      assert (d, ls) in over <==> StatusVia(routes[d], ls) != Allowed && HasMark(DeferredOf(deferred, d), ls);
    } else {
      assert (d, other) !in over;
    }
  }

  /** Allowing the routes through a linkset keeps every mark right, except where one is still to be applied. */
  lemma RefineReopened(routes: Routes, deferred: Deferred, marks: Marks, stale: set<(PointCode, LinksetId)>,
                       ls: LinksetId, after: Marks)
    requires MarksRefine(routes, deferred, marks, stale)
    requires forall d, other: nat | d in routes ::
               MarkOf(after, d, other) == if other == ls && StatusVia(routes[d], ls) != Allowed then Allowed else MarkOf(marks, d, other)
    ensures MarksRefine(AllReopened(routes, ls), deferred, after, stale + Overtaken(routes, deferred, ls))
  {
    forall d, other: nat | d in routes
      ensures PairRight(AllReopened(routes, ls), deferred, after, stale + Overtaken(routes, deferred, ls), d, other)
    {
      PairReopened(routes, deferred, marks, stale, ls, after, d, other);
    }
  }

  lemma TestedReopened(routes: Routes, tests: set<(PointCode, LinksetId)>, ls: LinksetId, after: set<(PointCode, LinksetId)>)
    requires RoutesTested(routes, tests)
    requires forall p: (PointCode, LinksetId) :: p in after <==> p in tests && p.1 != ls
    ensures RoutesTested(AllReopened(routes, ls), after)
  {
    forall d, other: nat | d in routes
      ensures (d, other) in after <==> StatusVia(AllReopened(routes, ls)[d], other) != Allowed
    {
      StatusOfReopened(routes[d], ls, other);
    }
  }

  // ── A new status ───────────────────────────────────────────────────────────

  lemma TestedMarked(routes: Routes, tests: set<(PointCode, LinksetId)>, d: PointCode, ls: LinksetId, p: nat, status: RouteStatus)
    requires RoutesTested(routes, tests) && d in routes && Sayable(d) && FirstVia(routes[d], ls) == Some(p)
    ensures RoutesTested(routes[d := WithStatus(routes[d], p, status)], Put(tests, (d, ls), status != Allowed))
  {
    var after := routes[d := WithStatus(routes[d], p, status)];
    forall e, other: nat | e in after
      ensures (e, other) in Put(tests, (d, ls), status != Allowed) <==> StatusVia(after[e], other) != Allowed
    {
      if e == d {
        StatusOfMarked(routes[d], ls, p, status, other);
      }
    }
  }

  /**
   The first route of `d` through `ls` got a new status, and the marks and the
   deferred marks of `d` changed so that the route ends up marked with it and
   every other route of `d` as before.
   */
  lemma RefineMarked(routes: Routes, deferred: Deferred, marks: Marks, stale: set<(PointCode, LinksetId)>,
                     d: PointCode, ls: LinksetId, p: nat, status: RouteStatus, deferredAfter: Deferred, marksAfter: Marks)
    requires MarksRefine(routes, deferred, marks, stale) && d in routes && FirstVia(routes[d], ls) == Some(p)
    requires forall e | e != d :: DeferredOf(deferredAfter, e) == DeferredOf(deferred, e)
    requires forall e, other: nat | e != d :: MarkOf(marksAfter, e, other) == MarkOf(marks, e, other)
    requires forall other: nat ::
               LastMark(DeferredOf(deferredAfter, d), other, MarkOf(marksAfter, d, other)) ==
               if other == ls then status else LastMark(DeferredOf(deferred, d), other, MarkOf(marks, d, other))
    ensures MarksRefine(routes[d := WithStatus(routes[d], p, status)], deferredAfter, marksAfter, stale - {(d, ls)})
  {
    var after := routes[d := WithStatus(routes[d], p, status)];
    forall e, other: nat | e in after
      ensures PairRight(after, deferredAfter, marksAfter, stale - {(d, ls)}, e, other)
    {
      assert PairRight(routes, deferred, marks, stale, e, other);
      if e == d {
        StatusOfMarked(routes[d], ls, p, status, other);
      }
    }
  }

  /** A destination was released: its deferred marks were applied. */
  lemma RefineReleased(routes: Routes, deferred: Deferred, marks: Marks, stale: set<(PointCode, LinksetId)>,
                       d: PointCode, marksAfter: Marks)
    requires MarksRefine(routes, deferred, marks, stale)
    requires forall e, other: nat | e != d :: MarkOf(marksAfter, e, other) == MarkOf(marks, e, other)
    requires forall other: nat :: MarkOf(marksAfter, d, other) == LastMark(DeferredOf(deferred, d), other, MarkOf(marks, d, other))
    ensures MarksRefine(routes, deferred - {d}, marksAfter, stale)
  {
    forall e, other: nat | e in routes
      ensures PairRight(routes, deferred - {d}, marksAfter, stale, e, other)
    {
      assert PairRight(routes, deferred, marks, stale, e, other);
    }
  }
}
