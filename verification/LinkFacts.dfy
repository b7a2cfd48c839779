/** Facts about one link changing while the others stay. */
module LinkFacts {
  import opened Options
  import opened RouteChoice
  import opened Signalling
  import opened Observer
  import opened Invariants
  import opened NodeState

  /** The timers and buffers of the other links are as before. */
  ghost predicate OthersAsBefore(v: LinkView, w: LinkView, l: LinkId) {
    forall k | k != l ::
      && (k in v.changeover <==> k in w.changeover)
      && (k in v.changeback <==> k in w.changeback)
      && (k in v.inhibitTest <==> k in w.inhibitTest)
      && (k in v.uninhibit <==> k in w.uninhibit)
      && (k in v.forceUninhibit <==> k in w.forceUninhibit)
      && (k in v.held <==> k in w.held)
      && v.late[k] == w.late[k]
  }

  lemma OneTimed(links: seq<Link>, v: LinkView, l: LinkId, k: Link, w: LinkView)
    requires LinksTimed(links, v) && l < |links| && OthersAsBefore(v, w, l) && LinkTimed(k, l, w)
    ensures LinksTimed(links[l := k], w)
  {}

  /** A link that stays as up as it was moves to where it should be. */
  lemma OneMoved(t: Topology, links: seq<Link>, adjacentRestarting: set<LinksetId>, restarting: bool,
                 loose: set<LinkId>, exempt: set<LinksetId>, l: LinkId, k: Link)
    requires t.Valid() && |links| == |t.links| && l < |links|
    requires LinksOk(t, links, adjacentRestarting, restarting, loose)
    requires LinksetsOk(t, links, adjacentRestarting, restarting, exempt)
    requires k.up == links[l].up && LinkOk(k, Waiting(t, adjacentRestarting, restarting, l))
    ensures LinksOk(t, links[l := k], adjacentRestarting, restarting, loose - {l})
    ensures LinksetsOk(t, links[l := k], adjacentRestarting, restarting, exempt)
  {
    forall ls: nat | ls < |t.linksets| && LinksetSignalling(t, links, ls)
      ensures LinksetSignalling(t, links[l := k], ls)
    {
      var up :| up in t.linksets[ls].links && links[up].up;
      assert links[l := k][up].up;
    }
  }

  /** A link comes up, or stays up. */
  lemma OneUp(t: Topology, links: seq<Link>, adjacentRestarting: set<LinksetId>, restarting: bool,
              exempt: set<LinksetId>, l: LinkId, k: Link)
    requires t.Valid() && |links| == |t.links| && l < |links| && k.up
    requires LinksetsOk(t, links, adjacentRestarting, restarting, exempt)
    ensures LinksetsOk(t, links[l := k], adjacentRestarting, restarting, exempt)
  {
    forall ls: nat | ls < |t.linksets| && LinksetSignalling(t, links, ls)
      ensures LinksetSignalling(t, links[l := k], ls)
    {
      var up :| up in t.linksets[ls].links && links[up].up;
      assert links[l := k][up].up;
    }
  }

  /** A link that stays as available as it was leaves the linksets that carry traffic as they were. */
  lemma SameCarrying(t: Topology, links: seq<Link>, l: LinkId, k: Link)
    requires t.Valid() && |links| == |t.links| && l < |links|
    requires Available(k.phase) == Available(links[l].phase)
    ensures CarryingLinksets(t, links[l := k], None) == CarryingLinksets(t, links, None)
  {
    forall ls: nat | ls < |t.linksets|
      ensures LinksetAvailable(t, links[l := k], None, ls) <==> LinksetAvailable(t, links, None, ls)
    {
      if LinksetAvailable(t, links, None, ls) {
        var a :| a in t.linksets[ls].links && LinkAvailable(links, None, a);
        assert LinkAvailable(links[l := k], None, a);
      }
      if LinksetAvailable(t, links[l := k], None, ls) {
        var a :| a in t.linksets[ls].links && LinkAvailable(links[l := k], None, a);
        assert LinkAvailable(links, None, a);
      }
    }
  }

  /** Taking a link out of traffic is leaving it out of the count. */
  lemma WithoutIsClosed(t: Topology, links: seq<Link>, l: LinkId, k: Link)
    requires t.Valid() && |links| == |t.links| && l < |links| && !Available(k.phase)
    ensures CarryingLinksets(t, links[l := k], None) == CarryingLinksets(t, links, Some(l))
  {
    forall ls: nat | ls < |t.linksets|
      ensures LinksetAvailable(t, links[l := k], None, ls) <==> LinksetAvailable(t, links, Some(l), ls)
    {
      if LinksetAvailable(t, links, Some(l), ls) {
        var a :| a in t.linksets[ls].links && LinkAvailable(links, Some(l), a);
        assert LinkAvailable(links[l := k], None, a);
      }
      if LinksetAvailable(t, links[l := k], None, ls) {
        var a :| a in t.linksets[ls].links && LinkAvailable(links[l := k], None, a);
        assert LinkAvailable(links, Some(l), a);
      }
    }
  }

  lemma FewerCarry(t: Topology, links: seq<Link>, l: LinkId)
    requires t.Valid() && |links| == |t.links|
    ensures CarryingLinksets(t, links, Some(l)) <= CarryingLinksets(t, links, None)
  {
    forall ls: nat | ls < |t.linksets| && LinksetAvailable(t, links, Some(l), ls)
      ensures LinksetAvailable(t, links, None, ls)
    {
      var a :| a in t.linksets[ls].links && LinkAvailable(links, Some(l), a);
      assert LinkAvailable(links, None, a);
    }
  }

  /** With fewer linksets that carry traffic, no more destinations are reached. */
  lemma FewerReached(fewer: set<LinksetId>, more: set<LinksetId>, servers: seq<bool>, paused: set<PointCode>, routes: Routes)
    requires fewer <= more
    ensures ReachedSet(fewer, servers, paused, routes) <= ReachedSet(more, servers, paused, routes)
  {
    forall d | d in ReachedSet(fewer, servers, paused, routes)
      ensures d in ReachedSet(more, servers, paused, routes)
    {
      var a, b := Grades(fewer, servers, d in paused, routes[d]), Grades(more, servers, d in paused, routes[d]);
      InUseIffUsable(a);
      InUseIffUsable(b);
      var i :| 0 <= i < |a| && a[i].usable != No;
      assert b[i].usable != No;
    }
  }

  // ── Preventive transfer-prohibited ─────────────────────────────────────────

  /** Where every point that can be told was told of all that is prohibited, a link that is up may open. */
  lemma MayOpen(t: Topology, n: Node, l: LinkId)
    requires Shaped(t, n) && l < |n.links| && n.links[l].up
    requires ToldIsBelieved(t.routes.Keys, n.told, n.past.world.believes)
    requires AllWarned(t, n.links, ReachedNow(t, n), n.told, ToTell(t, n))
    ensures Prevented(t, n.past.world.believes, t.links[l].linkset, ThroughIn(TrafficNow(t, n), t.links[l].linkset))
  {
    var ls := t.links[l].linkset;
    var through := ThroughIn(TrafficNow(t, n), ls);
    assert LinksetSignalling(t, n.links, ls);
    assert CanTell(t, n.links, ReachedNow(t, n), ls);
    if t.linksets[ls].adjacent.Some? {
      assert Warned(t.routes.Keys, t.linksets[ls].adjacent.value, n.told, ls, ToTell(t, n)[ls]);
      assert through <= ToTell(t, n)[ls];
    }
  }

  lemma TidyIsWarned(t: Topology, n: Node)
    requires Shaped(t, n) && AllTidy(t, n.links, ReachedNow(t, n), n.synced, n.told, ToTell(t, n))
    ensures AllWarned(t, n.links, ReachedNow(t, n), n.told, ToTell(t, n))
  {
    forall ls: nat | ls < |t.linksets| && t.linksets[ls].adjacent.Some? && CanTell(t, n.links, ReachedNow(t, n), ls)
      ensures Warned(t.routes.Keys, t.linksets[ls].adjacent.value, n.told, ls, ToTell(t, n)[ls])
    {
      assert LinksetTidy(t, n.links, ReachedNow(t, n), n.synced, n.told, ls, ToTell(t, n)[ls]);
    }
  }

  /** A link that opens on a changeback changes nothing that anyone was to be told. */
  lemma StillWarned(t: Topology, n: Node, m: Node, l: LinkId, k: Link)
    requires Shaped(t, n) && Shaped(t, m) && l < |n.links|
    requires m.links == n.links[l := k] && k.up == n.links[l].up && Available(k.phase) == Available(n.links[l].phase)
    requires m.servers == n.servers && m.paused == n.paused && m.routes == n.routes && m.told == n.told
    requires AllWarned(t, n.links, ReachedNow(t, n), n.told, ToTell(t, n))
    ensures AllWarned(t, m.links, ReachedNow(t, m), m.told, ToTell(t, m))
  {
    SameCarrying(t, n.links, l, k);
    forall ls: nat | ls < |t.linksets| && CanTell(t, m.links, ReachedNow(t, m), ls)
      ensures CanTell(t, n.links, ReachedNow(t, n), ls)
    {
      if LinksetSignalling(t, m.links, ls) {
        var up :| up in t.linksets[ls].links && m.links[up].up;
        assert n.links[up].up;
      }
    }
  }

  // ── A link, loosened ───────────────────────────────────────────────────────

  lemma LooseLink(t: Topology, links: seq<Link>, adjacentRestarting: set<LinksetId>, restarting: bool,
                  loose: set<LinkId>, exempt: set<LinksetId>, l: LinkId, k: Link)
    requires t.Valid() && |links| == |t.links| && l < |links| && k.up == links[l].up
    requires LinksOk(t, links, adjacentRestarting, restarting, loose)
    requires LinksetsOk(t, links, adjacentRestarting, restarting, exempt)
    ensures LinksOk(t, links[l := k], adjacentRestarting, restarting, loose + {l})
    ensures LinksetsOk(t, links[l := k], adjacentRestarting, restarting, exempt)
  {
    forall ls: nat | ls < |t.linksets| && LinksetSignalling(t, links, ls)
      ensures LinksetSignalling(t, links[l := k], ls)
    {
      var up :| up in t.linksets[ls].links && links[up].up;
      assert links[l := k][up].up;
    }
  }

  lemma AdjacentRestartBegins(t: Topology, links: seq<Link>, adjacentRestarting: set<LinksetId>,
                              loose: set<LinkId>, exempt: set<LinksetId>, l: LinkId, k: Link)
    requires t.Valid() && |links| == |t.links| && l < |links| && loose <= {l}
    requires LinksOk(t, links, adjacentRestarting, false, loose)
    requires LinksetsOk(t, links, adjacentRestarting, false, exempt)
    requires Late(links[l]) && k == links[l].(phase := AwaitRestart)
    requires !LinksetAvailable(t, links, None, t.links[l].linkset) && t.linksets[t.links[l].linkset].adjacent.Some?
    ensures LinksOk(t, links[l := k], adjacentRestarting + {t.links[l].linkset}, false, {})
    ensures LinksetsOk(t, links[l := k], adjacentRestarting + {t.links[l].linkset}, false, exempt)
  {
    var ls := t.links[l].linkset;
    forall i | 0 <= i < |links| && i != l
      ensures LinkOk(links[i], Waiting(t, adjacentRestarting + {ls}, false, i))
    {
      assert LinkOk(links[i], Waiting(t, adjacentRestarting, false, i));
      if t.links[i].linkset == ls {
        assert !LinkAvailable(links, None, i);
      }
    }
    OneUp(t, links, adjacentRestarting, false, exempt, l, k);
    assert links[l := k][l].up;
    assert LinksetSignalling(t, links[l := k], ls);
  }

  lemma OneDown(t: Topology, links: seq<Link>, adjacentRestarting: set<LinksetId>, restarting: bool, l: LinkId, k: Link)
    requires t.Valid() && |links| == |t.links| && l < |links|
    requires LinksOk(t, links, adjacentRestarting, restarting, {})
    requires LinksetsOk(t, links, adjacentRestarting, restarting, {})
    ensures LinksOk(t, links[l := k], adjacentRestarting, restarting, {l})
    ensures LinksetsOk(t, links[l := k], adjacentRestarting, restarting, {t.links[l].linkset})
  {
    forall ls | ls in adjacentRestarting && ls != t.links[l].linkset
      ensures LinksetSignalling(t, links[l := k], ls)
    {
      var up :| up in t.linksets[ls].links && links[up].up;
      assert up != l;
      assert links[l := k][up].up;
    }
  }

  lemma AdjacentRestartEnds(t: Topology, links: seq<Link>, adjacentRestarting: set<LinksetId>, restarting: bool,
                            exempt: set<LinksetId>, ls: LinksetId)
    requires t.Valid() && |links| == |t.links| && ls < |t.linksets| && exempt <= {ls}
    requires LinksOk(t, links, adjacentRestarting, restarting, {})
    requires LinksetsOk(t, links, adjacentRestarting, restarting, exempt)
    requires !LinksetSignalling(t, links, ls)
    ensures LinksOk(t, links, adjacentRestarting - {ls}, restarting, {})
    ensures LinksetsOk(t, links, adjacentRestarting - {ls}, restarting, {})
  {
    forall i | 0 <= i < |links|
      ensures LinkOk(links[i], Waiting(t, adjacentRestarting - {ls}, restarting, i))
    {
      assert LinkOk(links[i], Waiting(t, adjacentRestarting, restarting, i));
      if t.links[i].linkset == ls {
        assert i in t.linksets[ls].links;
        assert !links[i].up;
      }
    }
  }
}
