/**
 The per-message side of routing: the table of candidate routes, the marks that
 adjacent points put on them, and the choice for one message. Linksets and
 application servers are named by their positions.
 */
module RouteTable {
  import opened Options
  import opened RouteChoice
  import opened Signalling
  import opened Observer
  import opened Invariants
  import opened NodeState
  import opened Handling
  import opened Guarantees

  // ── Marks ──────────────────────────────────────────────────────────────────

  type MarkList = seq<(Via, RouteStatus)>

  type MarkTable = map<PointCode, MarkList>

  /** The first mark for a destination in a list, else allowed. */
  function StatusIn(marks: MarkList, via: Via): RouteStatus {
    if marks == [] then Allowed
    else if marks[0].0 == via then marks[0].1
    else StatusIn(marks[1..], via)
  }

  function StatusOf(table: MarkTable, d: PointCode, via: Via): RouteStatus {
    if d in table then StatusIn(table[d], via) else Allowed
  }

  /** No mark says allowed, and no route has two. */
  ghost predicate TidyMarks(marks: MarkList) {
    && (forall i | 0 <= i < |marks| :: marks[i].1 != Allowed)
    && (forall i, j | 0 <= i < j < |marks| :: marks[i].0 != marks[j].0)
  }

  ghost predicate TidyTable(table: MarkTable) {
    forall d | d in table :: table[d] != [] && TidyMarks(table[d])
  }

  /** In a tidy list a route is marked exactly when the list has an entry for it. */
  lemma {:induction false} StatusIsEntry(marks: MarkList, via: Via)
    requires TidyMarks(marks)
    ensures forall status | status != Allowed :: StatusIn(marks, via) == status <==> (via, status) in marks
    ensures StatusIn(marks, via) == Allowed <==> forall i | 0 <= i < |marks| :: marks[i].0 != via
  {
    if marks != [] {
      var rest := marks[1..];
      StatusIsEntry(rest, via);
      assert forall i | 0 <= i < |rest| :: rest[i] == marks[i + 1];
      assert marks == [marks[0]] + rest;
    }
  }

  /** The marks for other routes than the one through `via`. */
  function Others(marks: MarkList, via: Via): (rest: MarkList)
    ensures forall m :: m in rest <==> m in marks && m.0 != via
  {
    if marks == [] then []
    else if marks[0].0 == via then Others(marks[1..], via)
    else [marks[0]] + Others(marks[1..], via)
  }

  /** The tail of a tidy list is tidy, and has no mark for the route of its head. */
  lemma TidyTail(marks: MarkList)
    requires TidyMarks(marks) && marks != []
    ensures TidyMarks(marks[1..]) && forall m | m in marks[1..] :: m.0 != marks[0].0
  {
    var rest := marks[1..];
    assert forall i | 0 <= i < |rest| :: rest[i] == marks[i + 1];
  }

  lemma TidyCons(m: (Via, RouteStatus), rest: MarkList)
    requires TidyMarks(rest) && m.1 != Allowed && forall other | other in rest :: other.0 != m.0
    ensures TidyMarks([m] + rest)
  {
    var marks := [m] + rest;
    forall i | 0 < i < |marks| ensures marks[i] == rest[i - 1] && rest[i - 1] in rest {}
  }

  lemma {:induction false} OthersTidy(marks: MarkList, via: Via)
    requires TidyMarks(marks)
    ensures TidyMarks(Others(marks, via))
  {
    if marks != [] {
      TidyTail(marks);
      OthersTidy(marks[1..], via);
      if marks[0].0 != via {
        TidyCons(marks[0], Others(marks[1..], via));
      }
    }
  }

  lemma {:induction false} OthersStatus(marks: MarkList, via: Via, other: Via)
    ensures StatusIn(Others(marks, via), other) == if other == via then Allowed else StatusIn(marks, other)
  {
    if marks != [] {
      OthersStatus(marks[1..], via, other);
      if marks[0].0 != via {
        assert ([marks[0]] + Others(marks[1..], via))[1..] == Others(marks[1..], via);
      }
    }
  }

  lemma {:induction false} StatusOfOneMore(marks: MarkList, via: Via, status: RouteStatus, other: Via)
    ensures StatusIn(marks + [(via, status)], other) ==
            if other == via && StatusIn(marks, via) == Allowed && (forall i | 0 <= i < |marks| :: marks[i].0 != via) then status
            else StatusIn(marks, other)
  {
    if marks != [] {
      StatusOfOneMore(marks[1..], via, status, other);
      assert (marks + [(via, status)])[1..] == marks[1..] + [(via, status)];
      assert forall i | 0 <= i < |marks[1..]| :: marks[1..][i] == marks[i + 1];
      if marks[0].0 != via && forall i | 0 <= i < |marks[1..]| :: marks[1..][i].0 != via {
        assert forall i | 0 <= i < |marks| :: marks[i].0 != via by {
          forall i | 0 <= i < |marks| ensures marks[i].0 != via {
            if i > 0 { assert marks[1..][i - 1].0 != via; }
          }
        }
      }
    }
  }

  /** The marks of one destination after one of its routes got a status. */
  function Remarked(marks: MarkList, via: Via, status: RouteStatus): MarkList {
    Others(marks, via) + (if status == Allowed then [] else [(via, status)])
  }

  lemma RemarkedIsTidy(marks: MarkList, via: Via, status: RouteStatus)
    requires TidyMarks(marks)
    ensures TidyMarks(Remarked(marks, via, status))
    ensures forall other :: StatusIn(Remarked(marks, via, status), other) == if other == via then status else StatusIn(marks, other)
  {
    OthersTidy(marks, via);
    var rest := Others(marks, via);
    assert forall i | 0 <= i < |rest| :: rest[i] in rest;
    forall other
      ensures StatusIn(Remarked(marks, via, status), other) == if other == via then status else StatusIn(marks, other)
    {
      OthersStatus(marks, via, other);
      OthersStatus(marks, via, via);
      StatusOfOneMore(rest, via, status, other);
      assert rest + [] == rest;
    }
  }

  /** The table after one status was set. */
  function SetStatus(table: MarkTable, d: PointCode, via: Via, status: RouteStatus): MarkTable {
    var marks := Remarked(if d in table then table[d] else [], via, status);
    if marks == [] then table - {d} else table[d := marks]
  }

  /** Setting a status sets that one and no other, and leaves no empty, repeated or allowed entry behind. */
  lemma SetStatusSetsOne(table: MarkTable, d: PointCode, via: Via, status: RouteStatus)
    requires TidyTable(table)
    ensures TidyTable(SetStatus(table, d, via, status))
    ensures forall e, other :: StatusOf(SetStatus(table, d, via, status), e, other) ==
                               if e == d && other == via then status else StatusOf(table, e, other)
  {
    RemarkedIsTidy(if d in table then table[d] else [], via, status);
  }

  /** What a tidy table holds is determined by the statuses it gives: an absent entry is all allowed. */
  lemma AllAllowedIsAbsent(table: MarkTable, d: PointCode)
    requires TidyTable(table)
    ensures d !in table <==> forall via :: StatusOf(table, d, via) == Allowed
  {
    if d in table {
      StatusIsEntry(table[d], table[d][0].0);
      assert StatusOf(table, d, table[d][0].0) != Allowed;
    }
  }

  /** The availability that network management keeps for the resolver. */
  class RouteView {
    var serversUp: set<nat>
    var linksetsUp: set<LinksetId>
    var prohibited: set<PointCode>
    var marks: MarkTable

    ghost predicate Valid()
      reads this
    {
      TidyTable(marks)
    }

    constructor ()
      ensures Valid() && serversUp == {} && linksetsUp == {} && prohibited == {} && marks == map[]
    {
      serversUp, linksetsUp, prohibited, marks := {}, {}, {}, map[];
    }

    method SetRouteStatus(d: PointCode, via: Via, status: RouteStatus)
      requires Valid()
      modifies this`marks
      ensures Valid() && marks == SetStatus(old(marks), d, via, status)
      ensures forall e, other :: StatusOf(marks, e, other) == if e == d && other == via then status else StatusOf(old(marks), e, other)
    {
      SetStatusSetsOne(marks, d, via, status);
      var kept := if d in marks then marks[d] else [];
      kept := Others(kept, via);
      if status != Allowed {
        kept := kept + [(via, status)];
      }
      if kept == [] {
        marks := marks - {d};
      } else {
        marks := marks[d := kept];
      }
      assert Others([], via) + [] == [];
      assert forall rest: MarkList :: rest + [] == rest;
    }

    /** Apply one action of network management; all but route marks concern others. */
    method Apply(a: Action)
      requires Valid()
      modifies this`marks
      ensures Valid() && marks == Applied(old(marks), a)
    {
      if a.Route? {
        SetRouteStatus(a.dpc, ViaLinkset(a.linkset), a.status);
      }
    }
  }

  // ── The marks that network management asks for ─────────────────────────────

  function Applied(table: MarkTable, a: Action): MarkTable {
    if a.Route? then SetStatus(table, a.dpc, ViaLinkset(a.linkset), a.status) else table
  }

  /** The table after every action of a log. */
  ghost function AppliedAll(log: seq<Event>): MarkTable {
    if log == [] then map[]
    else
      var before := AppliedAll(log[..|log| - 1]);
      var last := log[|log| - 1];
      if last.Did? then Applied(before, last.action) else before
  }

  /** The tables that the emitted actions leave are those the observer of the log sees. */
  lemma {:induction false} TablesFollowLog(t: Topology, log: seq<Event>)
    ensures TidyTable(AppliedAll(log))
    ensures forall d, ls: nat :: StatusOf(AppliedAll(log), d, ViaLinkset(ls)) == MarkOf(Replay(t, log).marks, d, ls)
    ensures forall d, index :: StatusOf(AppliedAll(log), d, ViaServer(index)) == Allowed
    decreases |log|
  {
    if log != [] {
      var before, last := log[..|log| - 1], log[|log| - 1];
      TablesFollowLog(t, before);
      if last.Did? && last.action.Route? {
        SetStatusSetsOne(AppliedAll(before), last.action.dpc, ViaLinkset(last.action.linkset), last.action.status);
        forall d, ls: nat
          ensures StatusOf(AppliedAll(log), d, ViaLinkset(ls)) == MarkOf(Replay(t, log).marks, d, ls)
        {
          assert Replay(t, log) == Observe(t, Replay(t, before), last);
        }
      } else {
        MarksOnlyByRoute(t, Replay(t, before), last);
      }
    }
  }

  lemma MarksOnlyByRoute(t: Topology, w: World, e: Event)
    requires !(e.Did? && e.action.Route?)
    ensures Observe(t, w, e).marks == w.marks
  {}

  // ── The table of routes ────────────────────────────────────────────────────

  datatype Candidate = Candidate(dest: Via, priority: Byte)

  type Candidates = map<PointCode, seq<Candidate>>

  ghost predicate Sorted(s: seq<Candidate>) {
    forall i, j | 0 <= i < j < |s| :: s[i].priority <= s[j].priority
  }

  /** The candidates of one priority, in order. */
  function OfPriority(s: seq<Candidate>, p: Byte): seq<Candidate> {
    if s == [] then []
    else OfPriority(s[..|s| - 1], p) + (if s[|s| - 1].priority == p then [s[|s| - 1]] else [])
  }

  /** `after` is `before` sorted by priority, candidates of one priority in the order they had. */
  ghost predicate StablySorted(before: seq<Candidate>, after: seq<Candidate>) {
    Sorted(after) && multiset(after) == multiset(before) && forall p: Byte :: OfPriority(after, p) == OfPriority(before, p)
  }

  /** `c` behind every candidate of its priority or a stronger one. */
  function Insert(s: seq<Candidate>, c: Candidate): (r: seq<Candidate>)
    ensures multiset(r) == multiset(s) + multiset{c}
  {
    if s == [] || s[|s| - 1].priority <= c.priority then s + [c]
    else
      assert s == s[..|s| - 1] + [s[|s| - 1]];
      Insert(s[..|s| - 1], c) + [s[|s| - 1]]
  }

  lemma OfPriorityOneMore(s: seq<Candidate>, c: Candidate, p: Byte)
    ensures OfPriority(s + [c], p) == OfPriority(s, p) + (if c.priority == p then [c] else [])
  {
    assert (s + [c])[..|s|] == s;
  }

  lemma {:induction false} InsertIsSorted(s: seq<Candidate>, c: Candidate)
    requires Sorted(s)
    ensures Sorted(Insert(s, c))
    decreases |s|
  {
    if s != [] && s[|s| - 1].priority > c.priority {
      var front, last := s[..|s| - 1], s[|s| - 1];
      InsertIsSorted(front, c);
      var r := Insert(front, c);
      forall i | 0 <= i < |r| ensures r[i].priority <= last.priority {
        assert r[i] in multiset(r);
        assert r[i] == c || r[i] in front;
      }
    }
  }

  lemma {:induction false} InsertIsStable(s: seq<Candidate>, c: Candidate, p: Byte)
    ensures OfPriority(Insert(s, c), p) == OfPriority(s, p) + (if c.priority == p then [c] else [])
    decreases |s|
  {
    if s == [] || s[|s| - 1].priority <= c.priority {
      OfPriorityOneMore(s, c, p);
    } else {
      var front, last := s[..|s| - 1], s[|s| - 1];
      InsertIsStable(front, c, p);
      OfPriorityOneMore(Insert(front, c), last, p);
    }
  }

  /** Sorting by priority, as the library's stable sort does. */
  function SortByPriority(s: seq<Candidate>): seq<Candidate> {
    if s == [] then [] else Insert(SortByPriority(s[..|s| - 1]), s[|s| - 1])
  }

  lemma {:induction false} SortIsStable(s: seq<Candidate>)
    ensures StablySorted(s, SortByPriority(s))
    decreases |s|
  {
    if s != [] {
      var front, last := s[..|s| - 1], s[|s| - 1];
      SortIsStable(front);
      InsertIsSorted(SortByPriority(front), last);
      forall p: Byte ensures OfPriority(SortByPriority(s), p) == OfPriority(s, p) {
        InsertIsStable(SortByPriority(front), last, p);
        assert OfPriority(SortByPriority(front), p) == OfPriority(front, p);
      }
      assert s == front + [last];
    }
  }

  lemma {:induction false} OfPriorityMembers(s: seq<Candidate>, p: Byte, c: Candidate)
    ensures c in OfPriority(s, p) <==> c in s && c.priority == p
    decreases |s|
  {
    if s != [] {
      OfPriorityMembers(s[..|s| - 1], p, c);
      assert s == s[..|s| - 1] + [s[|s| - 1]];
    }
  }

  lemma LastOfClass(a: seq<Candidate>)
    requires a != []
    ensures var x := a[|a| - 1]; var all := OfPriority(a, x.priority); all != [] && all[|all| - 1] == x
  {}

  /** The weakest priority of `a` is among those of `b`. */
  lemma LastIsLast(a: seq<Candidate>, b: seq<Candidate>)
    requires Sorted(b) && a != [] && b != []
    requires forall p: Byte :: OfPriority(a, p) == OfPriority(b, p)
    ensures a[|a| - 1].priority <= b[|b| - 1].priority
  {
    var x := a[|a| - 1];
    OfPriorityMembers(a, x.priority, x);
    OfPriorityMembers(b, x.priority, x);
  }

  lemma SameLast(a: seq<Candidate>, b: seq<Candidate>)
    requires Sorted(a) && Sorted(b) && a != [] && b != []
    requires forall p: Byte :: OfPriority(a, p) == OfPriority(b, p)
    ensures a[|a| - 1] == b[|b| - 1]
  {
    LastIsLast(a, b);
    LastIsLast(b, a);
    LastOfClass(a);
    LastOfClass(b);
  }

  lemma DropLast(a: seq<Candidate>, p: Byte)
    requires a != []
    ensures var last := a[|a| - 1]; var all := OfPriority(a, p);
            OfPriority(a[..|a| - 1], p) == if last.priority == p then all[..|all| - 1] else all
  {}

  /** There is only one way to sort stably, so the algorithm does not matter. */
  lemma {:induction false} StableSortIsUnique(a: seq<Candidate>, b: seq<Candidate>)
    requires Sorted(a) && Sorted(b) && |a| == |b| && forall p: Byte :: OfPriority(a, p) == OfPriority(b, p)
    ensures a == b
    decreases |a|
  {
    if a != [] {
      var before, front := a[..|a| - 1], b[..|b| - 1];
      SameLast(a, b);
      forall p: Byte ensures OfPriority(before, p) == OfPriority(front, p) {
        DropLast(a, p);
        DropLast(b, p);
        assert OfPriority(a, p) == OfPriority(b, p);
      }
      StableSortIsUnique(before, front);
      assert a == before + [a[|a| - 1]];
      assert b == front + [b[|b| - 1]];
    }
  }

  // ── Building the table ─────────────────────────────────────────────────────

  /** Of a configured linkset, the point each of its links reaches, where that is known. */
  datatype LinksetConfig = LinksetConfig(adjacents: seq<Option<PointCode>>)

  datatype RouteConfig = RouteConfig(dpc: PointCode, server: Option<nat>, linkset: Option<LinksetId>, priority: Byte)

  /** Where a configured route leads: a server before a linkset. */
  function Target(r: RouteConfig): Option<Via> {
    if r.server.Some? then Some(ViaServer(r.server.value))
    else if r.linkset.Some? then Some(ViaLinkset(r.linkset.value))
    else None
  }

  /** One route of the strongest priority for each of the first linksets that is adjacent to `d`. */
  function AdjacentTo(linksets: seq<LinksetConfig>, count: nat, d: PointCode): seq<Candidate>
    requires count <= |linksets|
  {
    if count == 0 then []
    else AdjacentTo(linksets, count - 1, d) +
         (if Some(d) in linksets[count - 1].adjacents then [Candidate(ViaLinkset(count - 1), 0)] else [])
  }

  /** The configured routes to `d`, in order. */
  function ConfiguredTo(routes: seq<RouteConfig>, count: nat, d: PointCode): seq<Candidate>
    requires count <= |routes|
  {
    if count == 0 then []
    else
      var r := routes[count - 1];
      ConfiguredTo(routes, count - 1, d) +
      (if r.dpc == d && Target(r).Some? then [Candidate(Target(r).value, r.priority)] else [])
  }

  function Listed(linksets: seq<LinksetConfig>, routes: seq<RouteConfig>, d: PointCode): seq<Candidate> {
    AdjacentTo(linksets, |linksets|, d) + ConfiguredTo(routes, |routes|, d)
  }

  function Entry(table: Candidates, d: PointCode): seq<Candidate> { if d in table then table[d] else [] }

  ghost predicate NoEmptyEntry(table: Candidates) { forall d | d in table :: table[d] != [] }

  ghost predicate AllSorted(table: Candidates) { forall d | d in table :: Sorted(table[d]) }

  /** The routes to the points adjacent to one linkset, one for each point however many links name it. */
  method AddAdjacent(table: Candidates, ls: LinksetId, adjacents: seq<Option<PointCode>>) returns (r: Candidates)
    requires NoEmptyEntry(table) && forall d, c | d in table && c in table[d] :: c.dest != ViaLinkset(ls)
    ensures NoEmptyEntry(r)
    ensures forall d: PointCode :: Entry(r, d) == Entry(table, d) + (if Some(d) in adjacents then [Candidate(ViaLinkset(ls), 0)] else [])
  {
    r := table;
    var k := 0;
    while k < |adjacents|
      invariant 0 <= k <= |adjacents| && NoEmptyEntry(r)
      invariant forall d: PointCode :: Entry(r, d) == Entry(table, d) + (if Some(d) in adjacents[..k] then [Candidate(ViaLinkset(ls), 0)] else [])
    {
      assert adjacents[..k + 1] == adjacents[..k] + [adjacents[k]];
      if adjacents[k].Some? {
        var d, c := adjacents[k].value, Candidate(ViaLinkset(ls), 0);
        assert c in Entry(r, d) <==> Some(d) in adjacents[..k];
        if c !in Entry(r, d) {
          r := r[d := Entry(r, d) + [c]];
        }
      }
      k := k + 1;
    }
    assert adjacents[..k] == adjacents;
  }

  /** The points that links name. */
  function Named(adjacents: seq<Option<PointCode>>): set<PointCode> {
    set i | 0 <= i < |adjacents| && adjacents[i].Some? :: adjacents[i].value
  }

  /** The table with the routes through one more linkset. */
  function WithLinkset(table: Candidates, ls: LinksetId, adjacents: seq<Option<PointCode>>): Candidates {
    map d | d in table.Keys + Named(adjacents) ::
      Entry(table, d) + (if Some(d) in adjacents then [Candidate(ViaLinkset(ls), 0)] else [])
  }

  lemma WithLinksetEntry(table: Candidates, ls: LinksetId, adjacents: seq<Option<PointCode>>, d: PointCode)
    requires NoEmptyEntry(table)
    ensures Entry(WithLinkset(table, ls, adjacents), d) == Entry(table, d) + (if Some(d) in adjacents then [Candidate(ViaLinkset(ls), 0)] else [])
    ensures d in WithLinkset(table, ls, adjacents) ==> WithLinkset(table, ls, adjacents)[d] != []
  {
    if Some(d) in adjacents {
      var i :| 0 <= i < |adjacents| && adjacents[i] == Some(d);
      assert d in Named(adjacents);
    }
    if d in Named(adjacents) {
      var i :| 0 <= i < |adjacents| && adjacents[i].Some? && adjacents[i].value == d;
      assert adjacents[i] == Some(d);
    }
  }

  lemma SameEntriesSameTable(a: Candidates, b: Candidates)
    requires NoEmptyEntry(a) && NoEmptyEntry(b) && forall d: PointCode :: Entry(a, d) == Entry(b, d)
    ensures a == b
  {
    forall d: PointCode ensures d in a <==> d in b {
      assert Entry(a, d) == Entry(b, d);
    }
    assert a.Keys == b.Keys;
    forall d | d in a ensures a[d] == b[d] {
      assert Entry(a, d) == Entry(b, d);
    }
  }

  /** The implicit routes of the first `count` linksets. */
  function AdjacentTable(linksets: seq<LinksetConfig>, count: nat): Candidates
    requires count <= |linksets|
  {
    if count == 0 then map[] else WithLinkset(AdjacentTable(linksets, count - 1), count - 1, linksets[count - 1].adjacents)
  }

  lemma WithLinksetNoEmpty(table: Candidates, ls: LinksetId, adjacents: seq<Option<PointCode>>)
    requires NoEmptyEntry(table)
    ensures NoEmptyEntry(WithLinkset(table, ls, adjacents))
  {
    forall d | d in WithLinkset(table, ls, adjacents) ensures WithLinkset(table, ls, adjacents)[d] != [] {
      WithLinksetEntry(table, ls, adjacents, d);
    }
  }

  lemma {:induction false} AdjacentTableNoEmpty(linksets: seq<LinksetConfig>, count: nat)
    requires count <= |linksets|
    ensures NoEmptyEntry(AdjacentTable(linksets, count))
    decreases count
  {
    if count > 0 {
      AdjacentTableNoEmpty(linksets, count - 1);
      WithLinksetNoEmpty(AdjacentTable(linksets, count - 1), count - 1, linksets[count - 1].adjacents);
    }
  }

  lemma {:induction false} AdjacentTableEntry(linksets: seq<LinksetConfig>, count: nat, d: PointCode)
    requires count <= |linksets|
    ensures Entry(AdjacentTable(linksets, count), d) == AdjacentTo(linksets, count, d)
    decreases count
  {
    if count > 0 {
      AdjacentTableNoEmpty(linksets, count - 1);
      AdjacentTableEntry(linksets, count - 1, d);
      WithLinksetEntry(AdjacentTable(linksets, count - 1), count - 1, linksets[count - 1].adjacents, d);
    }
  }

  lemma {:induction false} AdjacentBelow(linksets: seq<LinksetConfig>, count: nat, d: PointCode, c: Candidate)
    requires count <= |linksets| && c in AdjacentTo(linksets, count, d)
    ensures c.dest.ViaLinkset? && c.dest.linkset < count
    decreases count
  {
    if c in AdjacentTo(linksets, count - 1, d) {
      AdjacentBelow(linksets, count - 1, d, c);
    }
  }

  lemma NotListedYet(linksets: seq<LinksetConfig>, count: nat)
    requires count <= |linksets|
    ensures forall d, c | d in AdjacentTable(linksets, count) && c in AdjacentTable(linksets, count)[d] :: c.dest != ViaLinkset(count)
  {
    var table := AdjacentTable(linksets, count);
    forall d: PointCode, c: Candidate | d in table && c in table[d] ensures c.dest != ViaLinkset(count) {
      AdjacentTableEntry(linksets, count, d);
      assert c in Entry(table, d);
      AdjacentBelow(linksets, count, d, c);
    }
  }

  method AddLinkset(linksets: seq<LinksetConfig>, ls: LinksetId, table: Candidates) returns (after: Candidates)
    requires ls < |linksets| && table == AdjacentTable(linksets, ls)
    ensures after == AdjacentTable(linksets, ls + 1)
  {
    AdjacentTableNoEmpty(linksets, ls);
    NotListedYet(linksets, ls);
    after := AddAdjacent(table, ls, linksets[ls].adjacents);
    forall d: PointCode ensures Entry(after, d) == Entry(WithLinkset(table, ls, linksets[ls].adjacents), d) {
      WithLinksetEntry(table, ls, linksets[ls].adjacents, d);
    }
    AdjacentTableNoEmpty(linksets, ls + 1);
    SameEntriesSameTable(after, WithLinkset(table, ls, linksets[ls].adjacents));
  }

  /** The implicit routes: each linkset reaches the points its links name. */
  method ListAdjacent(linksets: seq<LinksetConfig>) returns (table: Candidates)
    ensures table == AdjacentTable(linksets, |linksets|)
  {
    table := map[];
    var i := 0;
    while i < |linksets|
      invariant 0 <= i <= |linksets| && table == AdjacentTable(linksets, i)
    {
      table := AddLinkset(linksets, i, table);
      i := i + 1;
    }
  }

  /** The table with one more configured route, if it leads anywhere. */
  function WithRoute(table: Candidates, r: RouteConfig): Candidates {
    if Target(r).None? then table
    else table[r.dpc := Entry(table, r.dpc) + [Candidate(Target(r).value, r.priority)]]
  }

  /** The implicit routes, then the first `count` configured ones in their order. */
  function ListedTable(linksets: seq<LinksetConfig>, routes: seq<RouteConfig>, count: nat): Candidates
    requires count <= |routes|
  {
    if count == 0 then AdjacentTable(linksets, |linksets|) else WithRoute(ListedTable(linksets, routes, count - 1), routes[count - 1])
  }

  lemma {:induction false} ListedTableEntry(linksets: seq<LinksetConfig>, routes: seq<RouteConfig>, count: nat, d: PointCode)
    requires count <= |routes|
    ensures Entry(ListedTable(linksets, routes, count), d) == AdjacentTo(linksets, |linksets|, d) + ConfiguredTo(routes, count, d)
    decreases count
  {
    if count == 0 {
      AdjacentTableEntry(linksets, |linksets|, d);
    } else {
      ListedTableEntry(linksets, routes, count - 1, d);
    }
  }

  lemma {:induction false} ListedTableNoEmpty(linksets: seq<LinksetConfig>, routes: seq<RouteConfig>, count: nat)
    requires count <= |routes|
    ensures NoEmptyEntry(ListedTable(linksets, routes, count))
    decreases count
  {
    if count == 0 {
      AdjacentTableNoEmpty(linksets, |linksets|);
    } else {
      ListedTableNoEmpty(linksets, routes, count - 1);
    }
  }

  /** The routes as listed: the implicit ones, then the configured ones in their order. */
  method ListRoutes(linksets: seq<LinksetConfig>, routes: seq<RouteConfig>) returns (table: Candidates)
    ensures table == ListedTable(linksets, routes, |routes|)
  {
    table := ListAdjacent(linksets);
    var j := 0;
    while j < |routes|
      invariant 0 <= j <= |routes| && table == ListedTable(linksets, routes, j)
    {
      table := WithRoute(table, routes[j]);
      j := j + 1;
    }
  }

  lemma SortedTable(linksets: seq<LinksetConfig>, routes: seq<RouteConfig>, listed: Candidates, table: Candidates, d: PointCode)
    requires listed == ListedTable(linksets, routes, |routes|) && table == map e | e in listed :: SortByPriority(listed[e])
    ensures StablySorted(Listed(linksets, routes, d), Entry(table, d)) && (d in table ==> table[d] != [])
  {
    ListedTableEntry(linksets, routes, |routes|, d);
    ListedTableNoEmpty(linksets, routes, |routes|);
    SortIsStable(Entry(listed, d));
    if d in table {
      assert |multiset(table[d])| == |multiset(listed[d])|;
    }
  }

  /** The table for one tenant: for each destination its adjacent and configured routes, stably sorted by priority. */
  method BuildTable(linksets: seq<LinksetConfig>, routes: seq<RouteConfig>) returns (table: Candidates)
    ensures NoEmptyEntry(table) && forall d: PointCode :: StablySorted(Listed(linksets, routes, d), Entry(table, d))
  {
    var listed := ListRoutes(linksets, routes);
    table := map d | d in listed :: SortByPriority(listed[d]);
    forall d: PointCode
      ensures StablySorted(Listed(linksets, routes, d), Entry(table, d)) && (d in table ==> table[d] != [])
    {
      SortedTable(linksets, routes, listed, table, d);
    }
  }

  /** A candidate list with one more route, unless it has it. */
  function Added(s: seq<Candidate>, c: Candidate): seq<Candidate> { if c in s then s else SortByPriority(s + [c]) }

  /** Adding a route again changes nothing; a new one joins its priority last. */
  lemma AddedOnce(s: seq<Candidate>, c: Candidate)
    requires Sorted(s)
    ensures Sorted(Added(s, c)) && c in Added(s, c)
    ensures Added(Added(s, c), c) == Added(s, c)
    ensures c !in s ==> multiset(Added(s, c)) == multiset(s) + multiset{c} && StablySorted(s + [c], Added(s, c))
  {
    SortIsStable(s + [c]);
    assert c in multiset(s + [c]);
  }

  lemma AddKeepsTable(table: Candidates, d: PointCode, c: Candidate)
    requires AllSorted(table) && NoEmptyEntry(table)
    ensures AllSorted(table[d := Added(Entry(table, d), c)]) && NoEmptyEntry(table[d := Added(Entry(table, d), c)])
    ensures c in Added(Entry(table, d), c)
  {
    assert Sorted(Entry(table, d));
    AddedOnce(Entry(table, d), c);
  }

  // ── The choice for one message ─────────────────────────────────────────────

  datatype Availability = Availability(serversUp: set<nat>, linksetsUp: set<LinksetId>, prohibited: set<PointCode>, marks: MarkTable)

  predicate Up(a: Availability, dest: Via) {
    match dest
    case ViaServer(index) => index in a.serversUp
    case ViaLinkset(ls) => ls in a.linksetsUp
  }

  function UsableCandidate(a: Availability, d: PointCode, avoid: Option<Via>, c: Candidate): Usable {
    if !Up(a, c.dest) || avoid == Some(c.dest) then No
    else match StatusOf(a.marks, d, c.dest)
      case Allowed => Yes
      case Restricted => Limited
      case Prohibited => No
  }

  function CandidateGrades(a: Availability, d: PointCode, avoid: Option<Via>, s: seq<Candidate>): (g: seq<Grade>)
    ensures |g| == |s|
    ensures forall i | 0 <= i < |s| :: g[i] == Grade(s[i].priority, UsableCandidate(a, d, avoid, s[i]))
  {
    seq(|s|, i requires 0 <= i < |s| => Grade(s[i].priority, UsableCandidate(a, d, avoid, s[i])))
  }

  /** The destination of a message, without the routes through `avoid`. */
  function Resolved(table: Candidates, a: Availability, d: PointCode, sls: Byte, avoid: Option<Via>): Option<Via> {
    if d in a.prohibited || d !in table then None
    else
      var g := CandidateGrades(a, d, avoid, table[d]);
      ChosenIsInUse(g, sls);
      match ChooseRoute(g, sls)
      case None => None
      case Some(i) => Some(table[d][i].dest)
  }

  /** A message goes by a usable route of the best usable priority, never through what it avoids; it goes nowhere only if there is none. */
  lemma ResolvedIsBest(table: Candidates, a: Availability, d: PointCode, sls: Byte, avoid: Option<Via>)
    requires AllSorted(table)
    ensures Resolved(table, a, d, sls, avoid).None? <==>
              d in a.prohibited || d !in table || forall i | 0 <= i < |table[d]| :: UsableCandidate(a, d, avoid, table[d][i]) == No
    ensures Resolved(table, a, d, sls, avoid).Some? ==>
              exists i :: 0 <= i < |table[d]| && BestRoute(a, d, avoid, table[d], i) && Resolved(table, a, d, sls, avoid) == Some(table[d][i].dest)
    ensures avoid.Some? ==> Resolved(table, a, d, sls, avoid) != avoid
  {
    if d !in a.prohibited && d in table {
      var g := CandidateGrades(a, d, avoid, table[d]);
      ChosenIsInUse(g, sls);
      if ChooseRoute(g, sls).Some? {
        var i := ChooseRoute(g, sls).value;
        InUseIsBest(g, i);
        forall k | 0 <= k < |table[d]| && UsableCandidate(a, d, avoid, table[d][k]) != No
          ensures table[d][i].priority <= table[d][k].priority
        {
          assert g[k].usable != No;
        }
        forall k | 0 <= k < |table[d]| && table[d][k].priority == table[d][i].priority && UsableCandidate(a, d, avoid, table[d][k]) == Yes
          ensures UsableCandidate(a, d, avoid, table[d][i]) == Yes
        {
          assert g[k].usable == Yes;
        }
        assert BestRoute(a, d, avoid, table[d], i);
      } else {
        forall i | 0 <= i < |table[d]| ensures UsableCandidate(a, d, avoid, table[d][i]) == No {
          assert g[i].usable == No;
        }
      }
    }
  }

  /** Usable, of the best usable priority, and restricted only if nothing usable of its priority is not. */
  ghost predicate BestRoute(a: Availability, d: PointCode, avoid: Option<Via>, s: seq<Candidate>, i: nat)
    requires i < |s|
  {
    && UsableCandidate(a, d, avoid, s[i]) != No
    && (forall k | 0 <= k < |s| && UsableCandidate(a, d, avoid, s[k]) != No :: s[i].priority <= s[k].priority)
    && (forall k | 0 <= k < |s| && s[k].priority == s[i].priority && UsableCandidate(a, d, avoid, s[k]) == Yes ::
          UsableCandidate(a, d, avoid, s[i]) == Yes)
  }

  /** What a view says at the moment. */
  function Told(view: RouteView): Availability
    reads view
  {
    Availability(view.serversUp, view.linksetsUp, view.prohibited, view.marks)
  }

  class RouteResolver {
    var routes: Candidates

    ghost predicate Valid()
      reads this
    {
      AllSorted(routes) && NoEmptyEntry(routes)
    }

    constructor (linksets: seq<LinksetConfig>, configured: seq<RouteConfig>)
      ensures Valid() && forall d: PointCode :: StablySorted(Listed(linksets, configured, d), Entry(routes, d))
    {
      var table := BuildTable(linksets, configured);
      routes := table;
      new;
      assert forall d | d in routes :: Sorted(Entry(routes, d));
    }

    /** Add a route while the system runs. */
    method Add(d: PointCode, dest: Via, priority: Byte)
      requires Valid()
      modifies this
      ensures Valid()
      ensures routes == old(routes)[d := Added(Entry(old(routes), d), Candidate(dest, priority))]
      ensures Candidate(dest, priority) in routes[d]
    {
      var candidates, c := Entry(routes, d), Candidate(dest, priority);
      AddKeepsTable(routes, d, c);
      routes := routes[d := if c in candidates then candidates else SortByPriority(candidates + [c])];
    }

    method ResolveAvoiding(d: PointCode, sls: Byte, view: RouteView, avoid: Option<Via>) returns (dest: Option<Via>)
      requires Valid()
      ensures dest == Resolved(routes, Told(view), d, sls, avoid) && (avoid.Some? ==> dest != avoid)
      ensures dest.Some? ==>
                && d !in view.prohibited && d in routes
                && exists i :: 0 <= i < |routes[d]| && BestRoute(Told(view), d, avoid, routes[d], i) && dest == Some(routes[d][i].dest)
      ensures dest.None? <==>
                d in view.prohibited || d !in routes || forall i | 0 <= i < |routes[d]| :: UsableCandidate(Told(view), d, avoid, routes[d][i]) == No
    {
      var a := Told(view);
      ResolvedIsBest(routes, a, d, sls, avoid);
      if d in a.prohibited || d !in routes {
        return None;
      }
      var g := CandidateGrades(a, d, avoid, routes[d]);
      ChosenIsInUse(g, sls);
      var chosen := ChooseRoute(g, sls);
      dest := if chosen.Some? then Some(routes[d][chosen.value].dest) else None;
    }
  }

  // ── The resolver and management ────────────────────────────────────────────

  /** The candidates of a destination are the routes management has for it. */
  ghost predicate SameRoutes(s: seq<Candidate>, routes: seq<RouteState>) {
    |s| == |routes| && forall i | 0 <= i < |s| :: s[i].dest == routes[i].via && s[i].priority == routes[i].priority
  }

  /**
   The resolver was told what management knows of a destination: its tables mark a
   route as management has it, or still mark one that management allowed again.
   */
  ghost predicate SameView(a: Availability, carrying: set<LinksetId>, servers: seq<bool>, d: PointCode, routes: seq<RouteState>) {
    && a.linksetsUp == carrying
    && (forall index: nat :: index in a.serversUp <==> index < |servers| && servers[index])
    && (forall ls: nat :: StatusOf(a.marks, d, ViaLinkset(ls)) == StatusVia(routes, ls) || StatusVia(routes, ls) == Allowed)
    && (forall index: nat :: StatusOf(a.marks, d, ViaServer(index)) == Allowed)
  }

  /** A route through a linkset that carries traffic is allowed, and the tables have another mark for that linkset. */
  ghost predicate Dimmed(a: Availability, carrying: set<LinksetId>, d: PointCode, routes: seq<RouteState>, j: nat) {
    && j < |routes| && routes[j].via.ViaLinkset? && routes[j].via.linkset in carrying && routes[j].status == Allowed
    && StatusOf(a.marks, d, routes[j].via) != Allowed
  }

  /** Only a dimmed route is graded differently: management has it as allowed, the resolver as marked. */
  lemma GradeAgrees(a: Availability, carrying: set<LinksetId>, servers: seq<bool>, d: PointCode, s: seq<Candidate>, routes: seq<RouteState>, j: nat)
    requires SameRoutes(s, routes) && SameView(a, carrying, servers, d, routes) && MarkedFirstOnly(routes) && j < |routes|
    ensures !Dimmed(a, carrying, d, routes, j) ==> UsableCandidate(a, d, None, s[j]) == UsableRoute(carrying, servers, false, routes[j])
    ensures Dimmed(a, carrying, d, routes, j) ==>
              && UsableRoute(carrying, servers, false, routes[j]) == Yes
              && UsableCandidate(a, d, None, s[j]) == if StatusOf(a.marks, d, routes[j].via) == Restricted then Limited else No
  {
    if routes[j].via.ViaLinkset? {
      var p := FirstVia(routes, routes[j].via.linkset).value;
      assert p < j ==> routes[j].status == Allowed;
    }
  }

  /** Management uses no dimmed route. */
  ghost predicate NoneDimmed(a: Availability, carrying: set<LinksetId>, servers: seq<bool>, d: PointCode, routes: seq<RouteState>) {
    forall j | j in InUse(carrying, servers, false, routes) :: !Dimmed(a, carrying, d, routes, j)
  }

  /** Or the tables have all the routes that management uses restricted, and its tier has no restricted route besides. */
  ghost predicate AllDimmed(a: Availability, carrying: set<LinksetId>, servers: seq<bool>, d: PointCode, routes: seq<RouteState>) {
    var tier := TierOf(Grades(carrying, servers, false, routes));
    && tier.Some? && tier.value.end <= |routes|
    && (forall j | j in InUse(carrying, servers, false, routes) ::
          Dimmed(a, carrying, d, routes, j) && StatusOf(a.marks, d, routes[j].via) == Restricted)
    && forall k | tier.value.start <= k < tier.value.end :: UsableRoute(carrying, servers, false, routes[k]) != Limited
  }

  /** How the grades of the resolver, `g`, and of management, `h`, differ: where `h` has `Yes`, at places `dim`. */
  ghost predicate Differs(g: seq<Grade>, h: seq<Grade>, dim: set<nat>) {
    && |g| == |h|
    && forall j: nat | j < |h| ::
         g[j].priority == h[j].priority && if j in dim then h[j].usable == Yes && g[j].usable != Yes else g[j] == h[j]
  }

  /** Routes that are not in use are graded lower than they are. */
  lemma DimmedOutsideUse(g: seq<Grade>, h: seq<Grade>, dim: set<nat>)
    requires Differs(g, h, dim) && forall j | j in RoutesInUse(h) :: j !in dim
    ensures TierOf(g) == TierOf(h) && (TierOf(h).Some? ==> AlikeIn(g, h, TierOf(h).value, TierOf(h).value.kind))
  {
    TierMeaning(h);
    if TierOf(h).Some? {
      var tier := TierOf(h).value;
      var k: nat :| tier.start <= k < tier.end && h[k].usable == tier.kind;
      assert k in RoutesInUse(h) && g[k] == h[k];
      SameTier(h, g, tier);
      forall k: nat | tier.start <= k < tier.end ensures g[k] == h[k] {
        assert h[k].usable == Yes ==> k in RoutesInUse(h);
      }
    } else {
      NoneIsUsable(g);
    }
  }

  /** All the routes in use are graded as restricted, and there is no other such route in their tier. */
  lemma DimmedTogether(g: seq<Grade>, h: seq<Grade>, dim: set<nat>, tier: Tier)
    requires Differs(g, h, dim) && TierOf(h) == Some(tier) && tier.end <= |h|
    requires forall j | j in RoutesInUse(h) :: j in dim && j < |g| && g[j].usable == Limited
    requires forall k | tier.start <= k < tier.end :: h[k].usable != Limited
    ensures TierOf(g) == Some(tier.(kind := Limited)) && AlikeIn(g, h, tier, Limited)
  {
    TierMeaning(h);
    var k: nat :| tier.start <= k < tier.end && h[k].usable == tier.kind;
    assert k in RoutesInUse(h);
    forall k: nat | tier.start <= k < tier.end ensures g[k].usable == if h[k].usable == tier.kind then Limited else No {
      assert h[k].usable == tier.kind ==> k in RoutesInUse(h);
    }
    assert g[k].usable == Limited;
    assert IsTier(g, tier.(kind := Limited));
    TierIsUnique(g, tier.(kind := Limited));
  }

  lemma NoneIsUsable(g: seq<Grade>)
    requires forall k | 0 <= k < |g| :: g[k].usable == No
    ensures TierOf(g) == None
  {
    TierMeaning(g);
  }

  /** In a tier, `g` has its class where `h` has its own. */
  ghost predicate AlikeIn(g: seq<Grade>, h: seq<Grade>, tier: Tier, kind: Usable) {
    tier.start <= tier.end <= |h| == |g| && forall k | tier.start <= k < tier.end :: g[k].usable == kind <==> h[k].usable == tier.kind
  }

  lemma {:induction false} SameOfClass(g: seq<Grade>, h: seq<Grade>, lo: nat, hi: nat, kind: Usable, other: Usable)
    requires lo <= hi <= |g| == |h| && forall k | lo <= k < hi :: g[k].usable == kind <==> h[k].usable == other
    ensures OfClass(g, lo, hi, kind) == OfClass(h, lo, hi, other)
    decreases hi
  {
    if lo < hi {
      SameOfClass(g, h, lo, hi - 1, kind, other);
    }
  }

  /** Grades that are alike in the tier in use mean the same routes and the same choice. */
  lemma AlikeMeansSame(g: seq<Grade>, h: seq<Grade>, tier: Tier, kind: Usable)
    requires TierOf(h) == Some(tier) && TierOf(g) == Some(tier.(kind := kind)) && AlikeIn(g, h, tier, kind)
    ensures RoutesInUse(g) == RoutesInUse(h) && forall sls :: ChooseRoute(g, sls) == ChooseRoute(h, sls)
  {
    TierMeaning(h);
    SameOfClass(g, h, tier.start, tier.end, kind, tier.kind);
    forall sls ensures ChooseRoute(g, sls) == ChooseRoute(h, sls) {
      SameChoice(g, h, tier, kind, sls);
    }
  }

  lemma SameChoice(g: seq<Grade>, h: seq<Grade>, tier: Tier, kind: Usable, sls: Byte)
    requires TierOf(h) == Some(tier) && TierOf(g) == Some(tier.(kind := kind)) && AlikeIn(g, h, tier, kind) && tier.start < tier.end
    requires OfClass(g, tier.start, tier.end, kind) == OfClass(h, tier.start, tier.end, tier.kind)
    ensures ChooseRoute(g, sls) == ChooseRoute(h, sls)
  {
    var normal := Normal(tier, sls);
    assert Normal(tier.(kind := kind), sls) == normal;
    assert g[normal].usable == kind <==> h[normal].usable == tier.kind;
  }

  /** Two runs with a candidate in common are one. */
  lemma SameRun(g: seq<Grade>, h: seq<Grade>, a: Tier, b: Tier, j: nat)
    requires IsTier(g, a) && IsTier(h, b) && |g| == |h| && (forall k | 0 <= k < |g| :: g[k].priority == h[k].priority)
    requires a.start <= j < a.end && b.start <= j < b.end
    ensures a.start == b.start && a.end == b.end
  {
    if a.start < b.start {
      assert false;
    } else if b.start < a.start {
      assert false;
    }
    if a.end < b.end {
      assert false;
    } else if b.end < a.end {
      assert false;
    }
  }

  /** If the routes in use are the same and one is dimmed, all are, and no other route of the tier is restricted. */
  lemma SameMeansTogether(g: seq<Grade>, h: seq<Grade>, dim: set<nat>, j: nat)
    requires Differs(g, h, dim) && RoutesInUse(g) == RoutesInUse(h) && j in RoutesInUse(h) && j in dim
    ensures forall k | k in RoutesInUse(h) :: k in dim && k < |g| && g[k].usable == Limited
    ensures TierOf(h).Some? && TierOf(h).value.end <= |h|
    ensures forall k | TierOf(h).value.start <= k < TierOf(h).value.end :: h[k].usable != Limited
  {
    TierMeaning(g);
    TierMeaning(h);
    var a, b := TierOf(g).value, TierOf(h).value;
    SameRun(g, h, a, b, j);
    forall k | k in RoutesInUse(h) ensures k in dim && k < |g| && g[k].usable == Limited {
      assert k in RoutesInUse(g);
      InUseShareOneClass(g, j, k);
      InUseShareOneClass(h, j, k);
    }
    forall k: nat | b.start <= k < b.end ensures h[k].usable != Limited {
      assert h[k].usable == Limited ==> k in RoutesInUse(g);
    }
  }

  ghost function DimmedOf(a: Availability, carrying: set<LinksetId>, d: PointCode, routes: seq<RouteState>): set<nat> {
    set j | 0 <= j < |routes| && Dimmed(a, carrying, d, routes, j)
  }

  lemma GradesDiffer(a: Availability, carrying: set<LinksetId>, servers: seq<bool>, d: PointCode, s: seq<Candidate>, routes: seq<RouteState>)
    requires SameRoutes(s, routes) && SameView(a, carrying, servers, d, routes) && MarkedFirstOnly(routes)
    ensures Differs(CandidateGrades(a, d, None, s), Grades(carrying, servers, false, routes), DimmedOf(a, carrying, d, routes))
  {
    forall j: nat | j < |routes|
      ensures var g, h := CandidateGrades(a, d, None, s)[j], Grades(carrying, servers, false, routes)[j];
              g.priority == h.priority && if Dimmed(a, carrying, d, routes, j) then h.usable == Yes && g.usable != Yes else g == h
    {
      GradeAgrees(a, carrying, servers, d, s, routes, j);
    }
  }

  /** Dimmed to restricted is what the resolver grades so. */
  lemma LimitedIffRestricted(a: Availability, carrying: set<LinksetId>, servers: seq<bool>, d: PointCode, s: seq<Candidate>, routes: seq<RouteState>, j: nat)
    requires SameRoutes(s, routes) && SameView(a, carrying, servers, d, routes) && MarkedFirstOnly(routes) && Dimmed(a, carrying, d, routes, j)
    ensures CandidateGrades(a, d, None, s)[j].usable == Limited <==> StatusOf(a.marks, d, routes[j].via) == Restricted
  {
    GradeAgrees(a, carrying, servers, d, s, routes, j);
  }

  lemma SameIfNoneDimmed(a: Availability, carrying: set<LinksetId>, servers: seq<bool>, d: PointCode, s: seq<Candidate>, routes: seq<RouteState>)
    requires SameRoutes(s, routes) && SameView(a, carrying, servers, d, routes) && MarkedFirstOnly(routes)
    requires NoneDimmed(a, carrying, servers, d, routes)
    ensures var g, h := CandidateGrades(a, d, None, s), Grades(carrying, servers, false, routes);
            RoutesInUse(g) == RoutesInUse(h) && forall sls :: ChooseRoute(g, sls) == ChooseRoute(h, sls)
  {
    var g, h := CandidateGrades(a, d, None, s), Grades(carrying, servers, false, routes);
    GradesDiffer(a, carrying, servers, d, s, routes);
    DimmedOutsideUse(g, h, DimmedOf(a, carrying, d, routes));
    if TierOf(h).Some? {
      AlikeMeansSame(g, h, TierOf(h).value, TierOf(h).value.kind);
    }
  }

  lemma SameIfAllDimmed(a: Availability, carrying: set<LinksetId>, servers: seq<bool>, d: PointCode, s: seq<Candidate>, routes: seq<RouteState>)
    requires SameRoutes(s, routes) && SameView(a, carrying, servers, d, routes) && MarkedFirstOnly(routes)
    requires AllDimmed(a, carrying, servers, d, routes)
    ensures var g, h := CandidateGrades(a, d, None, s), Grades(carrying, servers, false, routes);
            RoutesInUse(g) == RoutesInUse(h) && forall sls :: ChooseRoute(g, sls) == ChooseRoute(h, sls)
  {
    var g, h := CandidateGrades(a, d, None, s), Grades(carrying, servers, false, routes);
    GradesDiffer(a, carrying, servers, d, s, routes);
    forall j | j in RoutesInUse(h) ensures j < |g| && g[j].usable == Limited {
      LimitedIffRestricted(a, carrying, servers, d, s, routes, j);
    }
    DimmedTogether(g, h, DimmedOf(a, carrying, d, routes), TierOf(h).value);
    AlikeMeansSame(g, h, TierOf(h).value, Limited);
  }

  lemma DimmedIfSame(a: Availability, carrying: set<LinksetId>, servers: seq<bool>, d: PointCode, s: seq<Candidate>, routes: seq<RouteState>)
    requires SameRoutes(s, routes) && SameView(a, carrying, servers, d, routes) && MarkedFirstOnly(routes)
    requires RoutesInUse(CandidateGrades(a, d, None, s)) == InUse(carrying, servers, false, routes) && !NoneDimmed(a, carrying, servers, d, routes)
    ensures AllDimmed(a, carrying, servers, d, routes)
  {
    var g, h := CandidateGrades(a, d, None, s), Grades(carrying, servers, false, routes);
    GradesDiffer(a, carrying, servers, d, s, routes);
    var j :| j in InUse(carrying, servers, false, routes) && Dimmed(a, carrying, d, routes, j);
    SameMeansTogether(g, h, DimmedOf(a, carrying, d, routes), j);
    AllDimmedFrom(a, carrying, servers, d, s, routes, g, h);
  }

  lemma AllDimmedFrom(a: Availability, carrying: set<LinksetId>, servers: seq<bool>, d: PointCode, s: seq<Candidate>, routes: seq<RouteState>,
                      g: seq<Grade>, h: seq<Grade>)
    requires SameRoutes(s, routes) && SameView(a, carrying, servers, d, routes) && MarkedFirstOnly(routes)
    requires g == CandidateGrades(a, d, None, s) && h == Grades(carrying, servers, false, routes)
    requires TierOf(h).Some? && TierOf(h).value.end <= |h|
    requires forall k | k in RoutesInUse(h) :: k in DimmedOf(a, carrying, d, routes) && k < |g| && g[k].usable == Limited
    requires forall k | TierOf(h).value.start <= k < TierOf(h).value.end :: h[k].usable != Limited
    ensures AllDimmed(a, carrying, servers, d, routes)
  {
    forall k | k in RoutesInUse(h) ensures Dimmed(a, carrying, d, routes, k) && StatusOf(a.marks, d, routes[k].via) == Restricted {
      assert k in DimmedOf(a, carrying, d, routes);
      LimitedIffRestricted(a, carrying, servers, d, s, routes, k);
    }
    forall k | TierOf(h).value.start <= k < TierOf(h).value.end ensures UsableRoute(carrying, servers, false, routes[k]) != Limited {
      assert h[k].usable != Limited;
    }
  }

  /**
   Fed with management's marks, stale ones included, the resolver has the routes of a
   destination that is not paused in use that management has, if and only if no route
   in use is dimmed, or all are, to restricted, where the tier has no restricted route
   besides. Then every message goes the way management's own rule picks.
   */
  lemma SameRoutesInUseIff(a: Availability, carrying: set<LinksetId>, servers: seq<bool>, d: PointCode, s: seq<Candidate>, routes: seq<RouteState>)
    requires SameRoutes(s, routes) && SameView(a, carrying, servers, d, routes) && MarkedFirstOnly(routes)
    ensures RoutesInUse(CandidateGrades(a, d, None, s)) == InUse(carrying, servers, false, routes) <==>
              NoneDimmed(a, carrying, servers, d, routes) || AllDimmed(a, carrying, servers, d, routes)
    ensures NoneDimmed(a, carrying, servers, d, routes) || AllDimmed(a, carrying, servers, d, routes) ==>
              forall sls :: ChooseRoute(CandidateGrades(a, d, None, s), sls) == ChooseRoute(Grades(carrying, servers, false, routes), sls)
  {
    if NoneDimmed(a, carrying, servers, d, routes) {
      SameIfNoneDimmed(a, carrying, servers, d, s, routes);
    } else if AllDimmed(a, carrying, servers, d, routes) {
      SameIfAllDimmed(a, carrying, servers, d, s, routes);
    } else if RoutesInUse(CandidateGrades(a, d, None, s)) == InUse(carrying, servers, false, routes) {
      DimmedIfSame(a, carrying, servers, d, s, routes);
    }
  }

  /** A route through a linkset that carries traffic, behind another one through it that is not allowed. */
  ghost predicate Shadowed(carrying: set<LinksetId>, routes: seq<RouteState>, i: nat, j: nat) {
    && i < j < |routes| && routes[i].via.ViaLinkset? && routes[i].via == routes[j].via
    && routes[i].via.linkset in carrying && routes[i].status != Allowed
  }

  /** No route in use is behind another one through its linkset that is not allowed. */
  ghost predicate NoneShadowed(carrying: set<LinksetId>, servers: seq<bool>, routes: seq<RouteState>) {
    forall i: nat, j: nat | j in InUse(carrying, servers, false, routes) :: !Shadowed(carrying, routes, i, j)
  }

  lemma DimmedIsShadowed(a: Availability, carrying: set<LinksetId>, servers: seq<bool>, d: PointCode, routes: seq<RouteState>, j: nat) returns (p: nat)
    requires MarkedFirstOnly(routes) && (forall ls: nat :: StatusOf(a.marks, d, ViaLinkset(ls)) == StatusVia(routes, ls))
    requires Dimmed(a, carrying, d, routes, j)
    ensures Shadowed(carrying, routes, p, j) && routes[p].status == StatusOf(a.marks, d, routes[j].via)
  {
    p := FirstVia(routes, routes[j].via.linkset).value;
  }

  lemma ShadowedIsDimmed(a: Availability, carrying: set<LinksetId>, servers: seq<bool>, d: PointCode, routes: seq<RouteState>, i: nat, j: nat)
    requires MarkedFirstOnly(routes) && (forall ls: nat :: StatusOf(a.marks, d, ViaLinkset(ls)) == StatusVia(routes, ls))
    requires Shadowed(carrying, routes, i, j)
    ensures Dimmed(a, carrying, d, routes, j)
  {
    var p := FirstVia(routes, routes[j].via.linkset).value;
    assert p == i;
  }

  /** Where no mark is stale, the state alone decides: a route is dimmed if and only if it is shadowed, and never are all. */
  lemma WithoutStaleMarks(a: Availability, carrying: set<LinksetId>, servers: seq<bool>, d: PointCode, routes: seq<RouteState>)
    requires MarkedFirstOnly(routes) && (forall ls: nat :: StatusOf(a.marks, d, ViaLinkset(ls)) == StatusVia(routes, ls))
    ensures NoneDimmed(a, carrying, servers, d, routes) <==> NoneShadowed(carrying, servers, routes)
    ensures !AllDimmed(a, carrying, servers, d, routes)
  {
    var h := Grades(carrying, servers, false, routes);
    if !NoneDimmed(a, carrying, servers, d, routes) {
      var j :| j in InUse(carrying, servers, false, routes) && Dimmed(a, carrying, d, routes, j);
      var p := DimmedIsShadowed(a, carrying, servers, d, routes, j);
    }
    if !NoneShadowed(carrying, servers, routes) {
      var i: nat, j: nat :| j in InUse(carrying, servers, false, routes) && Shadowed(carrying, routes, i, j);
      ShadowedIsDimmed(a, carrying, servers, d, routes, i, j);
    }
    if TierOf(h).Some? {
      RestrictedBeside(a, carrying, servers, d, routes);
    }
  }

  /** The route before one that is dimmed to restricted is restricted itself, and of the tier. */
  lemma RestrictedBeside(a: Availability, carrying: set<LinksetId>, servers: seq<bool>, d: PointCode, routes: seq<RouteState>)
    requires MarkedFirstOnly(routes) && (forall ls: nat :: StatusOf(a.marks, d, ViaLinkset(ls)) == StatusVia(routes, ls))
    requires TierOf(Grades(carrying, servers, false, routes)).Some?
    ensures !AllDimmed(a, carrying, servers, d, routes)
  {
    var h := Grades(carrying, servers, false, routes);
    TierMeaning(h);
    var tier := TierOf(h).value;
    var j: nat :| tier.start <= j < tier.end && h[j].usable == tier.kind;
    assert j in InUse(carrying, servers, false, routes);
    if Dimmed(a, carrying, d, routes, j) && StatusOf(a.marks, d, routes[j].via) == Restricted {
      var p := DimmedIsShadowed(a, carrying, servers, d, routes, j);
      assert h[p].usable == UsableRoute(carrying, servers, false, routes[p]) == Limited;
      assert tier.start <= p < tier.end;
    }
  }

  /** The resolver's candidates and tables are those of a management state. */
  ghost predicate Follows(t: Topology, n: Node, a: Availability, table: Candidates, d: PointCode)
    requires Valid(t, n)
  {
    && d in n.routes && d in table && SameRoutes(table[d], n.routes[d])
    && a.linksetsUp == CarryingNow(t, n) && a.prohibited == n.paused && a.marks == AppliedAll(n.past.log)
    && (forall index: nat :: index in a.serversUp <==> index < |n.servers| && n.servers[index])
  }

  lemma FollowsIsSameView(t: Topology, n: Node, a: Availability, table: Candidates, d: PointCode)
    requires Valid(t, n) && Follows(t, n, a, table, d) && d !in n.holding
    ensures SameView(a, CarryingNow(t, n), n.servers, d, n.routes[d]) && MarkedFirstOnly(n.routes[d])
    ensures forall ls: nat | (d, ls) !in n.past.stale :: StatusOf(a.marks, d, ViaLinkset(ls)) == StatusVia(n.routes[d], ls)
  {
    TablesFollowLog(t, n.past.log);
    forall ls: nat
      ensures StatusOf(a.marks, d, ViaLinkset(ls)) == StatusVia(n.routes[d], ls) || ((d, ls) in n.past.stale && StatusVia(n.routes[d], ls) == Allowed)
    {
      MarksFollowState(t, n, d, ls);
      if (d, ls) in n.past.stale {
        StaleIsMarkedWrong(t, n, d, ls);
      }
    }
  }

  /**
   In every reachable state, with the tables the emitted actions leave: for a
   destination that is not held, the resolver has in use what management has, if and
   only if management uses no dimmed route, or none but routes dimmed together. Then a
   message goes by the route that management's rule picks for its selection code, and
   goes nowhere exactly when management calls the destination inaccessible.
   */
  lemma ResolverFollowsManagement(t: Topology, n: Node, a: Availability, table: Candidates, d: PointCode, sls: Byte)
    requires Valid(t, n) && Follows(t, n, a, table, d) && d !in n.holding
    ensures var carrying := CarryingNow(t, n);
            var same := NoneDimmed(a, carrying, n.servers, d, n.routes[d]) || AllDimmed(a, carrying, n.servers, d, n.routes[d]);
            && (d !in n.paused ==> (RoutesInUse(CandidateGrades(a, d, None, table[d])) == InUse(carrying, n.servers, false, n.routes[d]) <==> same))
            && (d in n.paused || same ==> FollowsChoice(table, a, d, sls, n.routes[d], Grades(carrying, n.servers, d in n.paused, n.routes[d]), d in n.accessible))
    ensures (forall ls: nat :: (d, ls) !in n.past.stale) ==>
              && (NoneDimmed(a, CarryingNow(t, n), n.servers, d, n.routes[d]) <==> NoneShadowed(CarryingNow(t, n), n.servers, n.routes[d]))
              && !AllDimmed(a, CarryingNow(t, n), n.servers, d, n.routes[d])
  {
    var carrying := CarryingNow(t, n);
    FollowsIsSameView(t, n, a, table, d);
    if forall ls: nat :: (d, ls) !in n.past.stale {
      WithoutStaleMarks(a, carrying, n.servers, d, n.routes[d]);
    }
    AccessibleIff(t, n, d);
    ChoiceFollows(a, carrying, n.servers, d, table, n.routes[d], d in n.paused, d in n.accessible, sls);
  }

  /** A message goes by management's choice among the grades, and nowhere exactly if the destination is inaccessible. */
  ghost predicate FollowsChoice(table: Candidates, a: Availability, d: PointCode, sls: Byte, routes: seq<RouteState>, grades: seq<Grade>, accessible: bool) {
    && (Resolved(table, a, d, sls, None).None? <==> !accessible)
    && match ChooseRoute(grades, sls)
       case None => Resolved(table, a, d, sls, None) == None
       case Some(i) => i < |routes| && Resolved(table, a, d, sls, None) == Some(routes[i].via)
  }

  lemma AccessibleIff(t: Topology, n: Node, d: PointCode)
    requires Valid(t, n) && d in n.routes
    ensures d in n.accessible <==> RoutesInUse(Grades(CarryingNow(t, n), n.servers, d in n.paused, n.routes[d])) != []
  {}

  lemma ChoiceFollows(a: Availability, carrying: set<LinksetId>, servers: seq<bool>, d: PointCode, table: Candidates, routes: seq<RouteState>,
                      paused: bool, accessible: bool, sls: Byte)
    requires d in table && SameRoutes(table[d], routes) && SameView(a, carrying, servers, d, routes) && MarkedFirstOnly(routes)
    requires (d in a.prohibited <==> paused) && (accessible <==> RoutesInUse(Grades(carrying, servers, paused, routes)) != [])
    ensures var same := NoneDimmed(a, carrying, servers, d, routes) || AllDimmed(a, carrying, servers, d, routes);
            && (RoutesInUse(CandidateGrades(a, d, None, table[d])) == InUse(carrying, servers, false, routes) <==> same)
            && (paused || same ==> FollowsChoice(table, a, d, sls, routes, Grades(carrying, servers, paused, routes), accessible))
  {
    var h := Grades(carrying, servers, paused, routes);
    SameRoutesInUseIff(a, carrying, servers, d, table[d], routes);
    InUseIffUsable(h);
    ChosenIsInUse(h, sls);
    if paused {
      assert forall i | 0 <= i < |h| :: h[i].usable == No;
    }
  }
}
