/**
 The rule by which candidates share the traffic to a destination, after section
 2.3.2 of ITU-T Q.704. A tier is a run of candidates of equal priority; the first
 tier with anything usable is in use, in its best class. Two readers depend on the
 rule: the choice for each message, and management, which wants to know every
 route that some message can take. That both mean the same routes is proved here.
 */
module RouteChoice {
  import opened Options

  type Byte = n: int | 0 <= n < 256

  /** What is known of a route from the point it leads through. */
  datatype RouteStatus = Allowed | Restricted | Prohibited

  /** Whether a candidate can carry traffic. */
  datatype Usable = No | Limited | Yes

  /** All that the choice reads of one candidate. */
  datatype Grade = Grade(priority: Byte, usable: Usable)

  /** The candidates `start..end` of one priority, and the class in use among them. */
  datatype Tier = Tier(start: nat, end: nat, kind: Usable)

  ghost predicate SortedByPriority(s: seq<Grade>) {
    forall i, j | 0 <= i < j < |s| :: s[i].priority <= s[j].priority
  }

  /** Where the run of equal priorities that `i` belongs to ends. */
  function RunEnd(s: seq<Grade>, start: nat, i: nat): (end: nat)
    requires start <= i <= |s| && start < |s|
    requires forall k | start <= k < i :: s[k].priority == s[start].priority
    ensures i <= end <= |s|
    ensures forall k | start <= k < end :: s[k].priority == s[start].priority
    ensures end < |s| ==> s[end].priority != s[start].priority
    decreases |s| - i
  {
    if i < |s| && s[i].priority == s[start].priority then RunEnd(s, start, i + 1) else i
  }

  /** The best class among candidates `lo..hi`. */
  function BestClass(s: seq<Grade>, lo: nat, hi: nat): (kind: Usable)
    requires lo <= hi <= |s|
    ensures kind == No <==> forall k | lo <= k < hi :: s[k].usable == No
    ensures kind == Yes <==> exists k :: lo <= k < hi && s[k].usable == Yes
    ensures kind != No ==> exists k :: lo <= k < hi && s[k].usable == kind
  {
    if lo == hi then No
    else
      var before := BestClass(s, lo, hi - 1);
      if s[hi - 1].usable == Yes then Yes
      else if s[hi - 1].usable == Limited && before == No then Limited
      else before
  }

  function TierFrom(s: seq<Grade>, start: nat): Option<Tier>
    requires start <= |s|
    decreases |s| - start
  {
    if start == |s| then None
    else
      var end := RunEnd(s, start, start + 1);
      var kind := BestClass(s, start, end);
      if kind != No then Some(Tier(start, end, kind)) else TierFrom(s, end)
  }

  /** The tier in use, or none. */
  function TierOf(s: seq<Grade>): Option<Tier> { TierFrom(s, 0) }

  /** One pass over the runs of equal priority, with a loop for each run. */
  method TierInUse(s: seq<Grade>) returns (tier: Option<Tier>)
    ensures tier == TierOf(s)
  {
    var start := 0;
    while start < |s|
      invariant start <= |s|
      invariant TierOf(s) == TierFrom(s, start)
    {
      var level := s[start].priority;
      var end := start;
      var kind := No;
      while end < |s| && s[end].priority == level
        invariant start <= end <= |s|
        invariant forall k | start <= k < end :: s[k].priority == level
        invariant kind == BestClass(s, start, end)
      {
        match s[end].usable {
          case Yes => kind := Yes;
          case Limited => if kind == No { kind := Limited; }
          case No =>
        }
        end := end + 1;
      }
      RunEndUnique(s, start, end);
      if kind != No {
        return Some(Tier(start, end, kind));
      }
      start := end;
    }
    tier := None;
  }

  lemma RunEndUnique(s: seq<Grade>, start: nat, end: nat)
    requires start < end <= |s|
    requires forall k | start <= k < end :: s[k].priority == s[start].priority
    requires end < |s| ==> s[end].priority != s[start].priority
    ensures RunEnd(s, start, start + 1) == end
  {
    var other := RunEnd(s, start, start + 1);
    if other < end {
      assert false;
    } else if end < other {
      assert false;
    }
  }

  /** No candidate just before `start` has its priority. */
  ghost predicate StartsRun(s: seq<Grade>, start: nat) {
    0 < start < |s| ==> s[start - 1].priority != s[start].priority
  }

  /** What a tier in use is, said without the search that finds it. */
  ghost predicate IsTier(s: seq<Grade>, tier: Tier) {
    && tier.start < tier.end <= |s|
    && (forall k | 0 <= k < tier.start :: s[k].usable == No)
    && StartsRun(s, tier.start)
    && (forall k | tier.start <= k < tier.end :: s[k].priority == s[tier.start].priority)
    && (tier.end < |s| ==> s[tier.end].priority != s[tier.start].priority)
    && tier.kind != No
    && (tier.kind == Yes <==> exists k :: tier.start <= k < tier.end && s[k].usable == Yes)
    && (exists k :: tier.start <= k < tier.end && s[k].usable == tier.kind)
  }

  lemma {:induction false} TierFromMeaning(s: seq<Grade>, start: nat)
    requires start <= |s| && StartsRun(s, start)
    requires forall k | 0 <= k < start :: s[k].usable == No
    ensures TierFrom(s, start).None? <==> forall k | 0 <= k < |s| :: s[k].usable == No
    ensures TierFrom(s, start).Some? ==> IsTier(s, TierFrom(s, start).value)
    decreases |s| - start
  {
    if start < |s| {
      var end := RunEnd(s, start, start + 1);
      if BestClass(s, start, end) == No {
        TierFromMeaning(s, end);
      }
    }
  }

  lemma TierMeaning(s: seq<Grade>)
    ensures TierOf(s).None? <==> forall k | 0 <= k < |s| :: s[k].usable == No
    ensures TierOf(s).Some? ==> IsTier(s, TierOf(s).value)
  {
    TierFromMeaning(s, 0);
  }

  /** There is no other tier in use. */
  lemma TierIsUnique(s: seq<Grade>, tier: Tier)
    requires IsTier(s, tier)
    ensures TierOf(s) == Some(tier)
  {
    TierMeaning(s);
    var k :| tier.start <= k < tier.end && s[k].usable == tier.kind;
    var found := TierOf(s).value;
    NotBefore(s, tier, found);
    NotBefore(s, found, tier);
  }

  lemma NotBefore(s: seq<Grade>, a: Tier, b: Tier)
    requires IsTier(s, a) && IsTier(s, b)
    ensures a.start >= b.start && (a.start == b.start ==> a.end >= b.end)
  {
    var k :| a.start <= k < a.end && s[k].usable == a.kind;
    if a.start < b.start {
      assert false;
    } else if a.start == b.start && a.end < b.end {
      assert false;
    }
  }

  /** The candidates of `lo..hi` whose class is `kind`, in order. */
  function OfClass(s: seq<Grade>, lo: nat, hi: nat, kind: Usable): (picked: seq<nat>)
    requires lo <= hi <= |s|
    ensures forall i: nat :: i in picked <==> lo <= i < hi && s[i].usable == kind
  {
    if lo == hi then []
    else
      var before := OfClass(s, lo, hi - 1, kind);
      if s[hi - 1].usable == kind then before + [hi - 1] else before
  }

  /** The routes in use, in order. */
  function RoutesInUse(s: seq<Grade>): (used: seq<nat>)
    ensures forall i | i in used :: i < |s| && s[i].usable != No
  {
    TierMeaning(s);
    match TierOf(s)
    case None => []
    case Some(tier) => OfClass(s, tier.start, tier.end, tier.kind)
  }

  /** The normal route of selection code `sls` in a tier. */
  function Normal(tier: Tier, sls: Byte): (normal: nat)
    requires tier.start < tier.end
    ensures tier.start <= normal < tier.end
    ensures sls < tier.end - tier.start ==> normal == tier.start + sls
  {
    tier.start + Share(sls, tier.end - tier.start)
  }

  function Share(sls: Byte, width: nat): (place: nat)
    requires width > 0
    ensures place < width && (sls < width ==> place == sls)
  {
    sls % width
  }

  /** The choice for one message: its selection code's normal route, or a substitute where that one is not in use. */
  function ChooseRoute(s: seq<Grade>, sls: Byte): Option<nat> {
    TierMeaning(s);
    match TierOf(s)
    case None => None
    case Some(tier) =>
      var normal := Normal(tier, sls);
      if s[normal].usable == tier.kind then Some(normal)
      else
        var alive := OfClass(s, tier.start, tier.end, tier.kind);
        Some(alive[sls % |alive|])
  }

  /** Some route is in use exactly when some candidate is usable. */
  lemma InUseIffUsable(s: seq<Grade>)
    ensures RoutesInUse(s) != [] <==> exists i :: 0 <= i < |s| && s[i].usable != No
  {
    TierMeaning(s);
    if TierOf(s).Some? {
      var tier := TierOf(s).value;
      var k :| tier.start <= k < tier.end && s[k].usable == tier.kind;
      assert k in RoutesInUse(s);
      assert s[k].usable != No;
    }
  }

  /** The routes in use are all unrestricted, or all restricted. */
  lemma InUseShareOneClass(s: seq<Grade>, i: nat, j: nat)
    requires i in RoutesInUse(s) && j in RoutesInUse(s)
    ensures s[i].usable == s[j].usable && s[i].priority == s[j].priority
  {
    TierMeaning(s);
  }

  /**
   With the candidates in priority order, a route is in use exactly when it is
   usable, no usable route has a better priority and no usable route of its own
   priority is of a better class.
   */
  lemma InUseIsBest(s: seq<Grade>, i: nat)
    requires SortedByPriority(s) && i < |s|
    ensures i in RoutesInUse(s) <==>
              && s[i].usable != No
              && (forall k | 0 <= k < |s| && s[k].usable != No :: s[i].priority <= s[k].priority)
              && (forall k | 0 <= k < |s| && s[k].priority == s[i].priority :: s[k].usable == Yes ==> s[i].usable == Yes)
  {
    TierMeaning(s);
    if TierOf(s).Some? {
      var tier := TierOf(s).value;
      var best :| tier.start <= best < tier.end && s[best].usable == tier.kind;
      forall k | 0 <= k < |s| && s[k].priority == s[tier.start].priority && s[k].usable != No
        ensures tier.start <= k < tier.end
      {
        if tier.end <= k { assert false; }
      }
    }
  }

  /** No route is chosen exactly when nothing is usable; a chosen one is in use. */
  lemma ChosenIsInUse(s: seq<Grade>, sls: Byte)
    ensures ChooseRoute(s, sls).None? <==> forall k | 0 <= k < |s| :: s[k].usable == No
    ensures ChooseRoute(s, sls).Some? ==> ChooseRoute(s, sls).value in RoutesInUse(s)
  {
    TierMeaning(s);
    if TierOf(s).Some? {
      var tier := TierOf(s).value;
      var alive := OfClass(s, tier.start, tier.end, tier.kind);
      var k :| tier.start <= k < tier.end && s[k].usable == tier.kind;
      assert k in alive;
      assert alive[sls % |alive|] in alive;
    }
  }

  lemma ChosenForOffset(s: seq<Grade>, i: nat, sls: Byte)
    requires i in RoutesInUse(s)
    requires TierOf(s).Some? && i == TierOf(s).value.start + sls
    ensures ChooseRoute(s, sls) == Some(i)
  {
    TierMeaning(s);
    assert Normal(TierOf(s).value, sls) == i;
  }

  /** The per-message choice and management name the same routes. */
  lemma ChoiceCoversInUse(s: seq<Grade>, i: nat)
    requires forall tier | TierOf(s) == Some(tier) :: tier.end - tier.start <= 256
    ensures i in RoutesInUse(s) <==> exists sls: Byte :: ChooseRoute(s, sls) == Some(i)
  {
    if i in RoutesInUse(s) {
      TierMeaning(s);
      var sls: Byte := i - TierOf(s).value.start;
      ChosenForOffset(s, i, sls);
    }
    forall sls: Byte | ChooseRoute(s, sls) == Some(i)
      ensures i in RoutesInUse(s)
    {
      ChosenIsInUse(s, sls);
    }
  }

  /** Only candidates before a tier, and those in it, decide whether it is in use. */
  lemma SameTier(s: seq<Grade>, after: seq<Grade>, tier: Tier)
    requires TierOf(s) == Some(tier) && |after| == |s| && forall k | 0 <= k < |s| :: after[k].priority == s[k].priority
    requires forall k | 0 <= k < |s| && s[k].usable == No :: after[k].usable == No
    requires forall k | 0 <= k < |s| && after[k].usable == Yes :: s[k].usable == Yes
    requires exists k :: tier.start <= k < tier.end && k < |s| && s[k].usable == after[k].usable == tier.kind
    ensures TierOf(after) == Some(tier)
  {
    TierMeaning(s);
    var k :| tier.start <= k < tier.end && k < |s| && s[k].usable == after[k].usable == tier.kind;
    assert IsTier(after, tier);
    TierIsUnique(after, tier);
  }

  lemma {:induction false} ClassAscends(s: seq<Grade>, lo: nat, hi: nat, kind: Usable, a: nat, b: nat)
    requires lo <= hi <= |s| && a < b < |OfClass(s, lo, hi, kind)|
    ensures OfClass(s, lo, hi, kind)[a] < OfClass(s, lo, hi, kind)[b]
    decreases hi
  {
    var before := OfClass(s, lo, hi - 1, kind);
    if b < |before| {
      ClassAscends(s, lo, hi - 1, kind, a, b);
    } else {
      assert before[a] in before;
    }
  }

  /** The routes in use are listed in ascending order, none twice. */
  lemma InUseAscends(s: seq<Grade>, a: nat, b: nat)
    requires a < b < |RoutesInUse(s)|
    ensures RoutesInUse(s)[a] < RoutesInUse(s)[b]
  {
    TierMeaning(s);
    var tier := TierOf(s).value;
    ClassAscends(s, tier.start, tier.end, tier.kind, a, b);
  }

  lemma ChoiceInTier(s: seq<Grade>, tier: Tier, sls: Byte, normal: nat)
    requires IsTier(s, tier) && normal == Normal(tier, sls)
    ensures RoutesInUse(s) == OfClass(s, tier.start, tier.end, tier.kind) != []
    ensures s[normal].usable == tier.kind ==> ChooseRoute(s, sls) == Some(normal)
    ensures s[normal].usable != tier.kind ==> ChooseRoute(s, sls) == Some(RoutesInUse(s)[sls % |RoutesInUse(s)|])
  {
    TierIsUnique(s, tier);
    var k: nat :| tier.start <= k < tier.end && s[k].usable == tier.kind;
    assert k in OfClass(s, tier.start, tier.end, tier.kind);
  }

  /**
   The routes of the tier in use take turns: every selection code, however large, has
   its place in the tier by its remainder, and where the route there is not in use,
   its place among those that are.
   */
  lemma CodeTakesItsTurn(s: seq<Grade>, tier: Tier, sls: Byte, normal: nat)
    requires IsTier(s, tier) && normal == tier.start + sls % (tier.end - tier.start)
    ensures RoutesInUse(s) != [] && normal < tier.end <= |s|
    ensures s[normal].usable == tier.kind ==> ChooseRoute(s, sls) == Some(normal)
    ensures s[normal].usable != tier.kind ==> ChooseRoute(s, sls) == Some(RoutesInUse(s)[sls % |RoutesInUse(s)|])
  {
    assert normal == Normal(tier, sls);
    ChoiceInTier(s, tier, sls, normal);
  }

  /** Some routes in use fail, or become restricted where the others are not, and one at least stays as it was. */
  ghost predicate Failing(s: seq<Grade>, after: seq<Grade>, lost: set<nat>) {
    && |after| == |s| && (forall k | k in lost :: k in RoutesInUse(s)) && (exists k :: k in RoutesInUse(s) && k !in lost)
    && (forall k: nat | k < |s| && k !in lost :: after[k] == s[k])
    && (forall k: nat | k < |s| && k in lost :: after[k].priority == s[k].priority && after[k].usable != Yes && after[k].usable != s[k].usable)
  }

  /** When some of the routes in use fail and others do not, those others carry the traffic. */
  lemma OthersCarryOn(s: seq<Grade>, after: seq<Grade>, lost: set<nat>)
    requires Failing(s, after, lost)
    ensures TierOf(s).Some? && TierOf(after) == TierOf(s) && IsTier(s, TierOf(s).value) && IsTier(after, TierOf(s).value)
    ensures forall i: nat :: i in RoutesInUse(after) <==> i in RoutesInUse(s) && i !in lost
  {
    TierMeaning(s);
    var tier := TierOf(s).value;
    var stays: nat :| stays in RoutesInUse(s) && stays !in lost;
    assert s[stays].usable == after[stays].usable == tier.kind;
    forall k | 0 <= k < |s| && k in lost ensures s[k].usable == tier.kind {
      assert k in RoutesInUse(s);
    }
    SameTier(s, after, tier);
    TierMeaning(after);
  }

  /**
   And a selection code whose normal route is among them keeps it. Read the other way
   round: when the failed ones return, every such code is where it was.
   */
  lemma UnaffectedCodesStay(s: seq<Grade>, after: seq<Grade>, lost: set<nat>, tier: Tier, sls: Byte, normal: nat)
    requires Failing(s, after, lost) && TierOf(s) == Some(tier)
    requires tier.start < tier.end && normal == tier.start + sls % (tier.end - tier.start) && normal in RoutesInUse(s) && normal !in lost
    ensures ChooseRoute(after, sls) == ChooseRoute(s, sls) == Some(normal)
  {
    OthersCarryOn(s, after, lost);
    assert normal in RoutesInUse(after);
    CodeTakesItsTurn(s, tier, sls, normal);
    CodeTakesItsTurn(after, tier, sls, normal);
  }
}
