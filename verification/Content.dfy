/**
 Content routing: the first rule that matches the decoded view of a message
 decides. Where decoding failed to yield the IMSI, the search stops at the first
 rule that asks for one. So a verdict that is reached anyway is the verdict for
 every IMSI, and only messages are dropped for which it would have mattered: both
 are proved here.
 */
module ContentRouting {
  import opened Options

  datatype Operation =
    | SriSm | MoForwardSm | MtForwardSm | UpdateLocation | CancelLocation | SendAuthInfo
    | InsertSubscriberData | ProvideSubscriberInfo | InitialDp | Connect

  datatype MapView = MapView(
    operation: Option<Operation>,
    cgpaGt: Option<string>,
    cdpaGt: Option<string>,
    imsi: Option<string>,
    msisdn: Option<string>,
    imsiUnreadable: bool)
  {
    /** The IMSI of an unreadable argument is unknown. */
    predicate Valid() { imsiUnreadable ==> imsi.None? }

    /** This message, its argument readable and with this IMSI, or with none. */
    function Readable(known: Option<string>): MapView { this.(imsi := known, imsiUnreadable := false) }
  }

  /** Where a matched message goes; what a target names is for the router. */
  datatype RouteTarget = NoTarget | Target(dpc: Option<nat>, ssn: Option<nat>, group: Option<string>, tenant: Option<string>)

  datatype RuleAction = RuleAction(screen: Option<bool>, route: Option<RouteTarget>, rewriteCdpaGt: Option<string>)

  datatype Rule = Rule(
    name: string,
    operations: seq<Operation>,
    imsiIn: Option<string>,
    imsiPrefix: Option<string>,
    cdpaGtIn: Option<string>,
    cgpaGtIn: Option<string>,
    action: RuleAction)

  datatype Action = Route(target: RouteTarget, rewriteCdpaGt: Option<string>) | Screen | Unevaluable

  datatype Hit = Hit(rule: string, action: Action)

  type Tables = map<string, seq<string>>

  datatype Engine = Engine(rules: seq<Rule>, addressTables: Tables, imsiTables: Tables)

  // ── The tests of a rule ────────────────────────────────────────────────────

  function Entries(tables: Tables, name: string): seq<string> { if name in tables then tables[name] else [] }

  predicate GtIn(e: Engine, table: Option<string>, gt: Option<string>) {
    table.Some? ==> gt.Some? && gt.value in Entries(e.addressTables, table.value)
  }

  predicate MatchesBesidesIdentity(e: Engine, rule: Rule, view: MapView) {
    && (rule.operations != [] ==> view.operation.Some? && view.operation.value in rule.operations)
    && GtIn(e, rule.cdpaGtIn, view.cdpaGt)
    && GtIn(e, rule.cgpaGtIn, view.cgpaGt)
  }

  predicate InTable(prefixes: seq<string>, imsi: string) { exists p :: p in prefixes && p <= imsi }

  predicate MatchesIdentity(e: Engine, rule: Rule, view: MapView) {
    && (rule.imsiIn.Some? ==> view.imsi.Some? && InTable(Entries(e.imsiTables, rule.imsiIn.value), view.imsi.value))
    && (rule.imsiPrefix.Some? ==> view.imsi.Some? && rule.imsiPrefix.value <= view.imsi.value)
  }

  predicate TestsIdentity(rule: Rule) { rule.imsiIn.Some? || rule.imsiPrefix.Some? }

  function ActionOf(a: RuleAction): Action {
    if a.screen == Some(true) then Screen
    else Route(if a.route.Some? then a.route.value else NoTarget, a.rewriteCdpaGt)
  }

  /** The table has an entry with the very digits of the address. */
  ghost predicate Listed(tables: Tables, table: string, address: Option<string>) {
    address.Some? && table in tables && exists k :: 0 <= k < |tables[table]| && tables[table][k] == address.value
  }

  /** The table has an entry that the IMSI begins with. */
  ghost predicate PrefixListed(tables: Tables, table: string, imsi: Option<string>) {
    && imsi.Some? && table in tables
    && exists k :: 0 <= k < |tables[table]| && |tables[table][k]| <= |imsi.value| && imsi.value[..|tables[table][k]|] == tables[table][k]
  }

  /** Which criterion looks at what: the address criteria at the called and at the calling address, the others at operation and IMSI. */
  lemma MatchesIff(e: Engine, rule: Rule, view: MapView)
    ensures MatchesBesidesIdentity(e, rule, view) <==>
              && (rule.operations == [] || exists k :: 0 <= k < |rule.operations| && view.operation == Some(rule.operations[k]))
              && (rule.cdpaGtIn.None? || Listed(e.addressTables, rule.cdpaGtIn.value, view.cdpaGt))
              && (rule.cgpaGtIn.None? || Listed(e.addressTables, rule.cgpaGtIn.value, view.cgpaGt))
    ensures MatchesIdentity(e, rule, view) <==>
              && (rule.imsiIn.None? || PrefixListed(e.imsiTables, rule.imsiIn.value, view.imsi))
              && (rule.imsiPrefix.None? ||
                  (view.imsi.Some? && |rule.imsiPrefix.value| <= |view.imsi.value| &&
                   view.imsi.value[..|rule.imsiPrefix.value|] == rule.imsiPrefix.value))
  {
    if rule.imsiIn.Some? && view.imsi.Some? {
      var prefixes := Entries(e.imsiTables, rule.imsiIn.value);
      if p :| p in prefixes && p <= view.imsi.value {
        var k :| 0 <= k < |prefixes| && prefixes[k] == p;
        assert view.imsi.value[..|prefixes[k]|] == prefixes[k];
      }
      if k :| 0 <= k < |prefixes| && |prefixes[k]| <= |view.imsi.value| && view.imsi.value[..|prefixes[k]|] == prefixes[k] {
        assert prefixes[k] in prefixes && prefixes[k] <= view.imsi.value;
      }
    }
  }

  /** A rule that screens drops what it matches, whatever else it says; any other routes it, rewritten as it says. */
  lemma ActionMeaning(a: RuleAction)
    ensures ActionOf(a) == Screen <==> a.screen == Some(true)
    ensures a.screen != Some(true) ==>
              && ActionOf(a).Route? && ActionOf(a).rewriteCdpaGt == a.rewriteCdpaGt
              && (a.route.Some? ==> ActionOf(a).target == a.route.value) && (a.route.None? ==> ActionOf(a).target == NoTarget)
  {}

  // ── What evaluation means ──────────────────────────────────────────────────

  /** A rule matches a view whose IMSI is known, be it that there is none. */
  predicate Matches(e: Engine, rule: Rule, view: MapView) {
    MatchesBesidesIdentity(e, rule, view) && MatchesIdentity(e, rule, view)
  }

  /** A rule whose verdict hangs on the IMSI of the message. */
  predicate HangsOnIdentity(e: Engine, rule: Rule, view: MapView) {
    MatchesBesidesIdentity(e, rule, view) && TestsIdentity(rule)
  }

  /** Evaluation stops at this rule. */
  predicate Stops(e: Engine, rule: Rule, view: MapView) {
    Matches(e, rule, view) || (view.imsiUnreadable && HangsOnIdentity(e, rule, view))
  }

  /** The first rule evaluation stops at is number `i`. */
  ghost predicate StopsFirstAt(e: Engine, view: MapView, i: int) {
    0 <= i < |e.rules| && Stops(e, e.rules[i], view) && forall k | 0 <= k < i :: !Stops(e, e.rules[k], view)
  }

  function Verdict(e: Engine, rule: Rule, view: MapView): Hit {
    Hit(rule.name, if view.imsiUnreadable && TestsIdentity(rule) then Unevaluable else ActionOf(rule.action))
  }

  /** The outcome of the first rule that stops evaluation. */
  ghost predicate IsOutcome(e: Engine, view: MapView, hit: Option<Hit>) {
    match hit
    case None => forall k | 0 <= k < |e.rules| :: !Stops(e, e.rules[k], view)
    case Some(h) => exists i :: StopsFirstAt(e, view, i) && h == Verdict(e, e.rules[i], view)
  }

  /** There is one outcome. */
  lemma OutcomeIsUnique(e: Engine, view: MapView, a: Option<Hit>, b: Option<Hit>)
    requires IsOutcome(e, view, a) && IsOutcome(e, view, b)
    ensures a == b
  {
    if a.Some? && b.Some? {
      var i :| StopsFirstAt(e, view, i) && a.value == Verdict(e, e.rules[i], view);
      var j :| StopsFirstAt(e, view, j) && b.value == Verdict(e, e.rules[j], view);
      assert i == j;
    }
  }

  function EvaluateFrom(e: Engine, view: MapView, i: nat): Option<Hit>
    requires i <= |e.rules|
    decreases |e.rules| - i
  {
    if i == |e.rules| then None
    else if Stops(e, e.rules[i], view) then Some(Verdict(e, e.rules[i], view))
    else EvaluateFrom(e, view, i + 1)
  }

  function Evaluate(e: Engine, view: MapView): Option<Hit> { EvaluateFrom(e, view, 0) }

  lemma {:induction false} EvaluateFromMeaning(e: Engine, view: MapView, i: nat)
    requires i <= |e.rules| && forall k | 0 <= k < i :: !Stops(e, e.rules[k], view)
    ensures IsOutcome(e, view, EvaluateFrom(e, view, i))
    decreases |e.rules| - i
  {
    if i < |e.rules| {
      if Stops(e, e.rules[i], view) {
        assert StopsFirstAt(e, view, i);
      } else {
        EvaluateFromMeaning(e, view, i + 1);
      }
    }
  }

  /** First match wins. */
  lemma EvaluateMeaning(e: Engine, view: MapView)
    ensures IsOutcome(e, view, Evaluate(e, view))
  {
    EvaluateFromMeaning(e, view, 0);
  }

  // ── An unreadable IMSI ─────────────────────────────────────────────────────

  /** Without the IMSI, a rule matches what it matches with any IMSI, unless its verdict hangs on it. */
  lemma IdentityOnlyWhereTested(e: Engine, rule: Rule, view: MapView, known: Option<string>)
    requires view.Valid() && view.imsiUnreadable && !HangsOnIdentity(e, rule, view)
    ensures Stops(e, rule, view) == Stops(e, rule, view.Readable(known)) == Matches(e, rule, view.Readable(known))
  {}

  /** An outcome that is not a drop for want of the IMSI is the outcome for every IMSI, and for none. */
  lemma UnknownImsiCannotChangeVerdict(e: Engine, view: MapView, known: Option<string>)
    requires view.Valid() && view.imsiUnreadable
    requires Evaluate(e, view).None? || Evaluate(e, view).value.action != Unevaluable
    ensures Evaluate(e, view.Readable(known)) == Evaluate(e, view)
  {
    EvaluateMeaning(e, view);
    var other := view.Readable(known);
    if Evaluate(e, view).None? {
      forall k | 0 <= k < |e.rules| ensures !Stops(e, e.rules[k], other) {
        IdentityOnlyWhereTested(e, e.rules[k], view, known);
      }
      OutcomeIsUnique(e, other, None, Evaluate(e, other)) by { EvaluateMeaning(e, other); }
    } else {
      var i :| StopsFirstAt(e, view, i) && Evaluate(e, view).value == Verdict(e, e.rules[i], view);
      forall k | 0 <= k <= i ensures Stops(e, e.rules[k], other) == (k == i) {
        IdentityOnlyWhereTested(e, e.rules[k], view, known);
      }
      assert StopsFirstAt(e, other, i);
      OutcomeIsUnique(e, other, Some(Verdict(e, e.rules[i], other)), Evaluate(e, other)) by { EvaluateMeaning(e, other); }
    }
  }

  /** A drop for want of the IMSI is at a rule before which none matches, whatever the IMSI is. */
  lemma NoEarlierRuleMatches(e: Engine, view: MapView)
    requires view.Valid() && Evaluate(e, view).Some? && Evaluate(e, view).value.action == Unevaluable
    ensures exists i :: 0 <= i < |e.rules| && e.rules[i].name == Evaluate(e, view).value.rule && HangsOnIdentity(e, e.rules[i], view) &&
                        forall k, known | 0 <= k < i :: !Matches(e, e.rules[k], view.Readable(known))
  {
    EvaluateMeaning(e, view);
    var i :| StopsFirstAt(e, view, i) && Evaluate(e, view).value == Verdict(e, e.rules[i], view);
    forall k, known | 0 <= k < i ensures !Matches(e, e.rules[k], view.Readable(known)) {
      assert !Stops(e, e.rules[k], view);
      IdentityOnlyWhereTested(e, e.rules[k], view, known);
    }
  }

  /**
   A message is dropped for want of its IMSI exactly when some rule's verdict hangs
   on it and no rule before that one matches. A message whose IMSI is known never is.
   */
  lemma DroppedIffItMatters(e: Engine, view: MapView)
    requires view.Valid()
    ensures (Evaluate(e, view).Some? && Evaluate(e, view).value.action == Unevaluable) <==>
              && view.imsiUnreadable
              && (exists i :: 0 <= i < |e.rules| && HangsOnIdentity(e, e.rules[i], view) &&
                              forall k | 0 <= k < i :: !Matches(e, e.rules[k], view))
  {
    EvaluateMeaning(e, view);
    if view.imsiUnreadable {
      if i :| 0 <= i < |e.rules| && HangsOnIdentity(e, e.rules[i], view) && forall k | 0 <= k < i :: !Matches(e, e.rules[k], view) {
        assert Stops(e, e.rules[i], view);
        var j :| StopsFirstAt(e, view, j) && Evaluate(e, view).value == Verdict(e, e.rules[j], view);
        assert j <= i;
        assert HangsOnIdentity(e, e.rules[j], view);
      }
    }
  }

  // ── Changing the rules ─────────────────────────────────────────────────────

  /** A rule added while the system runs decides before all others. */
  lemma AddedRuleWins(e: Engine, rule: Rule, view: MapView)
    ensures Evaluate(e.(rules := [rule] + e.rules), view) ==
            if Stops(e, rule, view) then Some(Verdict(e, rule, view)) else Evaluate(e, view)
  {
    var after := e.(rules := [rule] + e.rules);
    EvaluateMeaning(e, view);
    assert forall k | 0 <= k < |e.rules| :: after.rules[k + 1] == e.rules[k];
    assert forall r :: Stops(after, r, view) == Stops(e, r, view);
    var expected := if Stops(e, rule, view) then Some(Verdict(e, rule, view)) else Evaluate(e, view);
    if Stops(e, rule, view) {
      assert StopsFirstAt(after, view, 0);
    } else if expected.Some? {
      var i :| StopsFirstAt(e, view, i) && expected.value == Verdict(e, e.rules[i], view);
      forall k | 0 <= k < i + 1 ensures !Stops(after, after.rules[k], view) {
        if k > 0 {
          assert after.rules[k] == e.rules[k - 1];
        }
      }
      assert StopsFirstAt(after, view, i + 1);
    }
    assert IsOutcome(after, view, expected);
    OutcomeIsUnique(after, view, expected, Evaluate(after, view)) by { EvaluateMeaning(after, view); }
  }

  function WithEntry(tables: Tables, table: string, entry: string): Tables {
    tables[table := if entry in Entries(tables, table) then Entries(tables, table) else Entries(tables, table) + [entry]]
  }

  /** A table gains the entry, keeps what it had and no other table changes; adding it again changes nothing. */
  lemma EntryAddedOnce(tables: Tables, table: string, entry: string)
    ensures forall name, x :: x in Entries(WithEntry(tables, table, entry), name) <==>
                              x in Entries(tables, name) || (name == table && x == entry)
    ensures WithEntry(WithEntry(tables, table, entry), table, entry) == WithEntry(tables, table, entry)
  {
    var once := WithEntry(tables, table, entry);
    assert entry in Entries(once, table);
    assert once[table := once[table]] == once;
  }

  class ContentEngine {
    var rules: seq<Rule>
    var addressTables: Tables
    var imsiTables: Tables

    function State(): Engine
      reads this
    {
      Engine(rules, addressTables, imsiTables)
    }

    constructor (compiled: seq<Rule>, addresses: Tables, imsis: Tables)
      ensures State() == Engine(compiled, addresses, imsis)
    {
      rules, addressTables, imsiTables := compiled, addresses, imsis;
    }

    method AddRule(rule: Rule)
      modifies this`rules
      ensures rules == [rule] + old(rules)
      ensures forall view :: Evaluate(State(), view) ==
                if Stops(old(State()), rule, view) then Some(Verdict(old(State()), rule, view)) else Evaluate(old(State()), view)
    {
      ghost var before := State();
      rules := [rule] + rules;
      forall view
        ensures Evaluate(State(), view) == if Stops(before, rule, view) then Some(Verdict(before, rule, view)) else Evaluate(before, view)
      {
        AddedRuleWins(before, rule, view);
      }
    }

    method AddressTableAdd(table: string, address: string)
      modifies this`addressTables
      ensures addressTables == WithEntry(old(addressTables), table, address)
    {
      var entries := Entries(addressTables, table);
      if address !in entries {
        entries := entries + [address];
      }
      addressTables := addressTables[table := entries];
    }

    method ImsiTableAdd(table: string, prefix: string)
      modifies this`imsiTables
      ensures imsiTables == WithEntry(old(imsiTables), table, prefix)
    {
      var entries := Entries(imsiTables, table);
      if prefix !in entries {
        entries := entries + [prefix];
      }
      imsiTables := imsiTables[table := entries];
    }

    /** Evaluate the ordered rules; the first that matches, or cannot be evaluated, decides. */
    method Decide(view: MapView) returns (hit: Option<Hit>)
      ensures IsOutcome(State(), view, hit)
      ensures hit == Evaluate(State(), view)
    {
      var e := State();
      var i := 0;
      while i < |rules|
        invariant 0 <= i <= |rules|
        invariant Evaluate(e, view) == EvaluateFrom(e, view, i)
      {
        var rule := rules[i];
        if MatchesBesidesIdentity(e, rule, view) {
          if TestsIdentity(rule) && view.imsiUnreadable {
            EvaluateMeaning(e, view);
            return Some(Hit(rule.name, Unevaluable));
          }
          if MatchesIdentity(e, rule, view) {
            EvaluateMeaning(e, view);
            return Some(Hit(rule.name, ActionOf(rule.action)));
          }
        }
        i := i + 1;
      }
      EvaluateMeaning(e, view);
      return None;
    }
  }
}
