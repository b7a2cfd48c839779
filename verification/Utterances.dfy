/** What a dialogue was asked to say, and what of it was said. */
module Utterances {
  import opened Options
  import opened InvokeIds
  import opened Tcap

  function ComponentsOf(m: Message): seq<Component> { if m.Abort? then [] else m.components }

  /** What the first `count` messages carry behind the Rejects of the component sub-layer. */
  ghost function Tails(said: seq<Message>, led: seq<nat>, count: nat): seq<Component>
    requires count <= |said| == |led|
  {
    if count == 0 then []
    else
      var comps := ComponentsOf(said[count - 1]);
      Tails(said, led, count - 1) + (if led[count - 1] <= |comps| then comps[led[count - 1]..] else [])
  }

  /** The invokes among components, in order. */
  ghost function InvokesIn(comps: seq<Component>): seq<Component> {
    if comps == [] then []
    else InvokesIn(comps[..|comps| - 1]) + (if comps[|comps| - 1].Invoke? then [comps[|comps| - 1]] else [])
  }

  /** Operations as they are asked for. */
  ghost function InvokesOf(s: seq<Operation>): seq<Component> {
    if s == [] then [] else InvokesOf(s[..|s| - 1]) + [AsInvoke(s[|s| - 1])]
  }

  /** Their numbers ascend, and stay below `serial`. */
  ghost predicate Ascending(s: seq<Operation>, serial: nat) {
    s == [] || (s[|s| - 1].serial < serial && Ascending(s[..|s| - 1], s[|s| - 1].serial))
  }

  /** All that was staged and not dropped was said, in order, or waits. */
  ghost predicate SaidAsGiven(said: seq<Message>, led: seq<nat>, given: seq<Component>, pending: seq<Component>) {
    |led| == |said| && given == Tails(said, led, |said|) + pending
  }

  /** The invokes that were said are, in order, those listed, and those that wait are the staged ones. */
  ghost predicate InvokesSaid(said: seq<Message>, led: seq<nat>, pending: seq<Component>, invoked: seq<Operation>, staged: seq<Operation>, serial: nat) {
    && |led| == |said| && InvokesIn(Tails(said, led, |said|)) == InvokesOf(invoked) && InvokesIn(pending) == InvokesOf(staged)
    && Ascending(invoked + staged, serial)
  }

  lemma {:induction false} TailsBefore(said: seq<Message>, led: seq<nat>, m: Message, leading: nat, count: nat)
    requires count <= |said| == |led|
    ensures Tails(said + [m], led + [leading], count) == Tails(said, led, count)
    decreases count
  {
    if count > 0 {
      TailsBefore(said, led, m, leading, count - 1);
    }
  }

  /** A message carries on what those before it said. */
  lemma TailsOneMore(said: seq<Message>, led: seq<nat>, m: Message, leading: nat, rest: seq<Component>)
    requires |said| == |led| && leading <= |ComponentsOf(m)| && ComponentsOf(m)[leading..] == rest
    ensures Tails(said + [m], led + [leading], |said| + 1) == Tails(said, led, |said|) + rest
  {
    TailsBefore(said, led, m, leading, |said|);
    assert (said + [m])[|said|] == m && (led + [leading])[|said|] == leading;
  }

  lemma {:induction false} InvokesJoin(a: seq<Component>, b: seq<Component>)
    ensures InvokesIn(a + b) == InvokesIn(a) + InvokesIn(b)
    decreases |b|
  {
    if b == [] {
      assert a + b == a;
    } else {
      InvokesJoin(a, b[..|b| - 1]);
      assert (a + b)[..|a + b| - 1] == a + b[..|b| - 1];
    }
  }

  lemma InvokesOneMore(comps: seq<Component>, c: Component)
    ensures InvokesIn(comps + [c]) == if c.Invoke? then InvokesIn(comps) + [c] else InvokesIn(comps)
  {
    assert (comps + [c])[..|comps|] == comps;
  }

  lemma AscendingOneMore(s: seq<Operation>, serial: nat, o: Operation)
    requires Ascending(s, serial) && o.serial == serial
    ensures Ascending(s + [o], serial + 1)
  {
    assert (s + [o])[..|s|] == s;
  }

  lemma {:induction false} AscendingFront(a: seq<Operation>, b: seq<Operation>, serial: nat)
    requires Ascending(a + b, serial)
    ensures Ascending(a, serial)
    decreases |b|
  {
    if b == [] {
      assert a + b == a;
    } else {
      assert (a + b)[..|a + b| - 1] == a + b[..|b| - 1];
      AscendingFront(a, b[..|b| - 1], b[|b| - 1].serial);
      AscendingRises(a, b[|b| - 1].serial, serial);
    }
  }

  lemma AscendingRises(s: seq<Operation>, low: nat, high: nat)
    requires Ascending(s, low) && low <= high
    ensures Ascending(s, high)
  {}

  lemma {:induction false} InvokesOfJoin(a: seq<Operation>, b: seq<Operation>)
    ensures InvokesOf(a + b) == InvokesOf(a) + InvokesOf(b)
    decreases |b|
  {
    if b == [] {
      assert a + b == a;
    } else {
      InvokesOfJoin(a, b[..|b| - 1]);
      assert (a + b)[..|a + b| - 1] == a + b[..|b| - 1];
    }
  }

  lemma GivenOneMore(said: seq<Message>, led: seq<nat>, given: seq<Component>, pending: seq<Component>, c: Component)
    requires SaidAsGiven(said, led, given, pending)
    ensures SaidAsGiven(said, led, given + [c], pending + [c])
  {
    assert Tails(said, led, |said|) + (pending + [c]) == (Tails(said, led, |said|) + pending) + [c];
  }

  lemma InvokesSaidOneMore(said: seq<Message>, led: seq<nat>, pending: seq<Component>, invoked: seq<Operation>, staged: seq<Operation>, serial: nat, o: Operation)
    requires InvokesSaid(said, led, pending, invoked, staged, serial) && o.serial == serial
    ensures InvokesSaid(said, led, pending + [AsInvoke(o)], invoked, staged + [o], serial + 1)
  {
    InvokesOneMore(pending, AsInvoke(o));
    InvokesOfJoin(staged, [o]);
    assert InvokesOf([o]) == [AsInvoke(o)] by { assert [o][..0] == []; }
    AscendingOneMore(invoked + staged, serial, o);
    assert invoked + (staged + [o]) == (invoked + staged) + [o];
  }

  /** What waits is dropped. */
  lemma NoneVoiced(said: seq<Message>, led: seq<nat>, given: seq<Component>, pending: seq<Component>, invoked: seq<Operation>, staged: seq<Operation>, serial: nat)
    requires SaidAsGiven(said, led, given, pending) && InvokesSaid(said, led, pending, invoked, staged, serial)
    ensures |pending| <= |given| && SaidAsGiven(said, led, given[..|given| - |pending|], [])
    ensures InvokesSaid(said, led, [], invoked, [], serial)
  {
    assert given[..|given| - |pending|] == Tails(said, led, |said|);
    assert Tails(said, led, |said|) + [] == Tails(said, led, |said|);
    assert invoked + [] == invoked;
    AscendingFront(invoked, staged, serial);
  }

  /** What waits is said with a message, behind the Rejects. */
  lemma AllSaid(said: seq<Message>, led: seq<nat>, rejects: seq<Rejection>, pending: seq<Component>, m: Message)
    requires |led| == |said| && ComponentsOf(m) == AsComponents(rejects) + pending
    ensures Tails(said + [m], led + [|rejects|], |said| + 1) == Tails(said, led, |said|) + pending
  {
    assert ComponentsOf(m)[|rejects|..] == pending;
    TailsOneMore(said, led, m, |rejects|, pending);
  }

  lemma InvokesAllSaid(said: seq<Message>, led: seq<nat>, pending: seq<Component>, invoked: seq<Operation>, staged: seq<Operation>,
                       serial: nat, rejects: seq<Rejection>, m: Message)
    requires InvokesSaid(said, led, pending, invoked, staged, serial) && ComponentsOf(m) == AsComponents(rejects) + pending
    ensures InvokesSaid(said + [m], led + [|rejects|], [], invoked + staged, [], serial)
  {
    AllSaid(said, led, rejects, pending, m);
    InvokesJoin(Tails(said, led, |said|), pending);
    InvokesOfJoin(invoked, staged);
    assert (invoked + staged) + [] == invoked + staged;
  }

  lemma GivenAllSaid(said: seq<Message>, led: seq<nat>, given: seq<Component>, pending: seq<Component>, rejects: seq<Rejection>, m: Message)
    requires SaidAsGiven(said, led, given, pending) && ComponentsOf(m) == AsComponents(rejects) + pending
    ensures SaidAsGiven(said + [m], led + [|rejects|], given, [])
  {
    AllSaid(said, led, rejects, pending, m);
    assert given + [] == given;
  }

  /** An abort carries nothing. */
  lemma AbortVoices(said: seq<Message>, led: seq<nat>, given: seq<Component>, pending: seq<Component>, invoked: seq<Operation>, staged: seq<Operation>,
                    serial: nat, m: Message)
    requires SaidAsGiven(said, led, given, pending) && InvokesSaid(said, led, pending, invoked, staged, serial) && m.Abort?
    ensures SaidAsGiven(said + [m], led + [0], given, pending)
    ensures InvokesSaid(said + [m], led + [0], pending, invoked, staged, serial)
  {
    TailsOneMore(said, led, m, 0, []);
    assert Tails(said, led, |said|) + [] == Tails(said, led, |said|);
  }

  lemma {:induction false} OperationOfJoin(a: seq<Operation>, b: seq<Operation>, serial: nat)
    ensures OperationOf(a + b, serial) == if serial in Serials(b) then OperationOf(b, serial) else OperationOf(a, serial)
    decreases |b|
  {
    if b == [] {
      assert a + b == a;
    } else {
      var front, last := b[..|b| - 1], b[|b| - 1];
      OperationOfJoin(a, front, serial);
      assert (a + b)[..|a + b| - 1] == a + front;
      assert forall i | 0 <= i < |front| :: front[i] == b[i];
      assert serial in Serials(b) <==> serial in Serials(front) || last.serial == serial;
    }
  }

  lemma SerialsJoin(a: seq<Operation>, b: seq<Operation>)
    ensures Serials(a + b) == Serials(a) + Serials(b)
  {
    assert forall i | 0 <= i < |a| :: (a + b)[i] == a[i];
    assert forall i | 0 <= i < |b| :: (a + b)[|a| + i] == b[i];
    forall n | n in Serials(a + b) ensures n in Serials(a) + Serials(b) {
      var i :| 0 <= i < |a + b| && (a + b)[i].serial == n;
      if i >= |a| { assert b[i - |a|].serial == n; }
    }
  }

  /** What was staged is said and sent. */
  lemma SentJoin(invoked: seq<Operation>, staged: seq<Operation>)
    ensures WithSent(WithSent(map[], invoked), staged) == WithSent(map[], invoked + staged)
  {
    var a, b := WithSent(WithSent(map[], invoked), staged), WithSent(map[], invoked + staged);
    SerialsJoin(invoked, staged);
    assert a.Keys == b.Keys;
    forall n | n in a ensures a[n] == b[n] {
      OperationOfJoin(invoked, staged, n);
    }
  }

  /**
   What was staged and not dropped was said, in order, or waits; the invokes among
   it are those that were sent and those staged.
   */
  ghost predicate Voiced(past: History, pending: seq<Component>, staged: seq<Operation>) {
    && SaidAsGiven(past.said, past.led, past.given, pending)
    && InvokesSaid(past.said, past.led, pending, past.invoked, staged, past.serial)
    && past.sent == WithSent(map[], past.invoked)
  }

  lemma InvokeVoiced(past: History, pending: seq<Component>, staged: seq<Operation>, o: Operation, g: Grant)
    requires Voiced(past, pending, staged) && o.serial == past.serial
    ensures Voiced(Given(past, AsInvoke(o)).(serial := past.serial + 1, grants := past.grants + [g]), pending + [AsInvoke(o)], staged + [o])
  {
    GivenOneMore(past.said, past.led, past.given, pending, AsInvoke(o));
    InvokesSaidOneMore(past.said, past.led, pending, past.invoked, staged, past.serial, o);
  }

  lemma ComponentVoiced(past: History, pending: seq<Component>, staged: seq<Operation>, c: Component)
    requires Voiced(past, pending, staged) && !c.Invoke?
    ensures Voiced(Given(past, c), pending + [c], staged)
  {
    GivenOneMore(past.said, past.led, past.given, pending, c);
    InvokesOneMore(pending, c);
  }

  lemma DroppedVoiced(past: History, pending: seq<Component>, staged: seq<Operation>)
    requires Voiced(past, pending, staged)
    ensures Voiced(Withdrawn(past, |pending|), [], [])
  {
    NoneVoiced(past.said, past.led, past.given, pending, past.invoked, staged, past.serial);
  }

  lemma SendVoiced(past: History, pending: seq<Component>, staged: seq<Operation>, rejects: seq<Rejection>, m: Message)
    requires Voiced(past, pending, staged) && ComponentsOf(m) == AsComponents(rejects) + pending
    ensures var said := past.(said := past.said + [m], led := past.led + [|rejects|]);
            Voiced(Sent(said, staged), [], [])
  {
    GivenAllSaid(past.said, past.led, past.given, pending, rejects, m);
    InvokesAllSaid(past.said, past.led, pending, past.invoked, staged, past.serial, rejects, m);
    SentJoin(past.invoked, staged);
  }

  lemma ReleasedVoiced(past: History, pending: seq<Component>, staged: seq<Operation>, outstanding: seq<Operation>)
    requires Voiced(past, pending, staged)
    ensures Voiced(Withdrawn(ConcludeAll(past, outstanding, Dropped), |pending|), [], [])
  {
    DroppedVoiced(past, pending, staged);
  }

  lemma AbortVoiced(past: History, pending: seq<Component>, staged: seq<Operation>, m: Message)
    requires Voiced(past, pending, staged) && m.Abort?
    ensures Voiced(past.(said := past.said + [m], led := past.led + [0]), pending, staged)
  {
    AbortVoices(past.said, past.led, past.given, pending, past.invoked, staged, past.serial, m);
  }
}
