/**
 Which server associations of a configuration share a listening socket. Those with
 the same port and local addresses do, and whoever connects to it is attributed to
 one of them by where the connection comes from. Configurations that leave the
 attribution open, or that would need two sockets in one place, are refused.
 */
module ListenGroups {
  import opened Options

  datatype IpAddr = V4(bits: nat) | V6(bits: nat)

  /** A local address: compared as an address where it is one. */
  datatype LocalAddr = Ip(ip: IpAddr) | Text(text: string)

  /** `peers` holds the peer addresses as they parse; what does not parse is an error where it is needed. */
  datatype Association = Association(
    server: bool,
    port: nat,
    local: seq<LocalAddr>,
    peers: seq<Option<IpAddr>>,
    peerPort: Option<nat>)

  datatype Conflict =
    | Differ(first: nat, second: nat)
    | NeedPeers(first: nat, second: nat)
    | SharedPeer(first: nat, second: nat, ip: IpAddr)
    | BadPeer(first: nat, second: nat)

  datatype Grouping = Groups(groups: seq<seq<nat>>) | Refused(why: Conflict)

  predicate IsAny(l: LocalAddr) { l.Ip? && l.ip.bits == 0 }

  // ── What the guarantee is about ────────────────────────────────────────────

  /** A packet to some address could reach both lists. */
  ghost predicate Overlap(a: seq<LocalAddr>, b: seq<LocalAddr>) {
    exists l, m :: l in a && m in b && (l == m || IsAny(l) || IsAny(m))
  }

  /** The association would take this peer for its own: it knows all its addresses, and its port if it names one. */
  ghost predicate Claims(a: Association, presented: set<IpAddr>, port: nat) {
    (forall ip | ip in presented :: Some(ip) in a.peers) && (a.peerPort.Some? ==> a.peerPort.value == port)
  }

  // ── How the configuration is checked ───────────────────────────────────────

  predicate Same(mine: seq<LocalAddr>, theirs: seq<LocalAddr>) {
    |mine| == |theirs| && forall l | l in mine :: l in theirs
  }

  predicate Touching(mine: seq<LocalAddr>, theirs: seq<LocalAddr>) {
    exists l :: l in mine && (IsAny(l) || l in theirs || HasAny(theirs))
  }

  predicate HasAny(list: seq<LocalAddr>) { exists m :: m in list && IsAny(m) }

  /** The first element of `s` from `i` on that is in `t`. */
  function FirstCommon(s: seq<Option<IpAddr>>, t: seq<Option<IpAddr>>, i: nat): (p: Option<Option<IpAddr>>)
    requires i <= |s|
    ensures p.Some? ==> p.value in s && p.value in t
    ensures p.None? ==> forall k | i <= k < |s| :: s[k] !in t
    decreases |s| - i
  {
    if i == |s| then None else if s[i] in t then Some(s[i]) else FirstCommon(s, t, i + 1)
  }

  predicate ToldApartByPort(a: Association, b: Association) {
    a.peerPort.Some? && b.peerPort.Some? && a.peerPort.value != b.peerPort.value
  }

  /** Both could claim one peer, or it cannot be said. */
  ghost predicate PeerClash(a: Association, b: Association) {
    !ToldApartByPort(a, b) && (None in a.peers || None in b.peers || exists ip :: ip in a.peers && ip in b.peers)
  }

  datatype Common = NoPeer | Peer(ip: IpAddr) | Unreadable

  function PeerInCommon(a: Association, b: Association): (c: Common)
    ensures c.NoPeer? <==> !PeerClash(a, b)
    ensures c.Peer? ==> Some(c.ip) in a.peers && Some(c.ip) in b.peers
  {
    if ToldApartByPort(a, b) then NoPeer
    else if None in b.peers || None in a.peers then Unreadable
    else
      var p := FirstCommon(a.peers, b.peers, 0);
      if p.Some? then Peer(p.value.value) else NoPeer
  }

  /** No clash means that no peer which presents an address is claimed by both. */
  lemma NoClashNoSharedPeer(a: Association, b: Association, presented: set<IpAddr>, port: nat)
    requires !PeerClash(a, b) && presented != {}
    ensures !(Claims(a, presented, port) && Claims(b, presented, port))
  {
    var ip :| ip in presented;
    assert Claims(a, presented, port) ==> Some(ip) in a.peers;
    assert Claims(b, presented, port) ==> Some(ip) in b.peers;
  }

  lemma TouchingIsOverlap(a: seq<LocalAddr>, b: seq<LocalAddr>)
    ensures Overlap(a, b) ==> Touching(a, b)
    ensures b != [] && Touching(a, b) ==> Overlap(a, b)
  {
    if b != [] && Touching(a, b) {
      var l :| l in a && (IsAny(l) || l in b || HasAny(b));
      if IsAny(l) {
        assert b[0] in b;
      } else if l !in b {
        var m :| m in b && IsAny(m);
      }
    }
  }

  ghost predicate Within(a: seq<LocalAddr>, b: seq<LocalAddr>) { forall l | l in a :: l in b }

  lemma OverlapWithin(a: seq<LocalAddr>, b: seq<LocalAddr>, c: seq<LocalAddr>, d: seq<LocalAddr>)
    requires Within(a, b) && Within(c, d) && Overlap(a, c)
    ensures Overlap(b, d)
  {
    var l, m :| l in a && m in c && (l == m || IsAny(l) || IsAny(m));
  }

  // ── The groups ─────────────────────────────────────────────────────────────

  ghost predicate InGroup(groups: seq<seq<nat>>, g: int, i: int) { 0 <= g < |groups| && i in groups[g] }

  /** Every server association below `n` is in one group, and nothing else is in any. */
  ghost predicate Partition(associations: seq<Association>, groups: seq<seq<nat>>, n: nat)
    requires n <= |associations|
  {
    && (forall g | 0 <= g < |groups| :: groups[g] != [])
    && (forall g, i | InGroup(groups, g, i) :: i < n && associations[i].server)
    && (forall i | 0 <= i < n && associations[i].server :: exists g :: InGroup(groups, g, i))
    && (forall g, h, i | InGroup(groups, g, i) && InGroup(groups, h, i) :: g == h)
    && (forall g | 0 <= g < |groups| :: Ascending(groups[g]))
  }

  ghost predicate Ascending(group: seq<nat>) { forall x, y | 0 <= x < y < |group| :: group[x] < group[y] }

  /** A member listens where the first of its group does. */
  ghost predicate AtHome(first: Association, a: Association) {
    a == first || (a.port == first.port != 0 && |a.local| == |first.local| && Within(a.local, first.local))
  }

  ghost predicate Coherent(associations: seq<Association>, groups: seq<seq<nat>>) {
    forall g, i | InGroup(groups, g, i) ::
      i < |associations| && groups[g][0] < |associations| && AtHome(associations[groups[g][0]], associations[i])
  }

  /** Groups on one port share no local address. */
  ghost predicate Apart(associations: seq<Association>, groups: seq<seq<nat>>)
    requires Coherent(associations, groups)
  {
    forall g, h, i, j | InGroup(groups, g, i) && InGroup(groups, h, j) && g != h ::
      associations[i].port == associations[j].port != 0 ==> !Overlap(associations[i].local, associations[j].local)
  }

  /** The members of one group each list peers, and none that another could claim. */
  ghost predicate ToldApart(associations: seq<Association>, groups: seq<seq<nat>>)
    requires Coherent(associations, groups)
  {
    forall g, i, j | InGroup(groups, g, i) && InGroup(groups, g, j) && i != j ::
      associations[i].peers != [] && associations[j].peers != [] && !PeerClash(associations[i], associations[j])
  }

  ghost predicate Good(associations: seq<Association>, groups: seq<seq<nat>>, n: nat) {
    && n <= |associations| && Partition(associations, groups, n)
    && Coherent(associations, groups) && Apart(associations, groups) && ToldApart(associations, groups)
  }

  // ── When a configuration is refused ────────────────────────────────────────

  /** The lists are not empty and repeat nothing. */
  ghost predicate WellFormed(a: Association) {
    a.local != [] && forall x, y | 0 <= x < y < |a.local| :: a.local[x] != a.local[y]
  }

  /** Two server associations that cannot both listen. */
  ghost predicate Clash(a: Association, b: Association) {
    && a.server && b.server && a.port == b.port != 0 && Overlap(a.local, b.local)
    && (!SameAddresses(a.local, b.local) || a.peers == [] || b.peers == [] || PeerClash(a, b))
  }

  ghost predicate SameAddresses(a: seq<LocalAddr>, b: seq<LocalAddr>) { Within(a, b) && Within(b, a) }

  /** The two associations a refusal names do clash. */
  ghost predicate Justified(associations: seq<Association>, why: Conflict) {
    why.first < |associations| && why.second < |associations| && Clash(associations[why.first], associations[why.second])
  }

  function Elements(s: seq<LocalAddr>): set<LocalAddr> { set l | l in s }

  lemma {:induction false} DistinctCount(s: seq<LocalAddr>)
    requires forall x, y | 0 <= x < y < |s| :: s[x] != s[y]
    ensures |Elements(s)| == |s|
    decreases |s|
  {
    if s != [] {
      var front := s[..|s| - 1];
      DistinctCount(front);
      assert Elements(s) == Elements(front) + {s[|s| - 1]};
      assert s[|s| - 1] !in Elements(front);
    }
  }

  lemma SubsetOfSameSize(a: set<LocalAddr>, b: set<LocalAddr>)
    requires a <= b && |a| == |b|
    ensures a == b
  {
    if l :| l in b && l !in a {
      assert a <= b - {l};
      SubsetSize(a, b - {l});
    }
  }

  lemma {:induction false} SubsetSize(a: set<LocalAddr>, b: set<LocalAddr>)
    requires a <= b
    ensures |a| <= |b|
    decreases |a|
  {
    if l :| l in a {
      SubsetSize(a - {l}, b - {l});
    }
  }

  /** Lists without repeats, of one length, one within the other, have the same addresses. */
  lemma WithinIsSame(a: Association, b: Association)
    requires WellFormed(a) && WellFormed(b) && |a.local| == |b.local| && Within(a.local, b.local)
    ensures SameAddresses(a.local, b.local)
  {
    DistinctCount(a.local);
    DistinctCount(b.local);
    SubsetOfSameSize(Elements(a.local), Elements(b.local));
    forall l | l in b.local ensures l in a.local {
      assert l in Elements(b.local);
    }
  }

  // ── Finding a group ────────────────────────────────────────────────────────

  /** The new association can be told apart from every member of a group. */
  ghost predicate Welcome(associations: seq<Association>, group: seq<nat>, a: Association) {
    forall i | i in group :: i < |associations| && associations[i].peers != [] && a.peers != [] && !PeerClash(a, associations[i])
  }

  /** The first member of a group that the new association cannot be told apart from. */
  method CheckPeers(associations: seq<Association>, group: seq<nat>, index: nat) returns (why: Option<Conflict>)
    requires index < |associations| && forall k | 0 <= k < |group| :: group[k] < |associations|
    ensures why.None? ==> Welcome(associations, group, associations[index])
    ensures why.Some? ==> why.value.second == index && why.value.first in group
    ensures why.Some? ==> var a, b := associations[index], associations[why.value.first]; a.peers == [] || b.peers == [] || PeerClash(a, b)
  {
    var a, k := associations[index], 0;
    while k < |group|
      invariant 0 <= k <= |group|
      invariant Welcome(associations, group[..k], a)
    {
      var other := associations[group[k]];
      if a.peers == [] || other.peers == [] {
        return Some(NeedPeers(group[k], index));
      }
      match PeerInCommon(a, other) {
        case NoPeer =>
        case Peer(ip) => return Some(SharedPeer(group[k], index, ip));
        case Unreadable => return Some(BadPeer(group[k], index));
      }
      assert group[..k + 1] == group[..k] + [group[k]];
      k := k + 1;
    }
    assert group[..k] == group;
    why := None;
  }

  datatype Home = Found(number: nat) | Nowhere | Clashing(why: Conflict)

  /** On the same port, with lists that touch. */
  predicate Meets(associations: seq<Association>, group: seq<nat>, a: Association)
    requires group != [] && group[0] < |associations|
  {
    a.port != 0 && associations[group[0]].port == a.port && Touching(a.local, associations[group[0]].local)
  }

  lemma MembersKnown(associations: seq<Association>, groups: seq<seq<nat>>, n: nat, g: nat)
    requires Good(associations, groups, n) && g < |groups|
    ensures groups[g] != [] && forall k | 0 <= k < |groups[g]| :: groups[g][k] < n && associations[groups[g][k]].server
  {
    forall k | 0 <= k < |groups[g]| ensures groups[g][k] < n && associations[groups[g][k]].server {
      assert InGroup(groups, g, groups[g][k]);
    }
  }

  /** What is found at one group whose addresses meet those of the new association. */
  method TryGroup(associations: seq<Association>, groups: seq<seq<nat>>, index: nat, number: nat) returns (home: Home)
    requires Good(associations, groups, index) && index < |associations| && associations[index].server && number < |groups|
    requires groups[number] != [] && groups[number][0] < index && Meets(associations, groups[number], associations[index])
    ensures !home.Nowhere? && (home.Found? ==> Joins(associations, groups, index, number) && home.number == number)
    ensures home.Clashing? && (forall k | 0 <= k < |associations| :: WellFormed(associations[k])) ==> Justified(associations, home.why)
  {
    MembersKnown(associations, groups, index, number);
    var a, first := associations[index], associations[groups[number][0]];
    TouchingIsOverlap(a.local, first.local);
    if !Same(a.local, first.local) {
      if forall k | 0 <= k < |associations| :: WellFormed(associations[k]) {
        DifferJustified(a, first);
      }
      return Clashing(Differ(groups[number][0], index));
    }
    var why := CheckPeers(associations, groups[number], index);
    if why.Some? {
      if forall k | 0 <= k < |associations| :: WellFormed(associations[k]) {
        PeersJustified(associations, groups, index, number, why.value.first);
      }
      return Clashing(why.value);
    }
    home := Found(number);
  }

  lemma OverlapSymmetric(a: seq<LocalAddr>, b: seq<LocalAddr>)
    requires Overlap(a, b)
    ensures Overlap(b, a)
  {
    var l, m :| l in a && m in b && (l == m || IsAny(l) || IsAny(m));
    assert m in b && l in a;
  }

  lemma DifferJustified(a: Association, first: Association)
    requires a.server && first.server && a.port == first.port != 0 && Touching(a.local, first.local) && !Same(a.local, first.local)
    requires WellFormed(a) && WellFormed(first)
    ensures Clash(first, a)
  {
    TouchingIsOverlap(a.local, first.local);
    OverlapSymmetric(a.local, first.local);
    DistinctCount(a.local);
    DistinctCount(first.local);
    assert SameAddresses(first.local, a.local) ==> Elements(a.local) == Elements(first.local);
  }

  /** The two associations a refusal over peers names listen on the same addresses. */
  lemma PeersJustified(associations: seq<Association>, groups: seq<seq<nat>>, index: nat, number: nat, other: nat)
    requires Good(associations, groups, index) && index < |associations| && associations[index].server && number < |groups|
    requires groups[number] != [] && groups[number][0] < index && Meets(associations, groups[number], associations[index])
    requires Same(associations[index].local, associations[groups[number][0]].local) && other in groups[number]
    requires forall k | 0 <= k < |associations| :: WellFormed(associations[k])
    requires other < |associations|
    requires var a, b := associations[index], associations[other]; a.peers == [] || b.peers == [] || PeerClash(a, b)
    ensures Clash(associations[other], associations[index])
  {
    var a, b, first := associations[index], associations[other], associations[groups[number][0]];
    assert InGroup(groups, number, other);
    WithinIsSame(a, first);
    if b != first {
      WithinIsSame(b, first);
    }
    TouchingIsOverlap(a.local, first.local);
    OverlapSymmetric(a.local, first.local);
    OverlapWithin(first.local, b.local, a.local, a.local);
    if PeerClash(a, b) {
      assert PeerClash(b, a);
    }
  }

  /** The association may join the group. */
  ghost predicate Joins(associations: seq<Association>, groups: seq<seq<nat>>, index: nat, number: nat) {
    && index < |associations| && number < |groups| && groups[number] != [] && groups[number][0] < |associations|
    && Meets(associations, groups[number], associations[index])
    && Same(associations[index].local, associations[groups[number][0]].local)
    && Welcome(associations, groups[number], associations[index])
  }

  /** The first group on the port whose addresses meet those of the association decides. */
  method FindHome(associations: seq<Association>, groups: seq<seq<nat>>, index: nat) returns (home: Home)
    requires Good(associations, groups, index) && index < |associations| && associations[index].server
    ensures home.Found? ==> Joins(associations, groups, index, home.number)
    ensures home.Nowhere? ==> MeetsNone(associations, groups, index, |groups|)
    ensures home.Clashing? && (forall k | 0 <= k < |associations| :: WellFormed(associations[k])) ==> Justified(associations, home.why)
  {
    var number := 0;
    while number < |groups|
      invariant 0 <= number <= |groups|
      invariant MeetsNone(associations, groups, index, number)
    {
      MembersKnown(associations, groups, index, number);
      if Meets(associations, groups[number], associations[index]) {
        home := TryGroup(associations, groups, index, number);
        return;
      }
      number := number + 1;
    }
    home := Nowhere;
  }

  ghost predicate MeetsNone(associations: seq<Association>, groups: seq<seq<nat>>, index: nat, count: nat)
    requires index < |associations|
  {
    forall g: nat | g < count :: g < |groups| && groups[g] != [] && groups[g][0] < |associations| && !Meets(associations, groups[g], associations[index])
  }

  // ── One association more ───────────────────────────────────────────────────

  /** The association shares no local address with a group on its port. */
  ghost predicate Clear(associations: seq<Association>, groups: seq<seq<nat>>, index: nat, h: nat)
    requires index < |associations|
  {
    forall j | InGroup(groups, h, j) && 0 <= j < |associations| ::
      associations[index].port == associations[j].port != 0 ==> !Overlap(associations[index].local, associations[j].local)
  }

  lemma ClearOfUnmet(associations: seq<Association>, groups: seq<seq<nat>>, index: nat, h: nat)
    requires Good(associations, groups, index) && index < |associations| && h < |groups|
    requires groups[h] != [] && groups[h][0] < |associations| && !Meets(associations, groups[h], associations[index])
    ensures Clear(associations, groups, index, h)
  {
    var a, first := associations[index], associations[groups[h][0]];
    forall j | InGroup(groups, h, j) && associations[index].port == associations[j].port != 0
      ensures !Overlap(a.local, associations[j].local)
    {
      assert AtHome(first, associations[j]);
      if Overlap(a.local, associations[j].local) {
        OverlapWithin(a.local, a.local, associations[j].local, first.local);
        TouchingIsOverlap(a.local, first.local);
        assert false;
      }
    }
  }

  lemma ClearOfOthers(associations: seq<Association>, groups: seq<seq<nat>>, index: nat, g: nat, h: nat)
    requires Good(associations, groups, index) && Joins(associations, groups, index, g) && h < |groups| && h != g
    ensures Clear(associations, groups, index, h)
  {
    var a, first := associations[index], associations[groups[g][0]];
    assert InGroup(groups, g, groups[g][0]);
    forall j | InGroup(groups, h, j) && associations[index].port == associations[j].port != 0
      ensures !Overlap(a.local, associations[j].local)
    {
      if Overlap(a.local, associations[j].local) {
        OverlapWithin(a.local, first.local, associations[j].local, associations[j].local);
        assert false;
      }
    }
  }

  /** The groups with the association in group `g`, a new one if there is no such group. */
  function Placed(groups: seq<seq<nat>>, index: nat, g: nat): seq<seq<nat>>
    requires g <= |groups|
  {
    if g < |groups| then groups[g := groups[g] + [index]] else groups + [[index]]
  }

  lemma PlacedMembers(groups: seq<seq<nat>>, index: nat, g: nat, h: int, i: int)
    requires g <= |groups|
    ensures InGroup(Placed(groups, index, g), h, i) <==> InGroup(groups, h, i) || (h == g && i == index)
  {}

  lemma PlacedPartition(associations: seq<Association>, groups: seq<seq<nat>>, index: nat, g: nat)
    requires index < |associations| && associations[index].server && Partition(associations, groups, index) && g <= |groups|
    ensures Partition(associations, Placed(groups, index, g), index + 1)
  {
    var after := Placed(groups, index, g);
    forall h, i ensures InGroup(after, h, i) <==> InGroup(groups, h, i) || (h == g && i == index) {
      PlacedMembers(groups, index, g, h, i);
    }
    forall i | 0 <= i < index + 1 && associations[i].server ensures exists h :: InGroup(after, h, i) {
      if i == index {
        assert InGroup(after, g, i);
      } else {
        var h :| InGroup(groups, h, i);
        assert InGroup(after, h, i);
      }
    }
    forall h | 0 <= h < |after| ensures after[h] != [] && Ascending(after[h]) {
      if h == g && g < |groups| {
        forall x | 0 <= x < |groups[g]| ensures groups[g][x] < index {
          assert InGroup(groups, g, groups[g][x]);
        }
      }
    }
  }

  lemma PlacedCoherent(associations: seq<Association>, groups: seq<seq<nat>>, index: nat, g: nat)
    requires index < |associations| && g <= |groups| && Coherent(associations, groups)
    requires g < |groups| ==> Joins(associations, groups, index, g)
    ensures Coherent(associations, Placed(groups, index, g))
  {
    var after := Placed(groups, index, g);
    forall h, i | InGroup(after, h, i)
      ensures i < |associations| && after[h][0] < |associations| && AtHome(associations[after[h][0]], associations[i])
    {
      PlacedMembers(groups, index, g, h, i);
      if InGroup(groups, h, i) {
        assert after[h][0] == groups[h][0];
      }
    }
  }

  lemma PlacedIsGood(associations: seq<Association>, groups: seq<seq<nat>>, index: nat, g: nat)
    requires Good(associations, groups, index) && index < |associations| && associations[index].server && g <= |groups|
    requires g < |groups| ==> Joins(associations, groups, index, g)
    requires forall h: nat | h < |groups| && h != g :: Clear(associations, groups, index, h)
    ensures Good(associations, Placed(groups, index, g), index + 1)
  {
    var after := Placed(groups, index, g);
    PlacedPartition(associations, groups, index, g);
    PlacedCoherent(associations, groups, index, g);
    forall h, k, i, j | InGroup(after, h, i) && InGroup(after, k, j) && h != k && associations[i].port == associations[j].port != 0
      ensures !Overlap(associations[i].local, associations[j].local)
    {
      PlacedMembers(groups, index, g, h, i);
      PlacedMembers(groups, index, g, k, j);
      ApartWhenPlaced(associations, groups, index, g, h, k, i, j);
    }
    forall h, i, j | InGroup(after, h, i) && InGroup(after, h, j) && i != j
      ensures associations[i].peers != [] && associations[j].peers != [] && !PeerClash(associations[i], associations[j])
    {
      PlacedMembers(groups, index, g, h, i);
      PlacedMembers(groups, index, g, h, j);
    }
  }

  lemma ApartWhenPlaced(associations: seq<Association>, groups: seq<seq<nat>>, index: nat, g: nat, h: nat, k: nat, i: nat, j: nat)
    requires Good(associations, groups, index) && index < |associations|
    requires forall o: nat | o < |groups| && o != g :: Clear(associations, groups, index, o)
    requires InGroup(groups, h, i) || (h == g && i == index)
    requires InGroup(groups, k, j) || (k == g && j == index)
    requires h != k && associations[i].port == associations[j].port != 0
    ensures !Overlap(associations[i].local, associations[j].local)
  {
    if InGroup(groups, h, i) && !InGroup(groups, k, j) {
      assert Clear(associations, groups, index, h);
      if Overlap(associations[i].local, associations[j].local) {
        OverlapSymmetric(associations[i].local, associations[j].local);
      }
    } else if !InGroup(groups, h, i) {
      assert Clear(associations, groups, index, k);
    }
  }

  // ── All of them ────────────────────────────────────────────────────────────

  /** Place one association, or say which other it clashes with. */
  method Place(associations: seq<Association>, groups: seq<seq<nat>>, index: nat) returns (r: Grouping)
    requires Good(associations, groups, index) && index < |associations| && associations[index].server
    ensures r.Groups? ==> Good(associations, r.groups, index + 1)
    ensures r.Refused? && (forall k | 0 <= k < |associations| :: WellFormed(associations[k])) ==> Justified(associations, r.why)
  {
    var home := FindHome(associations, groups, index);
    if home.Clashing? {
      return Refused(home.why);
    }
    var g := if home.Found? then home.number else |groups|;
    forall h: nat | h < |groups| && h != g ensures Clear(associations, groups, index, h) {
      if home.Found? {
        ClearOfOthers(associations, groups, index, g, h);
      } else {
        ClearOfUnmet(associations, groups, index, h);
      }
    }
    PlacedIsGood(associations, groups, index, g);
    r := Groups(Placed(groups, index, g));
  }

  lemma ClientStays(associations: seq<Association>, groups: seq<seq<nat>>, index: nat)
    requires Good(associations, groups, index) && index < |associations| && !associations[index].server
    ensures Good(associations, groups, index + 1)
  {
    forall i | 0 <= i < index + 1 && associations[i].server ensures exists g :: InGroup(groups, g, i) {
      assert i < index;
    }
  }

  /** In a good grouping nothing clashes. */
  lemma GoodHasNoClash(associations: seq<Association>, groups: seq<seq<nat>>, i: nat, j: nat)
    requires Good(associations, groups, |associations|) && i < |associations| && j < |associations| && i != j
    requires forall k | 0 <= k < |associations| :: WellFormed(associations[k])
    ensures !Clash(associations[i], associations[j])
  {
    var a, b := associations[i], associations[j];
    if a.server && b.server && a.port == b.port != 0 {
      var g :| InGroup(groups, g, i);
      var h :| InGroup(groups, h, j);
      if g == h {
        var first := associations[groups[g][0]];
        if a != first { WithinIsSame(a, first); }
        if b != first { WithinIsSame(b, first); }
      }
    }
  }

  /**
   The groups partition the server associations, groups on one port share no local
   address, and within a group no peer can be claimed twice. A configuration whose
   address lists are not empty and repeat nothing is refused exactly when two of
   its associations clash, and the refusal names two that do.
   */
  method GroupListeners(associations: seq<Association>) returns (r: Grouping)
    ensures r.Groups? ==> Good(associations, r.groups, |associations|)
    ensures (forall k | 0 <= k < |associations| :: WellFormed(associations[k])) ==>
              && (r.Refused? ==> Justified(associations, r.why))
              && (r.Groups? ==> forall i, j | 0 <= i < |associations| && 0 <= j < |associations| && i != j :: !Clash(associations[i], associations[j]))
  {
    var groups: seq<seq<nat>> := [];
    var index := 0;
    while index < |associations|
      invariant 0 <= index <= |associations|
      invariant Good(associations, groups, index)
    {
      if associations[index].server {
        var placed := Place(associations, groups, index);
        if placed.Refused? {
          return placed;
        }
        groups := placed.groups;
      } else {
        ClientStays(associations, groups, index);
      }
      index := index + 1;
    }
    if forall k | 0 <= k < |associations| :: WellFormed(associations[k]) {
      forall i, j | 0 <= i < |associations| && 0 <= j < |associations| && i != j ensures !Clash(associations[i], associations[j]) {
        GoodHasNoClash(associations, groups, i, j);
      }
    }
    r := Groups(groups);
  }

  /** Whoever connects to an endpoint is claimed by at most one association of its group. */
  lemma OneClaimant(associations: seq<Association>, groups: seq<seq<nat>>, g: nat, i: nat, j: nat, presented: set<IpAddr>, port: nat)
    requires Good(associations, groups, |associations|) && InGroup(groups, g, i) && InGroup(groups, g, j) && presented != {}
    requires i < |associations| && j < |associations|
    requires Claims(associations[i], presented, port) && Claims(associations[j], presented, port)
    ensures i == j
  {
    if i != j {
      NoClashNoSharedPeer(associations[i], associations[j], presented, port);
      assert false;
    }
  }
}
