/** What a node does with each kind of packet, in the protocol's own terms: which channels, in which order, carry which
    packets, and what is written into the tables. */
module NodeLaws {
  import opened Texts
  import opened Packets
  import opened NodeSpec

  // ---- Entries picked from a list, in order ----

  ghost predicate Hit(at: seq<int>, k: int) {
    k in at
  }

  /** `out` is the entries of `s` at the places `at`, which are those of the chosen entries, in order. */
  ghost predicate PickedAt(s: seq<Text>, out: seq<Text>, chosen: set<Text>, at: seq<int>) {
    && |at| == |out|
    && (forall i, j :: 0 <= i < j < |at| ==> at[i] < at[j])
    && (forall i :: 0 <= i < |at| ==> 0 <= at[i] < |s| && out[i] == s[at[i]] && out[i] in chosen)
    && (forall k {:trigger Hit(at, k)} :: 0 <= k < |s| && s[k] in chosen ==> Hit(at, k))
  }

  /** `out` is exactly the chosen entries of `s`, each as often as it is there, in the same order. */
  ghost predicate Picked(s: seq<Text>, out: seq<Text>, chosen: set<Text>) {
    exists at :: PickedAt(s, out, chosen, at)
  }

  lemma PickedNone(chosen: set<Text>)
    ensures Picked([], [], chosen)
  {
    assert PickedAt([], [], chosen, []);
  }

  lemma PickedMore(s: seq<Text>, out: seq<Text>, chosen: set<Text>, x: Text)
    requires Picked(s, out, chosen)
    ensures Picked(s + [x], out + if x in chosen then [x] else [], chosen)
  {
    var at :| PickedAt(s, out, chosen, at);
    var all := s + [x];
    if x in chosen {
      var there := at + [|s|];
      forall k | 0 <= k < |all| && all[k] in chosen ensures Hit(there, k) {
        if k < |s| { assert Hit(at, k); } else { assert there[|at|] == k; }
      }
      assert PickedAt(all, out + [x], chosen, there);
    } else {
      forall k | 0 <= k < |all| && all[k] in chosen ensures Hit(at, k) {}
      assert PickedAt(all, out, chosen, at);
      assert out + [] == out;
    }
  }

  lemma PlacesTwice(s: seq<Text>, mid: seq<Text>, out: seq<Text>, p: set<Text>, q: set<Text>, a: seq<int>, b: seq<int>)
      returns (at: seq<int>)
    requires PickedAt(s, mid, p, a) && PickedAt(mid, out, q, b)
    ensures |at| == |b| && forall i :: 0 <= i < |b| ==> at[i] == a[b[i]]
    ensures forall k :: 0 <= k < |s| && s[k] in p * q ==> Hit(at, k)
  {
    at := seq(|b|, i requires 0 <= i < |b| => a[b[i]]);
    forall k | 0 <= k < |s| && s[k] in p * q ensures Hit(at, k) {
      assert Hit(a, k);
      var i :| 0 <= i < |a| && a[i] == k;
      assert Hit(b, i);
      var j :| 0 <= j < |b| && b[j] == i;
      assert at[j] == k;
    }
  }

  /** Picking twice is picking by both. */
  lemma PickedTwice(s: seq<Text>, mid: seq<Text>, out: seq<Text>, p: set<Text>, q: set<Text>)
    requires Picked(s, mid, p) && Picked(mid, out, q)
    ensures Picked(s, out, p * q)
  {
    var a :| PickedAt(s, mid, p, a);
    var b :| PickedAt(mid, out, q, b);
    var at := PlacesTwice(s, mid, out, p, q, a, b);
    hide Hit;
    assert PickedAt(s, out, p * q, at);
  }

  /** The first entry picked is the first chosen one. */
  lemma PickedFirst(s: seq<Text>, out: seq<Text>, chosen: set<Text>)
    requires Picked(s, out, chosen)
    ensures out == [] <==> forall k :: 0 <= k < |s| ==> s[k] !in chosen
    ensures out != [] ==> exists k :: 0 <= k < |s| && s[k] == out[0] && s[k] in chosen
                            && forall j :: 0 <= j < k ==> s[j] !in chosen
  {
    var at :| PickedAt(s, out, chosen, at);
    if out == [] {
      forall k | 0 <= k < |s| ensures s[k] !in chosen { assert !Hit(at, k); }
    } else {
      var k := at[0];
      forall j | 0 <= j < k ensures s[j] !in chosen { assert !Hit(at, j); }
      assert s[k] == out[0];
    }
  }

  // ---- Channels ----

  /** A client channel that this node has open. */
  ghost predicate OpenClient(n: NodeState, u: Text) {
    u in n.chans && n.chans[u].isHere && n.chans[u].role == Client
  }

  /** The distance on record; -1 stands for one that was never set. */
  ghost function Depth(n: NodeState, u: Text): int {
    if u in n.chans && n.chans[u].rootDistance.Some? then n.chans[u].rootDistance.value else -1
  }

  /** A linked server channel of `c` has a distance, and a smaller one than `c`. */
  ghost predicate GoesCloser(n: NodeState, c: Text) {
    && OpenClient(n, c) && c in n.conn
    && exists i :: 0 <= i < |n.conn[c]| && Depth(n, n.conn[c][i]) != -1 && Depth(n, n.conn[c][i]) < Depth(n, c)
  }

  ghost predicate GoesFarther(n: NodeState, c: Text) {
    && OpenClient(n, c) && c in n.conn
    && exists i :: 0 <= i < |n.conn[c]| && Depth(n, n.conn[c][i]) != -1 && Depth(n, n.conn[c][i]) > Depth(n, c)
  }

  /** Of the channels that go closer, `c` was stored first. */
  ghost predicate FirstCloser(n: NodeState, c: Text) {
    exists k :: 0 <= k < |n.keys| && n.keys[k] == c && GoesCloser(n, c)
      && forall j :: 0 <= j < k ==> !GoesCloser(n, n.keys[j])
  }

  ghost function OpenClients(n: NodeState): set<Text> {
    set u | u in n.keys && OpenClient(n, u)
  }

  ghost function CloserOnes(n: NodeState): set<Text> {
    set u | u in n.keys && GoesCloser(n, u)
  }

  ghost function FartherOnes(n: NodeState): set<Text> {
    set u | u in n.keys && GoesFarther(n, u)
  }

  lemma {:induction false} ClientsPicked(n: NodeState, keys: seq<Text>, chosen: set<Text>)
    requires forall u :: u in keys ==> (u in chosen <==> OpenClient(n, u))
    ensures Picked(keys, ClientsOf(keys, n.chans), chosen)
  {
    hide Picked;
    if keys == [] {
      PickedNone(chosen);
    } else {
      var front, k := keys[..|keys| - 1], keys[|keys| - 1];
      ClientsPicked(n, front, chosen);
      PickedMore(front, ClientsOf(front, n.chans), chosen, k);
      assert keys == front + [k] && k in keys;
    }
  }

  lemma {:induction false} LeadingPicked(n: NodeState, cs: seq<Text>, closer: bool, chosen: set<Text>)
    requires forall u :: u in cs ==> (u in chosen <==> Leads(n, u, closer))
    ensures Picked(cs, LeadingOf(cs, n, closer), chosen)
  {
    hide Leads;
    hide Picked;
    if cs == [] {
      PickedNone(chosen);
    } else {
      var front, c := cs[..|cs| - 1], cs[|cs| - 1];
      LeadingPicked(n, front, closer, chosen);
      PickedMore(front, LeadingOf(front, n, closer), chosen, c);
      assert cs == front + [c] && c in cs;
    }
  }

  /** The clients are the open client channels, in the order in which they were stored. */
  lemma ClientsInOrder(n: NodeState)
    ensures Picked(n.keys, Clients(n), OpenClients(n))
  {
    ClientsPicked(n, n.keys, OpenClients(n));
  }

  /** The closer channels are exactly these, in the order in which they were stored; and likewise the farther ones. */
  lemma LeadingInOrder(n: NodeState)
    ensures Picked(n.keys, Leading(n, true), CloserOnes(n)) && Picked(n.keys, Leading(n, false), FartherOnes(n))
  {
    LeadsIs(n);
    hide Leads;
    hide Picked;
    hide OpenClient;
    hide GoesCloser;
    hide GoesFarther;
    ClientsInOrder(n);
    assert OpenClients(n) * CloserOnes(n) == CloserOnes(n) && OpenClients(n) * FartherOnes(n) == FartherOnes(n);
    LeadingPicked(n, Clients(n), true, CloserOnes(n));
    LeadingPicked(n, Clients(n), false, FartherOnes(n));
    PickedTwice(n.keys, Clients(n), Leading(n, true), OpenClients(n), CloserOnes(n));
    PickedTwice(n.keys, Clients(n), Leading(n, false), OpenClients(n), FartherOnes(n));
  }

  lemma LeadsIs(n: NodeState)
    ensures forall c :: OpenClient(n, c) ==> (Leads(n, c, true) <==> GoesCloser(n, c))
    ensures forall c :: OpenClient(n, c) ==> (Leads(n, c, false) <==> GoesFarther(n, c))
    ensures forall c :: GoesCloser(n, c) || GoesFarther(n, c) ==> OpenClient(n, c)
    ensures forall c :: c in Clients(n) <==> c in n.keys && OpenClient(n, c)
  {
    ClientsAreOwn(n.keys, n);
    assert forall u :: Depth(n, u) == DistanceOf(n, u);
    hide Depth;
    hide DistanceOf;
    hide Clients;
  }

  // ---- What is sent ----

  /** `q` is `p` as it goes on the wire: with its whole length, header and message, stamped into it. */
  ghost predicate Sent(q: Pkt, p: Pkt) {
    q == p.(size := |Layout(p)| % 0x1_0000)
  }

  /** One copy of `p` over every open client channel, in the order in which they were stored. */
  ghost predicate Copies(n: NodeState, out: seq<Send>, p: Pkt) {
    exists cs :: Picked(n.keys, cs, OpenClients(n)) && CopiesOver(cs, out, p)
  }

  ghost predicate CopiesOver(cs: seq<Text>, out: seq<Send>, p: Pkt) {
    |out| == |cs| && forall i :: 0 <= i < |out| ==> out[i].channel == cs[i] && Sent(out[i].pkt, p)
  }

  /** One copy over the first closer channel; none at the root, or where no channel goes closer. */
  ghost predicate GoesUp(n: NodeState, out: seq<Send>, p: Pkt) {
    if n.isRoot || CloserOnes(n) == {} then out == []
    else |out| == 1 && FirstCloser(n, out[0].channel) && Sent(out[0].pkt, p)
  }

  lemma StampIs(p: Pkt)
    ensures Sent(Normalized(p), p)
  {
    assert |Layout(p)| == 7 + |p.message|;
  }

  lemma AllOver(cs: seq<Text>, p: Pkt)
    ensures CopiesOver(cs, SendAll(cs, p), p)
  {
    StampIs(p);
    hide Normalized;
    hide Sent;
  }

  /** The clients' copies. */
  lemma ClientCopies(n: NodeState, p: Pkt)
    ensures Copies(n, SendAll(Clients(n), p), p)
  {
    ClientsInOrder(n);
    AllOver(Clients(n), p);
  }

  /** A packet for the root goes over the first closer channel. */
  lemma RootRoute(n: NodeState, p: Pkt)
    requires p.forwarding == TO_ROOT
    ensures GoesUp(n, Route(n, p), p)
  {
    LeadingInOrder(n);
    PickedFirst(n.keys, Leading(n, true), CloserOnes(n));
    StampIs(p);
    hide Leading;
    hide Picked;
    hide GoesCloser;
  }

  // ---- Floods ----

  /** A flood starts with one path of the root alone, over each client. */
  lemma FloodSends(n: NodeState)
    ensures exists p :: Copies(n, StartFlood(n), p) && p.message == [COLON] + n.id + [COLON] && p.hops == 0
                        && p.forwarding == TO_NEIGHBOR && p.priority == PRIORITY_MEDIUM
                        && p.contents == MESH_TOPO && p.meta == SEND_TOPO
  {
    var p := TopoPkt(EncodePath([n.id]));
    EncodeAppend([], [], n.id);
    assert [] + [n.id] == [n.id];
    assert Encode([], []) == [COLON];
    ClientCopies(n, p);
  }

  /** Each device on the path has its position as its distance, on every channel on record, and nothing else changes. */
  ghost predicate Distanced(n: NodeState, m: NodeState, path: seq<Text>) {
    DistancedFrom(n, m, path, 0)
  }

  ghost predicate DistancedFrom(n: NodeState, m: NodeState, path: seq<Text>, first: nat) {
    && m == n.(chans := m.chans) && m.chans.Keys == n.chans.Keys
    && forall u :: u in n.chans ==> Redated(n.chans[u], m.chans[u], path, first)
  }

  ghost predicate Redated(ch: Chan, after: Chan, path: seq<Text>, first: nat) {
    && (forall i :: 0 <= i < |path| && ch.deviceId == Some(path[i]) ==> after == ch.(rootDistance := Some(first + i)))
    && ((forall i :: 0 <= i < |path| ==> ch.deviceId != Some(path[i])) ==> after == ch)
  }

  lemma RedatedMore(ch: Chan, after: Chan, path: seq<Text>, first: nat)
    requires path != [] && NoDup(path)
    requires Redated(Redistanced(ch, path[0], first), after, path[1..], first + 1)
    ensures Redated(ch, after, path, first)
  {
    var mid, rest := Redistanced(ch, path[0], first), path[1..];
    forall i | 0 <= i < |path| && ch.deviceId == Some(path[i]) ensures after == ch.(rootDistance := Some(first + i)) {
      if i > 0 { assert rest[i - 1] == path[i] && path[0] != path[i]; }
    }
    if forall i :: 0 <= i < |path| ==> ch.deviceId != Some(path[i]) {
      assert ch.deviceId != Some(path[0]);
      assert forall i :: 0 <= i < |rest| ==> rest[i] == path[i + 1];
    }
  }

  lemma {:induction false} DistancesAre(n: NodeState, devices: seq<Text>, first: nat)
    requires NoDup(devices)
    ensures DistancedFrom(n, SetDistances(n, devices, first), devices, first)
    decreases |devices|
  {
    if devices != [] {
      var k, rest := SetDistance(n, devices[0], first), devices[1..];
      DistancesAre(k, rest, first + 1);
      var m := SetDistances(k, rest, first + 1);
      hide Redated;
      hide SetDistances;
      forall u | u in n.chans ensures Redated(n.chans[u], m.chans[u], devices, first) {
        RedatedMore(n.chans[u], m.chans[u], devices, first);
      }
    }
  }

  /** Processing a path writes the position of each device on it. */
  lemma PathDistances(n: NodeState, path: seq<Text>)
    requires AreFields(path) && NoDup(path)
    ensures Distanced(n, ProcessTopo(n, EncodePath(path)), path)
  {
    DecodePath(path);
    DistancesAre(n, path, 0);
  }

  /** What a device returns to the root. */
  function Returned(p: Pkt): Pkt {
    p.(forwarding := TO_ROOT, priority := PRIORITY_MEDIUM, meta := RETURN_TOPO)
  }

  lemma ReturnUp(n: NodeState, p: Pkt)
    ensures GoesUp(n, ReturnTopo(n, p), Returned(p))
  {
    RootRoute(n, Returned(p));
    SameRoute(n, Returned(p), ReturnedTopo(p));
  }

  lemma SameRoute(n: NodeState, p: Pkt, q: Pkt)
    requires q == p.(size := q.size)
    ensures Route(n, p) == Route(n, q)
  {
    hide Leading;
    hide Clients;
    assert Normalized(p) == Normalized(q);
    forall cs ensures SendAll(cs, p) == SendAll(cs, q) {}
  }

  /** An outgoing path that the device is on already: it goes back to the root unchanged, and no table changes. */
  lemma SeenPath(n: NodeState, p: Pkt, server: Text, path: seq<Text>)
    requires p.contents == MESH_TOPO && p.meta == SEND_TOPO && p.message == EncodePath(path)
    requires AreFields(path) && IsField(n.id) && n.id in path
    ensures Process(n, p, server).0 == n
    ensures GoesUp(n, Process(n, p, server).1, Returned(p.(hops := p.hops + 1)))
  {
    var q := p.(hops := p.hops + 1);
    ContainsId(path, n.id);
    ReturnUp(n, q);
    assert [] + ReturnTopo(n, q) == ReturnTopo(n, q);
    hide ReturnTopo;
    hide GoesUp;
    hide Contains;
  }

  /** An outgoing path that the device is new to: with the device added it goes twice over every client, its distances
      are written, and it goes back to the root over what is then the first closer channel. */
  lemma NewPath(n: NodeState, p: Pkt, server: Text, path: seq<Text>)
    requires p.contents == MESH_TOPO && p.meta == SEND_TOPO && p.message == EncodePath(path)
    requires AreFields(path) && NoDup(path) && IsField(n.id) && n.id !in path
    ensures var (m, out) := Process(n, p, server); var grown := path + [n.id];
            var q := p.(forwarding := TO_NEIGHBOR, hops := p.hops + 1, message := EncodePath(grown));
            && Distanced(n, m, grown)
            && exists a, up :: out == a + a + up && Copies(n, a, q) && GoesUp(m, up, Returned(q))
  {
    var grown := path + [n.id];
    var q := p.(forwarding := TO_NEIGHBOR, hops := p.hops + 1, message := EncodePath(grown));
    ContainsId(path, n.id);
    EncodeAppend([], path, n.id);
    PathDistances(n, grown);
    var m := ProcessTopo(n, EncodePath(grown));
    hide ProcessTopo;
    hide Contains;
    hide Clients;
    hide Encode;
    ClientCopies(n, q);
    SameCopies(Clients(n), q, Normalized(q));
    ReturnUp(m, Normalized(q));
    SameUp(m, ReturnTopo(m, Normalized(q)), Returned(Normalized(q)), Returned(q));
    NewPathIs(n, p, server, q);
    hide Copies;
    hide GoesUp;
    hide Process;
    var a := SendAll(Clients(n), q);
    assert Process(n, p, server).1 == a + a + ReturnTopo(m, Normalized(q));
  }

  lemma SameCopies(cs: seq<Text>, p: Pkt, q: Pkt)
    requires q == p.(size := q.size)
    ensures SendAll(cs, p) == SendAll(cs, q)
  {
    assert Normalized(p) == Normalized(q);
  }

  lemma SameUp(n: NodeState, out: seq<Send>, p: Pkt, q: Pkt)
    requires q == p.(size := q.size) && GoesUp(n, out, p)
    ensures GoesUp(n, out, q)
  {
    assert |Layout(p)| == |Layout(q)|;
  }

  lemma NewPathIs(n: NodeState, p: Pkt, server: Text, q: Pkt)
    requires p.contents == MESH_TOPO && p.meta == SEND_TOPO && !Carries(p, n.id)
    requires q == p.(forwarding := TO_NEIGHBOR, hops := p.hops + 1, message := p.message + n.id + [COLON])
    ensures var m := ProcessTopo(n, q.message); var a := SendAll(Clients(n), q);
            Process(n, p, server) == (m, a + a + ReturnTopo(m, Normalized(q)))
  {
    hide ProcessTopo;
    hide Clients;
    hide Leading;
    assert p.message + n.id + [COLON] == p.message + (n.id + [COLON]);
    SameCopies(Clients(n), q, Normalized(q));
  }

  /** The path that goes back to the root: with the device added, unless it is on it already. */
  function PathBack(path: seq<Text>, d: Text): seq<Text> {
    if d in path then path else path + [d]
  }

  ghost predicate Outgoing(f: Send) {
    f.pkt.contents == MESH_TOPO && f.pkt.meta == SEND_TOPO
  }

  /** `back` are the packets in `out` behind those that still go out. */
  ghost predicate ReturnsIn(out: seq<Send>, back: seq<Send>) {
    exists more :: out == more + back && forall f :: f in more ==> Outgoing(f)
  }

  lemma CopiesOutgoing(n: NodeState, a: seq<Send>, q: Pkt)
    requires Copies(n, a, q) && q.contents == MESH_TOPO && q.meta == SEND_TOPO
    ensures forall f :: f in a + a ==> Outgoing(f)
  {
    hide Picked;
    hide OpenClients;
    var cs :| CopiesOver(cs, a, q);
  }

  /** Every outgoing path that is processed goes back to the root once, one hop further, over what is then the first
      closer channel: the path itself if the device is on it, else the path with the device added. Nothing goes back
      from the root, nor where no channel goes closer. */
  lemma PathReturned(n: NodeState, p: Pkt, server: Text, path: seq<Text>) returns (back: seq<Send>)
    requires p.contents == MESH_TOPO && p.meta == SEND_TOPO && p.message == EncodePath(path)
    requires AreFields(path) && NoDup(path) && IsField(n.id)
    ensures var (m, out) := Process(n, p, server);
            && ReturnsIn(out, back) && (n.id in path ==> m == n && out == back)
            && GoesUp(m, back, Pkt(TO_ROOT, PRIORITY_MEDIUM, MESH_TOPO, RETURN_TOPO, 0, p.hops + 1,
                                   EncodePath(PathBack(path, n.id))))
  {
    var (m, out) := Process(n, p, server);
    var r := Pkt(TO_ROOT, PRIORITY_MEDIUM, MESH_TOPO, RETURN_TOPO, 0, p.hops + 1, EncodePath(PathBack(path, n.id)));
    hide Process;
    hide GoesUp;
    hide Copies;
    hide Distanced;
    hide Outgoing;
    hide Encode;
    if n.id in path {
      SeenPath(n, p, server, path);
      back := out;
      assert out == [] + back;
      SameUp(n, back, Returned(p.(hops := p.hops + 1)), r);
    } else {
      NewPath(n, p, server, path);
      var q := p.(forwarding := TO_NEIGHBOR, hops := p.hops + 1, message := EncodePath(path + [n.id]));
      var a, b :| out == a + a + b && Copies(n, a, q) && GoesUp(m, b, Returned(q));
      back := b;
      CopiesOutgoing(n, a, q);
      SameUp(m, b, Returned(q), r);
    }
  }

  /** A returned path: dropped past 70 hops, written into the distances at the root, and sent on up elsewhere. */
  lemma ReturnedPath(n: NodeState, p: Pkt, server: Text, path: seq<Text>)
    requires p.contents == MESH_TOPO && p.meta == RETURN_TOPO && p.forwarding == TO_ROOT
    requires p.message == EncodePath(path) && AreFields(path) && NoDup(path)
    ensures var (m, out) := Process(n, p, server);
            if p.hops + 1 > 70 then m == n && out == []
            else if n.isRoot then Distanced(n, m, path) && out == []
            else m == n && GoesUp(n, out, p.(hops := p.hops + 1))
  {
    PathDistances(n, path);
    RootRoute(n, p.(hops := p.hops + 1));
    hide Route;
    hide ProcessTopo;
    hide GoesUp;
  }

  // ---- Handshakes ----

  /** `device:uuid:protocol:` */
  function TripleText(t: Triple): Text {
    t.device + [COLON] + t.uuid + [COLON] + t.protocol + [COLON]
  }

  /** The text `flags`, and with it `;return_to_root`. */
  function FlagText(returnToRoot: bool): Text {
    if returnToRoot
    then [102, 108, 97, 103, 115, 59, 114, 101, 116, 117, 114, 110, 95, 116, 111, 95, 114, 111, 111, 116]
    else [102, 108, 97, 103, 115]
  }

  /** What the device writes of its channel `u`. */
  ghost function Own(n: NodeState, u: Text): Triple
    requires u in n.chans && n.chans[u].protocol.Some?
  {
    Triple(n.id, u, n.chans[u].protocol.value)
  }

  /** Own channels are on record under their own uuid, with a protocol. */
  ghost predicate OwnKnown(n: NodeState) {
    forall u :: u in n.chans && n.chans[u].isHere ==> n.chans[u].uuid == Some(u) && n.chans[u].protocol.Some?
  }

  /** A packet over each open client channel, in order, with the channel's own triple at the end of its message. */
  ghost predicate Signed(n: NodeState, out: seq<Send>, p: Pkt)
    requires OwnKnown(n)
  {
    exists cs :: Picked(n.keys, cs, OpenClients(n)) && |out| == |cs| && forall i :: 0 <= i < |out| ==>
      OpenClient(n, cs[i]) && out[i].channel == cs[i]
      && Sent(out[i].pkt, p.(message := p.message + TripleText(Own(n, cs[i]))))
  }

  lemma FlagsAre(returnToRoot: bool)
    ensures PingFlags(returnToRoot) == FlagText(returnToRoot)
  {
    assert FLAGS == [102, 108, 97, 103, 115];
    assert RETURN_FLAG == [114, 101, 116, 117, 114, 110, 95, 116, 111, 95, 114, 111, 111, 116];
    assert Ascii(";") == [59];
  }

  lemma OwnIs(n: NodeState, u: Text)
    requires OwnKnown(n) && u in n.chans && n.chans[u].isHere
    ensures OwnTriple(n, u) == Own(n, u) && EncodeTriple(OwnTriple(n, u)) == TripleText(Own(n, u))
  {
  }

  ghost function NewPing(flags: Text): Pkt {
    Pkt(TO_NEIGHBOR, PRIORITY_MEDIUM, PING_PONG, SEND_PING, 0, 0, flags + [COLON])
  }

  lemma OnePing(flags: Text, t: Triple)
    ensures var p := NewPing(flags);
            Sent(Normalized(PingPkt(flags, t)), p.(message := p.message + TripleText(t)))
  {
    var q := PingPkt(flags, t);
    StampIs(q);
    assert q.message == NewPing(flags).message + TripleText(t);
    assert q == NewPing(flags).(message := q.message, size := q.size);
  }

  /** A ping goes over every client, with the flags asked for, no others, and the channel's own triple. */
  lemma PingSends(n: NodeState, returnToRoot: bool)
    requires OwnKnown(n)
    ensures Signed(n, SendPing(n, returnToRoot), NewPing(FlagText(returnToRoot)))
  {
    var cs, out, p := Clients(n), SendPing(n, returnToRoot), NewPing(FlagText(returnToRoot));
    ClientsInOrder(n);
    LeadsIs(n);
    FlagsAre(returnToRoot);
    hide Clients;
    hide FlagText;
    hide PingFlags;
    hide Picked;
    hide Sent;
    hide NewPing;
    hide PingPkt;
    hide TripleText;
    hide Own;
    hide OwnTriple;
    hide Normalized;
    forall i | 0 <= i < |out|
      ensures OpenClient(n, cs[i]) && out[i].channel == cs[i]
              && Sent(out[i].pkt, p.(message := p.message + TripleText(Own(n, cs[i]))))
    {
      assert cs[i] in Clients(n);
      OwnIs(n, cs[i]);
      OnePing(FlagText(returnToRoot), Own(n, cs[i]));
    }
  }

  lemma OnePong(q: Pkt, t: Triple)
    ensures Sent(Appended(q, EncodeTriple(t)), q.(message := q.message + TripleText(t)))
  {
    StampIs(q.(message := q.message + EncodeTriple(t)));
  }

  /** A ping is answered over every client: with the triple of the server channel it came in on, and the client's. */
  lemma PingAnswers(n: NodeState, p: Pkt, server: Text)
    requires p.contents == PING_PONG && p.meta == SEND_PING
    requires OwnKnown(n) && server in n.chans && n.chans[server].isHere
    ensures Process(n, p, server).0 == n
    ensures Signed(n, Process(n, p, server).1, p.(forwarding := TO_NEIGHBOR, meta := SEND_PONG, hops := p.hops + 1,
                                                  message := p.message + TripleText(Own(n, server))))
  {
    var q := p.(forwarding := TO_NEIGHBOR, meta := SEND_PONG, hops := p.hops + 1,
                message := p.message + TripleText(Own(n, server)));
    var r := Ponged(n, p.(hops := p.hops + 1), server);
    OwnIs(n, server);
    assert r == q.(size := r.size);
    var cs, out := Clients(n), Process(n, p, server).1;
    ClientsInOrder(n);
    LeadsIs(n);
    assert out == PongsOver(n, cs, r);
    hide Clients;
    hide Process;
    hide Ponged;
    hide Picked;
    forall i | 0 <= i < |out|
      ensures OpenClient(n, cs[i]) && out[i].channel == cs[i]
              && Sent(out[i].pkt, q.(message := q.message + TripleText(Own(n, cs[i]))))
    {
      assert cs[i] in Clients(n);
      OwnIs(n, cs[i]);
      OnePong(r, Own(n, cs[i]));
    }
  }

  // ---- Links ----

  /** The record of a channel, or the empty one. */
  ghost function Known(n: NodeState, u: Text): Chan {
    if u in n.chans then n.chans[u] else Chan(None, None, None, None, false, Remote)
  }

  ghost predicate FirstNamed(ts: seq<Triple>, i: nat) {
    i < |ts| && forall j :: 0 <= j < i ==> ts[j].uuid != ts[i].uuid
  }

  /** The record `after` has the uuid, keeps what was known before, and has device and protocol of `t` where not. */
  ghost predicate FilledFrom(before: Chan, after: Chan, t: Triple) {
    after == before.(uuid := Some(t.uuid),
                     deviceId := if before.deviceId.Some? then before.deviceId else Some(t.device),
                     protocol := if before.protocol.Some? then before.protocol else Some(t.protocol))
  }

  /** Two links, from channel `ts[0]` to `ts[1]` and from `ts[2]` to `ts[3]`, and the four channels, are on record. */
  ghost predicate Linked(n: NodeState, m: NodeState, ts: seq<Triple>)
    requires |ts| == 4
  {
    && m.id == n.id && m.isRoot == n.isRoot && n.keys <= m.keys
    && m.conn.Keys == n.conn.Keys + {ts[0].uuid, ts[2].uuid}
    && (forall c, x :: c in m.conn ==>
          (x in m.conn[c] <==> (c in n.conn && x in n.conn[c]) || (c == ts[0].uuid && x == ts[1].uuid)
                               || (c == ts[2].uuid && x == ts[3].uuid)))
    && m.chans.Keys == n.chans.Keys + {ts[0].uuid, ts[1].uuid, ts[2].uuid, ts[3].uuid}
    && (forall u :: u in n.chans && (forall i :: 0 <= i < 4 ==> u != ts[i].uuid) ==> m.chans[u] == n.chans[u])
    && (forall i :: 0 <= i < 4 && FirstNamed(ts, i) ==> FilledFrom(Known(n, ts[i].uuid), m.chans[ts[i].uuid], ts[i]))
  }

  ghost predicate LinkedOnce(n: NodeState, m: NodeState, a: Text, b: Text) {
    && m.id == n.id && m.isRoot == n.isRoot && n.keys <= m.keys && m.conn.Keys == n.conn.Keys + {a}
    && (forall c, x :: c in m.conn ==> (x in m.conn[c] <==> (c in n.conn && x in n.conn[c]) || (c == a && x == b)))
    && m.chans.Keys == n.chans.Keys + {a, b}
    && forall u :: Known(m, u) == if u == a || u == b then Known(n, u).(uuid := Some(u)) else Known(n, u)
  }

  ghost predicate LearntOnce(n: NodeState, m: NodeState, t: Triple) {
    && m.id == n.id && m.isRoot == n.isRoot && m.keys == n.keys && m.conn == n.conn && m.chans.Keys == n.chans.Keys
    && forall u :: Known(m, u) == if u == t.uuid then Filled(Known(n, u), t) else Known(n, u)
  }

  lemma LinkWrites(n: NodeState, a: Text, b: Text)
    ensures LinkedOnce(n, Link(n, a, b), a, b)
  {
  }

  ghost function Filled(ch: Chan, t: Triple): Chan {
    ch.(deviceId := if ch.deviceId.Some? then ch.deviceId else Some(t.device),
        protocol := if ch.protocol.Some? then ch.protocol else Some(t.protocol))
  }

  lemma LearnWrites(n: NodeState, t: Triple)
    requires t.uuid in n.chans
    ensures LearntOnce(n, Learn(n, t), t)
  {
  }

  /** Four triples learnt one after the other: each channel is filled from the first that names it. */
  lemma FilledFirst(ch: Chan, ts: seq<Triple>, i: nat, r1: Chan, r2: Chan, r3: Chan, r4: Chan)
    requires |ts| == 4 && i < 4 && FirstNamed(ts, i)
    requires r1 == if ts[0].uuid == ts[i].uuid then Filled(ch, ts[0]) else ch
    requires r2 == if ts[1].uuid == ts[i].uuid then Filled(r1, ts[1]) else r1
    requires r3 == if ts[2].uuid == ts[i].uuid then Filled(r2, ts[2]) else r2
    requires r4 == if ts[3].uuid == ts[i].uuid then Filled(r3, ts[3]) else r3
    ensures r4 == Filled(ch, ts[i])
  {
  }

  ghost function TriplesOf(d: PingData): seq<Triple> {
    [d.sendPing, d.recvPing, d.sendPong, d.recvPong]
  }

  /** The steps in which `m` comes from `n`: two links, then four triples. */
  ghost predicate InSteps(n: NodeState, l1: NodeState, l2: NodeState, m1: NodeState, m2: NodeState, m3: NodeState,
        m: NodeState, ts: seq<Triple>)
    requires |ts| == 4
  {
    && LinkedOnce(n, l1, ts[0].uuid, ts[1].uuid) && LinkedOnce(l1, l2, ts[2].uuid, ts[3].uuid)
    && LearntOnce(l2, m1, ts[0]) && LearntOnce(m1, m2, ts[1]) && LearntOnce(m2, m3, ts[2]) && LearntOnce(m3, m, ts[3])
  }

  /** The link table after the steps. */
  lemma StepsLink(n: NodeState, l1: NodeState, l2: NodeState, m: NodeState, ts: seq<Triple>)
    requires |ts| == 4 && LinkedOnce(n, l1, ts[0].uuid, ts[1].uuid) && LinkedOnce(l1, l2, ts[2].uuid, ts[3].uuid)
    requires m.id == l2.id && m.isRoot == l2.isRoot && m.keys == l2.keys && m.conn == l2.conn
    requires m.chans.Keys == l2.chans.Keys
    ensures m.id == n.id && m.isRoot == n.isRoot && n.keys <= m.keys
    ensures m.conn.Keys == n.conn.Keys + {ts[0].uuid, ts[2].uuid}
    ensures forall c, x :: c in m.conn ==>
      (x in m.conn[c] <==> (c in n.conn && x in n.conn[c]) || (c == ts[0].uuid && x == ts[1].uuid)
                           || (c == ts[2].uuid && x == ts[3].uuid))
    ensures m.chans.Keys == n.chans.Keys + {ts[0].uuid, ts[1].uuid, ts[2].uuid, ts[3].uuid}
  {
    hide Known;
  }

  /** The record of one channel through the steps. */
  lemma StepsFill(n: NodeState, l1: NodeState, l2: NodeState, m1: NodeState, m2: NodeState, m3: NodeState, m: NodeState,
        ts: seq<Triple>, u: Text)
    requires |ts| == 4 && InSteps(n, l1, l2, m1, m2, m3, m, ts)
    ensures u != ts[0].uuid && u != ts[1].uuid && u != ts[2].uuid && u != ts[3].uuid ==> Known(m, u) == Known(n, u)
    ensures forall i :: 0 <= i < 4 && FirstNamed(ts, i) && ts[i].uuid == u ==>
      FilledFrom(Known(n, u), Known(m, u), ts[i])
  {
    var k1, k2, r1, r2, r3, r4 := Known(l1, u), Known(l2, u), Known(m1, u), Known(m2, u), Known(m3, u), Known(m, u);
    assert k1 == if u == ts[0].uuid || u == ts[1].uuid then Known(n, u).(uuid := Some(u)) else Known(n, u);
    assert k2 == if u == ts[2].uuid || u == ts[3].uuid then k1.(uuid := Some(u)) else k1;
    assert r1 == if u == ts[0].uuid then Filled(k2, ts[0]) else k2;
    assert r2 == if u == ts[1].uuid then Filled(r1, ts[1]) else r1;
    assert r3 == if u == ts[2].uuid then Filled(r2, ts[2]) else r2;
    assert r4 == if u == ts[3].uuid then Filled(r3, ts[3]) else r3;
    hide InSteps;
    hide Known;
    hide FirstNamed;
    hide Filled;
    hide FilledFrom;
    forall i | 0 <= i < 4 && FirstNamed(ts, i) && ts[i].uuid == u
      ensures FilledFrom(Known(n, u), Known(m, u), ts[i])
    {
      assert k2 == Known(n, u).(uuid := Some(u));
      FilledFirst(k2, ts, i, r1, r2, r3, r4);
      FilledIs(Known(n, u), ts[i]);
    }
  }

  lemma StepsAreLinked(n: NodeState, l1: NodeState, l2: NodeState, m1: NodeState, m2: NodeState, m3: NodeState,
        m: NodeState, ts: seq<Triple>)
    requires |ts| == 4 && InSteps(n, l1, l2, m1, m2, m3, m, ts)
    ensures Linked(n, m, ts)
  {
    assert m.conn == l2.conn && m.keys == l2.keys && m.chans.Keys == l2.chans.Keys;
    StepsLink(n, l1, l2, m, ts);
    hide InSteps;
    hide FilledFrom;
    hide FirstNamed;
    forall i | 0 <= i < 4 && FirstNamed(ts, i) ensures FilledFrom(Known(n, ts[i].uuid), m.chans[ts[i].uuid], ts[i]) {
      StepsFill(n, l1, l2, m1, m2, m3, m, ts, ts[i].uuid);
    }
    forall u | u in n.chans && (forall i :: 0 <= i < 4 ==> u != ts[i].uuid) ensures m.chans[u] == n.chans[u] {
      assert u != ts[0].uuid && u != ts[1].uuid && u != ts[2].uuid && u != ts[3].uuid;
      StepsFill(n, l1, l2, m1, m2, m3, m, ts, u);
    }
  }

  lemma LearnAllWrites(n: NodeState, d: PingData)
    ensures Linked(n, LearnAll(n, d), TriplesOf(d))
  {
    var ts := TriplesOf(d);
    var l1 := Link(n, d.sendPing.uuid, d.recvPing.uuid);
    var l2 := Link(l1, d.sendPong.uuid, d.recvPong.uuid);
    var m1 := Learn(l2, d.sendPing);
    var m2 := Learn(m1, d.recvPing);
    var m3 := Learn(m2, d.sendPong);
    var m := Learn(m3, d.recvPong);
    assert LearnAll(n, d) == m;
    hide LearnAll;
    hide Link;
    hide Learn;
    LinkWrites(n, d.sendPing.uuid, d.recvPing.uuid);
    LinkWrites(l1, d.sendPong.uuid, d.recvPong.uuid);
    assert {ts[0].uuid, ts[1].uuid, ts[2].uuid, ts[3].uuid} <= l2.chans.Keys;
    LearnWrites(l2, d.sendPing);
    LearnWrites(m1, d.recvPing);
    LearnWrites(m2, d.sendPong);
    LearnWrites(m3, d.recvPong);
    hide LinkedOnce;
    hide LearntOnce;
    StepsAreLinked(n, l1, l2, m1, m2, m3, m, ts);
  }

  lemma FilledIs(before: Chan, t: Triple)
    ensures FilledFrom(before, Filled(before.(uuid := Some(t.uuid)), t), t)
  {
  }

  /** The four triples that a handshake names, at their places between the colons. */
  ghost predicate Names(message: Text, flags: Text, ts: seq<Triple>) {
    var parts := Split(message);
    && |parts| >= 13 && |ts| == 4 && flags == parts[0]
    && forall i :: 0 <= i < 4 ==> ts[i] == Triple(parts[1 + 3 * i], parts[2 + 3 * i], parts[3 + 3 * i])
  }

  lemma NamesFour(message: Text, flags: Text, ts: seq<Triple>)
    requires Names(message, flags, ts)
    ensures |ts| == 4
  {
  }

  lemma NamesDecode(message: Text, flags: Text, ts: seq<Triple>)
    requires Names(message, flags, ts)
    ensures DecodePing(message) == Some(PingData(flags, ts[0], ts[1], ts[2], ts[3]))
    ensures TriplesOf(PingData(flags, ts[0], ts[1], ts[2], ts[3])) == ts
  {
    hide Split;
    assert ts == [ts[0], ts[1], ts[2], ts[3]];
  }

  /** The text asks for the handshake to go to the root. */
  ghost predicate Flagged(flags: Text) {
    exists a, b :: flags == a + FlagText(true)[6..] + b
  }

  lemma FlaggedIs(flags: Text)
    ensures Contains(RETURN_FLAG, flags) <==> Flagged(flags)
  {
    ContainsIs(RETURN_FLAG, flags);
    assert RETURN_FLAG == FlagText(true)[6..];
  }

  /** What a complete handshake does: both links and all four channels are on record; and if it is flagged and closes
      the circle, it goes on to the root, over what is then the first closer channel. */
  ghost predicate Completes(n: NodeState, m: NodeState, out: seq<Send>, flags: Text, ts: seq<Triple>, p: Pkt)
    requires |ts| == 4
  {
    && Linked(n, m, ts)
    && if Flagged(flags) && ts[0].device == ts[3].device && ts[1].device == ts[2].device
       then GoesUp(m, out, p.(meta := PING_PONG_ROOT, forwarding := TO_ROOT, priority := PRIORITY_MEDIUM))
       else out == []
  }

  lemma ProcessedCompletes(n: NodeState, p: Pkt, flags: Text, ts: seq<Triple>)
    requires Names(p.message, flags, ts)
    ensures Completes(n, ProcessPing(n, p).0, ProcessPing(n, p).1, flags, ts, p)
  {
    NamesDecode(p.message, flags, ts);
    var d := PingData(flags, ts[0], ts[1], ts[2], ts[3]);
    LearnAllWrites(n, d);
    FlaggedIs(flags);
    var m := LearnAll(n, d);
    var q := p.(meta := PING_PONG_ROOT, forwarding := TO_ROOT, priority := PRIORITY_MEDIUM);
    RootRoute(m, q);
    SameRoute(m, q, RootPong(p));
    hide LearnAll;
    hide DecodePing;
    hide Linked;
    hide Route;
    hide Flagged;
    hide Contains;
    assert ReturnsToRoot(m, d) <==> Flagged(flags) && ts[0].device == ts[3].device && ts[1].device == ts[2].device
                                    && !m.isRoot;
  }

  lemma PongIs(n: NodeState, p: Pkt, server: Text)
    requires p.contents == PING_PONG && p.meta == SEND_PONG
    ensures var r := RecvPong(n, p.(hops := p.hops + 1), server);
            && Process(n, p, server) == ProcessPing(n, r)
            && r == p.(hops := p.hops + 1, message := p.message + EncodeTriple(OwnTriple(n, server)), size := r.size,
                       meta := r.meta)
  {
    hide ProcessPing;
    hide EncodeTriple;
    hide OwnTriple;
  }

  /** A pong, with the triple of the server channel it came in on added, is a complete handshake. */
  lemma PongCompletes(n: NodeState, p: Pkt, server: Text, flags: Text, ts: seq<Triple>)
    requires p.contents == PING_PONG && p.meta == SEND_PONG
    requires OwnKnown(n) && server in n.chans && n.chans[server].isHere
    requires Names(p.message + TripleText(Own(n, server)), flags, ts)
    ensures Completes(n, Process(n, p, server).0, Process(n, p, server).1, flags, ts,
                      p.(hops := p.hops + 1, message := p.message + TripleText(Own(n, server))))
  {
    hide Process;
    hide ProcessPing;
    hide RecvPong;
    hide Names;
    hide Completes;
    hide TripleText;
    OwnIs(n, server);
    PongIs(n, p, server);
    NamesFour(p.message + TripleText(Own(n, server)), flags, ts);
    hide Own;
    hide OwnTriple;
    hide EncodeTriple;
    hide OwnKnown;
    var r := RecvPong(n, p.(hops := p.hops + 1), server);
    ProcessedCompletes(n, r, flags, ts);
    var q := p.(hops := p.hops + 1, message := p.message + TripleText(Own(n, server)));
    SameCompletes(n, ProcessPing(n, r).0, ProcessPing(n, r).1, flags, ts, r, q);
  }

  lemma SameCompletes(n: NodeState, m: NodeState, out: seq<Send>, flags: Text, ts: seq<Triple>, p: Pkt, q: Pkt)
    requires |ts| == 4 && Completes(n, m, out, flags, ts, p)
    requires q == p.(size := q.size, meta := q.meta)
    ensures Completes(n, m, out, flags, ts, q)
  {
    hide Linked;
    hide Flagged;
    var a := p.(meta := PING_PONG_ROOT, forwarding := TO_ROOT, priority := PRIORITY_MEDIUM);
    var b := q.(meta := PING_PONG_ROOT, forwarding := TO_ROOT, priority := PRIORITY_MEDIUM);
    assert b == a.(size := b.size);
    if GoesUp(m, out, a) { SameUp(m, out, a, b); }
  }

  lemma RootPongIs(n: NodeState, p: Pkt, server: Text)
    requires p.contents == PING_PONG && p.meta == PING_PONG_ROOT
    ensures var q := p.(hops := p.hops + 1);
            Process(n, p, server) == if q.hops > 220 then (n, []) else if n.isRoot then ProcessPing(n, q)
                                     else (n, Route(n, q))
  {
    hide ProcessPing;
    hide Route;
  }

  /** On its way to the root a handshake is dropped past 220 hops; the root puts it on record, and every other device
      sends it on up. */
  lemma HandshakeClimbs(n: NodeState, p: Pkt, server: Text, flags: Text, ts: seq<Triple>)
    requires p.contents == PING_PONG && p.meta == PING_PONG_ROOT && p.forwarding == TO_ROOT
    requires Names(p.message, flags, ts)
    ensures var (m, out) := Process(n, p, server);
            if p.hops + 1 > 220 then m == n && out == []
            else if n.isRoot then Linked(n, m, ts) && out == []
            else m == n && GoesUp(n, out, p.(hops := p.hops + 1))
  {
    var q := p.(hops := p.hops + 1);
    hide Process;
    hide ProcessPing;
    hide Route;
    hide Linked;
    hide Flagged;
    hide Names;
    RootPongIs(n, p, server);
    RootRoute(n, q);
    assert Names(q.message, flags, ts);
    NamesFour(p.message, flags, ts);
    ProcessedCompletes(n, q, flags, ts);
    hide CloserOnes;
    hide FirstCloser;
    hide Sent;
    assert Linked(n, ProcessPing(n, q).0, ts);
    assert ProcessPing(n, q).0.isRoot == n.isRoot by { LinkedRoot(n, ProcessPing(n, q).0, ts); }
  }

  lemma LinkedRoot(n: NodeState, m: NodeState, ts: seq<Triple>)
    requires |ts| == 4 && Linked(n, m, ts)
    ensures m.isRoot == n.isRoot
  {
  }

  lemma CompleteIs(n: NodeState, p: Pkt, server: Text)
    requires p.contents == PING_PONG && p.meta == RECV_PONG
    ensures Process(n, p, server) == ProcessPing(n, p.(hops := p.hops + 1))
  {
    hide ProcessPing;
  }

  /** A handshake that arrives complete is put on record, */
  lemma CompleteRecorded(n: NodeState, p: Pkt, server: Text, flags: Text, ts: seq<Triple>)
    requires p.contents == PING_PONG && p.meta == RECV_PONG && Names(p.message, flags, ts) && |ts| == 4
    ensures Completes(n, Process(n, p, server).0, Process(n, p, server).1, flags, ts, p.(hops := p.hops + 1))
  {
    CompleteIs(n, p, server);
    hide Process;
    hide ProcessPing;
    hide Names;
    hide Completes;
    assert p.(hops := p.hops + 1).message == p.message;
    ProcessedCompletes(n, p.(hops := p.hops + 1), flags, ts);
  }

  /** and a packet of any other stage does nothing. */
  lemma OtherStages(n: NodeState, p: Pkt, server: Text)
    requires (p.contents == MESH_TOPO && p.meta != SEND_TOPO && p.meta != RETURN_TOPO)
             || (p.contents == PING_PONG && p.meta !in {SEND_PING, SEND_PONG, RECV_PONG, PING_PONG_ROOT})
    ensures Process(n, p, server) == (n, [])
  {
  }

  // ---- Channels that are opened ----

  /** A channel that is opened is on record as the device's own, without a distance, and stored last if it is new. */
  lemma ChannelOpened(n: NodeState, u: Text, protocol: Text, role: Role)
    ensures var m := OpenChannel(n, u, protocol, role);
            && m.id == n.id && m.isRoot == n.isRoot && m.conn == n.conn && m.chans.Keys == n.chans.Keys + {u}
            && m.chans[u] == Chan(Some(u), Some(n.id), Some(protocol), Some(-1), true, role)
            && (forall v :: v in n.chans && v != u ==> m.chans[v] == n.chans[v])
            && m.keys == if u in n.chans then n.keys else n.keys + [u]
  {
  }

  // ---- Other packets ----

  /** A packet of any other kind goes up if it is for the root, or for the neighbour and then the root; over the farther
      channels if it is for the edges; and nowhere else. No table changes. */
  lemma OthersForwarded(n: NodeState, p: Pkt, server: Text)
    requires p.contents != MESH_TOPO && p.contents != PING_PONG
    ensures var (m, out) := Process(n, p, server); var q := p.(hops := p.hops + 1);
            && m == n
            && if p.forwarding == TO_ROOT || p.forwarding == TO_NEIGHBOR_TO_ROOT
               then GoesUp(n, out, q.(forwarding := TO_ROOT))
               else if p.forwarding == TO_EDGES
               then exists cs :: Picked(n.keys, cs, FartherOnes(n)) && CopiesOver(cs, out, q)
               else out == []
  {
    var q := p.(hops := p.hops + 1);
    var g := NextForwarding(n.isRoot, p.forwarding);
    assert Process(n, p, server) == (n, Route(n, q.(forwarding := g)));
    hide Process;
    OtherRoutes(n, q.(forwarding := g));
    hide Route;
    hide Picked;
    hide CopiesOver;
    if g == TO_ROOT { RootRoute(n, q.(forwarding := TO_ROOT)); }
    if n.isRoot { assert GoesUp(n, [], q.(forwarding := TO_ROOT)); }
    hide GoesUp;
    if g == TO_EDGES { assert q.(forwarding := g) == q; }
  }

  lemma OtherRoutes(n: NodeState, p: Pkt)
    ensures p.forwarding == TO_EDGES ==>
      exists cs :: Picked(n.keys, cs, FartherOnes(n)) && CopiesOver(cs, Route(n, p), p)
    ensures p.forwarding !in {TO_ROOT, TO_EDGES, TO_NEIGHBOR} ==> Route(n, p) == []
  {
    LeadingInOrder(n);
    AllOver(Leading(n, false), p);
    hide Leading;
    hide Clients;
    hide SendAll;
    hide Picked;
    hide CopiesOver;
  }
}
