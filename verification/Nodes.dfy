/** One Python node: RemRouter.py and RemOrchestrator.py with their tables updated in place.
    Every method is proved against its function in NodeSpec. */
module Nodes {
  import opened Texts
  import opened Packets
  import opened NodeSpec
  import opened MeshGrowth

  /** A received packet waiting in `packets_queue`, with the server channel it came in on. */
  datatype Queued = Queued(pkt: Pkt, server: Text)

  // ---- The queue ----

  /** The queue entries that the drain processes, in order: the last entry first, duplicates skipped while an
      equal packet is still queued before them. */
  function Drained(queue: seq<Queued>): seq<Queued> {
    if queue == [] then []
    else
      var front, last := queue[..|queue| - 1], queue[|queue| - 1];
      (if QueuedIn(front, last.pkt) then [] else [last]) + Drained(front)
  }

  predicate QueuedIn(queue: seq<Queued>, p: Pkt) {
    exists i | 0 <= i < |queue| :: queue[i].pkt == p
  }

  function ProcessAll(n: NodeState, items: seq<Queued>): (NodeState, seq<Send>)
    decreases |items|
  {
    if items == [] then (n, [])
    else
      var r := Process(n, items[0].pkt, items[0].server);
      var rest := ProcessAll(r.0, items[1..]);
      (rest.0, r.1 + rest.1)
  }

  lemma ProcessedAlone(n: NodeState, x: Queued)
    ensures ProcessAll(n, [x]) == Process(n, x.pkt, x.server)
  {
    hide Process;
    var r := Process(n, x.pkt, x.server);
    assert ProcessAll(r.0, [x][1..]) == (r.0, []);
    assert r.1 + [] == r.1;
  }

  /** Processing a list is processing its entries one after the other. */
  lemma {:induction false} ProcessedInTurn(n: NodeState, a: seq<Queued>, b: seq<Queued>)
    ensures var first := ProcessAll(n, a); var rest := ProcessAll(first.0, b);
            ProcessAll(n, a + b) == (rest.0, first.1 + rest.1)
    decreases |a|
  {
    hide Process;
    if a == [] {
      assert a + b == b;
      assert [] + ProcessAll(n, b).1 == ProcessAll(n, b).1;
    } else {
      assert (a + b)[1..] == a[1..] + b;
      var r := Process(n, a[0].pkt, a[0].server);
      ProcessedInTurn(r.0, a[1..], b);
      var first := ProcessAll(r.0, a[1..]);
      var rest := ProcessAll(first.0, b);
      assert r.1 + (first.1 + rest.1) == (r.1 + first.1) + rest.1;
    }
  }

  lemma DrainTurn(n: NodeState, queue: seq<Queued>)
    requires queue != []
    ensures var front, last := queue[..|queue| - 1], queue[|queue| - 1];
            var (m, out) := if QueuedIn(front, last.pkt) then (n, []) else Process(n, last.pkt, last.server);
            var rest := ProcessAll(m, Drained(front));
            ProcessAll(n, Drained(queue)) == (rest.0, out + rest.1)
  {
    hide Process;
    var front, last := queue[..|queue| - 1], queue[|queue| - 1];
    if QueuedIn(front, last.pkt) {
      assert Drained(queue) == Drained(front);
      assert [] + ProcessAll(n, Drained(front)).1 == ProcessAll(n, Drained(front)).1;
    } else {
      assert Drained(queue)[1..] == Drained(front);
    }
  }

  lemma DrainNothing(n: NodeState)
    ensures ProcessAll(n, Drained([])) == (n, [])
  {
  }

  /** The index at which a packet content first arrived. */
  ghost predicate FirstAt(queue: seq<Queued>, i: nat) {
    i < |queue| && forall j :: 0 <= j < i ==> queue[j].pkt != queue[i].pkt
  }

  ghost predicate DrainOrder(queue: seq<Queued>, order: seq<nat>) {
    && |order| == |Drained(queue)|
    && (forall k :: 0 <= k < |order| ==> FirstAt(queue, order[k]) && queue[order[k]] == Drained(queue)[k])
    && (forall k, l :: 0 <= k < l < |order| ==> order[l] < order[k])
    && (forall i :: FirstAt(queue, i) ==> i in order)
  }

  lemma FirstAtFront(queue: seq<Queued>, i: nat)
    requires queue != []
    ensures var front := queue[..|queue| - 1];
            FirstAt(queue, i) <==> FirstAt(front, i) || (i == |front| && !QueuedIn(front, queue[i].pkt))
  {
    var front := queue[..|queue| - 1];
    if i == |front| && QueuedIn(front, queue[i].pkt) {
      var j :| 0 <= j < |front| && front[j].pkt == queue[i].pkt;
      assert queue[j].pkt == queue[i].pkt;
    }
    if i == |front| && !QueuedIn(front, queue[i].pkt) {
      forall j | 0 <= j < i ensures queue[j].pkt != queue[i].pkt {
        assert front[j] == queue[j];
      }
    }
    if i < |front| {
      assert forall j :: 0 <= j <= i ==> front[j] == queue[j];
    }
  }

  lemma SameFirst(queue: seq<Queued>, i: nat)
    requires queue != [] && QueuedIn(queue[..|queue| - 1], queue[|queue| - 1].pkt)
    ensures FirstAt(queue, i) <==> FirstAt(queue[..|queue| - 1], i)
    ensures FirstAt(queue, i) ==> i < |queue| - 1 && queue[i] == queue[..|queue| - 1][i]
  {
    hide QueuedIn;
    FirstAtFront(queue, i);
    assert FirstAt(queue, i) ==> i < |queue|;
    hide FirstAt;
  }

  lemma SkipOrder(queue: seq<Queued>, rest: seq<nat>)
    requires queue != [] && DrainOrder(queue[..|queue| - 1], rest)
    requires QueuedIn(queue[..|queue| - 1], queue[|queue| - 1].pkt)
    ensures DrainOrder(queue, rest)
  {
    var front := queue[..|queue| - 1];
    assert Drained(queue) == Drained(front);
    hide FirstAt;
    hide Drained;
    hide QueuedIn;
    forall k | 0 <= k < |rest| ensures FirstAt(queue, rest[k]) && queue[rest[k]] == Drained(queue)[k] {
      SameFirst(queue, rest[k]);
    }
    forall i | FirstAt(queue, i) ensures i in rest {
      SameFirst(queue, i);
    }
  }

  lemma TakeOrder(queue: seq<Queued>, rest: seq<nat>)
    requires queue != [] && DrainOrder(queue[..|queue| - 1], rest)
    requires !QueuedIn(queue[..|queue| - 1], queue[|queue| - 1].pkt)
    ensures DrainOrder(queue, [|queue| - 1] + rest)
  {
    var front, order := queue[..|queue| - 1], [|queue| - 1] + rest;
    assert Drained(queue) == [queue[|queue| - 1]] + Drained(front);
    forall k | 0 <= k < |order| ensures FirstAt(queue, order[k]) && queue[order[k]] == Drained(queue)[k] {
      FirstAtFront(queue, order[k]);
      if k > 0 { assert FirstAt(front, rest[k - 1]); }
    }
    hide Drained;
    forall i | FirstAt(queue, i) ensures i in order {
      FirstAtFront(queue, i);
      if FirstAt(front, i) { assert i in rest; } else { assert order[0] == i; }
    }
    hide QueuedIn;
    forall k, l | 0 <= k < l < |order| ensures order[l] < order[k] {
      assert order[l] == rest[l - 1] && FirstAt(front, rest[l - 1]);
      if k > 0 { assert order[k] == rest[k - 1]; }
    }
  }

  /** The drain processes exactly the first arrival of each content, in reverse order of arrival. */
  lemma {:induction false} DrainsFirstArrivals(queue: seq<Queued>) returns (order: seq<nat>)
    ensures DrainOrder(queue, order)
  {
    if queue == [] {
      order := [];
      assert forall i :: !FirstAt(queue, i);
    } else {
      hide DrainOrder;
      var front, last := queue[..|queue| - 1], queue[|queue| - 1];
      order := DrainsFirstArrivals(front);
      if QueuedIn(front, last.pkt) {
        SkipOrder(queue, order);
      } else {
        TakeOrder(queue, order);
        order := [|front|] + order;
      }
    }
  }

  /** No content is processed twice, and every content in the queue is processed. */
  lemma DrainsEachContentOnce(queue: seq<Queued>)
    ensures forall k, l :: 0 <= k < l < |Drained(queue)| ==> Drained(queue)[k].pkt != Drained(queue)[l].pkt
    ensures forall i :: 0 <= i < |queue| ==> QueuedIn(Drained(queue), queue[i].pkt)
  {
    var order := DrainsFirstArrivals(queue);
    forall k, l | 0 <= k < l < |Drained(queue)| ensures Drained(queue)[k].pkt != Drained(queue)[l].pkt {
      assert FirstAt(queue, order[k]) && order[l] < order[k];
    }
    forall i | 0 <= i < |queue| ensures QueuedIn(Drained(queue), queue[i].pkt) {
      var f := FirstOf(queue, i);
      var k :| 0 <= k < |order| && order[k] == f;
      assert Drained(queue)[k].pkt == queue[i].pkt;
    }
  }

  lemma {:induction false} FirstOf(queue: seq<Queued>, i: nat) returns (f: nat)
    requires i < |queue|
    ensures FirstAt(queue, f) && queue[f].pkt == queue[i].pkt
  {
    if FirstAt(queue, i) {
      f := i;
    } else {
      var j :| 0 <= j < i && queue[j].pkt == queue[i].pkt;
      f := FirstOf(queue, j);
    }
  }

  // ---- Tables stay well-formed ----

  lemma AllRedistanced(n: NodeState, chans: map<Text, Chan>, device: Text, distance: int)
    requires Wf(n) && chans.Keys == n.chans.Keys
    requires forall j :: 0 <= j < |n.keys| ==> n.keys[j] in n.chans && n.keys[j] in chans
    requires forall j :: 0 <= j < |n.keys| ==> chans[n.keys[j]] == Redistanced(n.chans[n.keys[j]], device, distance)
    ensures n.(chans := chans) == SetDistance(n, device, distance) && Wf(SetDistance(n, device, distance))
  {
    forall u | u in n.chans ensures chans[u] == Redistanced(n.chans[u], device, distance) {
      assert u in n.keys;
    }
    assert n.(chans := chans).chans == SetDistance(n, device, distance).chans;
  }

  lemma PutWf(n: NodeState, u: Text, ch: Chan, before: set<Text>, after: set<Text>)
    requires WfExcept(n, before) && before - {u} <= after && WfChan(ch, u, u in after)
    ensures WfExcept(Put(n, u, ch), after)
  {
  }

  lemma NamedWf(n: NodeState, u: Text, unnamed: set<Text>)
    requires WfExcept(n, unnamed) && u in unnamed
    ensures WfExcept(Named(n, u), unnamed)
  {
    PutWf(n, u, ChanAt(n, u).(uuid := Some(u)), unnamed, unnamed);
  }

  lemma LinkWf(n: NodeState, a: Text, b: Text, unnamed: set<Text>)
    requires WfExcept(n, unnamed) && a in unnamed && b in unnamed
    ensures WfExcept(Link(n, a, b), unnamed)
  {
    hide WfExcept;
    NamedWf(n, a, unnamed);
    NamedWf(Named(n, a), b, unnamed);
    LinkedWf(Named(Named(n, a), b), a, b, unnamed);
  }

  lemma LinkedWf(n: NodeState, a: Text, b: Text, unnamed: set<Text>)
    requires WfExcept(n, unnamed) && b in n.chans
    ensures WfExcept(n.(conn := n.conn[a := AddOnce(if a in n.conn then n.conn[a] else [], b)]), unnamed)
  {
    hide WfChan;
  }

  lemma LearnWf(n: NodeState, t: Triple, unnamed: set<Text>)
    requires WfExcept(n, unnamed) && t.uuid in n.chans
    ensures WfExcept(Learn(n, t), unnamed - {t.uuid}) && Learn(n, t).chans.Keys == n.chans.Keys
  {
    var ch := WithDefault(ChanAt(n, t.uuid), DeviceId, t.device);
    PutWf(n, t.uuid, ch, unnamed, unnamed + {t.uuid});
    PutWf(Put(n, t.uuid, ch), t.uuid, WithDefault(ch, Protocol, t.protocol), unnamed + {t.uuid}, unnamed - {t.uuid});
  }

  lemma LearnAllWf(n: NodeState, d: PingData)
    requires Wf(n)
    ensures Wf(LearnAll(n, d))
  {
    hide WfChan;
    hide Link;
    hide Learn;
    var us := {d.sendPing.uuid, d.recvPing.uuid, d.sendPong.uuid, d.recvPong.uuid};
    assert WfExcept(n, us) by { LoosenWf(n, us); }
    hide WfExcept;
    LinkWf(n, d.sendPing.uuid, d.recvPing.uuid, us);
    var n1 := Link(n, d.sendPing.uuid, d.recvPing.uuid);
    LinkWf(n1, d.sendPong.uuid, d.recvPong.uuid, us);
    var n2 := Link(n1, d.sendPong.uuid, d.recvPong.uuid);
    LinkKeys(n, d.sendPing.uuid, d.recvPing.uuid);
    LinkKeys(n1, d.sendPong.uuid, d.recvPong.uuid);
    LearnWf(n2, d.sendPing, us);
    var n3 := Learn(n2, d.sendPing);
    LearnWf(n3, d.recvPing, us - {d.sendPing.uuid});
    var n4 := Learn(n3, d.recvPing);
    LearnWf(n4, d.sendPong, us - {d.sendPing.uuid} - {d.recvPing.uuid});
    var n5 := Learn(n4, d.sendPong);
    LearnWf(n5, d.recvPong, us - {d.sendPing.uuid} - {d.recvPing.uuid} - {d.sendPong.uuid});
    assert us - {d.sendPing.uuid} - {d.recvPing.uuid} - {d.sendPong.uuid} - {d.recvPong.uuid} == {};
  }

  lemma LoosenWf(n: NodeState, unnamed: set<Text>)
    requires Wf(n)
    ensures WfExcept(n, unnamed)
  {
    forall u | u in n.chans ensures WfChan(n.chans[u], u, u in unnamed) {
      assert WfChan(n.chans[u], u, u in {});
    }
  }

  lemma {:induction false} SetDistancesWf(n: NodeState, devices: seq<Text>, first: nat)
    requires Wf(n)
    ensures Wf(SetDistances(n, devices, first))
    decreases |devices|
  {
    if devices != [] {
      assert Wf(SetDistance(n, devices[0], first));
      SetDistancesWf(SetDistance(n, devices[0], first), devices[1..], first + 1);
    }
  }

  lemma ProcessWf(n: NodeState, p: Pkt, server: Text)
    requires Wf(n)
    ensures Wf(Process(n, p, server).0)
  {
    hide Wf;
    hide LearnAll;
    hide SetDistances;
    forall message ensures Wf(ProcessTopo(n, message)) {
      SetDistancesWf(n, NonEmpty(Split(message)), 0);
    }
    forall d ensures Wf(LearnAll(n, d)) {
      LearnAllWf(n, d);
    }
  }

  /** Routing looks at nothing that stamping the size changes. */
  lemma RouteStamped(n: NodeState, p: Pkt, q: Pkt)
    requires Normalized(p) == Normalized(q)
    ensures Route(n, p) == Route(n, q)
  {
    assert p.forwarding == q.forwarding;
    forall cs ensures SendAll(cs, p) == SendAll(cs, q) {}
  }

  lemma NonEmptySkips(parts: seq<Text>, i: nat)
    requires i < |parts|
    ensures parts[i] == [] ==> NonEmpty(parts[i..]) == NonEmpty(parts[i + 1..])
    ensures parts[i] != [] ==> NonEmpty(parts[i..]) == [parts[i]] + NonEmpty(parts[i + 1..])
  {
    assert parts[i..][0] == parts[i] && parts[i..][1..] == parts[i + 1..];
  }

  /** A packet as `decode_recv` hands it over, whose message has the parts its kind calls for. */
  ghost predicate Handled(p: Pkt) {
    && 0 <= p.size < 0x1_0000
    && (p.contents == PING_PONG ==>
          && (p.meta == SEND_PONG ==> |Split(p.message)| >= 10)
          && (p.meta == RECV_PONG || p.meta == PING_PONG_ROOT ==> |Split(p.message)| >= 13))
  }

  ghost predicate AllHandled(n: NodeState, queue: seq<Queued>) {
    forall i :: 0 <= i < |queue| ==> OwnChannel(n, queue[i].server) && Handled(queue[i].pkt)
  }

  lemma HandledDecodes(n: NodeState, item: Queued)
    requires Handled(item.pkt) && OwnChannel(n, item.server)
    ensures Decodable(n, item.pkt, item.server)
  {
    var p := item.pkt;
    if p.contents == PING_PONG && p.meta == SEND_PONG {
      MoreParts(p.message, OwnTriple(n, item.server));
    }
  }

  /** Appending a triple adds at least three parts. */
  lemma MoreParts(message: Text, t: Triple)
    ensures |Split(message + EncodeTriple(t))| >= |Split(message)| + 3
  {
    CountSplit(message);
    CountSplit(message + EncodeTriple(t));
    CountSplit(EncodeTriple(t));
    CountJoin(message, EncodeTriple(t));
    CountJoin(t.device + [COLON] + t.uuid + [COLON] + t.protocol, [COLON]);
    CountJoin(t.device + [COLON] + t.uuid, [COLON] + t.protocol);
    CountJoin(t.device, [COLON] + t.uuid);
    assert EncodeTriple(t) == t.device + [COLON] + t.uuid + [COLON] + t.protocol + [COLON];
    assert t.device + [COLON] + t.uuid + [COLON] + t.protocol == (t.device + [COLON] + t.uuid) + ([COLON] + t.protocol);
    assert t.device + [COLON] + t.uuid == t.device + ([COLON] + t.uuid);
    assert CountColons([COLON]) == 1 && CountColons([COLON] + t.uuid) >= 1 && CountColons([COLON] + t.protocol) >= 1;
  }

  lemma {:induction false} CountJoin(a: Text, b: Text)
    ensures CountColons(a + b) == CountColons(a) + CountColons(b)
  {
    if a == [] {
      assert a + b == b;
    } else {
      assert (a + b)[1..] == a[1..] + b;
      CountJoin(a[1..], b);
    }
  }

  /** Own channels stay own channels. */
  lemma OwnStays(n: NodeState, item: Queued)
    ensures forall u :: OwnChannel(n, u) ==> OwnChannel(Process(n, item.pkt, item.server).0, u)
  {
    ProcessGrows(n, item.pkt, item.server);
    hide Process;
    var m := Process(n, item.pkt, item.server).0;
    forall u | OwnChannel(n, u) ensures OwnChannel(m, u) {
      assert ChanGrows(n.chans[u], m.chans[u]);
    }
  }

  class Node {
    const id: Text
    const isRoot: bool
    var keys: seq<Text>
    var chans: map<Text, Chan>
    var conn: map<Text, seq<Text>>
    var packetsQueue: seq<Queued>
    var outbox: seq<Send>        // what was handed to `send_raw`, oldest first

    function State(): NodeState
      reads this
    {
      NodeState(id, isRoot, keys, chans, conn)
    }

    ghost predicate Valid()
      reads this
    {
      Wf(State())
    }

    constructor (id: Text, isRoot: bool)
      ensures Valid() && State() == NodeState(id, isRoot, [], map[], map[])
      ensures packetsQueue == [] && outbox == []
    {
      this.id, this.isRoot := id, isRoot;
      keys, chans, conn, packetsQueue, outbox := [], map[], map[], [], [];
    }

    // ---- RemOrchestrator.py ----

    /** `init_client_type_1` or `init_server_type_1` under a given uuid */
    method InitChannel(u: Text, protocol: Text, role: Role)
      requires Valid() && role != Remote
      modifies this`keys, this`chans
      ensures Valid() && State() == OpenChannel(old(State()), u, protocol, role)
    {
      PutWf(State(), u, Chan(Some(u), Some(id), Some(protocol), Some(-1), true, role), {}, {});
      if u !in chans {
        keys := keys + [u];
      }
      chans := chans[u := Chan(Some(u), Some(id), Some(protocol), Some(-1), true, role)];
    }

    /** `got_packet_type_1` */
    method GotPacket(packet: Packet, server: Text)
      requires packet.Valid()
      modifies this`packetsQueue
      ensures packetsQueue == old(packetsQueue) + [Queued(packet.Value(), server)]
    {
      packetsQueue := packetsQueue + [Queued(packet.Value(), server)];
    }

    method GetClients() returns (cs: seq<Text>)
      requires Valid()
      ensures cs == Clients(State())
    {
      cs := [];
      for i := 0 to |keys|
        invariant cs == ClientsOf(keys[..i], chans)
      {
        var ch := chans[keys[i]];
        assert keys[..i + 1][..i] == keys[..i];
        if !ch.isHere { continue; }
        if ch.role != Client { continue; }
        cs := cs + [keys[i]];
      }
      assert keys[..|keys|] == keys;
    }

    /** `get_ch_closer_to_root`, or `get_ch_farther_from_root` when `closer` is false. */
    method GetLeading(closer: bool) returns (cs: seq<Text>)
      requires Valid()
      ensures cs == Leading(State(), closer)
    {
      cs := [];
      var clients := GetClients();
      ClientsAreOwn(keys, State());
      ghost var n := State();
      for i := 0 to |clients|
        invariant cs == LeadingOf(clients[..i], n, closer)
      {
        var c := clients[i];
        assert c in clients;
        var distance := chans[c].rootDistance.value;
        var found := false;
        assert clients[..i + 1][..i] == clients[..i];
        if c !in conn { continue; }
        for j := 0 to |conn[c]|
          invariant !found && forall k :: 0 <= k < j ==> !Better(n, c, conn[c][k], closer)
        {
          var destDistance := chans[conn[c][j]].rootDistance.GetOr(-1);
          if destDistance == -1 { continue; }
          if (closer && destDistance < distance) || (!closer && destDistance > distance) {
            assert Better(n, c, conn[c][j], closer);
            found := true;
            break;
          }
        }
        if found {
          cs := cs + [c];
        }
      }
      assert clients[..|clients|] == clients;
    }

    /** `channel_link_2_uuid` */
    method ChannelLink(a: Text, b: Text)
      modifies this`keys, this`chans, this`conn
      ensures State() == Link(old(State()), a, b)
    {
      if a !in conn {
        conn := conn[a := []];
      }
      if b !in conn[a] {
        conn := conn[a := conn[a] + [b]];
      }
      ChannelNamed(a);
      ChannelNamed(b);
    }

    method ChannelNamed(u: Text)
      modifies this`keys, this`chans
      ensures State() == Named(old(State()), u)
    {
      if u !in chans {
        keys, chans := keys + [u], chans[u := EMPTY_CHAN];
      }
      chans := chans[u := chans[u].(uuid := Some(u))];
    }

    /** `channel_set_value` */
    method ChannelSetValue(u: Text, field: Field, value: Text)
      modifies this`keys, this`chans
      ensures State() == SetDefault(old(State()), u, field, value)
    {
      if u !in chans {
        keys, chans := keys + [u], chans[u := EMPTY_CHAN];
      }
      var ch := chans[u];
      match field {
        case DeviceId => if ch.deviceId.None? { ch := ch.(deviceId := Some(value)); }
        case Protocol => if ch.protocol.None? { ch := ch.(protocol := Some(value)); }
      }
      chans := chans[u := ch];
    }

    method SetDeviceRootDistance(device: Text, distance: int)
      requires Valid()
      modifies this`chans
      ensures Valid() && State() == SetDistance(old(State()), device, distance)
    {
      ghost var was, n := chans, State();
      for i := 0 to |keys|
        invariant chans.Keys == was.Keys
        invariant forall j :: 0 <= j < i ==> chans[keys[j]] == Redistanced(was[keys[j]], device, distance)
        invariant forall j :: i <= j < |keys| ==> chans[keys[j]] == was[keys[j]]
      {
        assert keys[i] in chans;
        var ch := chans[keys[i]];
        if ch.deviceId.value == device {
          chans := chans[keys[i] := ch.(rootDistance := Some(distance))];
        }
      }
      AllRedistanced(n, chans, device, distance);
    }

    method SendRaw(channel: Text, packet: Packet)
      requires packet.Valid()
      modifies this`outbox, packet
      ensures packet.Valid() && packet.Value() == Normalized(old(packet.Value()))
      ensures outbox == old(outbox) + [Send(channel, packet.Value())]
    {
      var wire := packet.EncodeSend();
      outbox := outbox + [Send(channel, Parse(wire))];
    }

    method SendToAll(cs: seq<Text>, packet: Packet)
      requires packet.Valid()
      modifies this`outbox, packet
      ensures packet.Valid() && Normalized(packet.Value()) == Normalized(old(packet.Value()))
      ensures outbox == old(outbox) + SendAll(cs, old(packet.Value()))
    {
      ghost var p, before := packet.Value(), outbox;
      for i := 0 to |cs|
        invariant packet.Valid() && Normalized(packet.Value()) == Normalized(p)
        invariant outbox == before + SendAll(cs, p)[..i]
      {
        SendRaw(cs[i], packet);
      }
    }

    // ---- RemRouter.py ----

    method RoutePacket(packet: Packet)
      requires Valid() && packet.Valid()
      modifies this`outbox, packet
      ensures Valid() && packet.Valid() && Normalized(packet.Value()) == Normalized(old(packet.Value()))
      ensures outbox == old(outbox) + Route(State(), old(packet.Value()))
    {
      var forwarding := packet.Value().forwarding;
      if forwarding == TO_ROOT {
        if isRoot { return; }
        var closer := GetLeading(true);
        for i := 0 to |closer|
          invariant i == 0 && outbox == old(outbox) && packet.Value() == old(packet.Value()) && packet.Valid()
        {
          SendRaw(closer[i], packet);
          return;
        }
      } else if forwarding == TO_EDGES {
        var farther := GetLeading(false);
        SendToAll(farther, packet);
      } else if forwarding == TO_NEIGHBOR {
        var clients := GetClients();
        SendToAll(clients, packet);
      }
    }

    /** The packet one turn of the loop in `send_mesh_topo` makes. */
    static method NewTopoPacket(message: Text) returns (packet: Packet)
      ensures fresh(packet) && packet.Valid() && packet.Value() == TopoPkt(message)
    {
      packet := new Packet(message);
      packet.SetForwarding(TO_NEIGHBOR);
      packet.SetPriority(PRIORITY_MEDIUM);
      packet.SetContents(MESH_TOPO);
      packet.SetMeta(SEND_TOPO);
      packet.Normalize();
    }

    method SendMeshTopo()
      requires Valid() && isRoot
      modifies this`outbox
      ensures Valid() && outbox == old(outbox) + StartFlood(State())
    {
      hide WfExcept;
      var message := [COLON] + id + [COLON];
      assert EncodePath([id]) == message by { EncodeAppend([], [], id); assert [] + [id] == [id]; }
      hide EncodePath;
      var clients := GetClients();
      ghost var before, flood := outbox, StartFlood(State());
      for i := 0 to |clients|
        invariant outbox == before + flood[..i]
      {
        var packet := NewTopoPacket(message);
        SendRaw(clients[i], packet);
        assert Normalized(packet.Value()) == packet.Value();
        assert flood[..i + 1] == flood[..i] + [flood[i]];
      }
    }

    method ProcessMeshTopo(packet: Packet)
      requires Valid() && packet.Valid()
      modifies this`chans
      ensures Valid() && State() == ProcessTopo(old(State()), packet.Value().message)
    {
      var parts := Split(packet.Value().message);
      var counted := 0;
      ghost var goal := ProcessTopo(State(), packet.Value().message);
      assert parts[0..] == parts;
      for i := 0 to |parts|
        invariant Valid() && counted >= 0 && SetDistances(State(), NonEmpty(parts[i..]), counted) == goal
      {
        NonEmptySkips(parts, i);
        if parts[i] == [] { continue; }
        assert NonEmpty(parts[i..])[1..] == NonEmpty(parts[i + 1..]);
        SetDeviceRootDistance(parts[i], counted);
        counted := counted + 1;
      }
    }

    method AppendMeshTopo(packet: Packet)
      requires Valid() && packet.Valid() && packet.Value().contents == MESH_TOPO
      modifies this`outbox, this`chans, packet
      ensures Valid() && packet.Valid()
      ensures var e := AppendTopo(old(State()), old(packet.Value()));
              && State() == e.node && outbox == old(outbox) + e.out
              && Normalized(packet.Value()) == Normalized(e.pkt)
    {
      if Contains([COLON] + id + [COLON], packet.Value().message) { return; }
      packet.Append(id + [COLON]);
      packet.SetForwarding(TO_NEIGHBOR);
      ghost var grown := packet.Value();
      var clients := GetClients();
      SendToAll(clients, packet);
      RouteStamped(State(), packet.Value(), grown);
      RoutePacket(packet);
      ProcessMeshTopo(packet);
    }

    method ReturnMeshTopo(packet: Packet)
      requires Valid() && packet.Valid() && packet.Value().contents == MESH_TOPO
      modifies this`outbox, packet
      ensures Valid() && packet.Valid()
      ensures outbox == old(outbox) + ReturnTopo(State(), old(packet.Value()))
    {
      if isRoot { return; }
      packet.SetForwarding(TO_ROOT);
      packet.SetPriority(PRIORITY_MEDIUM);
      packet.SetMeta(RETURN_TOPO);
      packet.Normalize();
      RoutePacket(packet);
    }

    method CheckMeshTopo(packet: Packet)
      requires Valid() && packet.Valid() && packet.Value().contents == MESH_TOPO
      modifies this`outbox, this`chans, packet
      ensures Valid() && packet.Valid()
      ensures var r := CheckTopo(old(State()), old(packet.Value())); State() == r.0 && outbox == old(outbox) + r.1
    {
      ghost var n, p := State(), packet.Value();
      if packet.Value().meta == RETURN_TOPO {
        if packet.Value().hops > TOPO_HOP_LIMIT { return; }
        if isRoot { ProcessMeshTopo(packet); } else { RoutePacket(packet); }
        return;
      }
      if packet.Value().meta == SEND_TOPO {
        AppendMeshTopo(packet);
        assert ReturnedTopo(packet.Value()) == ReturnedTopo(AppendTopo(n, p).pkt);
        ReturnMeshTopo(packet);
      }
    }

    function OwnPing(u: Text): Text
      reads this
    {
      EncodeTriple(OwnTriple(State(), u))
    }

    method SendPings(returnToRoot: bool)
      requires Valid()
      modifies this`outbox
      ensures Valid() && outbox == old(outbox) + SendPing(State(), returnToRoot)
    {
      var flags := FLAGS;
      if returnToRoot {
        flags := flags + Ascii(";") + RETURN_FLAG;
      }
      assert flags == PingFlags(returnToRoot);
      hide Wf;
      hide PingFlags;
      hide PingPkt;
      hide Clients;
      hide Normalized;
      var clients := GetClients();
      ghost var before, pings := outbox, SendPing(State(), returnToRoot);
      for i := 0 to |clients|
        invariant outbox == before + pings[..i]
      {
        var packet := NewPingPacket(flags, clients[i]);
        SendRaw(clients[i], packet);
        assert pings[..i + 1] == pings[..i] + [pings[i]];
      }
    }

    /** The packet one turn of the loop in `send_ping` makes. */
    method NewPingPacket(flags: Text, u: Text) returns (packet: Packet)
      ensures fresh(packet) && packet.Valid() && packet.Value() == PingPkt(flags, OwnTriple(State(), u))
    {
      packet := new Packet(flags + [COLON] + OwnPing(u));
      packet.SetForwarding(TO_NEIGHBOR);
      packet.SetPriority(PRIORITY_MEDIUM);
      packet.SetContents(PING_PONG);
      packet.SetMeta(SEND_PING);
    }

    method ReceivePing(packet: Packet, server: Text)
      requires Valid() && packet.Valid() && OwnChannel(State(), server)
      modifies this`outbox, packet
      ensures Valid() && packet.Valid()
      ensures outbox == old(outbox) + RecvPing(State(), old(packet.Value()), server)
    {
      ghost var p := packet.Value();
      packet.SetMeta(RECV_PING);
      packet.Append(OwnPing(server));
      packet.SetForwarding(TO_NEIGHBOR);
      packet.SetMeta(SEND_PONG);
      packet.Normalize();
      assert packet.Value() == Ponged(State(), p, server);
      var clients := GetClients();
      SendPongs(clients, packet);
    }

    /** One copy of the ping for each client, with that client's triple added. */
    method SendPongs(cs: seq<Text>, packet: Packet)
      requires packet.Valid()
      modifies this`outbox
      ensures outbox == old(outbox) + PongsOver(State(), cs, packet.Value())
    {
      ghost var n, q, before := State(), packet.Value(), outbox;
      for i := 0 to |cs|
        invariant packet.Valid() && packet.Value() == q
        invariant outbox == before + PongsOver(n, cs, q)[..i]
      {
        var copy := packet.Clone();
        copy.Append(OwnPing(cs[i]));
        copy.Normalize();
        SendRaw(cs[i], copy);
      }
    }

    method ReceivePong(packet: Packet, server: Text)
      requires Valid() && packet.Valid() && OwnChannel(State(), server)
      requires DecodePing(RecvPong(State(), packet.Value(), server).message).Some?
      modifies this`outbox, this`keys, this`chans, this`conn, packet
      ensures Valid() && packet.Valid()
      ensures var r := ProcessPing(old(State()), RecvPong(old(State()), old(packet.Value()), server));
              State() == r.0 && outbox == old(outbox) + r.1
    {
      packet.SetMeta(RECV_PONG);
      packet.Append(OwnPing(server));
      ProcessPingPong(packet);
    }

    method LearnTriple(t: Triple)
      modifies this`keys, this`chans
      ensures State() == Learn(old(State()), t)
    {
      ChannelSetValue(t.uuid, DeviceId, t.device);
      ChannelSetValue(t.uuid, Protocol, t.protocol);
    }

    method ProcessPingPong(packet: Packet)
      requires Valid() && packet.Valid() && DecodePing(packet.Value().message).Some?
      modifies this`outbox, this`keys, this`chans, this`conn, packet
      ensures Valid() && packet.Valid()
      ensures var r := ProcessPing(old(State()), old(packet.Value())); State() == r.0 && outbox == old(outbox) + r.1
    {
      hide DecodePing;
      hide Wf;
      hide Link;
      hide Learn;
      var d := DecodePing(packet.Value().message).value;
      LearnAllWf(State(), d);
      ChannelLink(d.sendPing.uuid, d.recvPing.uuid);
      ChannelLink(d.sendPong.uuid, d.recvPong.uuid);
      LearnTriple(d.sendPing);
      LearnTriple(d.recvPing);
      LearnTriple(d.sendPong);
      LearnTriple(d.recvPong);
      assert State() == LearnAll(old(State()), d);
      hide LearnAll;
      if Contains(RETURN_FLAG, d.flags) {
        if d.sendPing.device == d.recvPong.device {
          if d.recvPing.device == d.sendPong.device {
            if !isRoot {
              ReturnPingPong(packet);
            }
          }
        }
      }
    }

    method ReturnPingPong(packet: Packet)
      requires Valid() && packet.Valid() && !isRoot
      modifies this`outbox, packet
      ensures Valid() && packet.Valid()
      ensures outbox == old(outbox) + Route(State(), RootPong(old(packet.Value())))
    {
      packet.SetMeta(PING_PONG_ROOT);
      packet.SetForwarding(TO_ROOT);
      packet.SetPriority(PRIORITY_MEDIUM);
      packet.Normalize();
      RoutePacket(packet);
    }

    method CheckPingPong(packet: Packet, server: Text)
      requires Valid() && packet.Valid() && OwnChannel(State(), server)
      requires packet.Value().contents == PING_PONG && Decodable(State(), packet.Value(), server)
      modifies this`outbox, this`keys, this`chans, this`conn, packet
      ensures Valid() && packet.Valid()
      ensures var r := CheckPing(old(State()), old(packet.Value()), server);
              State() == r.0 && outbox == old(outbox) + r.1
    {
      var meta := packet.Value().meta;
      if meta == SEND_PING {
        ReceivePing(packet, server);
      } else if meta == SEND_PONG {
        ReceivePong(packet, server);
      } else if meta == RECV_PONG {
        ProcessPingPong(packet);
      } else if meta == PING_PONG_ROOT {
        if packet.Value().hops > PING_HOP_LIMIT { return; }
        if isRoot { ProcessPingPong(packet); } else { RoutePacket(packet); }
      }
    }

    /** `process_packet`, for every contents type but RemMakeClient1. */
    method ProcessPacket(packet: Packet, server: Text)
      requires Valid() && packet.Valid() && OwnChannel(State(), server) && Decodable(State(), packet.Value(), server)
      modifies this`outbox, this`keys, this`chans, this`conn, packet
      ensures Valid() && packet.Valid()
      ensures var r := Process(old(State()), old(packet.Value()), server);
              State() == r.0 && outbox == old(outbox) + r.1
    {
      hide Wf;
      hide CheckPing;
      hide CheckTopo;
      hide Route;
      packet.AddHop();
      if packet.Value().contents == PING_PONG {
        CheckPingPong(packet, server);
        return;
      }
      if packet.Value().contents == MESH_TOPO {
        CheckMeshTopo(packet);
        return;
      }
      if isRoot {
        if packet.Value().forwarding == TO_ROOT {
          packet.SetForwarding(TO_HERE);
        } else if packet.Value().forwarding == TO_NEIGHBOR_TO_ROOT {
          packet.SetForwarding(TO_ROOT);
        }
      }
      if packet.Value().forwarding == TO_BACK {
        packet.SetForwarding(TO_HERE);
      } else if packet.Value().forwarding == TO_NEIGHBOR_TO_ROOT {
        packet.SetForwarding(TO_ROOT);
      } else if packet.Value().forwarding == TO_NEIGHBOR {
        packet.SetForwarding(TO_HERE);
      } else if packet.Value().forwarding == TO_PARENT {
        packet.SetForwarding(TO_HERE);
      } else if packet.Value().forwarding == TO_NEIGHBOR_AND_BACK {
        packet.SetForwarding(TO_BACK);
      }
      RoutePacket(packet);
    }

    /** The drain loop of `update_continous`, with no concurrent arrivals. */
    method DrainQueue()
      requires Valid() && AllHandled(State(), packetsQueue)
      modifies this`packetsQueue, this`outbox, this`keys, this`chans, this`conn
      ensures Valid() && packetsQueue == []
      ensures var r := ProcessAll(old(State()), Drained(old(packetsQueue)));
              State() == r.0 && outbox == old(outbox) + r.1
    {
      hide Wf;
      hide AllHandled;
      hide Process;
      hide Drained;
      hide ProcessAll;
      hide QueuedIn;
      ghost var goal := ProcessAll(State(), Drained(packetsQueue));
      ghost var sent: seq<Send> := [];
      while |packetsQueue| > 0
        invariant Valid() && AllHandled(State(), packetsQueue)
        invariant outbox == old(outbox) + sent
        invariant goal.0 == ProcessAll(State(), Drained(packetsQueue)).0
        invariant goal.1 == sent + ProcessAll(State(), Drained(packetsQueue)).1
        decreases |packetsQueue|
      {
        ghost var n, queue := State(), packetsQueue;
        var out := PopPacket();
        DrainTurn(n, queue);
        assert sent + out + ProcessAll(State(), Drained(packetsQueue)).1
            == sent + (out + ProcessAll(State(), Drained(packetsQueue)).1);
        sent := sent + out;
      }
      DrainNothing(State());
    }

    /** One turn of the drain loop; `out` is what the popped packet made the node send. */
    method PopPacket() returns (ghost out: seq<Send>)
      requires Valid() && AllHandled(State(), packetsQueue) && packetsQueue != []
      modifies this`packetsQueue, this`outbox, this`keys, this`chans, this`conn
      ensures Valid() && AllHandled(State(), packetsQueue)
      ensures packetsQueue == old(packetsQueue)[..|old(packetsQueue)| - 1]
      ensures outbox == old(outbox) + out
      ensures var last := old(packetsQueue)[|old(packetsQueue)| - 1];
              if QueuedIn(packetsQueue, last.pkt) then State() == old(State()) && out == []
              else (State(), out) == Process(old(State()), last.pkt, last.server)
    {
      var last := packetsQueue[|packetsQueue| - 1];
      packetsQueue := packetsQueue[..|packetsQueue| - 1];
      var skip := false;
      out := [];
      for i := 0 to |packetsQueue|
        invariant skip <==> exists j | 0 <= j < i :: packetsQueue[j].pkt == last.pkt
      {
        if packetsQueue[i].pkt == last.pkt { skip := true; }
      }
      if skip { return; }
      ghost var n := State();
      assert Handled(last.pkt) && OwnChannel(n, last.server);
      HandledDecodes(n, last);
      OwnStays(n, last);
      LayoutFaithful(last.pkt, Layout(last.pkt));
      out := Process(n, last.pkt, last.server).1;
      hide Wf;
      hide Process;
      hide Decodable;
      hide Handled;
      var packet := new Packet.Received(Layout(last.pkt));
      ProcessPacket(packet, last.server);
    }
  }
}
