/** What the invariant says about every reachable state, in the protocol's own terms. */
module MeshFacts {
  import opened Texts
  import opened Packets
  import opened NodeSpec
  import opened Mesh
  import opened MeshSafety
  import opened MeshGrowth

  /** Every topology packet in flight carries a duplicate-free path of real links from the root. A packet still
      going out was sent by the last device on it, and at its receiver the two hop counts are equal. */
  lemma TopologyPacketsSound(w: World, s: MeshState, i: nat)
    requires ValidWorld(w) && Reachable(w, s)
    requires i < |s.net| && s.net[i].pkt.contents == MESH_TOPO
    ensures var f := s.net[i];
            exists path :: GoodPath(w, path) && f.pkt.message == EncodePath(path)
              && (f.pkt.meta == SEND_TOPO ==>
                    && f.channel in w.peer && path[|path| - 1] == w.owner[f.channel]
                    && CountColons(f.pkt.message) - 1 == f.pkt.hops + 1)
  {
    ReachableInv(w, s);
    var f := s.net[i];
    hide NodeOk;
    assert FlightOk(w, f);
    hide Inv;
    var path :| TopoOk(w, f.channel, f.pkt, path);
    PathFields(w, path);
    CountEncodePath(path);
  }

  /** The tables of every node are well-formed, so what the node's methods ask of it always holds: keys match
      records, each record is under its own uuid and has a device id, and adjacency lists have no duplicates. */
  lemma TablesWellFormed(w: World, s: MeshState, d: Text)
    requires ValidWorld(w) && Reachable(w, s) && d in s.nodes
    ensures Wf(s.nodes[d])
  {
    hide FlightOk;
    hide NodeOk;
    hide WfExcept;
    ReachableInv(w, s);
    NodeIsWf(w, d, s.nodes[d], {});
  }

  ghost predicate IsWalk(w: World, walk: seq<Text>, d: Text)
    requires ValidWorld(w)
  {
    && walk != [] && walk[0] == w.root && walk[|walk| - 1] == d
    && forall i :: 0 < i < |walk| ==> Linked(w, walk[i - 1], walk[i])
  }

  ghost predicate Shortest(w: World, d: Text, k: int)
    requires ValidWorld(w)
  {
    (exists walk :: IsWalk(w, walk, d) && |walk| == k + 1) && forall walk :: IsWalk(w, walk, d) ==> |walk| >= k + 1
  }

  /** Every distance set anywhere lies between the true shortest distance and one less than the device count. */
  lemma DistancesBounded(w: World, s: MeshState, d: Text, u: Text, shortest: int)
    requires ValidWorld(w) && Reachable(w, s)
    requires d in s.nodes && u in w.owner && Shortest(w, w.owner[u], shortest)
    requires DistanceOf(s.nodes[d], u) != -1
    ensures shortest <= DistanceOf(s.nodes[d], u) < |w.devices|
  {
    hide NodeOk;
    hide FlightOk;
    hide Shortest;
    hide DistanceOf;
    hide PathLength;
    ReachableInv(w, s);
    NodeDistance(w, d, s.nodes[d], u);
    PathLengthBounds(w, w.owner[u], DistanceOf(s.nodes[d], u), shortest);
  }

  lemma NodeDistance(w: World, d: Text, n: NodeState, u: Text)
    requires ValidWorld(w) && NodeOk(w, d, n, {}) && DistanceOf(n, u) != -1
    ensures u in w.owner && PathLength(w, w.owner[u], DistanceOf(n, u))
  {
    hide PathLength;
    assert ChanOk(w, d, u, n.chans[u], u in {});
  }

  lemma PathLengthBounds(w: World, d: Text, k: int, shortest: int)
    requires ValidWorld(w) && PathLength(w, d, k) && Shortest(w, d, shortest)
    ensures shortest <= k < |w.devices|
  {
    var path :| GoodPath(w, path) && |path| == k + 1 && path[k] == d;
    PathFields(w, path);
    assert IsWalk(w, path, d);
  }

  /** Channel `u` is known under its own uuid, with the device id and protocol of its real owner. */
  ghost predicate KnownRightly(w: World, n: NodeState, u: Text) {
    && u in n.chans && n.chans[u].uuid == Some(u)
    && u in w.owner && n.chans[u].deviceId == Some(w.owner[u])
    && u in w.protocol && n.chans[u].protocol == Some(w.protocol[u])
  }

  /** Link table: every listed pair is a client channel with the server channel it really reaches, listed once,
      and both ends are known rightly. */
  lemma LinkTablesSound(w: World, s: MeshState, d: Text, c: Text)
    requires ValidWorld(w) && Reachable(w, s) && d in s.nodes && c in s.nodes[d].conn
    ensures c in w.peer && s.nodes[d].conn[c] == [w.peer[c]]
    ensures KnownRightly(w, s.nodes[d], c) && KnownRightly(w, s.nodes[d], w.peer[c])
  {
    hide NodeOk;
    hide FlightOk;
    hide KnownRightly;
    ReachableInv(w, s);
    NodeLinks(w, d, s.nodes[d], c);
  }

  lemma KnownChannel(w: World, d: Text, n: NodeState, u: Text)
    requires ValidWorld(w) && NodeOk(w, d, n, {}) && u in n.chans
    ensures KnownRightly(w, n, u)
  {
    hide PathLength;
    assert ChanOk(w, d, u, n.chans[u], u in {});
  }

  lemma NodeLinks(w: World, d: Text, n: NodeState, c: Text)
    requires ValidWorld(w) && NodeOk(w, d, n, {}) && c in n.conn
    ensures c in w.peer && n.conn[c] == [w.peer[c]]
    ensures KnownRightly(w, n, c) && KnownRightly(w, n, w.peer[c])
  {
    hide ChansOk;
    KnownChannel(w, d, n, c);
    KnownChannel(w, d, n, w.peer[c]);
  }

  // ---- Agreement over runs ----

  ghost predicate AllAgree(s: MeshState) {
    forall d :: d in s.nodes ==> Agree(s.nodes[d])
  }

  lemma StepAgrees(w: World, s: MeshState, e: Event)
    requires Enabled(w, s, e) && AllAgree(s)
    ensures AllAgree(Apply(w, s, e))
  {
    hide Agree;
    hide Process;
    match e
    case Deliver(i) =>
      var d := DestOf(w, s.net[i].channel);
      ProcessAgrees(s.nodes[d], s.net[i].pkt, w.peer[s.net[i].channel]);
    case Open(c) =>
      var d := w.owner[c];
      PutAgrees(s.nodes[d], c, Chan(Some(c), Some(s.nodes[d].id), Some(w.protocol[c]), Some(-1), true, Client));
    case _ =>
  }

  lemma InitAgrees(w: World, s: MeshState)
    requires ValidWorld(w) && Init(w, s)
    ensures AllAgree(s)
  {
    forall d | d in s.nodes ensures Agree(s.nodes[d]) {
      assert InitNode(w, d, s.nodes[d]);
      assert Tabled(s.nodes[d].chans, map[]);
    }
  }

  lemma ReachableAgrees(w: World, s: MeshState)
    requires ValidWorld(w) && Reachable(w, s)
    ensures AllAgree(s)
  {
    hide AllAgree;
    hide Init;
    hide Apply;
    hide Enabled;
    var states := iset t | AllAgree(t);
    forall t | Init(w, t) ensures AllAgree(t) { InitAgrees(w, t); }
    forall t, e | AllAgree(t) && Enabled(w, t, e) ensures AllAgree(Apply(w, t, e)) { StepAgrees(w, t, e); }
    assert Closed(w, states);
  }

  /** Two channels of one device that both have a distance have the same one. */
  lemma DistancesAgree(w: World, s: MeshState, d: Text, u: Text, v: Text)
    requires ValidWorld(w) && Reachable(w, s)
    requires d in s.nodes && u in w.owner && v in w.owner && w.owner[u] == w.owner[v]
    requires DistanceOf(s.nodes[d], u) != -1 && DistanceOf(s.nodes[d], v) != -1
    ensures DistanceOf(s.nodes[d], u) == DistanceOf(s.nodes[d], v)
  {
    hide NodeOk;
    hide FlightOk;
    hide Agree;
    ReachableInv(w, s);
    ReachableAgrees(w, s);
    var n := s.nodes[d];
    KnownChannel(w, d, n, u);
    KnownChannel(w, d, n, v);
    AgreeMeans(n, u, v);
  }

  /** A discovered channel keeps its device id for ever. */
  lemma {:induction false} DeviceIdsStay(w: World, s: MeshState, es: seq<Event>, d: Text, u: Text)
    requires ValidWorld(w) && Runs(w, s, es) && d in s.nodes && u in s.nodes[d].chans
    requires s.nodes[d].chans[u].deviceId.Some?
    ensures d in After(w, s, es).nodes && u in After(w, s, es).nodes[d].chans
    ensures After(w, s, es).nodes[d].chans[u].deviceId == s.nodes[d].chans[u].deviceId
    decreases |es|
  {
    if es != [] {
      if es[0].Deliver? {
        var f := s.net[es[0].i];
        ProcessGrows(s.nodes[DestOf(w, f.channel)], f.pkt, w.peer[f.channel]);
      }
      DeviceIdsStay(w, Apply(w, s, es[0]), es[1..], d, u);
    }
  }

  // ---- Handshake packets ----

  function TriplesIn(meta: int): nat {
    if meta == SEND_PING then 1 else if meta == SEND_PONG then 3 else 4
  }

  /** Typestate: a ping carries one triple, a pong three, a packet on its way to the root four; so the device
      that receives one never reads past its parts. */
  lemma HandshakeTypestate(w: World, s: MeshState, i: nat)
    requires ValidWorld(w) && Reachable(w, s)
    requires i < |s.net| && s.net[i].pkt.contents == PING_PONG
    ensures var f := s.net[i];
            && f.pkt.meta in {SEND_PING, SEND_PONG, PING_PONG_ROOT}
            && |Split(f.pkt.message)| == 2 + 3 * TriplesIn(f.pkt.meta)
            && InFlight(w, s, i)
            && Decodable(s.nodes[DestOf(w, f.channel)], f.pkt, w.peer[f.channel])
  {
    hide Decodable;
    hide NodeOk;
    hide Reachable;
    hide Parties;
    ReachableInv(w, s);
    var f := s.net[i];
    assert FlightOk(w, f);
    ProcessKeeps(w, DestOf(w, f.channel), s.nodes[DestOf(w, f.channel)], f);
    hide Inv;
    var flags, a, b :| PingOk(w, f.channel, f.pkt, flags, a, b);
    PartyCount(w, f.channel, f.pkt.meta, a, b, flags);
  }

  lemma PartyCount(w: World, c: Text, meta: int, a: Text, b: Text, flags: Text)
    requires ValidWorld(w) && c in w.peer && a in w.peer && b in w.peer && IsFlags(flags)
    ensures |Split(Encode(flags, FieldsOf(Parties(w, c, meta, a, b))))| == 2 + 3 * TriplesIn(meta)
  {
    PartiesBytes(w, c, meta, a, b, flags);
    FlagsAreText(flags);
    SplitEncode(flags, FieldsOf(Parties(w, c, meta, a, b)));
    FieldCount(Parties(w, c, meta, a, b));
  }

  lemma {:induction false} FieldCount(ts: seq<Triple>)
    ensures |FieldsOf(ts)| == 3 * |ts|
  {
    if ts != [] {
      FieldCount(ts[..|ts| - 1]);
    }
  }

  /** Every cell of every packet in flight fits one byte, so `encode_send` never fails, hop counter included. */
  lemma PacketsAreBytes(w: World, s: MeshState, i: nat)
    requires ValidWorld(w) && Reachable(w, s) && i < |s.net|
    ensures IsBytes(Layout(s.net[i].pkt))
  {
    hide NodeOk;
    hide FlightOk;
    ReachableInv(w, s);
    FlightBytes(w, s.net[i]);
  }

  /** Every packet in flight carries the length of its whole list, so a receiver that checks it finds one packet. */
  lemma SizesTrue(w: World, s: MeshState, i: nat)
    requires ValidWorld(w) && Reachable(w, s) && i < |s.net|
    ensures s.net[i].pkt.size == |Layout(s.net[i].pkt)| % 0x1_0000 && StampedTrue(Layout(s.net[i].pkt))
  {
    hide NodeOk;
    hide FlightOk;
    ReachableInv(w, s);
    FlightStamped(w, s.net[i]);
    StampIsLength(s.net[i].pkt);
  }

  lemma FlightStamped(w: World, f: Send)
    requires ValidWorld(w) && FlightOk(w, f)
    ensures f.pkt == Normalized(f.pkt)
  {
  }

  lemma FlightBytes(w: World, f: Send)
    requires ValidWorld(w) && FlightOk(w, f)
    ensures IsBytes(Layout(f.pkt))
  {
    hide GoodPath;
    hide ValidWorld;
    hide Encode;
    hide Parties;
    var p := f.pkt;
    assert 0 <= p.forwarding < 256 && 0 <= p.meta < 256 && p.priority == PRIORITY_MEDIUM by {
      if p.contents == MESH_TOPO {
        var path :| TopoOk(w, f.channel, p, path);
      } else {
        var flags, a, b :| PingOk(w, f.channel, p, flags, a, b);
      }
    }
    assert 0 <= p.size < 0x1_0000;
    var cells := [p.forwarding, p.priority, p.contents, p.meta, p.size % 256, p.size / 256, p.hops];
    assert IsBytes(cells);
    assert Layout(p) == cells + p.message;
  }
}
