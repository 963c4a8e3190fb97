/** What the root learns from pings: it comes to know a link exactly if one of its ends is within the hop limit. */
module MeshLearning {
  import opened Texts
  import opened Packets
  import opened NodeSpec
  import opened Mesh
  import opened MeshSafety
  import opened MeshGrowth
  import opened MeshSteps
  import opened MeshHandshake
  import opened MeshFlood
  import opened MeshTree
  import opened MeshWays
  import opened MeshReturns
  import MeshQuiet

  /** A handshake on its way to the root. */
  ghost predicate IsRootPong(p: Pkt) {
    p.contents == PING_PONG && p.meta == PING_PONG_ROOT
  }

  /** What device `d` returns has d's depth and two hops more when the root has it, and that is within the limit. */
  predicate WithinReach(depth: map<Text, nat>, d: Text) {
    d in depth && depth[d] + 2 <= PING_HOP_LIMIT
  }

  /** One end of client channel `c` is within reach. */
  ghost predicate Near(w: World, depth: map<Text, nat>, c: Text)
    requires ValidWorld(w)
  {
    c in w.peer && (WithinReach(depth, w.owner[c]) || WithinReach(depth, DestOf(w, c)))
  }

  // ---- No link out of reach is ever known ----

  /** A handshake on its way to the root has counted ping and pong, and the way up from the device that pinged. */
  ghost predicate PongFits(w: World, depth: map<Text, nat>, f: Send)
    requires ValidWorld(w)
  {
    IsRootPong(f.pkt) ==>
      f.channel in w.peer && DestOf(w, f.channel) in depth && exists flags, a, b ::
        && PingOk(w, f.channel, f.pkt, flags, a, b) && w.owner[a] in depth
        && f.pkt.hops + depth[DestOf(w, f.channel)] == depth[w.owner[a]] + 1
  }

  ghost predicate AllPongsFit(w: World, depth: map<Text, nat>, s: MeshState)
    requires ValidWorld(w)
  {
    forall f :: f in s.net ==> PongFits(w, depth, f)
  }

  ghost predicate RootNear(w: World, depth: map<Text, nat>, s: MeshState)
    requires ValidWorld(w)
  {
    w.root in s.nodes && forall c :: c in s.nodes[w.root].conn ==> Near(w, depth, c)
  }

  lemma PongFitsOn(w: World, depth: map<Text, nat>, f: Send, flags: Text, a: Text, b: Text)
    requires ValidWorld(w) && f.channel in w.peer && DestOf(w, f.channel) in depth
    requires PingOk(w, f.channel, f.pkt, flags, a, b) && w.owner[a] in depth
    requires f.pkt.hops + depth[DestOf(w, f.channel)] == depth[w.owner[a]] + 1
    ensures PongFits(w, depth, f)
  {
  }

  lemma PongParties(w: World, depth: map<Text, nat>, f: Send) returns (flags: Text, a: Text, b: Text)
    requires ValidWorld(w) && IsRootPong(f.pkt) && PongFits(w, depth, f)
    ensures f.channel in w.peer && DestOf(w, f.channel) in depth
    ensures PingOk(w, f.channel, f.pkt, flags, a, b) && a in w.peer && b in w.peer && w.owner[a] in depth
    ensures f.pkt.hops + depth[DestOf(w, f.channel)] == depth[w.owner[a]] + 1 && DestOf(w, b) == w.owner[a]
  {
    flags, a, b :| PingOk(w, f.channel, f.pkt, flags, a, b) && w.owner[a] in depth
                   && f.pkt.hops + depth[DestOf(w, f.channel)] == depth[w.owner[a]] + 1;
  }

  lemma OtherFits(w: World, depth: map<Text, nat>, f: Send)
    requires ValidWorld(w) && !IsRootPong(f.pkt)
    ensures PongFits(w, depth, f)
  {
  }

  /** What processing a complete handshake sends on: at most one packet, if it is flagged, to the root. */
  lemma CompletedSends(n: NodeState, q: Pkt, data: PingData, g: Send)
    requires DecodePing(q.message) == Some(data) && g in ProcessPing(n, q).1
    ensures ReturnsToRoot(LearnAll(n, data), data) && g in Route(LearnAll(n, data), RootPong(q))
  {
    hide LearnAll;
    hide Route;
    hide ReturnsToRoot;
    hide DecodePing;
  }

  /** The device that gets a pong sends the handshake up if it has pinged itself. */
  lemma NewPongFits(w: World, parent: map<Text, Text>, depth: map<Text, nat>, d: Text, n: NodeState, f: Send, g: Send,
        flags: Text, a: Text, b: Text)
    requires ValidWorld(w) && TreeWorld(w, parent, depth) && NodeOk(w, d, n, {}) && f.channel in w.peer
    requires DestOf(w, f.channel) == d && IsPong(f.pkt) && PingOk(w, f.channel, f.pkt, flags, a, b)
    requires g in Process(n, f.pkt, w.peer[f.channel]).1
    ensures PongFits(w, depth, g)
  {
    hide NodeOk;
    var p, server := f.pkt.(hops := f.pkt.hops + 1), w.peer[f.channel];
    var q, data := RecvPong(n, p, server), PartiesData(w, flags, a, f.channel);
    RecvPongText(w, d, n, f.channel, p, flags, a);
    DecodeParties(w, flags, a, f.channel);
    LearnAllKeeps(w, d, n, flags, a, f.channel);
    FlagDecides(flags);
    assert g in ProcessPing(n, q).1 by {
      hide ProcessPing;
      hide RecvPong;
    }
    hide Process;
    CompletedSends(n, q, data, g);
    hide ProcessPing;
    hide LearnAll;
    hide TreeWorld;
    hide Route;
    UpGoesToParent(w, parent, depth, d, LearnAll(n, data), RootPong(q), g);
    hide ValidWorld;
    hide Encode;
    assert PingOk(w, g.channel, g.pkt, flags, a, f.channel);
    PongFitsOn(w, depth, g, flags, a, f.channel);
  }

  /** A handshake for the root is the same one hop further and over another channel. */
  lemma PongHops(w: World, c: Text, p: Pkt, next: Text, flags: Text, a: Text, b: Text)
    requires ValidWorld(w) && c in w.peer && next in w.peer && PingOk(w, c, p, flags, a, b) && IsRootPong(p)
    requires p.hops + 1 <= PING_HOP_LIMIT
    ensures PingOk(w, next, Normalized(p.(hops := p.hops + 1)), flags, a, b) && p.forwarding == TO_ROOT
  {
    hide ValidWorld;
    hide Encode;
  }

  /** A relayed handshake is one hop further and one device closer; the root sends nothing on. */
  lemma RelayedPongFits(w: World, parent: map<Text, Text>, depth: map<Text, nat>, d: Text, n: NodeState, f: Send,
        g: Send)
    requires ValidWorld(w) && TreeWorld(w, parent, depth) && NodeOk(w, d, n, {}) && f.channel in w.peer
    requires DestOf(w, f.channel) == d && IsRootPong(f.pkt) && PongFits(w, depth, f)
    requires g in Process(n, f.pkt, w.peer[f.channel]).1
    ensures PongFits(w, depth, g)
  {
    hide NodeOk;
    hide TreeWorld;
    hide Route;
    hide Process;
    hide PingOk;
    hide PongFits;
    var flags, a, b := PongParties(w, depth, f);
    RootPongOut(n, f.pkt, w.peer[f.channel], g);
    PongHops(w, f.channel, f.pkt, f.channel, flags, a, b);
    UpGoesToParent(w, parent, depth, d, n, f.pkt.(hops := f.pkt.hops + 1), g);
    PongHops(w, f.channel, f.pkt, g.channel, flags, a, b);
    PongFitsOn(w, depth, g, flags, a, b);
  }

  lemma RootPongOut(n: NodeState, p0: Pkt, server: Text, g: Send)
    requires IsRootPong(p0) && g in Process(n, p0, server).1
    ensures g in Route(n, p0.(hops := p0.hops + 1)) && p0.hops + 1 <= PING_HOP_LIMIT
  {
    var p := p0.(hops := p0.hops + 1);
    forall data: PingData ensures LearnAll(n, data).isRoot == n.isRoot { LearnAllGrows(n, data); }
    hide LearnAll;
    hide Route;
    hide DecodePing;
  }

  lemma PingOutputsPong(n: NodeState, p: Pkt, server: Text, g: Send)
    requires IsPing(p) && g in Process(n, p, server).1
    ensures IsPong(g.pkt)
  {
    hide Clients;
    hide OwnTriple;
    var q := p.(hops := p.hops + 1);
    PongedShape(n, q, server);
    hide Ponged;
  }

  lemma AddedPongFits(w: World, parent: map<Text, Text>, depth: map<Text, nat>, s: MeshState, e: Event, g: Send)
    requires ValidWorld(w) && TreeWorld(w, parent, depth) && Inv(w, s) && AllPongsFit(w, depth, s) && Enabled(w, s, e)
    requires g in Added(w, s, e)
    ensures PongFits(w, depth, g)
  {
    hide NodeOk;
    hide TreeWorld;
    hide PongFits;
    hide Process;
    hide Encode;
    hide GoodPath;
    if e.Deliver? {
      var f := s.net[e.i];
      var d := DestOf(w, f.channel);
      assert FlightOk(w, f) && f in s.net;
      if f.pkt.contents == MESH_TOPO {
        MeshQuiet.TopoMakesTopo(s.nodes[d], f.pkt, w.peer[f.channel], g);
        OtherFits(w, depth, g);
      } else {
        var flags, a, b :| PingOk(w, f.channel, f.pkt, flags, a, b);
        if IsPing(f.pkt) {
          PingOutputsPong(s.nodes[d], f.pkt, w.peer[f.channel], g);
          OtherFits(w, depth, g);
        } else if IsPong(f.pkt) {
          NewPongFits(w, parent, depth, d, s.nodes[d], f, g, flags, a, b);
        } else {
          RelayedPongFits(w, parent, depth, d, s.nodes[d], f, g);
        }
      }
    } else {
      assert !IsRootPong(g.pkt) by {
        if e.Flood? { AllSame(Clients(s.nodes[w.root]), TopoPkt(EncodePath([s.nodes[w.root].id]))); }
      }
      OtherFits(w, depth, g);
    }
  }

  // ---- The root's table ----

  lemma {:induction false} DistancesKeepLinks(n: NodeState, devices: seq<Text>, first: nat)
    ensures SetDistances(n, devices, first).conn == n.conn
    decreases |devices|
  {
    if devices != [] {
      DistancesKeepLinks(SetDistance(n, devices[0], first), devices[1..], first + 1);
    }
  }

  lemma TopoKeepsLinks(n: NodeState, p: Pkt, server: Text)
    requires p.contents == MESH_TOPO
    ensures Process(n, p, server).0.conn == n.conn
  {
    forall devices ensures SetDistances(n, devices, 0).conn == n.conn { DistancesKeepLinks(n, devices, 0); }
    hide SetDistances;
    hide Carries;
    hide Route;
    hide Clients;
  }

  /** What a handshake packet adds to the links: nothing, or the two channels of a complete handshake. */
  lemma PingLinks(w: World, d: Text, n: NodeState, f: Send, flags: Text, a: Text, b: Text)
    requires ValidWorld(w) && NodeOk(w, d, n, {}) && f.channel in w.peer && DestOf(w, f.channel) == d
    requires f.pkt.contents == PING_PONG && PingOk(w, f.channel, f.pkt, flags, a, b)
    ensures var m := Process(n, f.pkt, w.peer[f.channel]).0;
            && (IsPing(f.pkt) ==> m.conn == n.conn)
            && (IsPong(f.pkt) ==> m.conn.Keys == n.conn.Keys + {a, f.channel})
            && (IsRootPong(f.pkt) ==>
                  m.conn.Keys == if n.isRoot && f.pkt.hops + 1 <= PING_HOP_LIMIT then n.conn.Keys + {a, b}
                                 else n.conn.Keys)
  {
    hide NodeOk;
    hide Route;
    hide LearnAll;
    hide DecodePing;
    hide ReturnsToRoot;
    hide PongsOver;
    hide ValidWorld;
    var p, server := f.pkt.(hops := f.pkt.hops + 1), w.peer[f.channel];
    if IsPong(f.pkt) {
      RecvPongText(w, d, n, f.channel, p, flags, a);
      DecodeParties(w, flags, a, f.channel);
      LearnAllLinks(n, PartiesData(w, flags, a, f.channel));
    } else if IsRootPong(f.pkt) {
      DecodeParties(w, flags, a, b);
      LearnAllLinks(n, PartiesData(w, flags, a, b));
    }
  }

  /** The devices that have a channel to the root are its children. */
  lemma AtTheRoot(w: World, parent: map<Text, Text>, depth: map<Text, nat>, c: Text)
    requires ValidWorld(w) && TreeWorld(w, parent, depth) && c in w.peer && DestOf(w, c) == w.root
    ensures Near(w, depth, c) && WithinReach(depth, w.owner[c])
  {
    assert Joined(parent, w.owner[c], DestOf(w, c));
  }

  lemma RootDepth(w: World, parent: map<Text, Text>, depth: map<Text, nat>)
    requires ValidWorld(w) && TreeWorld(w, parent, depth)
    ensures w.root in depth && depth[w.root] == 0
  {
  }

  lemma RootDeliveryNear(w: World, parent: map<Text, Text>, depth: map<Text, nat>, n: NodeState, f: Send, c: Text)
    requires ValidWorld(w) && TreeWorld(w, parent, depth) && NodeOk(w, w.root, n, {}) && FlightOk(w, f)
    requires DestOf(w, f.channel) == w.root && PongFits(w, depth, f)
    requires c in Process(n, f.pkt, w.peer[f.channel]).0.conn && c !in n.conn
    ensures Near(w, depth, c)
  {
    hide NodeOk;
    hide Process;
    hide TreeWorld;
    hide Encode;
    hide GoodPath;
    hide Parties;
    hide PongFits;
    if f.pkt.contents == MESH_TOPO {
      TopoKeepsLinks(n, f.pkt, w.peer[f.channel]);
    } else if IsRootPong(f.pkt) {
      var flags, a, b := PongParties(w, depth, f);
      PingLinks(w, w.root, n, f, flags, a, b);
      assert depth[w.root] == 0 by { RootDepth(w, parent, depth); }
    } else {
      var flags, a, b :| PingOk(w, f.channel, f.pkt, flags, a, b);
      PingLinks(w, w.root, n, f, flags, a, b);
      AtTheRoot(w, parent, depth, f.channel);
    }
  }

  lemma StepKeepsNear(w: World, parent: map<Text, Text>, depth: map<Text, nat>, s: MeshState, e: Event)
    requires ValidWorld(w) && TreeWorld(w, parent, depth) && Inv(w, s) && Enabled(w, s, e)
    requires RootNear(w, depth, s) && AllPongsFit(w, depth, s)
    ensures RootNear(w, depth, Apply(w, s, e))
  {
    hide NodeOk;
    hide Process;
    hide FlightOk;
    hide Near;
    hide PongFits;
    hide TreeWorld;
    if e.Deliver? && DestOf(w, s.net[e.i].channel) == w.root {
      var n, f := s.nodes[w.root], s.net[e.i];
      assert FlightOk(w, f) && f in s.net;
      forall c | c in Process(n, f.pkt, w.peer[f.channel]).0.conn ensures Near(w, depth, c) {
        if c !in n.conn { RootDeliveryNear(w, parent, depth, n, f, c); }
      }
    }
  }

  lemma StepKeepsPongs(w: World, parent: map<Text, Text>, depth: map<Text, nat>, s: MeshState, e: Event)
    requires ValidWorld(w) && TreeWorld(w, parent, depth) && Inv(w, s) && Enabled(w, s, e) && AllPongsFit(w, depth, s)
    ensures AllPongsFit(w, depth, Apply(w, s, e))
  {
    hide Inv;
    hide PongFits;
    hide Apply;
    hide TreeWorld;
    hide Enabled;
    forall f | f in Apply(w, s, e).net ensures PongFits(w, depth, f) {
      NetAfter(w, s, e, f);
      if f !in s.net { AddedPongFits(w, parent, depth, s, e, f); }
    }
  }

  lemma InitNear(w: World, depth: map<Text, nat>, s: MeshState)
    requires ValidWorld(w) && Init(w, s)
    ensures RootNear(w, depth, s) && AllPongsFit(w, depth, s)
  {
  }

  /** Whatever happens, the root only ever knows links of which one end is within reach. */
  lemma RootKnowsNear(w: World, parent: map<Text, Text>, depth: map<Text, nat>, s: MeshState)
    requires ValidWorld(w) && TreeWorld(w, parent, depth) && Reachable(w, s)
    ensures RootNear(w, depth, s)
  {
    hide Inv;
    hide RootNear;
    hide AllPongsFit;
    hide Apply;
    hide Enabled;
    hide TreeWorld;
    var states := iset t | Inv(w, t) && RootNear(w, depth, t) && AllPongsFit(w, depth, t);
    forall t | Init(w, t) ensures t in states {
      InitInv(w, t);
      InitNear(w, depth, t);
    }
    hide Init;
    forall t, e | t in states && Enabled(w, t, e) ensures Apply(w, t, e) in states {
      StepKeeps(w, t, e);
      StepKeepsNear(w, parent, depth, t, e);
      StepKeepsPongs(w, parent, depth, t, e);
    }
    assert Closed(w, states);
    assert s in states;
  }

  // ---- A flagged ping reaches the root ----

  /** Client channels that lead to each other's device. */
  ghost predicate Facing(w: World, c: Text, e: Text)
    requires ValidWorld(w)
  {
    c in w.peer && e in w.peer && DestOf(w, c) == w.owner[e] && DestOf(w, e) == w.owner[c]
  }

  ghost predicate FlaggedPing(w: World, f: Send, c: Text)
    requires ValidWorld(w) && c in w.peer
  {
    f.channel == c && IsPing(f.pkt) && PingOk(w, c, f.pkt, RETURN_FLAGS, c, c)
  }

  /** The answer, over `e`, to a flagged ping over `c`. */
  ghost predicate FlaggedPong(w: World, f: Send, c: Text, e: Text)
    requires ValidWorld(w) && c in w.peer && e in w.peer
  {
    f.channel == e && IsPong(f.pkt) && PingOk(w, e, f.pkt, RETURN_FLAGS, c, c)
  }

  /** The handshake over `c` and back over `e`, for the root. */
  ghost predicate TellsOf(w: World, p: Pkt, c: Text, e: Text)
    requires ValidWorld(w) && c in w.peer && e in w.peer
  {
    IsRootPong(p) && p.message == Encode(RETURN_FLAGS, FieldsOf(Parties(w, c, PING_PONG_ROOT, c, e)))
  }

  ghost predicate RootKnows(w: World, s: MeshState, c: Text, e: Text) {
    w.root in s.nodes && c in s.nodes[w.root].conn && e in s.nodes[w.root].conn
  }

  ghost predicate Rising(w: World, parent: map<Text, Text>, depth: map<Text, nat>, s: MeshState, c: Text, e: Text)
    requires ValidWorld(w) && c in w.peer && e in w.peer
  {
    exists p, to :: TellsOf(w, p, c, e) && Climbing(w, parent, depth, s, p, to)
  }

  /** How far the handshake over `c` and back over `e` has come on its way to the root. */
  ghost predicate Learning(w: World, parent: map<Text, Text>, depth: map<Text, nat>, s: MeshState, c: Text, e: Text)
    requires ValidWorld(w) && c in w.peer && e in w.peer
  {
    || (exists f :: f in s.net && FlaggedPing(w, f, c))
    || (exists f :: f in s.net && FlaggedPong(w, f, c, e))
    || Rising(w, parent, depth, s, c, e)
    || RootKnows(w, s, c, e)
  }

  lemma FlaggedSent(w: World, s: MeshState, e: Event, c: Text)
    requires ValidWorld(w) && Inv(w, s) && Enabled(w, s, e) && e.Ping? && e.returnToRoot
    requires c in Clients(s.nodes[e.device])
    ensures c in w.peer && exists f :: f in Apply(w, s, e).net && FlaggedPing(w, f, c)
  {
    hide NodeOk;
    hide FlightOk;
    hide Apply;
    var n := s.nodes[e.device];
    ClientsOwned(w, e.device, n, c);
    hide Clients;
    hide OwnTriple;
    var k :| 0 <= k < |Clients(n)| && Clients(n)[k] == c;
    var f := Added(w, s, e)[k];
    assert f == Send(c, Normalized(PingPkt(RETURN_FLAGS, TripleOf(w, c))));
    FlaggedPingOk(w, c);
    AddedArrives(w, s, e, k);
  }

  lemma FlaggedPingOk(w: World, c: Text)
    requires ValidWorld(w) && c in w.peer
    ensures FlaggedPing(w, Send(c, Normalized(PingPkt(RETURN_FLAGS, TripleOf(w, c)))), c)
  {
    EncodeTriples(RETURN_FLAGS, [], TripleOf(w, c));
    assert [] + [TripleOf(w, c)] == [TripleOf(w, c)];
  }

  lemma FlaggedAnswered(w: World, s: MeshState, i: nat, c: Text, e: Text)
    requires ValidWorld(w) && Inv(w, s) && InFlight(w, s, i) && c in w.peer && FlaggedPing(w, s.net[i], c)
    requires e in w.peer && DestOf(w, c) in s.nodes && e in Clients(s.nodes[DestOf(w, c)])
    ensures exists f :: f in Apply(w, s, Deliver(i)).net && FlaggedPong(w, f, c, e)
  {
    hide NodeOk;
    hide FlightOk;
    hide Clients;
    hide Apply;
    hide PingOk;
    var v := DestOf(w, c);
    var g := PongOver(w, s.nodes[v], s.net[i], e);
    assert g.channel == e;
    hide PongOver;
    PongSent(w, s, i, e);
    PongIsOk(w, v, s.nodes[v], s.net[i], e, RETURN_FLAGS, c, c);
    assert FlaggedPong(w, g, c, e);
  }

  /** The pong is processed as the complete handshake. */
  lemma PongCompletes(w: World, d: Text, n: NodeState, f: Send, c: Text)
    requires ValidWorld(w) && NodeOk(w, d, n, {}) && f.channel in w.peer && DestOf(w, f.channel) == d && c in w.peer
    requires IsPong(f.pkt) && PingOk(w, f.channel, f.pkt, RETURN_FLAGS, c, c)
    ensures var q := RecvPong(n, f.pkt.(hops := 2), w.peer[f.channel]);
            && Process(n, f.pkt, w.peer[f.channel]) == ProcessPing(n, q)
            && q.message == Encode(RETURN_FLAGS, FieldsOf(Parties(w, c, PING_PONG_ROOT, c, f.channel)))
            && DecodePing(q.message) == Some(PartiesData(w, RETURN_FLAGS, c, f.channel))
  {
    hide NodeOk;
    RecvPongText(w, d, n, f.channel, f.pkt.(hops := 2), RETURN_FLAGS, c);
    DecodeParties(w, RETURN_FLAGS, c, f.channel);
    hide RecvPong;
    hide ProcessPing;
  }

  lemma FlaggedReturns(w: World, n: NodeState, c: Text, e: Text)
    requires ValidWorld(w) && Facing(w, c, e)
    ensures var data := PartiesData(w, RETURN_FLAGS, c, e); ReturnsToRoot(n, data) <==> !n.isRoot
  {
    FlagDecides(RETURN_FLAGS);
  }

  lemma RisenShape(n: NodeState, p: Pkt, server: Text)
    ensures var q := RecvPong(n, p, server); var r := RootPong(q);
            && r.message == q.message && r.contents == p.contents && r.meta == PING_PONG_ROOT && r.hops == p.hops
            && r.forwarding == TO_ROOT && Normalized(r) == r
  {
  }

  lemma Completed(n: NodeState, q: Pkt, data: PingData)
    requires DecodePing(q.message) == Some(data) && (ReturnsToRoot(LearnAll(n, data), data) <==> !n.isRoot)
    ensures ProcessPing(n, q) == (LearnAll(n, data), if n.isRoot then [] else Route(LearnAll(n, data), RootPong(q)))
  {
    hide LearnAll;
    hide Route;
    hide ReturnsToRoot;
    hide DecodePing;
  }

  /** A device that gets the answer to its own ping learns both links and, unless it is the root, sends them up. */
  lemma PongGoesUp(w: World, d: Text, n: NodeState, f: Send, c: Text)
    requires ValidWorld(w) && NodeOk(w, d, n, {}) && f.channel in w.peer && DestOf(w, f.channel) == d && c in w.peer
    requires FlaggedPong(w, f, c, f.channel) && Facing(w, c, f.channel)
    ensures var m := LearnAll(n, PartiesData(w, RETURN_FLAGS, c, f.channel));
            var r := RootPong(RecvPong(n, f.pkt.(hops := 2), w.peer[f.channel]));
            && Process(n, f.pkt, w.peer[f.channel]) == (m, if n.isRoot then [] else Route(m, r))
            && TellsOf(w, r, c, f.channel) && Normalized(r) == r && r.hops == 2 && r.forwarding == TO_ROOT
  {
    hide NodeOk;
    hide Process;
    hide LearnAll;
    hide DecodePing;
    hide ReturnsToRoot;
    hide ProcessPing;
    hide RecvPong;
    hide RootPong;
    hide Route;
    hide ValidWorld;
    hide Encode;
    hide PingOk;
    hide PartiesData;
    var data := PartiesData(w, RETURN_FLAGS, c, f.channel);
    assert LearnAll(n, data).isRoot == n.isRoot by { LearnAllGrows(n, data); }
    PongCompletes(w, d, n, f, c);
    FlaggedReturns(w, LearnAll(n, data), c, f.channel);
    RisenShape(n, f.pkt.(hops := 2), w.peer[f.channel]);
    Completed(n, RecvPong(n, f.pkt.(hops := 2), w.peer[f.channel]), data);
  }

  lemma BelowRoot(w: World, parent: map<Text, Text>, depth: map<Text, nat>, d: Text, n: NodeState)
    requires ValidWorld(w) && TreeWorld(w, parent, depth) && NodeOk(w, d, n, {}) && d in parent
    ensures !n.isRoot
  {
    RootHasNoParent(w, parent, depth);
  }

  /** The device that pinged sends the handshake up to its parent. */
  lemma PongRises(w: World, parent: map<Text, Text>, depth: map<Text, nat>, d: Text, n: NodeState, f: Send, c: Text)
    returns (g: Send)
    requires ValidWorld(w) && TreeWorld(w, parent, depth) && NodeOk(w, d, n, {}) && f.channel in w.peer
    requires DestOf(w, f.channel) == d && c in w.peer && FlaggedPong(w, f, c, f.channel) && Facing(w, c, f.channel)
    requires d in parent && KnowsWay(Process(n, f.pkt, w.peer[f.channel]).0)
    ensures g in Process(n, f.pkt, w.peer[f.channel]).1 && ArrivesAt(w, g, parent[d])
    ensures TellsOf(w, g.pkt, c, f.channel) && g.pkt.hops == 2
  {
    hide NodeOk;
    hide PingOk;
    hide PartiesData;
    hide TreeWorld;
    hide Process;
    hide LearnAll;
    hide Route;
    hide ValidWorld;
    hide KnowsWay;
    hide RootPong;
    hide RecvPong;
    hide TellsOf;
    hide FlaggedPong;
    hide Facing;
    var m := LearnAll(n, PartiesData(w, RETURN_FLAGS, c, f.channel));
    var q := RecvPong(n, f.pkt.(hops := 2), w.peer[f.channel]);
    BelowRoot(w, parent, depth, d, n);
    LearnAllKeeps(w, d, n, RETURN_FLAGS, c, f.channel);
    PongGoesUp(w, d, n, f, c);
    var up := WayOut(w, parent, depth, d, m, RootPong(q));
    g := Send(up, RootPong(q));
  }

  lemma KnowledgeStays(w: World, s: MeshState, e: Event, c: Text, e': Text)
    requires Enabled(w, s, e) && RootKnows(w, s, c, e')
    ensures RootKnows(w, Apply(w, s, e), c, e')
  {
    hide Apply;
    LinkStays(w, s, e, w.root, c);
    LinkStays(w, s, e, w.root, e');
  }

  /** The pong is delivered: the root has the links, or they are on their way to it. */
  lemma PongDelivered(w: World, parent: map<Text, Text>, depth: map<Text, nat>, s: MeshState, i: nat, c: Text, e: Text)
    requires ValidWorld(w) && TreeWorld(w, parent, depth) && Inv(w, s) && EveryWay(parent, s) && InFlight(w, s, i)
    requires Facing(w, c, e) && FlaggedPong(w, s.net[i], c, e) && WithinReach(depth, w.owner[c])
    ensures RootKnows(w, Apply(w, s, Deliver(i)), c, e) || Rising(w, parent, depth, Apply(w, s, Deliver(i)), c, e)
  {
    var u, n, f, t := w.owner[c], s.nodes[w.owner[c]], s.net[i], Apply(w, s, Deliver(i));
    assert NodeOk(w, u, n, {});
    assert t.nodes[u] == Process(n, f.pkt, w.peer[e]).0;
    if u == w.root {
      PingLinks(w, u, n, f, RETURN_FLAGS, c, c);
    } else {
      AllWaysStay(w, parent, depth, s, Deliver(i));
      assert u in parent && KnowsWay(t.nodes[u]) by { TreeDevices(w, parent, depth, s); }
      hide Inv;
      hide Process;
      hide Apply;
      hide TreeWorld;
      hide ValidWorld;
      hide FlaggedPong;
      hide TellsOf;
      hide Climbing;
      var g := PongRises(w, parent, depth, u, n, f, c);
      TreeAbove(w, parent, depth, u);
      RisesFrom(w, parent, depth, s, i, g, parent[u]);
      TellsAreRelayed(w, g.pkt, c, e);
      ClimbStarts(w, parent, depth, t, g.pkt, parent[u]);
    }
  }

  lemma TellsAreRelayed(w: World, p: Pkt, c: Text, e: Text)
    requires ValidWorld(w) && c in w.peer && e in w.peer && TellsOf(w, p, c, e)
    ensures IsRelayed(p) && HopLimit(p) == PING_HOP_LIMIT && IsRootPong(p)
    ensures TellsOf(w, Hopped(p), c, e)
  {
  }

  lemma RisesFrom(w: World, parent: map<Text, Text>, depth: map<Text, nat>, s: MeshState, i: nat, g: Send, to: Text)
    requires InFlight(w, s, i) && g in Delivered(w, s, i).1 && ArrivesAt(w, g, to)
    ensures Carrying(w, Apply(w, s, Deliver(i)), to, g.pkt)
  {
    hide Process;
    var more := Added(w, s, Deliver(i));
    var k :| 0 <= k < |more| && more[k] == g;
    AddedArrives(w, s, Deliver(i), k);
    hide Apply;
    var t := Apply(w, s, Deliver(i));
    var j :| 0 <= j < |t.net| && t.net[j] == g;
    assert IsFlightTo(w, t.net[j], to, g.pkt);
  }

  /** At the root the two links enter the table. */
  lemma RootLearnsNow(w: World, s: MeshState, e: Event, p: Pkt, c: Text, e': Text)
    requires ValidWorld(w) && Inv(w, s) && Enabled(w, s, e) && Facing(w, c, e') && TellsOf(w, p, c, e')
    requires Tracks(w, s, e, w.root, p) && p.hops + 1 <= PING_HOP_LIMIT
    ensures RootKnows(w, Apply(w, s, e), c, e')
  {
    var n, f := s.nodes[w.root], s.net[e.i];
    assert NodeOk(w, w.root, n, {});
    DecodeParties(w, RETURN_FLAGS, c, e');
    LearnAllLinks(n, PartiesData(w, RETURN_FLAGS, c, e'));
    RootCompletes(n, f.pkt, w.peer[f.channel], PartiesData(w, RETURN_FLAGS, c, e'));
  }

  lemma RootCompletes(n: NodeState, p: Pkt, server: Text, data: PingData)
    requires IsRootPong(p) && p.hops + 1 <= PING_HOP_LIMIT && n.isRoot && DecodePing(p.message) == Some(data)
    ensures Process(n, p, server).0 == LearnAll(n, data)
  {
    hide LearnAll;
    hide DecodePing;
    hide ReturnsToRoot;
    hide Route;
  }

  lemma RisingStep(w: World, parent: map<Text, Text>, depth: map<Text, nat>, s: MeshState, e: Event, c: Text, e': Text)
    requires ValidWorld(w) && TreeWorld(w, parent, depth) && Inv(w, s) && Enabled(w, s, e) && !e.Lose?
    requires Facing(w, c, e') && Rising(w, parent, depth, s, c, e')
    ensures Rising(w, parent, depth, Apply(w, s, e), c, e') || RootKnows(w, Apply(w, s, e), c, e')
  {
    hide Inv;
    hide Apply;
    hide TreeWorld;
    hide TellsOf;
    hide Tracks;
    hide WaysKnown;
    hide Carrying;
    hide ValidWorld;
    hide Enabled;
    var p, to :| TellsOf(w, p, c, e') && Climbing(w, parent, depth, s, p, to);
    TellsAreRelayed(w, p, c, e');
    var q, next := ClimbStep(w, parent, depth, s, e, p, to);
    if to == w.root && Tracks(w, s, e, to, p) {
      RootLearnsNow(w, s, e, p, c, e');
    } else {
      assert TellsOf(w, q, c, e');
    }
  }

  /** No lossless event sets it back. */
  lemma StepLearns(w: World, parent: map<Text, Text>, depth: map<Text, nat>, s: MeshState, e: Event, c: Text, e': Text)
    requires ValidWorld(w) && TreeWorld(w, parent, depth) && Inv(w, s) && Enabled(w, s, e) && !e.Lose?
    requires EveryWay(parent, s) && Facing(w, c, e') && WithinReach(depth, w.owner[c])
    requires DestOf(w, c) in s.nodes && e' in Clients(s.nodes[DestOf(w, c)]) && Learning(w, parent, depth, s, c, e')
    ensures Learning(w, parent, depth, Apply(w, s, e), c, e')
  {
    hide Inv;
    hide Apply;
    hide TreeWorld;
    hide EveryWay;
    hide Clients;
    hide Rising;
    hide RootKnows;
    hide PingOk;
    if RootKnows(w, s, c, e') {
      KnowledgeStays(w, s, e, c, e');
    } else if Rising(w, parent, depth, s, c, e') {
      RisingStep(w, parent, depth, s, e, c, e');
    } else if f :| f in s.net && FlaggedPong(w, f, c, e') {
      var i :| 0 <= i < |s.net| && s.net[i] == f;
      if e.Deliver? && e.i == i { PongDelivered(w, parent, depth, s, i, c, e'); } else { HandshakeStays(w, s, e, i); }
    } else {
      var f :| f in s.net && FlaggedPing(w, f, c);
      var i :| 0 <= i < |s.net| && s.net[i] == f;
      if e.Deliver? && e.i == i { FlaggedAnswered(w, s, i, c, e'); } else { HandshakeStays(w, s, e, i); }
    }
  }

  // ---- Over a run ----

  /** Both channels are open, and lead to each other's device. */
  ghost predicate OpenFacing(w: World, s: MeshState, c: Text, e: Text)
    requires ValidWorld(w)
  {
    && Facing(w, c, e) && w.owner[c] in s.nodes && w.owner[e] in s.nodes
    && c in Clients(s.nodes[w.owner[c]]) && e in Clients(s.nodes[w.owner[e]])
  }

  lemma FacingStays(w: World, s: MeshState, e: Event, c: Text, e': Text)
    requires ValidWorld(w) && Inv(w, s) && Enabled(w, s, e) && OpenFacing(w, s, c, e')
    ensures OpenFacing(w, Apply(w, s, e), c, e')
  {
    hide Inv;
    hide Apply;
    hide Clients;
    hide Enabled;
    StepKeepsClient(w, s, e, w.owner[c], c);
    StepKeepsClient(w, s, e, w.owner[e'], e');
  }

  lemma {:induction false} RunLearns(w: World, parent: map<Text, Text>, depth: map<Text, nat>, s: MeshState,
        es: seq<Event>, c: Text, e: Text)
    requires ValidWorld(w) && TreeWorld(w, parent, depth) && Inv(w, s) && Runs(w, s, es) && Lossless(es)
    requires EveryWay(parent, s) && OpenFacing(w, s, c, e) && WithinReach(depth, w.owner[c])
    requires Learning(w, parent, depth, s, c, e)
    ensures Learning(w, parent, depth, After(w, s, es), c, e)
    decreases |es|
  {
    hide Inv;
    hide Apply;
    hide Enabled;
    hide TreeWorld;
    hide EveryWay;
    hide Clients;
    hide Learning;
    if es != [] {
      StepKeeps(w, s, es[0]);
      AllWaysStay(w, parent, depth, s, es[0]);
      FacingStays(w, s, es[0], c, e);
      StepLearns(w, parent, depth, s, es[0], c, e);
      LosslessRest(es);
      RunLearns(w, parent, depth, Apply(w, s, es[0]), es[1..], c, e);
    }
  }

  /** In this run `d` pings and asks for the result to go to the root. */
  ghost predicate PingsUp(es: seq<Event>, d: Text) {
    PingsAs(es, d, true)
  }

  lemma PingsUpLater(es: seq<Event>, d: Text)
    requires PingsUp(es, d)
    ensures es != [] && (es[0] == Ping(d, true) || PingsUp(es[1..], d))
  {
    var i :| 0 <= i < |es| && es[i] == Ping(d, true);
    if i > 0 { assert es[1..][i - 1] == es[i]; }
  }

  /** Somewhere in the run the device of `c` pings; from there on the links are on their way to the root. */
  lemma {:induction false} RunPingsUp(w: World, parent: map<Text, Text>, depth: map<Text, nat>, s: MeshState,
        es: seq<Event>, c: Text, e: Text)
    requires ValidWorld(w) && TreeWorld(w, parent, depth) && Inv(w, s) && Runs(w, s, es) && Lossless(es)
    requires EveryWay(parent, s) && OpenFacing(w, s, c, e) && WithinReach(depth, w.owner[c])
    requires PingsUp(es, w.owner[c])
    ensures Learning(w, parent, depth, After(w, s, es), c, e)
    decreases |es|
  {
    hide Inv;
    hide Apply;
    hide Enabled;
    hide TreeWorld;
    hide EveryWay;
    hide Clients;
    hide PingsUp;
    PingsUpLater(es, w.owner[c]);
    StepKeeps(w, s, es[0]);
    AllWaysStay(w, parent, depth, s, es[0]);
    FacingStays(w, s, es[0], c, e);
    LosslessRest(es);
    if es[0] == Ping(w.owner[c], true) {
      FlaggedSent(w, s, es[0], c);
      RunLearns(w, parent, depth, Apply(w, s, es[0]), es[1..], c, e);
    } else {
      hide Learning;
      RunPingsUp(w, parent, depth, Apply(w, s, es[0]), es[1..], c, e);
    }
  }

  ghost predicate NoPingPong(s: MeshState) {
    forall f :: f in s.net ==> f.pkt.contents != PING_PONG
  }

  lemma QuietKnows(w: World, parent: map<Text, Text>, depth: map<Text, nat>, t: MeshState, c: Text, e: Text)
    requires ValidWorld(w) && c in w.peer && e in w.peer && Learning(w, parent, depth, t, c, e) && NoPingPong(t)
    ensures RootKnows(w, t, c, e)
  {
    hide ValidWorld;
    hide PingOk;
    hide WaysKnown;
  }

  /** The root has the link over client channel `c` in its table, with the server channel that `c` reaches. */
  ghost predicate RootHasLink(w: World, s: MeshState, c: Text) {
    w.root in s.nodes && c in w.peer && c in s.nodes[w.root].conn && s.nodes[w.root].conn[c] == [w.peer[c]]
  }

  lemma KnownIsLink(w: World, s: MeshState, c: Text)
    requires ValidWorld(w) && Inv(w, s)
    ensures RootHasLink(w, s, c) <==> c in s.nodes[w.root].conn
  {
    hide FlightOk;
    hide ChansOk;
    assert NodeOk(w, w.root, s.nodes[w.root], {});
  }

  /** With the ways known, a device within reach that pings for the root makes it know, once no handshake packet is in
      flight, the link over each of its client channels and the link back. */
  lemma RootLearns(w: World, parent: map<Text, Text>, depth: map<Text, nat>, s: MeshState, es: seq<Event>, c: Text,
        e: Text)
    requires ValidWorld(w) && TreeWorld(w, parent, depth) && Reachable(w, s) && Runs(w, s, es) && Lossless(es)
    requires EveryWay(parent, s) && OpenFacing(w, s, c, e) && PingsUp(es, w.owner[c]) && NoPingPong(After(w, s, es))
    requires WithinReach(depth, w.owner[c])
    ensures RootHasLink(w, After(w, s, es), c) && RootHasLink(w, After(w, s, es), e)
  {
    hide Inv;
    hide TreeWorld;
    hide EveryWay;
    hide Clients;
    hide PingsUp;
    hide Learning;
    hide NoPingPong;
    hide RootHasLink;
    ReachableInv(w, s);
    hide Reachable;
    RunPingsUp(w, parent, depth, s, es, c, e);
    QuietKnows(w, parent, depth, After(w, s, es), c, e);
    RunKeeps(w, s, es);
    KnownIsLink(w, After(w, s, es), c);
    KnownIsLink(w, After(w, s, es), e);
  }

  lemma FacingTurns(w: World, s: MeshState, c: Text, e: Text)
    requires ValidWorld(w) && OpenFacing(w, s, c, e)
    ensures OpenFacing(w, s, e, c)
  {
  }

  lemma RootLearnsOne(w: World, parent: map<Text, Text>, depth: map<Text, nat>, s: MeshState, es: seq<Event>, c: Text,
        e: Text)
    requires ValidWorld(w) && TreeWorld(w, parent, depth) && Reachable(w, s) && Runs(w, s, es) && Lossless(es)
    requires EveryWay(parent, s) && OpenFacing(w, s, c, e) && NoPingPong(After(w, s, es))
    requires PingsUp(es, w.owner[c]) && PingsUp(es, w.owner[e])
    ensures RootHasLink(w, After(w, s, es), c) <==> Near(w, depth, c)
  {
    hide TreeWorld;
    hide EveryWay;
    hide Clients;
    hide PingsUp;
    hide NoPingPong;
    hide Inv;
    hide WithinReach;
    assert DestOf(w, c) == w.owner[e];
    ReachableRun(w, s, es);
    RootKnowsNear(w, parent, depth, After(w, s, es));
    hide Reachable;
    if WithinReach(depth, w.owner[c]) {
      RootLearns(w, parent, depth, s, es, c, e);
    } else if WithinReach(depth, w.owner[e]) {
      FacingTurns(w, s, c, e);
      RootLearns(w, parent, depth, s, es, e, c);
    }
  }

  /** What the pings are for: with the ways known, after a lossless run in which every device pings for the root, once
      no handshake packet is in flight, the root knows a link that is open both ways if and only if one of its ends is
      within reach, at most 218 deep. */
  lemma RootLearnsExactly(w: World, parent: map<Text, Text>, depth: map<Text, nat>, s: MeshState, es: seq<Event>)
    requires ValidWorld(w) && TreeWorld(w, parent, depth) && Reachable(w, s) && Runs(w, s, es) && Lossless(es)
    requires EveryWay(parent, s) && NoPingPong(After(w, s, es))
    requires forall d :: d in w.devices ==> PingsUp(es, d)
    ensures forall c, e :: OpenFacing(w, s, c, e) ==> (RootHasLink(w, After(w, s, es), c) <==> Near(w, depth, c))
  {
    hide TreeWorld;
    hide EveryWay;
    hide Clients;
    hide PingsUp;
    hide NoPingPong;
    hide Reachable;
    hide RootHasLink;
    hide Near;
    forall c, e | OpenFacing(w, s, c, e) ensures RootHasLink(w, After(w, s, es), c) <==> Near(w, depth, c) {
      RootLearnsOne(w, parent, depth, s, es, c, e);
    }
  }
}
