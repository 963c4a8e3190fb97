/** The mesh goes quiet: handshakes end as floods do, and left alone every packet in flight is used up. */
module MeshQuiet {
  import opened Lists
  import opened Texts
  import opened Packets
  import opened NodeSpec
  import opened Mesh
  import opened MeshSafety
  import opened MeshSteps
  import opened MeshFlood
  import opened MeshTermination

  const PONG_WEIGHT := 222

  /** What a handshake packet can still cause: a ping one pong over each of `fan` clients, a pong one packet to the
      root, and that packet one more for each hop up to the limit. */
  function HandshakeWeight(p: Pkt, fan: nat): nat {
    if p.contents != PING_PONG then 0
    else if p.meta == SEND_PING then 1 + fan * PONG_WEIGHT
    else if p.meta == SEND_PONG then PONG_WEIGHT
    else if 0 <= p.hops <= PING_HOP_LIMIT then PING_HOP_LIMIT + 1 - p.hops else 0
  }

  ghost function Strain(fan: nat): Send -> nat {
    (f: Send) => HandshakeWeight(f.pkt, fan)
  }

  // ---- One delivery ----

  lemma NoStrain(out: seq<Send>, fan: nat)
    requires forall f :: f in out ==> f.pkt.contents != PING_PONG
    ensures Total(out, Strain(fan)) == 0
  {
    TotalBounded(out, Strain(fan), 0);
  }

  lemma PongsStrain(n: NodeState, cs: seq<Text>, p: Pkt, fan: nat)
    requires p.meta == SEND_PONG && |cs| <= fan
    ensures Total(PongsOver(n, cs, p), Strain(fan)) <= fan * PONG_WEIGHT
  {
    TotalBounded(PongsOver(n, cs, p), Strain(fan), PONG_WEIGHT);
    ProductGrows(|cs|, fan, PONG_WEIGHT);
  }

  /** At most one packet goes towards the root, one hop lighter than the last. */
  lemma UpStrain(n: NodeState, p: Pkt, fan: nat)
    requires p.contents == PING_PONG && p.meta == PING_PONG_ROOT && p.forwarding == TO_ROOT && 0 <= p.hops
    ensures Total(Route(n, p), Strain(fan)) <= if p.hops <= PING_HOP_LIMIT then PING_HOP_LIMIT + 1 - p.hops else 0
  {
    RoutedSame(n, p);
    var out := Route(n, p);
    hide Route;
    if out != [] {
      assert out == [out[0]];
      TotalOne(out[0], Strain(fan));
    }
  }

  lemma PingStrains(n: NodeState, p: Pkt, server: Text, fan: nat)
    requires p.contents == PING_PONG && p.meta == SEND_PING && |Clients(n)| <= fan
    ensures Total(CheckPing(n, p, server).1, Strain(fan)) < HandshakeWeight(p, fan)
  {
    hide Clients;
    PongsStrain(n, Clients(n), Ponged(n, p, server), fan);
  }

  lemma PongStrains(n: NodeState, p: Pkt, server: Text, fan: nat)
    requires p.contents == PING_PONG && p.meta == SEND_PONG && 0 <= p.hops
    ensures Total(CheckPing(n, p, server).1, Strain(fan)) < HandshakeWeight(p, fan)
  {
    var q := RootPong(RecvPong(n, p, server));
    forall m: NodeState ensures Total(Route(m, q), Strain(fan)) < PONG_WEIGHT { UpStrain(m, q, fan); }
    hide Route;
    hide LearnAll;
    hide DecodePing;
    hide ReturnsToRoot;
    hide RecvPong;
  }

  lemma RootPongStrains(n: NodeState, p: Pkt, server: Text, fan: nat)
    requires p.contents == PING_PONG && p.meta == PING_PONG_ROOT && p.forwarding == TO_ROOT
    requires 0 < p.hops <= PING_HOP_LIMIT + 1
    ensures Total(CheckPing(n, p, server).1, Strain(fan)) <= PING_HOP_LIMIT + 1 - p.hops
  {
    UpStrain(n, p, fan);
    hide Route;
    hide LearnAll;
    hide DecodePing;
  }

  lemma StageHops(w: World, c: Text, p: Pkt, flags: Text, a: Text, b: Text)
    requires ValidWorld(w) && c in w.peer && PingOk(w, c, p, flags, a, b)
    ensures p.meta == SEND_PING || p.meta == SEND_PONG || p.meta == PING_PONG_ROOT
    ensures 0 <= p.hops <= PING_HOP_LIMIT && (p.meta == PING_PONG_ROOT ==> p.forwarding == TO_ROOT)
  {
    hide ValidWorld;
  }

  lemma HandshakeStrains(n: NodeState, p: Pkt, server: Text, fan: nat)
    requires p.contents == PING_PONG && |Clients(n)| <= fan
    requires p.meta == SEND_PING || p.meta == SEND_PONG || p.meta == PING_PONG_ROOT
    requires 0 <= p.hops <= PING_HOP_LIMIT && (p.meta == PING_PONG_ROOT ==> p.forwarding == TO_ROOT)
    ensures Total(Process(n, p, server).1, Strain(fan)) < HandshakeWeight(p, fan)
  {
    var q := p.(hops := p.hops + 1);
    assert Process(n, p, server) == CheckPing(n, q, server);
    hide Process;
    hide Total;
    hide CheckPing;
    hide Clients;
    if p.meta == SEND_PING {
      PingStrains(n, q, server, fan);
    } else if p.meta == SEND_PONG {
      PongStrains(n, q, server, fan);
    } else {
      RootPongStrains(n, q, server, fan);
    }
  }

  lemma TopoMakesTopo(n: NodeState, p: Pkt, server: Text, f: Send)
    requires p.contents == MESH_TOPO && f in Process(n, p, server).1
    ensures f.pkt.contents == MESH_TOPO
  {
    hide Carries;
    hide ProcessTopo;
    hide Route;
    hide Clients;
    forall m: NodeState, q ensures forall g :: g in Route(m, q) ==> g.pkt == Normalized(q) {
      RoutedSame(m, q);
    }
    forall q ensures forall g :: g in SendAll(Clients(n), q) ==> g.pkt == Normalized(q) { AllSame(Clients(n), q); }
    hide SendAll;
  }

  lemma TopoStrains(n: NodeState, p: Pkt, server: Text, fan: nat)
    requires p.contents == MESH_TOPO
    ensures Total(Process(n, p, server).1, Strain(fan)) == 0
  {
    var out := Process(n, p, server).1;
    forall f | f in out ensures f.pkt.contents != PING_PONG { TopoMakesTopo(n, p, server, f); }
    hide Process;
    NoStrain(out, fan);
  }

  ghost predicate HandshakeDelivery(s: MeshState, e: Event) {
    e.Deliver? && e.i < |s.net| && s.net[e.i].pkt.contents == PING_PONG
  }

  /** A handshake packet that is processed leaves less behind than it was; a topology packet leaves nothing. */
  lemma DeliveryEases(w: World, s: MeshState, i: nat, fan: nat)
    requires ValidWorld(w) && Inv(w, s) && FanOut(w, fan) && InFlight(w, s, i)
    ensures var more := Total(Delivered(w, s, i).1, Strain(fan)); var less := HandshakeWeight(s.net[i].pkt, fan);
            if s.net[i].pkt.contents == PING_PONG then more < less else more == 0
  {
    hide NodeOk;
    hide Process;
    hide Total;
    hide HandshakeWeight;
    hide PingOk;
    hide Clients;
    var f := s.net[i];
    var d := DestOf(w, f.channel);
    assert FlightOk(w, f);
    if f.pkt.contents == PING_PONG {
      var flags, a, b :| PingOk(w, f.channel, f.pkt, flags, a, b);
      StageHops(w, f.channel, f.pkt, flags, a, b);
      ClientsFit(w, d, s.nodes[d], fan);
      HandshakeStrains(s.nodes[d], f.pkt, w.peer[f.channel], fan);
    } else {
      TopoStrains(s.nodes[d], f.pkt, w.peer[f.channel], fan);
    }
  }

  /** The most that one device's pings put in flight. */
  function PingsWeight(fan: nat): nat {
    fan * (1 + fan * PONG_WEIGHT)
  }

  lemma PingsStrain(n: NodeState, flag: bool, fan: nat)
    requires |Clients(n)| <= fan
    ensures Total(SendPing(n, flag), Strain(fan)) <= PingsWeight(fan)
  {
    hide Clients;
    TotalBounded(SendPing(n, flag), Strain(fan), 1 + fan * PONG_WEIGHT);
    ProductGrows(|Clients(n)|, fan, 1 + fan * PONG_WEIGHT);
  }

  lemma FloodsStrain(n: NodeState, fan: nat)
    ensures Total(StartFlood(n), Strain(fan)) == 0
  {
    hide Clients;
    NoStrain(StartFlood(n), fan);
  }

  /** No event but a ping adds weight, and every handshake packet processed takes some away. */
  lemma StepEases(w: World, s: MeshState, e: Event, fan: nat)
    requires ValidWorld(w) && Inv(w, s) && FanOut(w, fan) && Enabled(w, s, e)
    ensures Total(Apply(w, s, e).net, Strain(fan)) + (if HandshakeDelivery(s, e) then 1 else 0)
            <= Total(s.net, Strain(fan)) + (if e.Ping? then PingsWeight(fan) else 0)
  {
    hide NodeOk;
    hide FlightOk;
    hide Process;
    hide SendPing;
    hide StartFlood;
    hide Total;
    hide PingsWeight;
    match e
    case Deliver(i) =>
      DeliveryEases(w, s, i, fan);
      TotalWithout(s.net, i, Strain(fan));
      TotalJoin(Without(s.net, i), Delivered(w, s, i).1, Strain(fan));
    case Dedup(i, _) =>
      TotalWithout(s.net, i, Strain(fan));
    case Lose(i) =>
      TotalWithout(s.net, i, Strain(fan));
    case Flood =>
      FloodsStrain(s.nodes[w.root], fan);
      TotalJoin(s.net, StartFlood(s.nodes[w.root]), Strain(fan));
    case Ping(d, flag) =>
      ClientsFit(w, d, s.nodes[d], fan);
      PingsStrain(s.nodes[d], flag, fan);
      TotalJoin(s.net, SendPing(s.nodes[d], flag), Strain(fan));
    case Open(c) =>
  }

  // ---- Handshakes end ----

  /** How many handshake packets a run processes. */
  ghost function HandshakeDeliveries(w: World, s: MeshState, es: seq<Event>): nat
    requires Runs(w, s, es)
    decreases |es|
  {
    if es == [] then 0
    else (if HandshakeDelivery(s, es[0]) then 1 else 0) + HandshakeDeliveries(w, Apply(w, s, es[0]), es[1..])
  }

  function PingEvents(es: seq<Event>): nat {
    if es == [] then 0 else (if es[0].Ping? then 1 else 0) + PingEvents(es[1..])
  }

  lemma {:induction false} RunEases(w: World, s: MeshState, es: seq<Event>, fan: nat)
    requires ValidWorld(w) && Inv(w, s) && FanOut(w, fan) && Runs(w, s, es)
    ensures HandshakeDeliveries(w, s, es) + Total(After(w, s, es).net, Strain(fan))
            <= Total(s.net, Strain(fan)) + PingEvents(es) * PingsWeight(fan)
    decreases |es|
  {
    hide Inv;
    hide Apply;
    hide FanOut;
    hide Total;
    hide Enabled;
    hide PingsWeight;
    hide HandshakeDelivery;
    if es != [] {
      StepKeeps(w, s, es[0]);
      StepEases(w, s, es[0], fan);
      RunEases(w, Apply(w, s, es[0]), es[1..], fan);
      var k, each := PingEvents(es[1..]), PingsWeight(fan);
      assert (k + 1) * each == k * each + each;
    }
  }

  /** Handshake termination: where no device owns more than `fan` client channels, every device that pings accounts
      for at most fan * (1 + 222 * fan) handshake packets processed, and the packets in flight at the start of the run
      for their weight; in any order, with any losses and floods, and with channels that open on the way. */
  lemma PingsEnd(w: World, s: MeshState, es: seq<Event>, fan: nat)
    requires ValidWorld(w) && Reachable(w, s) && FanOut(w, fan) && Runs(w, s, es)
    ensures HandshakeDeliveries(w, s, es) <= Total(s.net, Strain(fan)) + PingEvents(es) * PingsWeight(fan)
  {
    hide Inv;
    ReachableInv(w, s);
    hide Reachable;
    RunEases(w, s, es, fan);
  }

  // ---- The mesh left alone ----

  /** Events that only use up packets in flight. */
  predicate OnPackets(e: Event) {
    e.Deliver? || e.Dedup? || e.Lose?
  }

  ghost predicate LeftAlone(es: seq<Event>) {
    forall i :: 0 <= i < |es| ==> OnPackets(es[i])
  }

  ghost function Load(w: World, net: seq<Send>, fan: nat): nat {
    Total(net, Weigh(w, fan)) + Total(net, Strain(fan))
  }

  lemma EachWeighs(w: World, s: MeshState, i: nat, fan: nat)
    requires ValidWorld(w) && Inv(w, s) && i < |s.net|
    ensures Weight(w, s.net[i].pkt, fan) + HandshakeWeight(s.net[i].pkt, fan) >= 1
  {
    hide NodeOk;
    hide ValidWorld;
    hide GoodPath;
    var f := s.net[i];
    assert FlightOk(w, f);
    if f.pkt.contents == MESH_TOPO {
      var path :| TopoOk(w, f.channel, f.pkt, path);
      PathFields(w, path);
      if f.pkt.meta == SEND_TOPO { SendWeightFloor(|w.devices| - 1 - f.pkt.hops, fan); }
    } else {
      var flags, a, b :| PingOk(w, f.channel, f.pkt, flags, a, b);
    }
  }

  lemma DeliveryIs(w: World, s: MeshState, i: nat)
    requires ValidWorld(w) && Inv(w, s) && i < |s.net|
    ensures TopoDelivery(s, Deliver(i)) || HandshakeDelivery(s, Deliver(i))
  {
    hide NodeOk;
    assert FlightOk(w, s.net[i]);
  }

  lemma StepUnloads(w: World, s: MeshState, e: Event, fan: nat)
    requires ValidWorld(w) && Inv(w, s) && FanOut(w, fan) && Enabled(w, s, e) && OnPackets(e)
    ensures Load(w, Apply(w, s, e).net, fan) < Load(w, s.net, fan)
  {
    hide Inv;
    hide FanOut;
    hide Process;
    hide Total;
    hide Weight;
    hide HandshakeWeight;
    if e.Deliver? {
      hide Apply;
      StepDrops(w, s, e, fan);
      StepEases(w, s, e, fan);
      DeliveryIs(w, s, e.i);
    } else {
      EachWeighs(w, s, e.i, fan);
      TotalWithout(s.net, e.i, Weigh(w, fan));
      TotalWithout(s.net, e.i, Strain(fan));
    }
  }

  lemma {:induction false} RunUnloads(w: World, s: MeshState, es: seq<Event>, fan: nat)
    requires ValidWorld(w) && Inv(w, s) && FanOut(w, fan) && Runs(w, s, es) && LeftAlone(es)
    ensures |es| + Load(w, After(w, s, es).net, fan) <= Load(w, s.net, fan)
    decreases |es|
  {
    hide Inv;
    hide Apply;
    hide FanOut;
    hide Load;
    hide Enabled;
    hide OnPackets;
    if es != [] {
      assert OnPackets(es[0]);
      assert LeftAlone(es[1..]);
      StepKeeps(w, s, es[0]);
      StepUnloads(w, s, es[0], fan);
      RunUnloads(w, Apply(w, s, es[0]), es[1..], fan);
    }
  }

  /** Left alone, the mesh goes quiet: from any reachable state no run without new floods, pings and channels is longer
      than the load in flight; and as long as a packet is in flight, one can be delivered. */
  lemma QuietComes(w: World, s: MeshState, es: seq<Event>, fan: nat)
    requires ValidWorld(w) && Reachable(w, s) && FanOut(w, fan) && Runs(w, s, es) && LeftAlone(es)
    ensures |es| <= Load(w, s.net, fan)
    ensures After(w, s, es).net == [] || Enabled(w, After(w, s, es), Deliver(0))
  {
    hide Inv;
    hide Enabled;
    ReachableInv(w, s);
    hide Reachable;
    RunUnloads(w, s, es, fan);
    RunKeeps(w, s, es);
    if After(w, s, es).net != [] { FirstDeliverable(w, After(w, s, es)); }
  }

  lemma FirstDeliverable(w: World, s: MeshState)
    requires ValidWorld(w) && Inv(w, s) && s.net != []
    ensures Enabled(w, s, Deliver(0))
  {
    hide NodeOk;
    assert FlightOk(w, s.net[0]);
  }

  /** So every reachable state has a lossless run, of deliveries alone, to an empty net. */
  lemma {:induction false} QuietReached(w: World, s: MeshState, fan: nat) returns (es: seq<Event>)
    requires ValidWorld(w) && Inv(w, s) && FanOut(w, fan)
    ensures Runs(w, s, es) && After(w, s, es).net == [] && forall i :: 0 <= i < |es| ==> es[i] == Deliver(0)
    decreases Load(w, s.net, fan)
  {
    hide Inv;
    hide Apply;
    hide FanOut;
    hide Load;
    hide Enabled;
    if s.net == [] {
      es := [];
    } else {
      FirstDeliverable(w, s);
      StepKeeps(w, s, Deliver(0));
      StepUnloads(w, s, Deliver(0), fan);
      var rest := QuietReached(w, Apply(w, s, Deliver(0)), fan);
      es := [Deliver(0)] + rest;
      assert es[1..] == rest;
    }
  }

  lemma SubsetFits<T>(a: set<T>, b: set<T>)
    requires a <= b
    ensures |a| <= |b|
  {
    assert b == a + (b - a);
  }

  /** Every world has such a bound. */
  lemma FanKnown(w: World)
    requires ValidWorld(w)
    ensures FanOut(w, |w.peer|)
  {
    forall d | d in w.devices ensures |ChannelsOf(w, d)| <= |w.peer| {
      SubsetFits(ChannelsOf(w, d), w.peer.Keys);
    }
  }

  /** Without a loss until nothing is in flight. */
  ghost predicate QuietRun(w: World, s: MeshState, es: seq<Event>) {
    Runs(w, s, es) && Lossless(es) && After(w, s, es).net == []
  }

  /** Every reachable state can go quiet without a loss. */
  lemma ReachableQuiets(w: World, s: MeshState) returns (es: seq<Event>)
    requires ValidWorld(w) && Reachable(w, s)
    ensures QuietRun(w, s, es) && forall i :: 0 <= i < |es| ==> es[i] == Deliver(0)
  {
    hide Inv;
    hide FanOut;
    ReachableInv(w, s);
    hide Reachable;
    FanKnown(w);
    es := QuietReached(w, s, |w.peer|);
  }
}
