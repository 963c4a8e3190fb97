/** A flood processes only finitely many packets: a measure on the packets in flight drops with each one. */
module MeshTermination {
  import opened Lists
  import opened Texts
  import opened Packets
  import opened NodeSpec
  import opened Mesh
  import opened MeshSafety
  import opened MeshSteps
  import opened MeshFlood

  const RETURN_WEIGHT := 72

  /** What an outgoing packet can still cause, with `left` devices missing from its path: each device sends it on
      at most twice to each of `fan` clients and returns it once. */
  function SendWeight(left: nat, fan: nat): nat {
    if left == 0 then RETURN_WEIGHT else 2 * fan * SendWeight(left - 1, fan) + RETURN_WEIGHT
  }

  function ReturnWeight(hops: int): nat {
    if 0 <= hops <= TOPO_HOP_LIMIT then TOPO_HOP_LIMIT + 1 - hops else 1
  }

  ghost function Weight(w: World, p: Pkt, fan: nat): nat {
    if p.contents != MESH_TOPO then 0
    else if p.meta == SEND_TOPO then
      if p.hops < |w.devices| then SendWeight(|w.devices| - 1 - p.hops, fan) else 0
    else ReturnWeight(p.hops)
  }

  ghost function Weigh(w: World, fan: nat): Send -> nat {
    (f: Send) => Weight(w, f.pkt, fan)
  }

  ghost function ChannelsOf(w: World, d: Text): set<Text> {
    set c | c in w.peer && c in w.owner && w.owner[c] == d
  }

  /** No device owns more than `fan` client channels, open or not. */
  ghost predicate FanOut(w: World, fan: nat) {
    forall d :: d in w.devices ==> |ChannelsOf(w, d)| <= fan
  }

  lemma ClientsFit(w: World, d: Text, n: NodeState, fan: nat)
    requires ValidWorld(w) && NodeOk(w, d, n, {}) && FanOut(w, fan)
    ensures |Clients(n)| <= fan
  {
    ClientsAreOwn(n.keys, n);
    assert NoDup(n.keys) && d in w.devices;
    hide NodeOk;
    forall c | c in Clients(n) ensures c in ChannelsOf(w, d) { ClientsOwned(w, d, n, c); }
    hide Clients;
    NoDupFits(Clients(n), ChannelsOf(w, d));
  }

  // ---- Sums ----

  lemma TotalNone(w: World, net: seq<Send>, fan: nat)
    requires forall f :: f in net ==> f.pkt.contents != MESH_TOPO
    ensures Total(net, Weigh(w, fan)) == 0
  {
    TotalBounded(net, Weigh(w, fan), 0);
  }

  /** At most one packet of at most this weight. */
  lemma TotalSingle(w: World, out: seq<Send>, fan: nat, most: nat)
    requires |out| <= 1 && (out != [] ==> Weight(w, out[0].pkt, fan) <= most)
    ensures Total(out, Weigh(w, fan)) <= most
  {
    hide Weight;
    if out != [] {
      assert out == [out[0]];
      TotalOne(out[0], Weigh(w, fan));
    }
  }

  lemma {:induction false} SendWeightFloor(left: nat, fan: nat)
    ensures SendWeight(left, fan) >= RETURN_WEIGHT
  {
    if left > 0 {
      SendWeightFloor(left - 1, fan);
      assert 2 * fan * SendWeight(left - 1, fan) >= 0;
    }
  }

  // ---- One delivery ----

  lemma FirstVisitDrops(w: World, d: Text, n: NodeState, f: Send, fan: nat, path: seq<Text>)
    requires ValidWorld(w) && NodeOk(w, d, n, {}) && f.channel in w.peer && DestOf(w, f.channel) == d
    requires IsSend(f.pkt) && TopoOk(w, f.channel, f.pkt, path) && !Carries(f.pkt, d) && |Clients(n)| <= fan
    ensures Total(Process(n, f.pkt, w.peer[f.channel]).1, Weigh(w, fan)) < Weight(w, f.pkt, fan)
  {
    hide NodeOk;
    hide ValidWorld;
    hide Carries;
    hide Clients;
    hide ProcessTopo;
    hide Process;
    hide ReturnTopo;
    hide SendAll;
    hide Total;
    assert |path| > 0;
    hide GoodPath;
    var server := w.peer[f.channel];
    GrownVisits(w, d, n, f, path, w.devices);
    PathFields(w, path + [d]);
    KeysKnown(w, d, n);
    FirstVisitOutputs(n, f.pkt, server);
    assert f.pkt.hops + 1 < |w.devices|;
    OutputsWeigh(w, ProcessTopo(n, GrownPkt(n, f.pkt).message), GrownPkt(n, f.pkt), Clients(n), fan);
  }

  lemma OutputsWeigh(w: World, n: NodeState, q: Pkt, cs: seq<Text>, fan: nat)
    requires IsSend(q) && 1 <= q.hops < |w.devices| && |cs| <= fan
    ensures Total(SendAll(cs, q) + SendAll(cs, q) + ReturnTopo(n, q), Weigh(w, fan))
            < SendWeight(|w.devices| - q.hops, fan)
  {
    hide Total;
    hide SendAll;
    hide ReturnTopo;
    var each := SendWeight(|w.devices| - 1 - q.hops, fan);
    assert SendWeight(|w.devices| - q.hops, fan) == 2 * (fan * each) + RETURN_WEIGHT by { Doubled(fan, each); }
    hide SendWeight;
    SendAllTotal(w, cs, q, fan);
    ReturnTotal(w, n, q, fan);
    ProductGrows(|cs|, fan, each);
    TotalJoin(SendAll(cs, q), SendAll(cs, q), Weigh(w, fan));
    TotalJoin(SendAll(cs, q) + SendAll(cs, q), ReturnTopo(n, q), Weigh(w, fan));
  }

  lemma Doubled(a: nat, b: nat)
    ensures 2 * a * b == 2 * (a * b)
  {
  }

  lemma SendAllTotal(w: World, cs: seq<Text>, q: Pkt, fan: nat)
    requires IsSend(q) && 0 <= q.hops < |w.devices|
    ensures Total(SendAll(cs, q), Weigh(w, fan)) <= |cs| * SendWeight(|w.devices| - 1 - q.hops, fan)
  {
    assert Weight(w, Normalized(q), fan) == SendWeight(|w.devices| - 1 - q.hops, fan);
    hide Weight;
    TotalBounded(SendAll(cs, q), Weigh(w, fan), SendWeight(|w.devices| - 1 - q.hops, fan));
  }

  lemma ReturnTotal(w: World, n: NodeState, q: Pkt, fan: nat)
    requires q.contents == MESH_TOPO && q.hops >= 1
    ensures Total(ReturnTopo(n, q), Weigh(w, fan)) < RETURN_WEIGHT
  {
    var out := ReturnTopo(n, q);
    hide Weight;
    if out != [] {
      ReturnsAreNotSends(n, q, out[0]);
      assert Weight(w, out[0].pkt, fan) <= RETURN_WEIGHT - 1 by { ReturnedWeight(w, out[0].pkt, fan); }
    } else {
      ReturnsFew(n, q);
    }
    hide ReturnTopo;
    TotalSingle(w, out, fan, RETURN_WEIGHT - 1);
  }

  lemma ReturnsFew(n: NodeState, q: Pkt)
    ensures |ReturnTopo(n, q)| <= 1
  {
    RoutedSame(n, ReturnedTopo(q));
  }

  lemma ReturnedWeight(w: World, p: Pkt, fan: nat)
    requires p.contents == MESH_TOPO && p.meta == RETURN_TOPO && p.hops >= 1
    ensures Weight(w, p, fan) == ReturnWeight(p.hops) <= RETURN_WEIGHT - 1
  {
  }

  /** A packet that the device is on already: it goes back to the root at most once. */
  lemma SeenTotal(w: World, n: NodeState, p: Pkt, fan: nat)
    requires IsSend(p) && p.hops >= 1 && Carries(p, n.id)
    ensures Total(CheckTopo(n, p).1, Weigh(w, fan)) < RETURN_WEIGHT
  {
    var out := ReturnTopo(n, p);
    assert CheckTopo(n, p).1 == [] + out == out by { hide ReturnTopo; }
    hide CheckTopo;
    hide ReturnTopo;
    ReturnTotal(w, n, p, fan);
  }

  /** A returning packet: relayed at most once, one hop further. */
  lemma RelayedTotal(w: World, n: NodeState, p: Pkt, fan: nat)
    requires p.contents == MESH_TOPO && p.meta == RETURN_TOPO && p.forwarding == TO_ROOT && p.hops >= 1
    ensures Total(CheckTopo(n, p).1, Weigh(w, fan)) < ReturnWeight(p.hops - 1)
  {
    var out := CheckTopo(n, p).1;
    assert out == [] || (p.hops <= TOPO_HOP_LIMIT && out == Route(n, p)) by { hide Route; hide ProcessTopo; }
    RoutedSame(n, p);
    hide CheckTopo;
    hide Route;
    if out != [] {
      ReturnedWeight(w, Normalized(p), fan);
      hide Weight;
      TotalSingle(w, out, fan, ReturnWeight(p.hops));
    }
  }

  lemma OtherTopoDrops(w: World, d: Text, n: NodeState, f: Send, fan: nat, path: seq<Text>)
    requires ValidWorld(w) && NodeOk(w, d, n, {}) && f.channel in w.peer && DestOf(w, f.channel) == d
    requires f.pkt.contents == MESH_TOPO && TopoOk(w, f.channel, f.pkt, path) && (IsSend(f.pkt) ==> Carries(f.pkt, d))
    ensures Total(Process(n, f.pkt, w.peer[f.channel]).1, Weigh(w, fan)) < Weight(w, f.pkt, fan)
  {
    hide NodeOk;
    hide GoodPath;
    hide ValidWorld;
    hide CheckTopo;
    hide Total;
    var p := f.pkt.(hops := f.pkt.hops + 1);
    KeysKnown(w, d, n);
    PathFields(w, path);
    if IsSend(f.pkt) {
      assert |path| > 0 by { PathStarts(w, path); }
      SendWeightFloor(|w.devices| - 1 - f.pkt.hops, fan);
      SeenTotal(w, n, p, fan);
    } else {
      RelayedTotal(w, n, p, fan);
    }
  }

  lemma PathStarts(w: World, path: seq<Text>)
    requires ValidWorld(w) && GoodPath(w, path)
    ensures |path| > 0
  {
  }

  lemma PingTotal(w: World, n: NodeState, p: Pkt, server: Text, fan: nat)
    requires p.contents == PING_PONG
    ensures Total(Process(n, p, server).1, Weigh(w, fan)) == 0
  {
    var out := Process(n, p, server).1;
    forall f | f in out ensures f.pkt.contents == PING_PONG {
      PingOutputs(n, p.(hops := p.hops + 1), server, f);
    }
    TotalNone(w, out, fan);
  }

  ghost predicate TopoDelivery(s: MeshState, e: Event) {
    e.Deliver? && e.i < |s.net| && s.net[e.i].pkt.contents == MESH_TOPO
  }

  lemma DeliveryDrops(w: World, s: MeshState, i: nat, fan: nat)
    requires ValidWorld(w) && Inv(w, s) && FanOut(w, fan) && InFlight(w, s, i)
    ensures var more := Total(Delivered(w, s, i).1, Weigh(w, fan)); var less := Weight(w, s.net[i].pkt, fan);
            if s.net[i].pkt.contents == MESH_TOPO then more < less else more == 0
  {
    hide NodeOk;
    hide Process;
    hide Carries;
    hide Total;
    hide Weight;
    hide Clients;
    var f := s.net[i];
    var d := DestOf(w, f.channel);
    assert FlightOk(w, f);
    if f.pkt.contents == MESH_TOPO {
      var path :| TopoOk(w, f.channel, f.pkt, path);
      if IsSend(f.pkt) && !Carries(f.pkt, d) {
        ClientsFit(w, d, s.nodes[d], fan);
        FirstVisitDrops(w, d, s.nodes[d], f, fan, path);
      } else {
        OtherTopoDrops(w, d, s.nodes[d], f, fan, path);
      }
    } else {
      PingTotal(w, s.nodes[d], f.pkt, w.peer[f.channel], fan);
      assert Weight(w, f.pkt, fan) == 0 by { PingsWeighNothing(w, f.pkt, fan); }
    }
  }

  lemma PingsWeighNothing(w: World, p: Pkt, fan: nat)
    requires p.contents == PING_PONG
    ensures Weight(w, p, fan) == 0
  {
  }

  /** The most that one flood puts in flight. */
  ghost function FloodWeight(w: World, fan: nat): nat
    requires |w.devices| > 0
  {
    fan * SendWeight(|w.devices| - 1, fan)
  }

  lemma FloodTotal(w: World, n: NodeState, fan: nat)
    requires |w.devices| > 0 && |Clients(n)| <= fan
    ensures Total(StartFlood(n), Weigh(w, fan)) <= FloodWeight(w, fan)
  {
    hide Clients;
    hide Total;
    SendAllTotal(w, Clients(n), TopoPkt(EncodePath([n.id])), fan);
    ProductGrows(|Clients(n)|, fan, SendWeight(|w.devices| - 1, fan));
  }

  /** No event but a flood adds weight, and every topology packet processed takes some away. */
  lemma StepDrops(w: World, s: MeshState, e: Event, fan: nat)
    requires ValidWorld(w) && Inv(w, s) && FanOut(w, fan) && Enabled(w, s, e)
    ensures Total(Apply(w, s, e).net, Weigh(w, fan)) + (if TopoDelivery(s, e) then 1 else 0)
            <= Total(s.net, Weigh(w, fan)) + (if e.Flood? then FloodWeight(w, fan) else 0)
  {
    hide NodeOk;
    hide FlightOk;
    hide Process;
    hide SendPing;
    hide StartFlood;
    hide Total;
    hide FloodWeight;
    match e
    case Deliver(i) =>
      DeliveryDrops(w, s, i, fan);
      TotalWithout(s.net, i, Weigh(w, fan));
      TotalJoin(Without(s.net, i), Delivered(w, s, i).1, Weigh(w, fan));
    case Dedup(i, _) =>
      TotalWithout(s.net, i, Weigh(w, fan));
    case Lose(i) =>
      TotalWithout(s.net, i, Weigh(w, fan));
    case Flood =>
      ClientsFit(w, w.root, s.nodes[w.root], fan);
      FloodTotal(w, s.nodes[w.root], fan);
      TotalJoin(s.net, StartFlood(s.nodes[w.root]), Weigh(w, fan));
    case Ping(d, flag) =>
      PingsArePings(s.nodes[d], flag);
      TotalNone(w, SendPing(s.nodes[d], flag), fan);
      TotalJoin(s.net, SendPing(s.nodes[d], flag), Weigh(w, fan));
    case Open(c) =>
  }

  /** How many topology packets a run processes. */
  ghost function TopoDeliveries(w: World, s: MeshState, es: seq<Event>): nat
    requires Runs(w, s, es)
    decreases |es|
  {
    if es == [] then 0
    else (if TopoDelivery(s, es[0]) then 1 else 0) + TopoDeliveries(w, Apply(w, s, es[0]), es[1..])
  }

  function Floods(es: seq<Event>): nat {
    if es == [] then 0 else (if es[0].Flood? then 1 else 0) + Floods(es[1..])
  }

  lemma {:induction false} RunDrops(w: World, s: MeshState, es: seq<Event>, fan: nat)
    requires ValidWorld(w) && Inv(w, s) && FanOut(w, fan) && Runs(w, s, es)
    ensures TopoDeliveries(w, s, es) + Total(After(w, s, es).net, Weigh(w, fan))
            <= Total(s.net, Weigh(w, fan)) + Floods(es) * FloodWeight(w, fan)
    decreases |es|
  {
    hide Inv;
    hide Apply;
    hide FanOut;
    hide Total;
    hide Enabled;
    hide FloodWeight;
    hide TopoDelivery;
    if es != [] {
      StepKeeps(w, s, es[0]);
      StepDrops(w, s, es[0], fan);
      RunDrops(w, Apply(w, s, es[0]), es[1..], fan);
      var k, each := Floods(es[1..]), FloodWeight(w, fan);
      assert (k + 1) * each == k * each + each;
    }
  }

  ghost predicate NoTopology(s: MeshState) {
    forall i :: 0 <= i < |s.net| ==> s.net[i].pkt.contents != MESH_TOPO
  }

  /** Flood termination: over N devices that own at most `fan` client channels each, every flood of a run accounts for
      at most fan * SendWeight(N - 1, fan) topology packets processed, and the packets in flight at its start for their
      weight; in any order, with any losses, and with channels that open on the way. */
  lemma FloodsEnd(w: World, s: MeshState, es: seq<Event>, fan: nat)
    requires ValidWorld(w) && Reachable(w, s) && FanOut(w, fan) && Runs(w, s, es)
    ensures TopoDeliveries(w, s, es) <= Total(s.net, Weigh(w, fan)) + Floods(es) * FloodWeight(w, fan)
    ensures NoTopology(s) ==> TopoDeliveries(w, s, es) <= Floods(es) * FloodWeight(w, fan)
  {
    hide NodeOk;
    hide FlightOk;
    hide Total;
    ReachableInv(w, s);
    hide Reachable;
    RunDrops(w, s, es, fan);
    if NoTopology(s) { TotalNone(w, s.net, fan); }
  }
}
