/** One topology flood reaches every device that the root can reach. */
module MeshFlood {
  import opened Texts
  import opened Packets
  import opened NodeSpec
  import opened Mesh
  import opened MeshSafety
  import opened MeshGrowth
  import opened MeshSteps

  predicate IsSend(p: Pkt) {
    p.contents == MESH_TOPO && p.meta == SEND_TOPO
  }

  /** The devices that append themselves to a flood packet in this event. */
  ghost function Visits(w: World, s: MeshState, e: Event): set<Text>
    requires Enabled(w, s, e)
  {
    if e.Deliver? && IsSend(s.net[e.i].pkt) && !Carries(s.net[e.i].pkt, DestOf(w, s.net[e.i].channel))
    then {DestOf(w, s.net[e.i].channel)} else {}
  }

  ghost function Visited(w: World, s: MeshState, es: seq<Event>): set<Text>
    requires Runs(w, s, es)
    decreases |es|
  {
    if es == [] then {} else Visits(w, s, es[0]) + Visited(w, Apply(w, s, es[0]), es[1..])
  }

  // ---- Coverage ----

  ghost predicate OnlyVisited(w: World, p: Pkt, vis: set<Text>) {
    forall id :: id in w.devices && Carries(p, id) ==> id in vis
  }

  /** A flood packet that has been at visited devices only is on its way to `v`. */
  ghost predicate IsSendTo(w: World, f: Send, v: Text, vis: set<Text>) {
    IsSend(f.pkt) && ArrivesAt(w, f, v) && OnlyVisited(w, f.pkt, vis)
  }

  ghost predicate Pending(w: World, s: MeshState, v: Text, vis: set<Text>) {
    exists i :: 0 <= i < |s.net| && IsSendTo(w, s.net[i], v, vis)
  }

  /** The far end of channel `c` is visited or has a packet to come. */
  ghost predicate Reached(w: World, s: MeshState, vis: set<Text>, c: Text) {
    c in w.peer && w.peer[c] in w.owner && (DestOf(w, c) in vis || Pending(w, s, DestOf(w, c), vis))
  }

  /** Across every link that `base` has open from a visited device. */
  ghost predicate Frontier(w: World, base: MeshState, s: MeshState, vis: set<Text>) {
    forall u, c :: u in vis && u in base.nodes && c in Clients(base.nodes[u]) ==> Reached(w, s, vis, c)
  }

  /** Every own channel that `n` has, `m` has with a distance. */
  ghost predicate Measured(n: NodeState, m: NodeState) {
    forall u :: u in n.chans && n.chans[u].isHere ==> u in m.chans && DistanceSet(m.chans[u])
  }

  /** `base` is where the flood started, `s` where it is now, and `vis` the devices its own packets have visited.
      Packets of earlier floods may be about; they neither help nor hinder. */
  ghost predicate Covering(w: World, base: MeshState, s: MeshState, vis: set<Text>)
    requires ValidWorld(w)
  {
    && w.root in vis && vis <= s.nodes.Keys && base.nodes.Keys == s.nodes.Keys
    && (forall u :: u in base.nodes ==> Keeps(base.nodes[u], s.nodes[u]))
    && Frontier(w, base, s, vis)
    && forall v :: v in vis && v != w.root ==> Measured(base.nodes[v], s.nodes[v])
  }

  lemma MeasuredStays(n: NodeState, m: NodeState, k: NodeState)
    requires Keeps(m, k) && Measured(n, m)
    ensures Measured(n, k)
  {
    forall u | u in n.chans && n.chans[u].isHere ensures u in k.chans && DistanceSet(k.chans[u]) {
      assert ChanGrows(m.chans[u], k.chans[u]);
    }
  }

  lemma AllSame(cs: seq<Text>, p: Pkt)
    ensures forall f :: f in SendAll(cs, p) ==> f.pkt == Normalized(p)
  {
  }

  lemma RoutedSame(n: NodeState, p: Pkt)
    ensures forall f :: f in Route(n, p) ==> f.pkt == Normalized(p)
    ensures p.forwarding == TO_ROOT ==> |Route(n, p)| <= 1
  {
    AllSame(Leading(n, false), p);
    AllSame(Clients(n), p);
  }

  lemma PongsSame(n: NodeState, cs: seq<Text>, p: Pkt)
    ensures forall f :: f in PongsOver(n, cs, p) ==> f.pkt.contents == p.contents
  {
  }

  lemma PingOutputs(n: NodeState, p: Pkt, server: Text, f: Send)
    requires p.contents == PING_PONG && f in CheckPing(n, p, server).1
    ensures f.pkt.contents == PING_PONG
  {
    hide LearnAll;
    hide Route;
    hide DecodePing;
    hide ReturnsToRoot;
    forall m: NodeState, q ensures forall g :: g in Route(m, q) ==> g.pkt == Normalized(q) {
      RoutedSame(m, q);
    }
    PongsSame(n, Clients(n), Ponged(n, p, server));
  }

  // ---- A device's first visit ----

  lemma {:induction false} DistancesGetSet(n: NodeState, devices: seq<Text>, first: nat, u: Text)
    requires u in n.chans && n.chans[u].deviceId.Some?
    requires n.chans[u].deviceId.value in devices || DistanceSet(n.chans[u])
    ensures u in SetDistances(n, devices, first).chans && DistanceSet(SetDistances(n, devices, first).chans[u])
    decreases |devices|
  {
    if devices != [] {
      DistancesGetSet(SetDistance(n, devices[0], first), devices[1..], first + 1, u);
    }
  }

  lemma VisitMeasures(w: World, d: Text, base: NodeState, n: NodeState, path: seq<Text>)
    requires ValidWorld(w) && NodeOk(w, d, n, {}) && Keeps(base, n) && GoodPath(w, path) && d in path
    ensures Measured(base, ProcessTopo(n, EncodePath(path)))
  {
    ProcessTopoKeeps(w, d, n, path);
    var m := SetDistances(n, path, 0);
    SetDistancesGrow(n, path, 0);
    forall u | u in base.chans && base.chans[u].isHere ensures u in m.chans && DistanceSet(m.chans[u]) {
      assert ChanGrows(base.chans[u], n.chans[u]) && ChanGrows(n.chans[u], m.chans[u]);
      assert ChanOk(w, d, u, n.chans[u], u in {});
      DistancesGetSet(n, path, 0, u);
    }
  }

  /** The packet a device sends on at its first visit. */
  ghost function GrownPkt(n: NodeState, p: Pkt): Pkt {
    Normalized(Appended(p.(hops := p.hops + 1), n.id + [COLON]).(forwarding := TO_NEIGHBOR))
  }

  lemma FirstVisitOutputs(n: NodeState, p: Pkt, server: Text)
    requires IsSend(p) && !Carries(p, n.id)
    ensures var r := Process(n, p, server); var cs := Clients(n); var q := GrownPkt(n, p);
            && r.0 == ProcessTopo(n, q.message)
            && r.1 == SendAll(cs, q) + SendAll(cs, q) + ReturnTopo(r.0, q)
  {
    hide Leading;
    hide ProcessTopo;
    hide Clients;
  }

  lemma ReturnsAreNotSends(n: NodeState, p: Pkt, f: Send)
    requires p.contents == MESH_TOPO && f in ReturnTopo(n, p)
    ensures !IsSend(f.pkt) && f.pkt.contents == MESH_TOPO && f.pkt.meta == RETURN_TOPO && f.pkt.hops == p.hops
    ensures |ReturnTopo(n, p)| <= 1
  {
    RoutedSame(n, ReturnedTopo(p));
  }

  lemma GrownVisits(w: World, d: Text, n: NodeState, f: Send, path: seq<Text>, vis: set<Text>)
    requires ValidWorld(w) && NodeOk(w, d, n, {}) && f.channel in w.peer && DestOf(w, f.channel) == d
    requires IsSend(f.pkt) && TopoOk(w, f.channel, f.pkt, path) && !Carries(f.pkt, d) && OnlyVisited(w, f.pkt, vis)
    ensures OnlyVisited(w, GrownPkt(n, f.pkt), vis + {d})
    ensures GoodPath(w, path + [d]) && GrownPkt(n, f.pkt).message == EncodePath(path + [d])
  {
    AppendTopoIs(w, d, n, f.channel, f.pkt, path);
    var grown := path + [d];
    PathFields(w, path);
    PathFields(w, grown);
    hide NodeOk;
    hide GoodPath;
    hide Encode;
    hide Contains;
    forall id | id in w.devices && Carries(GrownPkt(n, f.pkt), id) ensures id in vis + {d} {
      ContainsId(grown, id);
      ContainsId(path, id);
    }
  }

  // ---- Every step keeps the cover ----

  predicate FirstVisit(w: World, s: MeshState, e: Event)
    requires Enabled(w, s, e)
  {
    e.Deliver? && IsSend(s.net[e.i].pkt) && !Carries(s.net[e.i].pkt, DestOf(w, s.net[e.i].channel))
  }

  /** The device, if any, that this event adds to `vis`. */
  ghost function NewVisit(w: World, s: MeshState, e: Event, vis: set<Text>): set<Text>
    requires Enabled(w, s, e)
  {
    if FirstVisit(w, s, e) && OnlyVisited(w, s.net[e.i].pkt, vis) then {DestOf(w, s.net[e.i].channel)} else {}
  }

  lemma VisitedMore(w: World, p: Pkt, vis: set<Text>, more: set<Text>)
    requires OnlyVisited(w, p, vis) && vis <= more
    ensures OnlyVisited(w, p, more)
  {
  }

  lemma FloodVisits(w: World, vis: set<Text>)
    requires ValidWorld(w) && w.root in vis
    ensures OnlyVisited(w, TopoPkt(EncodePath([w.root])), vis)
  {
    forall id | id in w.devices && Carries(TopoPkt(EncodePath([w.root])), id) ensures id in vis {
      ContainsId([w.root], id);
    }
  }

  lemma PingsArePings(n: NodeState, flag: bool)
    ensures forall f :: f in SendPing(n, flag) ==> f.pkt.contents == PING_PONG
  {
  }

  /** A link from a visited device stays reached. */
  lemma StepReaches(w: World, s: MeshState, e: Event, vis: set<Text>, c: Text)
    requires ValidWorld(w) && Inv(w, s) && Enabled(w, s, e) && !e.Lose? && Reached(w, s, vis, c)
    ensures Reached(w, Apply(w, s, e), vis + NewVisit(w, s, e, vis), c)
  {
    hide NodeOk;
    hide Apply;
    hide Carries;
    var v, more := DestOf(w, c), vis + NewVisit(w, s, e, vis);
    if v !in vis {
      var i :| 0 <= i < |s.net| && IsSendTo(w, s.net[i], v, vis);
      if e.Deliver? && e.i == i {
        assert !Carries(s.net[i].pkt, v) by { assert v in w.devices; }
      } else {
        var k := FlightStays(w, s, e, i, v);
        VisitedMore(w, s.net[i].pkt, vis, more);
        assert IsSendTo(w, Apply(w, s, e).net[k], v, more);
      }
    }
  }

  /** A device that is visited sends a packet of visited devices over every client it has. */
  lemma FirstVisitReaches(w: World, s: MeshState, e: Event, vis: set<Text>, c: Text)
    requires ValidWorld(w) && Inv(w, s) && Enabled(w, s, e) && FirstVisit(w, s, e)
    requires OnlyVisited(w, s.net[e.i].pkt, vis) && c in Clients(s.nodes[DestOf(w, s.net[e.i].channel)])
    ensures Reached(w, Apply(w, s, e), vis + {DestOf(w, s.net[e.i].channel)}, c)
  {
    hide NodeOk;
    hide Process;
    hide Apply;
    hide OnlyVisited;
    hide Carries;
    hide GoodPath;
    var g := s.net[e.i];
    var d := DestOf(w, g.channel);
    var n := s.nodes[d];
    assert FlightOk(w, g);
    KeysKnown(w, d, n);
    ClientsOwned(w, d, n, c);
    FirstVisitOutputs(n, g.pkt, w.peer[g.channel]);
    var path :| TopoOk(w, g.channel, g.pkt, path);
    GrownVisits(w, d, n, g, path, vis);
    hide Clients;
    var k :| 0 <= k < |Clients(n)| && Clients(n)[k] == c;
    var more := Added(w, s, e);
    assert more[k] == Send(c, GrownPkt(n, g.pkt));
    AddedArrives(w, s, e, k);
    assert IsSendTo(w, more[k], DestOf(w, c), vis + {d});
  }

  lemma FirstVisitMeasures(w: World, base: NodeState, s: MeshState, e: Event)
    requires ValidWorld(w) && Inv(w, s) && Enabled(w, s, e) && FirstVisit(w, s, e)
    requires Keeps(base, s.nodes[DestOf(w, s.net[e.i].channel)])
    ensures DestOf(w, s.net[e.i].channel) in Apply(w, s, e).nodes
    ensures Measured(base, Apply(w, s, e).nodes[DestOf(w, s.net[e.i].channel)])
  {
    hide NodeOk;
    hide Process;
    hide Measured;
    hide Keeps;
    var g := s.net[e.i];
    var d := DestOf(w, g.channel);
    var n := s.nodes[d];
    assert FlightOk(w, g);
    KeysKnown(w, d, n);
    FirstVisitOutputs(n, g.pkt, w.peer[g.channel]);
    var path :| TopoOk(w, g.channel, g.pkt, path);
    GrownVisits(w, d, n, g, path, w.devices);
    VisitMeasures(w, d, base, n, path + [d]);
  }

  lemma StepKeepsBase(w: World, base: MeshState, s: MeshState, e: Event, u: Text)
    requires Enabled(w, s, e) && u in base.nodes && u in s.nodes && Keeps(base.nodes[u], s.nodes[u])
    ensures u in Apply(w, s, e).nodes && Keeps(base.nodes[u], Apply(w, s, e).nodes[u])
    ensures Keeps(s.nodes[u], Apply(w, s, e).nodes[u])
  {
    hide Apply;
    hide Keeps;
    hide Enabled;
    StepKeepsTables(w, s, e, u);
    KeepsTrans(base.nodes[u], s.nodes[u], Apply(w, s, e).nodes[u]);
  }

  lemma NewFrontier(w: World, base: MeshState, s: MeshState, e: Event, vis: set<Text>, u: Text, c: Text)
    requires ValidWorld(w) && Inv(w, base) && Inv(w, s) && Enabled(w, s, e) && !e.Lose? && Covering(w, base, s, vis)
    requires u in vis + NewVisit(w, s, e, vis) && u in base.nodes && c in Clients(base.nodes[u])
    ensures Reached(w, Apply(w, s, e), vis + NewVisit(w, s, e, vis), c)
  {
    hide NodeOk;
    hide FlightOk;
    hide Apply;
    hide Measured;
    hide Keeps;
    hide Reached;
    hide OnlyVisited;
    hide Clients;
    if u in vis {
      StepReaches(w, s, e, vis, c);
    } else {
      ClientStays(w, u, base.nodes[u], s.nodes[u], c);
      FirstVisitReaches(w, s, e, vis, c);
    }
  }

  lemma NewMeasured(w: World, base: MeshState, s: MeshState, e: Event, vis: set<Text>, v: Text)
    requires ValidWorld(w) && Inv(w, s) && Enabled(w, s, e) && Covering(w, base, s, vis)
    requires v in vis + NewVisit(w, s, e, vis) && v != w.root
    ensures v in base.nodes && v in Apply(w, s, e).nodes && Measured(base.nodes[v], Apply(w, s, e).nodes[v])
  {
    hide NodeOk;
    hide FlightOk;
    hide Apply;
    hide Measured;
    hide Keeps;
    hide Frontier;
    hide OnlyVisited;
    if v in vis {
      StepKeepsBase(w, base, s, e, v);
      MeasuredStays(base.nodes[v], s.nodes[v], Apply(w, s, e).nodes[v]);
    } else {
      FirstVisitMeasures(w, base.nodes[v], s, e);
    }
  }

  /** Every lossless event keeps the cover, channels that open and further floods included. */
  lemma StepCovers(w: World, base: MeshState, s: MeshState, e: Event, vis: set<Text>)
    requires ValidWorld(w) && Inv(w, base) && Inv(w, s) && Enabled(w, s, e) && !e.Lose? && Covering(w, base, s, vis)
    ensures Covering(w, base, Apply(w, s, e), vis + NewVisit(w, s, e, vis))
  {
    hide NodeOk;
    hide FlightOk;
    hide Reached;
    hide Measured;
    hide Keeps;
    hide Clients;
    hide OnlyVisited;
    hide Apply;
    hide Carries;
    var t, more := Apply(w, s, e), vis + NewVisit(w, s, e, vis);
    StepKeeps(w, s, e);
    forall u | u in base.nodes ensures u in t.nodes && Keeps(base.nodes[u], t.nodes[u]) {
      StepKeepsBase(w, base, s, e, u);
    }
    forall u, c | u in more && u in base.nodes && c in Clients(base.nodes[u]) ensures Reached(w, t, more, c) {
      NewFrontier(w, base, s, e, vis, u, c);
    }
    forall v | v in more && v != w.root ensures Measured(base.nodes[v], t.nodes[v]) {
      NewMeasured(w, base, s, e, vis, v);
    }
  }

  /** Over a lossless run the devices counted are devices that append themselves in it. */
  lemma {:induction false} RunCovers(w: World, base: MeshState, s: MeshState, es: seq<Event>, vis: set<Text>)
    returns (more: set<Text>)
    requires ValidWorld(w) && Inv(w, base) && Inv(w, s) && Runs(w, s, es) && Lossless(es) && Covering(w, base, s, vis)
    ensures Covering(w, base, After(w, s, es), more) && more <= vis + Visited(w, s, es)
    decreases |es|
  {
    hide Covering;
    hide Inv;
    hide Apply;
    hide Enabled;
    hide OnlyVisited;
    hide FirstVisit;
    more := vis;
    if es != [] {
      StepKeeps(w, s, es[0]);
      StepCovers(w, base, s, es[0], vis);
      LosslessRest(es);
      assert NewVisit(w, s, es[0], vis) <= Visits(w, s, es[0]) by { NewVisitsAreVisits(w, s, es[0], vis); }
      more := RunCovers(w, base, Apply(w, s, es[0]), es[1..], vis + NewVisit(w, s, es[0], vis));
    }
  }

  lemma NewVisitsAreVisits(w: World, s: MeshState, e: Event, vis: set<Text>)
    requires Enabled(w, s, e)
    ensures NewVisit(w, s, e, vis) <= Visits(w, s, e)
  {
  }

  ghost predicate NoSends(s: MeshState) {
    forall i :: 0 <= i < |s.net| ==> !IsSend(s.net[i].pkt)
  }

  lemma RootReaches(w: World, s: MeshState, c: Text)
    requires ValidWorld(w) && Inv(w, s) && Enabled(w, s, Flood) && c in Clients(s.nodes[w.root])
    ensures Reached(w, Apply(w, s, Flood), {w.root}, c)
  {
    hide FlightOk;
    hide NodeOk;
    hide OnlyVisited;
    var n, p := s.nodes[w.root], TopoPkt(EncodePath([w.root]));
    KeysKnown(w, w.root, n);
    ClientsOwned(w, w.root, n, c);
    FloodVisits(w, {w.root});
    assert Normalized(p) == p && IsSend(p);
    hide Clients;
    var k :| 0 <= k < |Clients(n)| && Clients(n)[k] == c;
    assert Added(w, s, Flood)[k] == Send(c, p);
    hide TopoPkt;
    hide Apply;
    AddedArrives(w, s, Flood, k);
    assert IsSendTo(w, Send(c, p), DestOf(w, c), {w.root});
  }

  /** A flood that starts covers the root and its links, whatever is in flight. */
  lemma FloodStarts(w: World, s: MeshState)
    requires ValidWorld(w) && Inv(w, s)
    ensures Enabled(w, s, Flood) && Covering(w, s, Apply(w, s, Flood), {w.root})
  {
    hide FlightOk;
    hide NodeOk;
    hide Keeps;
    hide Reached;
    hide Measured;
    hide StartFlood;
    hide Clients;
    var t := Apply(w, s, Flood);
    forall u | u in s.nodes ensures Keeps(s.nodes[u], t.nodes[u]) { KeepsSelf(s.nodes[u]); }
    forall c | c in Clients(s.nodes[w.root]) ensures Reached(w, t, {w.root}, c) { RootReaches(w, s, c); }
  }

  /** `path` leads from the root over client channels that are open in `s`. */
  ghost predicate OpenPath(w: World, s: MeshState, path: seq<Text>) {
    && path != [] && path[0] == w.root
    && forall i :: 0 < i < |path| ==> OpenLink(w, s, path[i - 1], path[i])
  }

  ghost predicate OpenLink(w: World, s: MeshState, u: Text, v: Text) {
    u in s.nodes && exists c :: c in Clients(s.nodes[u]) && LeadsTo(w, c, v)
  }

  lemma LinkCovered(w: World, base: MeshState, t: MeshState, vis: set<Text>, u: Text, v: Text)
    requires ValidWorld(w) && Covering(w, base, t, vis) && NoSends(t) && OpenLink(w, base, u, v) && u in vis
    ensures v in vis
  {
    hide Measured;
    hide Keeps;
    hide OnlyVisited;
    var c :| c in Clients(base.nodes[u]) && LeadsTo(w, c, v);
    assert Reached(w, t, vis, c);
  }

  lemma {:induction false} CoveredPath(w: World, base: MeshState, t: MeshState, vis: set<Text>, path: seq<Text>, i: nat)
    requires ValidWorld(w) && Covering(w, base, t, vis) && NoSends(t) && OpenPath(w, base, path) && i < |path|
    ensures path[i] in vis
  {
    if i > 0 {
      CoveredPath(w, base, t, vis, path, i - 1);
      LinkCovered(w, base, t, vis, path[i - 1], path[i]);
    }
  }

  /** Flood coverage, from any reachable state: after a lossless run that starts with a flood, once no outgoing
      topology packet is left, every device the root reached over links open at the start has appended itself to a
      path, and all the channels it had then have a distance. */
  lemma FloodCoversAll(w: World, s: MeshState, es: seq<Event>, path: seq<Text>)
    requires ValidWorld(w) && Reachable(w, s) && Enabled(w, s, Flood)
    requires Runs(w, Apply(w, s, Flood), es) && Lossless(es)
    requires NoSends(After(w, Apply(w, s, Flood), es)) && OpenPath(w, s, path)
    ensures var t := After(w, Apply(w, s, Flood), es); var d := path[|path| - 1];
            d == w.root || (d in Visited(w, Apply(w, s, Flood), es) && d in s.nodes && d in t.nodes
                            && Measured(s.nodes[d], t.nodes[d]))
  {
    hide Inv;
    hide Apply;
    hide Enabled;
    hide Reachable;
    hide NoSends;
    hide Measured;
    ReachableInv(w, s);
    FloodStarts(w, s);
    var s1 := Apply(w, s, Flood);
    StepKeeps(w, s, Flood);
    var vis := RunCovers(w, s, s1, es, {w.root});
    CoveredPath(w, s, After(w, s1, es), vis, path, |path| - 1);
  }
}
