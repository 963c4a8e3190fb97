/** What a flood tells the root: it hears of a device exactly if the way there and back is within the hop limit. */
module MeshReturns {
  import opened Texts
  import opened Packets
  import opened NodeSpec
  import opened Mesh
  import opened MeshSafety
  import opened MeshGrowth
  import opened MeshSteps
  import opened MeshFlood
  import opened MeshTree
  import opened MeshWays

  ghost predicate IsReturn(p: Pkt) {
    p.contents == MESH_TOPO && p.meta == RETURN_TOPO
  }

  ghost predicate PathTo(w: World, p: Pkt, d: Text)
    requires ValidWorld(w)
  {
    exists path :: GoodPath(w, path) && p.message == EncodePath(path) && path[|path| - 1] == d
  }

  /** In this event the root processes a returned path that ends in `d`. */
  ghost predicate HearsNow(w: World, s: MeshState, e: Event, d: Text)
    requires ValidWorld(w) && Enabled(w, s, e)
  {
    && e.Deliver? && DestOf(w, s.net[e.i].channel) == w.root && IsReturn(s.net[e.i].pkt)
    && s.net[e.i].pkt.hops + 1 <= TOPO_HOP_LIMIT && PathTo(w, s.net[e.i].pkt, d)
  }

  ghost predicate RootHears(w: World, s: MeshState, es: seq<Event>, d: Text)
    requires ValidWorld(w) && Runs(w, s, es)
    decreases |es|
  {
    es != [] && (HearsNow(w, s, es[0], d) || RootHears(w, Apply(w, s, es[0]), es[1..], d))
  }

  // ---- Hops of returning packets ----

  /** A returning packet has counted the way down to the end of its path and the way up so far. */
  ghost predicate HopsFit(w: World, depth: map<Text, nat>, f: Send)
    requires ValidWorld(w)
  {
    IsReturn(f.pkt) ==>
      f.channel in w.peer && DestOf(w, f.channel) in depth && exists path ::
        && GoodPath(w, path) && f.pkt.message == EncodePath(path)
        && f.pkt.hops + depth[DestOf(w, f.channel)] == 2 * (|path| - 1) - 1
  }

  ghost predicate AllFit(w: World, depth: map<Text, nat>, s: MeshState)
    requires ValidWorld(w)
  {
    forall f :: f in s.net ==> HopsFit(w, depth, f)
  }

  lemma SamePath(w: World, p: seq<Text>, q: seq<Text>)
    requires ValidWorld(w) && GoodPath(w, p) && GoodPath(w, q) && EncodePath(p) == EncodePath(q)
    ensures p == q
  {
    PathFields(w, p);
    PathFields(w, q);
    DecodePath(p);
    DecodePath(q);
  }

  /** Whatever a device other than the root sends to the root goes to its parent. */
  lemma UpGoesToParent(w: World, parent: map<Text, Text>, depth: map<Text, nat>, d: Text, n: NodeState, p: Pkt, f: Send)
    requires ValidWorld(w) && TreeWorld(w, parent, depth) && NodeOk(w, d, n, {}) && p.forwarding == TO_ROOT
    requires f in Route(n, p)
    ensures f.pkt == Normalized(p) && f.channel in w.peer && d in parent && DestOf(w, f.channel) == parent[d]
    ensures d in depth && parent[d] in depth && depth[d] == depth[parent[d]] + 1
  {
    hide NodeOk;
    hide Leading;
    var c := Leading(n, true)[0];
    assert f == Send(c, Normalized(p));
    CloserLeadsToParent(w, parent, depth, d, n, c);
  }

  lemma FitOn(w: World, depth: map<Text, nat>, f: Send, path: seq<Text>)
    requires ValidWorld(w) && GoodPath(w, path) && f.pkt.message == EncodePath(path)
    requires f.channel in w.peer && DestOf(w, f.channel) in depth
    requires f.pkt.hops + depth[DestOf(w, f.channel)] == 2 * (|path| - 1) - 1
    ensures HopsFit(w, depth, f)
  {
  }

  /** A device that a flood packet reaches for the second time is the parent of the one that sent it. */
  lemma SeenByParent(w: World, parent: map<Text, Text>, depth: map<Text, nat>, path: seq<Text>, c: Text)
    requires ValidWorld(w) && TreeWorld(w, parent, depth) && GoodPath(w, path) && c in w.peer
    requires w.owner[c] == path[|path| - 1] && DestOf(w, c) in path
    ensures |path| >= 2 && DestOf(w, c) in depth && depth[DestOf(w, c)] == |path| - 2
  {
    var u, v := w.owner[c], DestOf(w, c);
    var j :| 0 <= j < |path| && path[j] == v;
    PathClimbs(w, parent, depth, path, |path| - 1);
    PathClimbs(w, parent, depth, path, j);
    assert Joined(parent, u, v);
  }

  /** What the device returns on its first visit, and what it returns of a packet it is on already. */
  lemma NewReturnFits(w: World, parent: map<Text, Text>, depth: map<Text, nat>, d: Text, n: NodeState, f: Send,
        path: seq<Text>, g: Send)
    requires ValidWorld(w) && TreeWorld(w, parent, depth) && NodeOk(w, d, n, {}) && f.channel in w.peer
    requires DestOf(w, f.channel) == d
    requires IsSend(f.pkt) && TopoOk(w, f.channel, f.pkt, path) && g in Process(n, f.pkt, w.peer[f.channel]).1
    requires IsReturn(g.pkt)
    ensures HopsFit(w, depth, g)
  {
    KeysKnown(w, d, n);
    if Carries(f.pkt, d) {
      SeenReturnFits(w, parent, depth, d, n, f, path, g);
    } else {
      FirstReturnFits(w, parent, depth, d, n, f, path, g);
    }
  }

  lemma SeenReturnFits(w: World, parent: map<Text, Text>, depth: map<Text, nat>, d: Text, n: NodeState, f: Send,
        path: seq<Text>, g: Send)
    requires ValidWorld(w) && TreeWorld(w, parent, depth) && NodeOk(w, d, n, {}) && f.channel in w.peer
    requires DestOf(w, f.channel) == d
    requires IsSend(f.pkt) && TopoOk(w, f.channel, f.pkt, path) && Carries(f.pkt, d) && n.id == d
    requires g in Process(n, f.pkt, w.peer[f.channel]).1 && IsReturn(g.pkt)
    ensures HopsFit(w, depth, g)
  {
    hide NodeOk;
    AppendTopoIs(w, d, n, f.channel, f.pkt, path);
    SeenByParent(w, parent, depth, path, f.channel);
    hide TreeWorld;
    hide GoodPath;
    var p := f.pkt.(hops := f.pkt.hops + 1);
    assert g in Route(n, ReturnedTopo(p)) by {
      hide Route;
      assert Carries(p, n.id);
      hide Carries;
    }
    UpGoesToParent(w, parent, depth, d, n, ReturnedTopo(p), g);
    FitOn(w, depth, g, path);
  }

  lemma FirstReturnFits(w: World, parent: map<Text, Text>, depth: map<Text, nat>, d: Text, n: NodeState, f: Send,
        path: seq<Text>, g: Send)
    requires ValidWorld(w) && TreeWorld(w, parent, depth) && NodeOk(w, d, n, {}) && f.channel in w.peer
    requires DestOf(w, f.channel) == d
    requires IsSend(f.pkt) && TopoOk(w, f.channel, f.pkt, path) && !Carries(f.pkt, d) && n.id == d
    requires g in Process(n, f.pkt, w.peer[f.channel]).1 && IsReturn(g.pkt)
    ensures HopsFit(w, depth, g)
  {
    hide NodeOk;
    var q := GrownPkt(n, f.pkt);
    GrownVisits(w, d, n, f, path, w.devices);
    FirstVisitOutputs(n, f.pkt, w.peer[f.channel]);
    AllSame(Clients(n), q);
    hide Process;
    hide Clients;
    var m := ProcessTopo(n, q.message);
    ProcessTopoKeeps(w, d, n, path + [d]);
    PathClimbs(w, parent, depth, path + [d], |path|);
    hide ProcessTopo;
    hide TreeWorld;
    hide GoodPath;
    assert g in Route(m, ReturnedTopo(q)) by { hide Route; }
    UpGoesToParent(w, parent, depth, d, m, ReturnedTopo(q), g);
    FitOn(w, depth, g, path + [d]);
  }

  /** A relayed packet is one hop further and one device closer. */
  lemma RelayedFits(w: World, parent: map<Text, Text>, depth: map<Text, nat>, d: Text, n: NodeState, f: Send, g: Send)
    requires ValidWorld(w) && TreeWorld(w, parent, depth) && NodeOk(w, d, n, {}) && f.channel in w.peer
    requires DestOf(w, f.channel) == d
    requires IsReturn(f.pkt) && f.pkt.forwarding == TO_ROOT && HopsFit(w, depth, f)
    requires g in Process(n, f.pkt, w.peer[f.channel]).1
    ensures HopsFit(w, depth, g)
  {
    hide NodeOk;
    var p := f.pkt.(hops := f.pkt.hops + 1);
    var path :| GoodPath(w, path) && f.pkt.message == EncodePath(path)
                && f.pkt.hops + depth[DestOf(w, f.channel)] == 2 * (|path| - 1) - 1;
    hide GoodPath;
    assert g in Route(n, p) by { hide Route; hide ProcessTopo; }
    UpGoesToParent(w, parent, depth, d, n, p, g);
    FitOn(w, depth, g, path);
  }

  lemma AddedFit(w: World, parent: map<Text, Text>, depth: map<Text, nat>, s: MeshState, e: Event, g: Send)
    requires ValidWorld(w) && TreeWorld(w, parent, depth) && Inv(w, s) && AllFit(w, depth, s) && Enabled(w, s, e)
    requires g in Added(w, s, e)
    ensures HopsFit(w, depth, g)
  {
    hide NodeOk;
    hide TreeWorld;
    hide HopsFit;
    hide Process;
    if e.Deliver? {
      var f := s.net[e.i];
      var d := DestOf(w, f.channel);
      assert FlightOk(w, f);
      if IsReturn(f.pkt) {
        assert f in s.net;
        var path :| TopoOk(w, f.channel, f.pkt, path);
        RelayedFits(w, parent, depth, d, s.nodes[d], f, g);
      } else if IsReturn(g.pkt) {
        if f.pkt.contents == PING_PONG {
          PingsMakePings(s.nodes[d], f.pkt, w.peer[f.channel], g);
        } else {
          var path :| TopoOk(w, f.channel, f.pkt, path);
          NewReturnFits(w, parent, depth, d, s.nodes[d], f, path, g);
        }
      } else {
        NotReturnFits(w, depth, g);
      }
    } else {
      assert !IsReturn(g.pkt) by {
        if e.Ping? { PingsArePings(s.nodes[e.device], e.returnToRoot); }
        if e.Flood? { AllSame(Clients(s.nodes[w.root]), TopoPkt(EncodePath([s.nodes[w.root].id]))); }
      }
      NotReturnFits(w, depth, g);
    }
  }

  lemma NotReturnFits(w: World, depth: map<Text, nat>, g: Send)
    requires ValidWorld(w) && !IsReturn(g.pkt)
    ensures HopsFit(w, depth, g)
  {
  }

  lemma PingsMakePings(n: NodeState, p: Pkt, server: Text, g: Send)
    requires p.contents == PING_PONG && g in Process(n, p, server).1
    ensures g.pkt.contents == PING_PONG
  {
    PingOutputs(n, p.(hops := p.hops + 1), server, g);
  }

  lemma NetAfter(w: World, s: MeshState, e: Event, f: Send)
    requires Enabled(w, s, e) && f in Apply(w, s, e).net
    ensures f in s.net || f in Added(w, s, e)
  {
    hide Process;
    hide SendPing;
    hide StartFlood;
  }

  lemma StepFits(w: World, parent: map<Text, Text>, depth: map<Text, nat>, s: MeshState, e: Event)
    requires ValidWorld(w) && TreeWorld(w, parent, depth) && Inv(w, s) && AllFit(w, depth, s) && Enabled(w, s, e)
    ensures AllFit(w, depth, Apply(w, s, e))
  {
    hide Inv;
    hide HopsFit;
    hide Apply;
    hide TreeWorld;
    hide Enabled;
    forall f | f in Apply(w, s, e).net ensures HopsFit(w, depth, f) {
      NetAfter(w, s, e, f);
      if f !in s.net { AddedFit(w, parent, depth, s, e, f); }
    }
  }

  lemma ReachableFits(w: World, parent: map<Text, Text>, depth: map<Text, nat>, s: MeshState)
    requires ValidWorld(w) && TreeWorld(w, parent, depth) && Reachable(w, s)
    ensures Inv(w, s) && AllFit(w, depth, s)
  {
    hide Inv;
    hide AllFit;
    hide Apply;
    hide Enabled;
    hide TreeWorld;
    var states := iset t | Inv(w, t) && AllFit(w, depth, t);
    forall t | Init(w, t) ensures Inv(w, t) && AllFit(w, depth, t) {
      InitInv(w, t);
      InitFits(w, depth, t);
    }
    hide Init;
    forall t, e | Inv(w, t) && AllFit(w, depth, t) && Enabled(w, t, e)
      ensures Inv(w, Apply(w, t, e)) && AllFit(w, depth, Apply(w, t, e))
    {
      StepKeeps(w, t, e);
      StepFits(w, parent, depth, t, e);
    }
    assert Closed(w, states);
    assert s in states;
  }

  lemma InitFits(w: World, depth: map<Text, nat>, s: MeshState)
    requires ValidWorld(w) && Init(w, s)
    ensures AllFit(w, depth, s)
  {
  }

  // ---- Heard only within the limit ----

  lemma HeardWithinLimit(w: World, parent: map<Text, Text>, depth: map<Text, nat>, s: MeshState, e: Event, d: Text)
    requires ValidWorld(w) && TreeWorld(w, parent, depth) && AllFit(w, depth, s) && Enabled(w, s, e)
    requires HearsNow(w, s, e, d)
    ensures d in depth && 2 * depth[d] <= TOPO_HOP_LIMIT
  {
    var f := s.net[e.i];
    assert f in s.net && HopsFit(w, depth, f);
    var path :| GoodPath(w, path) && f.pkt.message == EncodePath(path)
                && f.pkt.hops + depth[DestOf(w, f.channel)] == 2 * (|path| - 1) - 1;
    var other :| GoodPath(w, other) && f.pkt.message == EncodePath(other) && other[|other| - 1] == d;
    SamePath(w, path, other);
    PathClimbs(w, parent, depth, path, |path| - 1);
  }

  lemma {:induction false} HeardInRun(w: World, parent: map<Text, Text>, depth: map<Text, nat>, s: MeshState,
        es: seq<Event>, d: Text)
    requires ValidWorld(w) && TreeWorld(w, parent, depth) && Inv(w, s) && AllFit(w, depth, s) && Runs(w, s, es)
    requires RootHears(w, s, es, d)
    ensures d in depth && 2 * depth[d] <= TOPO_HOP_LIMIT
    decreases |es|
  {
    hide Inv;
    hide AllFit;
    hide Apply;
    hide TreeWorld;
    hide HearsNow;
    hide Enabled;
    if HearsNow(w, s, es[0], d) {
      HeardWithinLimit(w, parent, depth, s, es[0], d);
    } else {
      StepKeeps(w, s, es[0]);
      StepFits(w, parent, depth, s, es[0]);
      HeardInRun(w, parent, depth, Apply(w, s, es[0]), es[1..], d);
    }
  }

  // ---- Heard if within the limit ----

  ghost predicate NoReturns(s: MeshState) {
    forall i :: 0 <= i < |s.net| ==> !IsReturn(s.net[i].pkt)
  }

  /** A returned path that ends in `d` is on its way up. */
  ghost predicate OnWayUp(w: World, parent: map<Text, Text>, depth: map<Text, nat>, s: MeshState, p: Pkt, to: Text,
        d: Text)
    requires ValidWorld(w)
  {
    IsReturn(p) && PathTo(w, p, d) && Climbing(w, parent, depth, s, p, to)
  }

  lemma NotCarried(w: World, parent: map<Text, Text>, depth: map<Text, nat>, t: MeshState, p: Pkt, to: Text, d: Text)
    requires ValidWorld(w) && NoReturns(t)
    ensures !OnWayUp(w, parent, depth, t, p, to, d)
  {
  }

  /** One event: the packet stays, moves up, or is heard. */
  lemma CarriedStep(w: World, parent: map<Text, Text>, depth: map<Text, nat>, s: MeshState, e: Event, p: Pkt, to: Text,
        d: Text)
    returns (q: Pkt, next: Text)
    requires ValidWorld(w) && TreeWorld(w, parent, depth) && Inv(w, s) && Enabled(w, s, e) && !e.Lose?
    requires OnWayUp(w, parent, depth, s, p, to, d)
    ensures HearsNow(w, s, e, d) || OnWayUp(w, parent, depth, Apply(w, s, e), q, next, d)
  {
    q, next := ClimbStep(w, parent, depth, s, e, p, to);
    hide Inv;
    hide Apply;
    hide PathTo;
    hide TreeWorld;
    hide WaysKnown;
    SamePathTo(w, p, d);
  }

  lemma SamePathTo(w: World, p: Pkt, d: Text)
    requires ValidWorld(w) && PathTo(w, p, d) && IsReturn(p)
    ensures PathTo(w, Hopped(p), d) && IsReturn(Hopped(p))
  {
  }

  /** A returned path on its way up is heard by the end of the run. */
  lemma {:induction false} CarriedIsHeard(w: World, parent: map<Text, Text>, depth: map<Text, nat>, s: MeshState,
        es: seq<Event>, p: Pkt, to: Text, d: Text)
    requires ValidWorld(w) && TreeWorld(w, parent, depth) && Inv(w, s) && Runs(w, s, es) && Lossless(es)
    requires NoReturns(After(w, s, es)) && OnWayUp(w, parent, depth, s, p, to, d)
    ensures RootHears(w, s, es, d)
    decreases |es|
  {
    hide Inv;
    hide Apply;
    hide TreeWorld;
    hide OnWayUp;
    hide Enabled;
    hide HearsNow;
    hide NoReturns;
    hide ValidWorld;
    if es == [] {
      NotCarried(w, parent, depth, s, p, to, d);
    } else {
      LosslessRest(es);
      var q, next := CarriedStep(w, parent, depth, s, es[0], p, to, d);
      StepKeeps(w, s, es[0]);
      if !HearsNow(w, s, es[0], d) {
        CarriedIsHeard(w, parent, depth, Apply(w, s, es[0]), es[1..], q, next, d);
      }
    }
  }

  /** A first visit puts a returned path on its way up. */
  lemma VisitReturns(w: World, parent: map<Text, Text>, depth: map<Text, nat>, s: MeshState, e: Event,
        d: Text) returns (p: Pkt)
    requires ValidWorld(w) && TreeWorld(w, parent, depth) && Inv(w, s) && Enabled(w, s, e)
    requires d in Visits(w, s, e) && d in parent && d in s.nodes && KnowsWay(s.nodes[d])
    ensures IsReturn(p) && PathTo(w, p, d) && d in depth && p.hops == depth[d]
    ensures Carrying(w, Apply(w, s, e), parent[d], p)
  {
    var f := s.net[e.i];
    var n := s.nodes[d];
    assert FlightOk(w, f);
    var path :| TopoOk(w, f.channel, f.pkt, path);
    p := ReturnedTopo(GrownPkt(n, f.pkt));
    GrownVisits(w, d, n, f, path, w.devices);
    PathClimbs(w, parent, depth, path + [d], |path|);
    assert (path + [d])[|path|] == d;
    var g := ReturnSent(w, parent, depth, d, n, f, path);
    hide NodeOk;
    hide TreeWorld;
    hide Process;
    assert g in Added(w, s, e);
    var k :| 0 <= k < |Added(w, s, e)| && Added(w, s, e)[k] == g;
    AddedArrives(w, s, e, k);
    hide Apply;
    var i :| 0 <= i < |Apply(w, s, e).net| && Apply(w, s, e).net[i] == g;
    assert IsFlightTo(w, g, parent[d], p);
  }

  /** What the device knows after its first visit, and that it returns the path then. */
  lemma VisitTaught(w: World, d: Text, n: NodeState, f: Send, path: seq<Text>)
    requires ValidWorld(w) && NodeOk(w, d, n, {}) && f.channel in w.peer && DestOf(w, f.channel) == d
    requires IsSend(f.pkt) && TopoOk(w, f.channel, f.pkt, path) && !Carries(f.pkt, d)
    ensures var q := GrownPkt(n, f.pkt); var m := ProcessTopo(n, q.message);
            && NodeOk(w, d, m, {}) && Keeps(n, m) && m.isRoot == n.isRoot
            && forall g :: g in ReturnTopo(m, q) ==> g in Process(n, f.pkt, w.peer[f.channel]).1
  {
    hide NodeOk;
    hide Process;
    hide ReturnTopo;
    hide Keeps;
    hide ProcessTopo;
    hide Carries;
    KeysKnown(w, d, n);
    GrownVisits(w, d, n, f, path, w.devices);
    FirstVisitOutputs(n, f.pkt, w.peer[f.channel]);
    hide GoodPath;
    hide GrownPkt;
    Taught(w, d, n, path + [d]);
  }

  lemma ReturnSent(w: World, parent: map<Text, Text>, depth: map<Text, nat>, d: Text, n: NodeState, f: Send,
        path: seq<Text>)
    returns (g: Send)
    requires ValidWorld(w) && TreeWorld(w, parent, depth) && NodeOk(w, d, n, {})
    requires f.channel in w.peer && DestOf(w, f.channel) == d
    requires IsSend(f.pkt) && TopoOk(w, f.channel, f.pkt, path) && !Carries(f.pkt, d) && d in parent && KnowsWay(n)
    ensures g in Process(n, f.pkt, w.peer[f.channel]).1 && ArrivesAt(w, g, parent[d])
    ensures g.pkt == ReturnedTopo(GrownPkt(n, f.pkt))
  {
    assert !n.isRoot by { RootHasNoParent(w, parent, depth); }
    hide NodeOk;
    hide TreeWorld;
    hide KnowsWay;
    hide Process;
    hide GoodPath;
    hide ValidWorld;
    hide Leading;
    hide Keeps;
    hide ProcessTopo;
    hide Carries;
    var q := GrownPkt(n, f.pkt);
    var m := ProcessTopo(n, q.message);
    VisitTaught(w, d, n, f, path);
    WayStays(w, parent, depth, d, n, m);
    assert Normalized(ReturnedTopo(q)) == ReturnedTopo(q) && ReturnedTopo(q).forwarding == TO_ROOT;
    hide GrownPkt;
    var c := WayOut(w, parent, depth, d, m, ReturnedTopo(q));
    g := Send(c, ReturnedTopo(q));
    assert ReturnTopo(m, q) == [g];
  }

  lemma Taught(w: World, d: Text, n: NodeState, path: seq<Text>)
    requires ValidWorld(w) && NodeOk(w, d, n, {}) && GoodPath(w, path)
    ensures var m := ProcessTopo(n, EncodePath(path)); NodeOk(w, d, m, {}) && Keeps(n, m) && m.isRoot == n.isRoot
  {
    hide NodeOk;
    ProcessTopoKeeps(w, d, n, path);
    SetDistancesGrow(n, path, 0);
  }

  lemma WayOut(w: World, parent: map<Text, Text>, depth: map<Text, nat>, d: Text, m: NodeState,
        p: Pkt) returns (c: Text)
    requires ValidWorld(w) && TreeWorld(w, parent, depth) && NodeOk(w, d, m, {}) && KnowsWay(m) && !m.isRoot
    requires p.forwarding == TO_ROOT && Normalized(p) == p && d in parent
    ensures Route(m, p) == [Send(c, p)] && LeadsTo(w, c, parent[d])
  {
    c := Leading(m, true)[0];
    CloserLeadsToParent(w, parent, depth, d, m, c);
  }

  /** With the ways known, a first visit within the limit puts the path on its way up. */
  lemma VisitOnWay(w: World, parent: map<Text, Text>, depth: map<Text, nat>, s: MeshState, e: Event, d: Text)
    returns (p: Pkt)
    requires ValidWorld(w) && TreeWorld(w, parent, depth) && Inv(w, s) && Enabled(w, s, e) && EveryWay(parent, s)
    requires d in Visits(w, s, e) && d in parent && d in depth && 2 * depth[d] <= TOPO_HOP_LIMIT
    ensures OnWayUp(w, parent, depth, Apply(w, s, e), p, parent[d], d)
  {
    assert d in s.nodes && KnowsWay(s.nodes[d]);
    hide EveryWay;
    hide Climbing;
    hide Inv;
    hide Apply;
    hide Enabled;
    hide KnowsWay;
    hide Visits;
    hide TreeWorld;
    hide ValidWorld;
    hide Carrying;
    hide PathTo;
    TreeAbove(w, parent, depth, d);
    p := VisitReturns(w, parent, depth, s, e, d);
    AllWaysStay(w, parent, depth, s, e);
    ClimbStarts(w, parent, depth, Apply(w, s, e), p, parent[d]);
  }

  lemma {:induction false} VisitIsHeard(w: World, parent: map<Text, Text>, depth: map<Text, nat>, s: MeshState,
        es: seq<Event>, d: Text)
    requires ValidWorld(w) && TreeWorld(w, parent, depth) && Inv(w, s) && Runs(w, s, es) && Lossless(es)
    requires NoReturns(After(w, s, es)) && EveryWay(parent, s)
    requires d in Visited(w, s, es) && d in parent && d in depth && 2 * depth[d] <= TOPO_HOP_LIMIT
    ensures RootHears(w, s, es, d)
    decreases |es|
  {
    hide Inv;
    hide Apply;
    hide Enabled;
    hide EveryWay;
    hide Visits;
    hide HearsNow;
    hide NoReturns;
    hide TreeWorld;
    hide OnWayUp;
    if es != [] {
      LosslessRest(es);
      StepKeeps(w, s, es[0]);
      AllWaysStay(w, parent, depth, s, es[0]);
      if d in Visits(w, s, es[0]) {
        var p := VisitOnWay(w, parent, depth, s, es[0], d);
        CarriedIsHeard(w, parent, depth, Apply(w, s, es[0]), es[1..], p, parent[d], d);
      } else {
        VisitIsHeard(w, parent, depth, Apply(w, s, es[0]), es[1..], d);
      }
    }
  }

  lemma RootHearsOf(w: World, parent: map<Text, Text>, depth: map<Text, nat>, s: MeshState, es: seq<Event>,
        d: Text)
    requires ValidWorld(w) && TreeWorld(w, parent, depth) && Reachable(w, s) && OpenDown(w, parent, s) && d in parent
    requires EveryWay(parent, s)
    requires Enabled(w, s, Flood) && Runs(w, Apply(w, s, Flood), es) && Lossless(es)
    requires NoSends(After(w, Apply(w, s, Flood), es)) && NoReturns(After(w, Apply(w, s, Flood), es))
    ensures d in depth && (RootHears(w, Apply(w, s, Flood), es, d) <==> 2 * depth[d] <= TOPO_HOP_LIMIT)
  {
    assert d in depth;
    hide Inv;
    hide AllFit;
    hide OpenDown;
    hide TreeWorld;
    hide NoSends;
    hide NoReturns;
    hide Apply;
    hide Enabled;
    hide EveryWay;
    ReachableFits(w, parent, depth, s);
    hide Reachable;
    var s1 := Apply(w, s, Flood);
    StepKeeps(w, s, Flood);
    StepFits(w, parent, depth, s, Flood);
    AllWaysStay(w, parent, depth, s, Flood);
    if RootHears(w, s1, es, d) {
      HeardInRun(w, parent, depth, s1, es, d);
    }
    if 2 * depth[d] <= TOPO_HOP_LIMIT {
      FloodVisitsTree(w, parent, depth, s, es, d);
      VisitIsHeard(w, parent, depth, s1, es, d);
    }
  }

  /** With the ways known and the tree's channels open, the root hears of a device, in a lossless run that starts with a
      flood and ends when no topology packet is left, if and only if the device is at most half the hop limit deep. */
  lemma RootHearsExactly(w: World, parent: map<Text, Text>, depth: map<Text, nat>, s: MeshState, es: seq<Event>)
    requires ValidWorld(w) && TreeWorld(w, parent, depth) && Reachable(w, s)
    requires OpenDown(w, parent, s) && EveryWay(parent, s)
    requires Enabled(w, s, Flood) && Runs(w, Apply(w, s, Flood), es) && Lossless(es)
    requires NoSends(After(w, Apply(w, s, Flood), es)) && NoReturns(After(w, Apply(w, s, Flood), es))
    ensures forall d :: d in parent ==>
      d in depth && (RootHears(w, Apply(w, s, Flood), es, d) <==> 2 * depth[d] <= TOPO_HOP_LIMIT)
  {
    hide OpenDown;
    hide EveryWay;
    hide TreeWorld;
    hide NoSends;
    hide NoReturns;
    hide Apply;
    hide Enabled;
    hide Reachable;
    hide RootHears;
    forall d | d in parent
      ensures d in depth && (RootHears(w, Apply(w, s, Flood), es, d) <==> 2 * depth[d] <= TOPO_HOP_LIMIT)
    {
      RootHearsOf(w, parent, depth, s, es, d);
    }
  }
}
