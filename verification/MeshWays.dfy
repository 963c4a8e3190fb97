/** When the ways to the root become known: flood, handshake and tree together. */
module MeshWays {
  import opened Texts
  import opened Packets
  import opened NodeSpec
  import opened Mesh
  import opened MeshSafety
  import opened MeshGrowth
  import opened MeshSteps
  import opened MeshHandshake
  import opened MeshTree
  import opened MeshFlood

  /** Client channel `c` of node `n` leads to the parent, and the handshake has linked it to its server channel. */
  ghost predicate LinkedUp(w: World, parent: map<Text, Text>, d: Text, n: NodeState, c: Text)
    requires ValidWorld(w)
  {
    IsClient(n.chans, c) && c in n.conn && c in w.peer && d in parent && DestOf(w, c) == parent[d]
  }

  ghost predicate Shaken(w: World, parent: map<Text, Text>, d: Text, n: NodeState)
    requires ValidWorld(w)
  {
    exists c :: LinkedUp(w, parent, d, n, c)
  }

  lemma LinkIs(w: World, d: Text, n: NodeState, c: Text)
    requires ValidWorld(w) && NodeOk(w, d, n, {}) && c in n.conn
    ensures c in w.peer && n.conn[c] == [w.peer[c]] && c in n.chans && w.peer[c] in n.chans
  {
    hide ChansOk;
  }

  /** A device knows a way up exactly if it has a linked channel to its parent with both distances set. */
  lemma WayKnownExactly(w: World, parent: map<Text, Text>, depth: map<Text, nat>, d: Text, n: NodeState)
    requires ValidWorld(w) && TreeWorld(w, parent, depth) && NodeOk(w, d, n, {})
    ensures KnowsWay(n) <==>
            exists c :: LinkedUp(w, parent, d, n, c) && DistanceOf(n, c) != -1 && DistanceOf(n, w.peer[c]) != -1
  {
    if KnowsWay(n) {
      WayHas(w, parent, depth, d, n);
    }
    hide KnowsWay;
    if c :| LinkedUp(w, parent, d, n, c) && DistanceOf(n, c) != -1 && DistanceOf(n, w.peer[c]) != -1 {
      WayFrom(w, parent, depth, d, n, c);
    }
  }

  lemma WayHas(w: World, parent: map<Text, Text>, depth: map<Text, nat>, d: Text, n: NodeState)
    requires ValidWorld(w) && TreeWorld(w, parent, depth) && NodeOk(w, d, n, {}) && KnowsWay(n)
    ensures exists c :: LinkedUp(w, parent, d, n, c) && DistanceOf(n, c) != -1 && DistanceOf(n, w.peer[c]) != -1
  {
    hide NodeOk;
    hide Leading;
    var c := Leading(n, true)[0];
    CloserLeadsToParent(w, parent, depth, d, n, c);
    WayIsUsed(w, d, n, c);
    DistanceIsDepth(w, parent, depth, d, n, w.peer[c]);
    assert DistanceOf(n, c) > depth[w.owner[w.peer[c]]] >= 0;
    assert LinkedUp(w, parent, d, n, c);
  }

  lemma WayFrom(w: World, parent: map<Text, Text>, depth: map<Text, nat>, d: Text, n: NodeState, c: Text)
    requires ValidWorld(w) && TreeWorld(w, parent, depth) && NodeOk(w, d, n, {}) && LinkedUp(w, parent, d, n, c)
    requires DistanceOf(n, c) != -1 && DistanceOf(n, w.peer[c]) != -1
    ensures KnowsWay(n)
  {
    LinkIs(w, d, n, c);
    OwnDevice(w, d, n, c);
    assert depth[d] == depth[parent[d]] + 1;
    hide NodeOk;
    hide KnowsWay;
    hide TreeWorld;
    DistanceIsDepth(w, parent, depth, d, n, c);
    DistanceIsDepth(w, parent, depth, d, n, w.peer[c]);
    LeadKnown(w, d, n, c);
  }

  lemma OwnDevice(w: World, d: Text, n: NodeState, c: Text)
    requires ValidWorld(w) && NodeOk(w, d, n, {}) && IsClient(n.chans, c)
    ensures w.owner[c] == d
  {
    assert ChanOk(w, d, c, n.chans[c], c in {});
  }

  // ---- The flood opens the way ----

  /** A first visit with a path through the parent sets both distances. */
  lemma PathTeaches(w: World, parent: map<Text, Text>, depth: map<Text, nat>, d: Text, n: NodeState, path: seq<Text>,
        c: Text)
    requires ValidWorld(w) && TreeWorld(w, parent, depth) && NodeOk(w, d, n, {}) && LinkedUp(w, parent, d, n, c)
    requires GoodPath(w, path) && d in path && parent[d] in path
    ensures KnowsWay(ProcessTopo(n, EncodePath(path)))
  {
    ProcessTopoKeeps(w, d, n, path);
    var m := SetDistances(n, path, 0);
    SetDistancesGrow(n, path, 0);
    LinkIs(w, d, n, c);
    assert ChanGrows(n.chans[c], m.chans[c]);
    assert ChanOk(w, d, c, n.chans[c], c in {}) && ChanOk(w, d, w.peer[c], n.chans[w.peer[c]], w.peer[c] in {});
    DistancesGetSet(n, path, 0, c);
    DistancesGetSet(n, path, 0, w.peer[c]);
    hide NodeOk;
    hide TreeWorld;
    hide KnowsWay;
    WayFrom(w, parent, depth, d, m, c);
  }

  lemma VisitTeaches(w: World, parent: map<Text, Text>, depth: map<Text, nat>, s: MeshState, e: Event, d: Text)
    requires ValidWorld(w) && TreeWorld(w, parent, depth) && Inv(w, s) && Enabled(w, s, e)
    requires d in s.nodes && d in Visits(w, s, e) && Shaken(w, parent, d, s.nodes[d])
    ensures d in Apply(w, s, e).nodes && KnowsWay(Apply(w, s, e).nodes[d])
  {
    hide NodeOk;
    hide GoodPath;
    hide Process;
    hide KnowsWay;
    hide Carries;
    hide ProcessTopo;
    var f := s.net[e.i];
    var n := s.nodes[d];
    assert FlightOk(w, f);
    KeysKnown(w, d, n);
    FirstVisitOutputs(n, f.pkt, w.peer[f.channel]);
    var path :| TopoOk(w, f.channel, f.pkt, path);
    GrownVisits(w, d, n, f, path, w.devices);
    var grown := path + [d];
    var c :| LinkedUp(w, parent, d, n, c);
    ThroughParent(w, parent, depth, path, d);
    PathTeaches(w, parent, depth, d, n, grown, c);
  }

  lemma ThroughParent(w: World, parent: map<Text, Text>, depth: map<Text, nat>, path: seq<Text>, d: Text)
    requires ValidWorld(w) && TreeWorld(w, parent, depth) && GoodPath(w, path + [d]) && d in parent
    ensures d in path + [d] && parent[d] in path + [d]
  {
    var grown := path + [d];
    assert grown[|path|] == d;
    if path != [] {
      PathClimbs(w, parent, depth, grown, |path|);
      assert grown[|path| - 1] == parent[d];
    }
  }

  lemma ShakenStays(w: World, parent: map<Text, Text>, s: MeshState, e: Event, d: Text)
    requires ValidWorld(w) && Enabled(w, s, e) && d in s.nodes && Shaken(w, parent, d, s.nodes[d])
    ensures d in Apply(w, s, e).nodes && Shaken(w, parent, d, Apply(w, s, e).nodes[d])
  {
    hide Apply;
    StepKeepsTables(w, s, e, d);
    var c :| LinkedUp(w, parent, d, s.nodes[d], c);
    assert ChanGrows(s.nodes[d].chans[c], Apply(w, s, e).nodes[d].chans[c]);
    assert LinkedUp(w, parent, d, Apply(w, s, e).nodes[d], c);
  }

  lemma {:induction false} RunKeepsWay(w: World, parent: map<Text, Text>, depth: map<Text, nat>, s: MeshState,
        es: seq<Event>, d: Text)
    requires ValidWorld(w) && TreeWorld(w, parent, depth) && Inv(w, s) && Runs(w, s, es)
    requires d in s.nodes && KnowsWay(s.nodes[d])
    ensures d in After(w, s, es).nodes && KnowsWay(After(w, s, es).nodes[d])
    decreases |es|
  {
    hide Inv;
    hide Apply;
    hide Enabled;
    hide KnowsWay;
    hide TreeWorld;
    if es != [] {
      StepKeeps(w, s, es[0]);
      StepKeepsWay(w, parent, depth, s, es[0], d);
      RunKeepsWay(w, parent, depth, Apply(w, s, es[0]), es[1..], d);
    }
  }

  lemma {:induction false} RunTeaches(w: World, parent: map<Text, Text>, depth: map<Text, nat>, s: MeshState,
        es: seq<Event>, d: Text)
    requires ValidWorld(w) && TreeWorld(w, parent, depth) && Inv(w, s) && Runs(w, s, es)
    requires d in s.nodes && Shaken(w, parent, d, s.nodes[d]) && d in Visited(w, s, es)
    ensures d in After(w, s, es).nodes && KnowsWay(After(w, s, es).nodes[d])
    decreases |es|
  {
    hide Inv;
    hide Apply;
    hide Enabled;
    hide KnowsWay;
    hide TreeWorld;
    hide Shaken;
    hide Visits;
    if es != [] {
      StepKeeps(w, s, es[0]);
      if d in Visits(w, s, es[0]) {
        VisitTeaches(w, parent, depth, s, es[0], d);
        RunKeepsWay(w, parent, depth, Apply(w, s, es[0]), es[1..], d);
      } else {
        ShakenStays(w, parent, s, es[0], d);
        RunTeaches(w, parent, depth, Apply(w, s, es[0]), es[1..], d);
      }
    }
  }

  /** Every device has its client channel from its parent open. */
  ghost predicate OpenDown(w: World, parent: map<Text, Text>, s: MeshState) {
    forall d {:trigger parent[d]} :: d in parent ==> OpenLink(w, s, parent[d], d)
  }

  lemma {:induction false} TreeCovered(w: World, parent: map<Text, Text>, depth: map<Text, nat>, base: MeshState,
        t: MeshState, vis: set<Text>, d: Text)
    requires ValidWorld(w) && TreeWorld(w, parent, depth) && Covering(w, base, t, vis) && NoSends(t) && d in depth
    requires OpenDown(w, parent, base)
    ensures d in vis
    decreases depth[d]
  {
    if d in parent {
      assert depth[d] == depth[parent[d]] + 1;
      hide Covering;
      TreeCovered(w, parent, depth, base, t, vis, parent[d]);
      LinkCovered(w, base, t, vis, parent[d], d);
    } else {
      assert d == w.root;
    }
  }

  /** Every device but the root knows a way up. */
  ghost predicate EveryWay(parent: map<Text, Text>, s: MeshState) {
    forall d :: d in parent ==> d in s.nodes && KnowsWay(s.nodes[d])
  }

  lemma {:induction false} EveryWayKnown(parent: map<Text, Text>, depth: map<Text, nat>, s: MeshState, d: Text)
    requires d in depth && forall e :: e in parent ==> e in depth && parent[e] in depth && depth[parent[e]] < depth[e]
    requires EveryWay(parent, s)
    ensures WaysKnown(parent, depth, s, d)
    decreases depth[d]
  {
    if d in parent { EveryWayKnown(parent, depth, s, parent[d]); }
  }

  /** With every way known, a packet for the root starts to climb if its hops will do. */
  lemma ClimbStarts(w: World, parent: map<Text, Text>, depth: map<Text, nat>, s: MeshState, p: Pkt, to: Text)
    requires ValidWorld(w) && TreeWorld(w, parent, depth) && EveryWay(parent, s)
    requires IsRelayed(p) && Carrying(w, s, to, p) && to in depth && p.hops + depth[to] + 1 <= HopLimit(p)
    ensures Climbing(w, parent, depth, s, p, to)
  {
    assert forall v :: v in parent ==> v in depth && parent[v] in depth && depth[parent[v]] < depth[v];
    hide TreeWorld;
    hide ValidWorld;
    hide Carrying;
    hide KnowsWay;
    EveryWayKnown(parent, depth, s, to);
  }

  /** All the ways stay known. */
  lemma AllWaysStay(w: World, parent: map<Text, Text>, depth: map<Text, nat>, s: MeshState, e: Event)
    requires ValidWorld(w) && TreeWorld(w, parent, depth) && Inv(w, s) && Enabled(w, s, e) && EveryWay(parent, s)
    ensures EveryWay(parent, Apply(w, s, e))
  {
    hide Inv;
    hide Apply;
    hide Enabled;
    hide KnowsWay;
    hide TreeWorld;
    forall d | d in parent ensures d in Apply(w, s, e).nodes && KnowsWay(Apply(w, s, e).nodes[d]) {
      StepKeepsWay(w, parent, depth, s, e, d);
    }
  }

  lemma TreeAbove(w: World, parent: map<Text, Text>, depth: map<Text, nat>, d: Text)
    requires ValidWorld(w) && TreeWorld(w, parent, depth) && d in parent
    ensures d in depth && parent[d] in depth && depth[d] == depth[parent[d]] + 1
  {
  }

  lemma TreeDevices(w: World, parent: map<Text, Text>, depth: map<Text, nat>, s: MeshState)
    requires ValidWorld(w) && TreeWorld(w, parent, depth) && Inv(w, s)
    ensures w.root !in parent && forall d :: d in parent ==> d in s.nodes && parent[d] in s.nodes
    ensures forall e :: e in parent ==> e in depth && parent[e] in depth && depth[parent[e]] < depth[e]
  {
    hide NodeOk;
    hide FlightOk;
  }

  /** A lossless flood in the tree visits every device but the root. */
  lemma FloodVisitsTree(w: World, parent: map<Text, Text>, depth: map<Text, nat>, s: MeshState, es: seq<Event>, d: Text)
    requires ValidWorld(w) && TreeWorld(w, parent, depth) && Inv(w, s) && Enabled(w, s, Flood)
    requires Runs(w, Apply(w, s, Flood), es) && Lossless(es) && NoSends(After(w, Apply(w, s, Flood), es))
    requires OpenDown(w, parent, s) && d in parent
    ensures d in Visited(w, Apply(w, s, Flood), es)
  {
    hide Inv;
    hide Covering;
    hide OpenDown;
    hide NoSends;
    hide Enabled;
    hide Apply;
    TreeDevices(w, parent, depth, s);
    hide TreeWorld;
    FloodStarts(w, s);
    StepKeeps(w, s, Flood);
    var vis := RunCovers(w, s, Apply(w, s, Flood), es, {w.root});
    TreeCovered(w, parent, depth, s, After(w, Apply(w, s, Flood), es), vis, d);
  }

  /** In the tree, once every device has shaken hands with its parent, one lossless flood makes the way to the root
      known everywhere. */
  lemma FloodOpensWays(w: World, parent: map<Text, Text>, depth: map<Text, nat>, s: MeshState, es: seq<Event>)
    requires ValidWorld(w) && TreeWorld(w, parent, depth) && Reachable(w, s) && Enabled(w, s, Flood)
    requires Runs(w, Apply(w, s, Flood), es) && Lossless(es) && NoSends(After(w, Apply(w, s, Flood), es))
    requires forall d :: d in parent ==> d in s.nodes && Shaken(w, parent, d, s.nodes[d])
    requires OpenDown(w, parent, s)
    ensures EveryWay(parent, After(w, Apply(w, s, Flood), es))
  {
    hide Inv;
    hide KnowsWay;
    hide Shaken;
    hide OpenDown;
    hide NoSends;
    hide StartFlood;
    ReachableInv(w, s);
    hide Reachable;
    TreeDevices(w, parent, depth, s);
    hide TreeWorld;
    StepKeeps(w, s, Flood);
    var s1 := Apply(w, s, Flood);
    assert s1.nodes == s.nodes;
    hide Apply;
    hide Enabled;
    var t := After(w, s1, es);
    forall d | d in parent ensures d in t.nodes && KnowsWay(t.nodes[d]) {
      FloodVisitsTree(w, parent, depth, s, es, d);
      RunTeaches(w, parent, depth, s1, es, d);
    }
  }

  // ---- From open channels to known ways ----

  /** Every device has a client channel to its parent open. */
  ghost predicate OpenUp(w: World, parent: map<Text, Text>, s: MeshState) {
    forall d {:trigger parent[d]} :: d in parent ==> OpenLink(w, s, d, parent[d])
  }

  lemma ReachableRun(w: World, s: MeshState, es: seq<Event>)
    requires ValidWorld(w) && Reachable(w, s) && Runs(w, s, es)
    ensures Reachable(w, After(w, s, es))
  {
    hide Apply;
    hide Enabled;
    hide Init;
    forall states | Closed(w, states) ensures After(w, s, es) in states {
      assert s in states;
      RunReaches(w, s, es, states);
    }
  }

  lemma LinkStaysOpen(w: World, s: MeshState, es: seq<Event>, u: Text, v: Text)
    requires ValidWorld(w) && Inv(w, s) && Runs(w, s, es) && OpenLink(w, s, u, v)
    ensures OpenLink(w, After(w, s, es), u, v)
  {
    hide Inv;
    hide Clients;
    var c :| c in Clients(s.nodes[u]) && LeadsTo(w, c, v);
    RunKeepsClient(w, s, es, u, c);
  }

  lemma ClientIs(w: World, s: MeshState, d: Text, c: Text)
    requires d in s.nodes && c in Clients(s.nodes[d])
    ensures IsClient(s.nodes[d].chans, c)
  {
    ClientsAreOwn(s.nodes[d].keys, s.nodes[d]);
  }

  /** Pings over channels open both ways make parent and child shake hands. */
  lemma PingsShake(w: World, parent: map<Text, Text>, depth: map<Text, nat>, s: MeshState, es: seq<Event>, d: Text)
    requires ValidWorld(w) && TreeWorld(w, parent, depth) && Reachable(w, s) && Runs(w, s, es) && Lossless(es)
    requires d in parent && Pings(es, d) && OpenLink(w, s, d, parent[d]) && OpenLink(w, s, parent[d], d)
    requires NoHandshake(After(w, s, es))
    ensures d in After(w, s, es).nodes && Shaken(w, parent, d, After(w, s, es).nodes[d])
  {
    hide Inv;
    hide Clients;
    ReachableInv(w, s);
    hide TreeWorld;
    hide NoHandshake;
    hide Pings;
    hide Reachable;
    var c :| c in Clients(s.nodes[d]) && LeadsTo(w, c, parent[d]);
    var e :| e in Clients(s.nodes[parent[d]]) && LeadsTo(w, e, d);
    PingsLink(w, s, es, d, d, c, e);
    RunKeepsClient(w, s, es, d, c);
    ClientIs(w, After(w, s, es), d, c);
    assert LinkedUp(w, parent, d, After(w, s, es).nodes[d], c);
  }

  /** Setting up: with the tree's channels open both ways, a lossless run in which every device pings, and then a
      lossless flood, each until it is quiet, make the way to the root known at every device. */
  lemma MeshSetsUp(w: World, parent: map<Text, Text>, depth: map<Text, nat>, s: MeshState, es: seq<Event>,
        more: seq<Event>)
    requires ValidWorld(w) && TreeWorld(w, parent, depth) && Reachable(w, s) && OpenUp(w, parent, s)
    requires OpenDown(w, parent, s)
    requires Runs(w, s, es) && Lossless(es) && NoHandshake(After(w, s, es)) && forall d :: d in parent ==> Pings(es, d)
    requires Enabled(w, After(w, s, es), Flood) && Runs(w, Apply(w, After(w, s, es), Flood), more) && Lossless(more)
    requires NoSends(After(w, Apply(w, After(w, s, es), Flood), more))
    ensures EveryWay(parent, After(w, Apply(w, After(w, s, es), Flood), more))
  {
    hide Inv;
    hide Shaken;
    hide NoSends;
    hide Apply;
    hide Enabled;
    hide OpenLink;
    hide Pings;
    hide TreeWorld;
    hide NoHandshake;
    hide EveryWay;
    var t := After(w, s, es);
    ReachableRun(w, s, es);
    ReachableInv(w, s);
    hide Reachable;
    forall d | d in parent ensures OpenLink(w, t, parent[d], d) {
      LinkStaysOpen(w, s, es, parent[d], d);
    }
    forall d | d in parent ensures d in t.nodes && Shaken(w, parent, d, t.nodes[d]) {
      PingsShake(w, parent, depth, s, es, d);
    }
    FloodOpensWays(w, parent, depth, t, more);
  }
}
