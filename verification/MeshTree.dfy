/** When the links are a tree in both directions: distances are depths, and returned packets reach the root. */
module MeshTree {
  import opened Texts
  import opened Packets
  import opened NodeSpec
  import opened Mesh
  import opened MeshSafety
  import opened MeshGrowth
  import opened MeshSteps

  /** `parent` is a tree on the devices with its root at the root; `depth` counts the steps up. */
  ghost predicate IsTree(root: Text, devices: set<Text>, parent: map<Text, Text>, depth: map<Text, nat>) {
    && root in devices && depth.Keys == devices && depth[root] == 0
    && (forall d {:trigger d in parent} :: d in parent <==> d in devices && d != root)
    && forall d {:trigger parent[d]} :: d in parent ==> parent[d] in depth && depth[d] == depth[parent[d]] + 1
  }

  /** Every link joins a device to its parent, one way or the other. */
  ghost predicate TreeWorld(w: World, parent: map<Text, Text>, depth: map<Text, nat>)
    requires ValidWorld(w)
  {
    && IsTree(w.root, w.devices, parent, depth)
    && forall c :: c in w.peer ==> Joined(parent, w.owner[c], DestOf(w, c))
  }

  predicate Joined(parent: map<Text, Text>, u: Text, v: Text) {
    (u in parent && parent[u] == v) || (v in parent && parent[v] == u)
  }

  // ---- Distances are depths ----

  lemma {:induction false} PathClimbs(w: World, parent: map<Text, Text>, depth: map<Text, nat>, path: seq<Text>, i: nat)
    requires ValidWorld(w) && TreeWorld(w, parent, depth) && GoodPath(w, path) && i < |path|
    ensures depth[path[i]] == i
    ensures i > 0 ==> path[i] in parent && parent[path[i]] == path[i - 1]
  {
    if i > 0 {
      PathClimbs(w, parent, depth, path, i - 1);
      assert Linked(w, path[i - 1], path[i]);
      assert path[i - 1] in parent ==> parent[path[i - 1]] != path[i] by {
        if i >= 2 { assert path[i - 2] != path[i]; }
      }
    }
  }

  /** Every distance any node holds is the tree depth of the channel's device. */
  lemma DistanceIsDepth(w: World, parent: map<Text, Text>, depth: map<Text, nat>, d: Text, n: NodeState, u: Text)
    requires ValidWorld(w) && TreeWorld(w, parent, depth) && NodeOk(w, d, n, {})
    requires u in n.chans && DistanceOf(n, u) != -1
    ensures u in w.owner && DistanceOf(n, u) == depth[w.owner[u]]
  {
    assert ChanOk(w, d, u, n.chans[u], u in {});
    var path :| GoodPath(w, path) && |path| == DistanceOf(n, u) + 1 && path[|path| - 1] == w.owner[u];
    PathClimbs(w, parent, depth, path, |path| - 1);
  }

  /** Every channel offered as closer to the root leads to the parent. */
  lemma CloserLeadsToParent(w: World, parent: map<Text, Text>, depth: map<Text, nat>, d: Text, n: NodeState, c: Text)
    requires ValidWorld(w) && TreeWorld(w, parent, depth) && NodeOk(w, d, n, {}) && c in Leading(n, true)
    ensures c in w.peer && w.owner[c] == d && d in parent && DestOf(w, c) == parent[d]
  {
    LeadingOwned(w, d, n, c, true);
    LeadingAre(Clients(n), n, true);
    var i :| 0 <= i < |n.conn[c]| && Better(n, c, n.conn[c][i], true);
    assert n.conn[c] == [w.peer[c]] && w.peer[c] in n.chans && c in n.chans;
    hide NodeOk;
    DistanceIsDepth(w, parent, depth, d, n, w.peer[c]);
    DistanceIsDepth(w, parent, depth, d, n, c);
    assert Joined(parent, w.owner[c], DestOf(w, c));
  }

  lemma ReachableDistances(w: World, parent: map<Text, Text>, depth: map<Text, nat>, s: MeshState, d: Text, u: Text)
    requires ValidWorld(w) && TreeWorld(w, parent, depth) && Reachable(w, s)
    requires d in s.nodes && u in s.nodes[d].chans && DistanceOf(s.nodes[d], u) != -1
    ensures u in w.owner && DistanceOf(s.nodes[d], u) == depth[w.owner[u]]
  {
    hide NodeOk;
    hide FlightOk;
    ReachableInv(w, s);
    DistanceIsDepth(w, parent, depth, d, s.nodes[d], u);
  }

  // ---- A way to the parent stays known ----

  ghost predicate KnowsWay(n: NodeState) {
    Leading(n, true) != []
  }

  lemma FirstWay(n: NodeState) returns (c: Text)
    requires KnowsWay(n)
    ensures c in Leading(n, true)
  {
    c := Leading(n, true)[0];
  }

  lemma WayStays(w: World, parent: map<Text, Text>, depth: map<Text, nat>, d: Text, n: NodeState, m: NodeState)
    requires ValidWorld(w) && TreeWorld(w, parent, depth) && NodeOk(w, d, n, {}) && NodeOk(w, d, m, {})
    requires Keeps(n, m) && KnowsWay(n)
    ensures KnowsWay(m)
  {
    hide NodeOk;
    hide TreeWorld;
    hide ValidWorld;
    hide KnowsWay;
    hide Leading;
    hide Better;
    var c := FirstWay(n);
    WayIsUsed(w, d, n, c);
    BetterStays(w, parent, depth, d, n, m, c);
    assert n.conn[c][0] in m.conn[c];
    assert ChanGrows(n.chans[c], m.chans[c]);
    LeadKnown(w, d, m, c);
  }

  /** What is offered as closer is a linked client channel whose far end has a smaller distance. */
  lemma WayIsUsed(w: World, d: Text, n: NodeState, c: Text)
    requires ValidWorld(w) && NodeOk(w, d, n, {}) && c in Leading(n, true)
    ensures IsClient(n.chans, c) && c in w.peer && w.peer[c] in n.chans && Better(n, c, w.peer[c], true)
    ensures c in n.conn && n.conn[c] == [w.peer[c]]
  {
    hide ChansOk;
    LeadingAre(Clients(n), n, true);
    ClientsAreOwn(n.keys, n);
  }

  lemma LeadKnown(w: World, d: Text, n: NodeState, c: Text)
    requires ValidWorld(w) && NodeOk(w, d, n, {}) && IsClient(n.chans, c)
    requires c in w.peer && Better(n, c, w.peer[c], true) && c in n.conn && w.peer[c] in n.conn[c]
    ensures KnowsWay(n)
  {
    hide ChansOk;
    ClientsAreOwn(n.keys, n);
    LeadingAre(Clients(n), n, true);
    var j :| 0 <= j < |n.conn[c]| && n.conn[c][j] == w.peer[c];
    assert Better(n, c, n.conn[c][j], true);
  }

  lemma BetterStays(w: World, parent: map<Text, Text>, depth: map<Text, nat>, d: Text, n: NodeState, m: NodeState,
        c: Text)
    requires ValidWorld(w) && TreeWorld(w, parent, depth) && NodeOk(w, d, n, {}) && NodeOk(w, d, m, {})
    requires Keeps(n, m) && c in w.peer && c in n.chans && w.peer[c] in n.chans && Better(n, c, w.peer[c], true)
    ensures Better(m, c, w.peer[c], true)
  {
    hide NodeOk;
    var dest := w.peer[c];
    DistanceIsDepth(w, parent, depth, d, n, dest);
    assert DistanceOf(n, c) > depth[w.owner[dest]] >= 0;
    hide TreeWorld;
    assert ChanGrows(n.chans[c], m.chans[c]) && ChanGrows(n.chans[dest], m.chans[dest]);
    DistanceIsDepth(w, parent, depth, d, n, c);
    DistanceIsDepth(w, parent, depth, d, m, c);
    DistanceIsDepth(w, parent, depth, d, m, dest);
  }

  lemma StepKeepsWay(w: World, parent: map<Text, Text>, depth: map<Text, nat>, s: MeshState, e: Event, d: Text)
    requires ValidWorld(w) && TreeWorld(w, parent, depth) && Inv(w, s) && Enabled(w, s, e)
    requires d in s.nodes && KnowsWay(s.nodes[d])
    ensures d in Apply(w, s, e).nodes && KnowsWay(Apply(w, s, e).nodes[d])
  {
    hide NodeOk;
    hide FlightOk;
    hide KnowsWay;
    hide Keeps;
    hide Apply;
    StepKeeps(w, s, e);
    StepKeepsTables(w, s, e, d);
    WayStays(w, parent, depth, d, s.nodes[d], Apply(w, s, e).nodes[d]);
  }

  // ---- Relaying ----

  predicate IsRelayed(p: Pkt) {
    || (p.contents == MESH_TOPO && p.meta == RETURN_TOPO)
    || (p.contents == PING_PONG && p.meta == PING_PONG_ROOT)
  }

  function HopLimit(p: Pkt): int {
    if p.contents == MESH_TOPO then TOPO_HOP_LIMIT else PING_HOP_LIMIT
  }

  function Hopped(p: Pkt): Pkt {
    p.(hops := p.hops + 1)
  }

  /** One hop: a device other than the root passes the packet on to its parent, and only there. */
  lemma RelayStep(w: World, parent: map<Text, Text>, depth: map<Text, nat>, d: Text, n: NodeState, f: Send)
    requires ValidWorld(w) && TreeWorld(w, parent, depth) && NodeOk(w, d, n, {}) && FlightOk(w, f)
    requires IsRelayed(f.pkt) && f.pkt.hops + 1 <= HopLimit(f.pkt) && d != w.root && KnowsWay(n)
    ensures f.channel in w.peer
    ensures var c := Leading(n, true)[0];
            && Process(n, f.pkt, w.peer[f.channel]) == (n, [Send(c, Hopped(f.pkt))])
            && c in w.peer && d in parent && DestOf(w, c) == parent[d]
  {
    hide TreeWorld;
    hide ValidWorld;
    hide FlightOk;
    hide Leading;
    assert !n.isRoot;
    hide NodeOk;
    var c := Leading(n, true)[0];
    CloserLeadsToParent(w, parent, depth, d, n, c);
    RelayedGoUp(w, f);
    assert Normalized(Hopped(f.pkt)) == Hopped(f.pkt);
    assert Route(n, Hopped(f.pkt)) == [Send(c, Hopped(f.pkt))];
  }

  lemma RelayedGoUp(w: World, f: Send)
    requires ValidWorld(w) && FlightOk(w, f) && IsRelayed(f.pkt)
    ensures f.pkt.forwarding == TO_ROOT && f.pkt == Normalized(f.pkt) && f.channel in w.peer
  {
    hide GoodPath;
    hide Parties;
    hide ValidWorld;
    if f.pkt.contents == MESH_TOPO {
      var path :| TopoOk(w, f.channel, f.pkt, path);
    } else {
      var flags, a, b :| PingOk(w, f.channel, f.pkt, flags, a, b);
    }
  }

  /** A packet past the hop limit is dropped where it arrives, the root included. */
  lemma PastLimitDropped(n: NodeState, p: Pkt, server: Text)
    requires IsRelayed(p) && p.hops + 1 > HopLimit(p)
    ensures Process(n, p, server) == (n, [])
  {
  }

  /** Where a tracked packet is: on its way to a device with so many hops counted, processed by the root with so many,
      or dropped by a device as it arrives with so many. */
  datatype Whereabouts = OnTheWay(to: Text, hops: int) | AtRoot(hops: int) | Dropped(on: Text, hops: int)

  ghost predicate Carrying(w: World, s: MeshState, to: Text, p: Pkt) {
    exists i :: 0 <= i < |s.net| && IsFlightTo(w, s.net[i], to, p)
  }

  ghost predicate IsFlightTo(w: World, f: Send, to: Text, p: Pkt) {
    ArrivesAt(w, f, to) && f.pkt == p
  }

  ghost predicate Tracks(w: World, s: MeshState, e: Event, to: Text, p: Pkt) {
    e.Deliver? && e.i < |s.net| && IsFlightTo(w, s.net[e.i], to, p)
  }

  /** Follows one packet through a run: each of its deliveries moves it to the parent, one hop further. */
  ghost function Track(w: World, parent: map<Text, Text>, s: MeshState, es: seq<Event>, p: Pkt,
        at: Whereabouts): Whereabouts
    requires Runs(w, s, es)
    decreases |es|
  {
    if es == [] || !at.OnTheWay? then at
    else
      Track(w, parent, Apply(w, s, es[0]), es[1..], p, TrackOne(w, parent, s, es[0], p, at))
  }

  ghost function TrackOne(w: World, parent: map<Text, Text>, s: MeshState, e: Event, p: Pkt,
        at: Whereabouts): Whereabouts
    requires at.OnTheWay?
  {
    if !Tracks(w, s, e, at.to, p.(hops := at.hops)) then at
    else if at.hops + 1 > HopLimit(p) then Dropped(at.to, at.hops + 1)
    else if at.to in parent then OnTheWay(parent[at.to], at.hops + 1)
    else AtRoot(at.hops + 1)
  }

  /** Every device from `d` up to the root, the root excepted, knows a channel closer to the root. */
  ghost predicate WaysKnown(parent: map<Text, Text>, depth: map<Text, nat>, s: MeshState, d: Text)
    requires d in depth && forall e :: e in parent ==> e in depth && parent[e] in depth && depth[parent[e]] < depth[e]
    decreases depth[d]
  {
    d in parent ==> d in s.nodes && KnowsWay(s.nodes[d]) && WaysKnown(parent, depth, s, parent[d])
  }

  lemma {:induction false} WaysStay(w: World, parent: map<Text, Text>, depth: map<Text, nat>, s: MeshState, e: Event,
        d: Text)
    requires ValidWorld(w) && TreeWorld(w, parent, depth) && Inv(w, s) && Enabled(w, s, e)
    requires d in w.devices && WaysKnown(parent, depth, s, d)
    ensures WaysKnown(parent, depth, Apply(w, s, e), d)
    decreases depth[d]
  {
    if d in parent {
      hide Inv;
      hide KnowsWay;
      hide Apply;
      StepKeepsWay(w, parent, depth, s, e, d);
      WaysStay(w, parent, depth, s, e, parent[d]);
    }
  }

  lemma OthersStay(w: World, s: MeshState, e: Event, to: Text, p: Pkt)
    requires Enabled(w, s, e) && !e.Lose? && Carrying(w, s, to, p) && !Tracks(w, s, e, to, p)
    ensures Carrying(w, Apply(w, s, e), to, p)
  {
    hide Apply;
    var i :| 0 <= i < |s.net| && IsFlightTo(w, s.net[i], to, p);
    var k := FlightStays(w, s, e, i, to);
    assert IsFlightTo(w, Apply(w, s, e).net[k], to, p);
  }

  lemma TrackedMoves(w: World, parent: map<Text, Text>, depth: map<Text, nat>, s: MeshState, e: Event, d: Text, p: Pkt)
    requires ValidWorld(w) && TreeWorld(w, parent, depth) && Inv(w, s) && Enabled(w, s, e)
    requires Tracks(w, s, e, d, p) && IsRelayed(p) && p.hops + 1 <= HopLimit(p)
    requires d in parent && d in s.nodes && KnowsWay(s.nodes[d])
    ensures Carrying(w, Apply(w, s, e), parent[d], Hopped(p))
  {
    hide NodeOk;
    hide FlightOk;
    hide KnowsWay;
    hide Process;
    hide TreeWorld;
    assert d != w.root by { RootHasNoParent(w, parent, depth); }
    RelayStep(w, parent, depth, d, s.nodes[d], s.net[e.i]);
    var net := Apply(w, s, e).net;
    assert IsFlightTo(w, net[|net| - 1], parent[d], Hopped(p));
  }

  lemma RootHasNoParent(w: World, parent: map<Text, Text>, depth: map<Text, nat>)
    requires ValidWorld(w) && TreeWorld(w, parent, depth)
    ensures w.root !in parent
  {
  }

  /** Where the packet is said to be is where it is, and hops plus remaining depth never change. */
  ghost predicate TrackOk(w: World, parent: map<Text, Text>, depth: map<Text, nat>, s: MeshState, p: Pkt,
        at: Whereabouts, total: int) {
    match at
    case OnTheWay(to, hops) =>
      && to in depth && hops + depth[to] == total && Carrying(w, s, to, p.(hops := hops))
    case AtRoot(hops) => hops == total + 1 <= HopLimit(p)
    case Dropped(on, hops) => on in depth && hops + depth[on] == total + 1 && hops > HopLimit(p)
  }

  lemma TrackStep(w: World, parent: map<Text, Text>, depth: map<Text, nat>, s: MeshState, e: Event, p: Pkt,
        at: Whereabouts, total: int)
    requires ValidWorld(w) && TreeWorld(w, parent, depth) && Inv(w, s) && Enabled(w, s, e) && !e.Lose?
    requires IsRelayed(p)
    requires at.OnTheWay? && TrackOk(w, parent, depth, s, p, at, total) && WaysKnown(parent, depth, s, at.to)
    ensures var next := TrackOne(w, parent, s, e, p, at);
            && TrackOk(w, parent, depth, Apply(w, s, e), p, next, total)
            && (next.OnTheWay? ==> WaysKnown(parent, depth, Apply(w, s, e), next.to))
  {
    hide Inv;
    hide Apply;
    hide KnowsWay;
    hide Carrying;
    hide Enabled;
    var q := p.(hops := at.hops);
    WaysStay(w, parent, depth, s, e, at.to);
    if !Tracks(w, s, e, at.to, q) {
      OthersStay(w, s, e, at.to, q);
    } else if at.hops + 1 > HopLimit(p) {
    } else if at.to in parent {
      TrackedMoves(w, parent, depth, s, e, at.to, q);
      assert Hopped(q) == p.(hops := at.hops + 1);
    }
  }

  /** A packet for the root is in flight to `to`, the ways up from there are known, and its hops will do. */
  ghost predicate Climbing(w: World, parent: map<Text, Text>, depth: map<Text, nat>, s: MeshState, p: Pkt, to: Text) {
    && IsRelayed(p) && Carrying(w, s, to, p) && to in depth && p.hops + depth[to] + 1 <= HopLimit(p)
    && (forall e :: e in parent ==> e in depth && parent[e] in depth && depth[parent[e]] < depth[e])
    && WaysKnown(parent, depth, s, to)
  }

  /** One event: the packet stays, moves up one hop, or is processed by the root. */
  lemma ClimbStep(w: World, parent: map<Text, Text>, depth: map<Text, nat>, s: MeshState, e: Event, p: Pkt, to: Text)
    returns (q: Pkt, next: Text)
    requires ValidWorld(w) && TreeWorld(w, parent, depth) && Inv(w, s) && Enabled(w, s, e) && !e.Lose?
    requires Climbing(w, parent, depth, s, p, to)
    ensures (to == w.root && Tracks(w, s, e, to, p)) || Climbing(w, parent, depth, Apply(w, s, e), q, next)
    ensures q == p || q == Hopped(p)
  {
    hide Inv;
    hide Apply;
    hide KnowsWay;
    hide Carrying;
    q, next := p, to;
    WaysStay(w, parent, depth, s, e, to);
    if !Tracks(w, s, e, to, p) {
      OthersStay(w, s, e, to, p);
    } else if to in parent {
      TrackedMoves(w, parent, depth, s, e, to, p);
      q, next := Hopped(p), parent[to];
    } else {
      assert to == w.root;
    }
  }

  /** Loop-free routing: without losses, whatever else happens in the mesh, a packet returning to the root with `hops`
      counted and heading for a device of depth k stays in flight towards the root until it is processed there with
      exactly hops + k + 1 counted, or is past the hop limit and dropped on the way. */
  lemma {:induction false} ReturnsReachRoot(w: World, parent: map<Text, Text>, depth: map<Text, nat>, s: MeshState,
        es: seq<Event>, p: Pkt, at: Whereabouts, total: int)
    requires ValidWorld(w) && TreeWorld(w, parent, depth) && Inv(w, s) && Runs(w, s, es) && Lossless(es)
    requires IsRelayed(p)
    requires TrackOk(w, parent, depth, s, p, at, total)
    requires at.OnTheWay? ==> WaysKnown(parent, depth, s, at.to)
    ensures TrackOk(w, parent, depth, After(w, s, es), p, Track(w, parent, s, es, p, at), total)
    decreases |es|
  {
    hide Inv;
    hide Apply;
    hide Enabled;
    hide TrackOk;
    hide TrackOne;
    if es != [] && at.OnTheWay? {
      StepKeeps(w, s, es[0]);
      TrackStep(w, parent, depth, s, es[0], p, at, total);
      assert forall i :: 0 <= i < |es[1..]| ==> es[1..][i] == es[i + 1];
      ReturnsReachRoot(w, parent, depth, Apply(w, s, es[0]), es[1..], p, TrackOne(w, parent, s, es[0], p, at), total);
    } else if es != [] {
      ArrivedStays(w, parent, depth, s, After(w, s, es), p, at, total);
    }
  }

  /** So when the mesh has gone quiet the packet has been to the root, with one hop counted for each step of the way,
      if and only if that stays within the hop limit; else it has been dropped. */
  lemma ReturnArrives(w: World, parent: map<Text, Text>, depth: map<Text, nat>, s: MeshState, es: seq<Event>, p: Pkt,
        d: Text)
    requires ValidWorld(w) && TreeWorld(w, parent, depth) && Reachable(w, s) && Runs(w, s, es) && Lossless(es)
    requires IsRelayed(p) && d in depth && Carrying(w, s, d, p) && WaysKnown(parent, depth, s, d)
    requires forall f :: f in After(w, s, es).net ==> !IsRelayed(f.pkt)
    ensures var at, hops := Track(w, parent, s, es, p, OnTheWay(d, p.hops)), p.hops + depth[d] + 1;
            if hops <= HopLimit(p) then at == AtRoot(hops) else at.Dropped? && at.hops > HopLimit(p)
  {
    hide Inv;
    hide Track;
    hide After;
    hide Runs;
    hide Reachable;
    hide TreeWorld;
    hide ValidWorld;
    hide WaysKnown;
    hide Carrying;
    ReachableInv(w, s);
    var at := OnTheWay(d, p.hops);
    assert p.(hops := p.hops) == p;
    ReturnsReachRoot(w, parent, depth, s, es, p, at, p.hops + depth[d]);
    QuietAtRoot(w, parent, depth, After(w, s, es), p, Track(w, parent, s, es, p, at), p.hops + depth[d]);
  }

  lemma QuietAtRoot(w: World, parent: map<Text, Text>, depth: map<Text, nat>, t: MeshState, p: Pkt, at: Whereabouts,
        total: int)
    requires IsRelayed(p) && TrackOk(w, parent, depth, t, p, at, total)
    requires forall f :: f in t.net ==> !IsRelayed(f.pkt)
    ensures if total + 1 <= HopLimit(p) then at == AtRoot(total + 1) else at.Dropped? && at.hops > HopLimit(p)
  {
  }

  lemma ArrivedStays(w: World, parent: map<Text, Text>, depth: map<Text, nat>, s: MeshState, t: MeshState, p: Pkt,
        at: Whereabouts, total: int)
    requires !at.OnTheWay? && TrackOk(w, parent, depth, s, p, at, total)
    ensures TrackOk(w, parent, depth, t, p, at, total)
  {
  }

  /** At the root, a returned path is written into the distances and nothing is sent on. */
  lemma RootProcesses(w: World, n: NodeState, f: Send)
    requires ValidWorld(w) && NodeOk(w, w.root, n, {}) && FlightOk(w, f)
    requires f.pkt.contents == MESH_TOPO && f.pkt.meta == RETURN_TOPO && f.pkt.hops + 1 <= TOPO_HOP_LIMIT
    ensures f.channel in w.peer
    ensures Process(n, f.pkt, w.peer[f.channel]) == (ProcessTopo(n, f.pkt.message), [])
  {
  }
}
