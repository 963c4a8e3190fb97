/** The Go topology store, RemTopology.go, with its shared node objects and in-place updates.
    Time is a parameter: `now` in whole seconds. A fresh random UUID is a parameter too. */
module Topology {
  import opened Sweep

  const OLD_LIMIT := 6
  const DELETE_LIMIT := 11

  class TopoNode {
    const id: int
    const uuid: int
    var neighbors: seq<TopoNode>
    var isRoot: bool
    var lastUpdated: int
    var isOld: bool

    constructor (id: int, uuid: int, now: int)
      ensures this.id == id && this.uuid == uuid && neighbors == [] && !isRoot && lastUpdated == now && !isOld
    {
      this.id, this.uuid, neighbors, isRoot, lastUpdated, isOld := id, uuid, [], false, now, false;
    }

    predicate Knows(node: TopoNode)
      reads this
    {
      exists k :: 0 <= k < |neighbors| && neighbors[k].uuid == node.uuid
    }

    method AddNeighbor(node: TopoNode)
      modifies this`neighbors
      ensures Knows(node)
      ensures neighbors == if old(Knows(node)) then old(neighbors) else old(neighbors) + [node]
    {
      var alreadyThere := false;
      for i := 0 to |neighbors|
        invariant alreadyThere <==> exists j :: 0 <= j < i && neighbors[j].uuid == node.uuid
      {
        if neighbors[i].uuid == node.uuid { alreadyThere := true; }
      }
      if !alreadyThere {
        neighbors := neighbors + [node];
        assert neighbors[|neighbors| - 1].uuid == node.uuid;
      }
    }
  }

  class TopoEdge {
    const source: TopoNode
    const target: TopoNode
    const uuid: int
    var lastUpdated: int
    var isOld: bool

    constructor (source: TopoNode, target: TopoNode, uuid: int, now: int)
      ensures this.source == source && this.target == target && this.uuid == uuid && lastUpdated == now && !isOld
    {
      this.source, this.target, this.uuid, lastUpdated, isOld := source, target, uuid, now, false;
    }
  }

  ghost predicate Listed(nodes: seq<TopoNode>, id: int) {
    exists i :: 0 <= i < |nodes| && nodes[i].id == id
  }

  ghost predicate IsPair(e: TopoEdge, source: int, target: int) {
    e.source.id == source && e.target.id == target
  }

  /** Both ends of the edge are dated `now` and not old. */
  ghost predicate EndsDated(e: TopoEdge, now: int)
    reads e.source, e.target
  {
    e.source.lastUpdated == now && !e.source.isOld && e.target.lastUpdated == now && !e.target.isOld
  }

  ghost predicate HasPair(edges: seq<TopoEdge>, source: int, target: int) {
    exists i :: 0 <= i < |edges| && IsPair(edges[i], source, target)
  }

  /** Ids and UUIDs are unique. */
  ghost predicate UniqueNodes(nodes: seq<TopoNode>) {
    forall i, j :: 0 <= i < j < |nodes| ==> nodes[i].id != nodes[j].id && nodes[i].uuid != nodes[j].uuid
  }

  /** (source, target) pairs and UUIDs are unique. */
  ghost predicate UniqueEdges(edges: seq<TopoEdge>) {
    forall i, j :: 0 <= i < j < |edges| ==>
      !IsPair(edges[i], edges[j].source.id, edges[j].target.id) && edges[i].uuid != edges[j].uuid
  }

  lemma ListedStays(nodes: seq<TopoNode>, more: seq<TopoNode>, id: int)
    requires nodes <= more
    ensures Listed(nodes, id) ==> Listed(more, id)
    ensures forall n :: n in nodes ==> n in more
  {
    if Listed(nodes, id) {
      var i :| 0 <= i < |nodes| && nodes[i].id == id;
      assert more[i].id == id;
    }
    forall n | n in nodes ensures n in more {
      var i :| 0 <= i < |nodes| && nodes[i] == n;
      assert more[i] == n;
    }
  }

  lemma OthersDistinct(edges: seq<TopoEdge>, k: nat)
    requires UniqueEdges(edges) && k < |edges|
    ensures forall i :: 0 <= i < |edges| && i != k ==> edges[i] != edges[k]
  {
    forall i | 0 <= i < |edges| && i != k ensures edges[i] != edges[k] {}
  }

  lemma EdgesApart(edges: seq<TopoEdge>)
    requires UniqueEdges(edges)
    ensures Distinct(edges)
  {
    forall i, j | 0 <= i < j < |edges| ensures edges[i] != edges[j] { OthersDistinct(edges, j); }
  }

  lemma NodesApart(nodes: seq<TopoNode>)
    requires UniqueNodes(nodes)
    ensures Distinct(nodes)
  {
  }

  ghost predicate FreshNode(nodes: seq<TopoNode>, uuid: int) {
    forall i :: 0 <= i < |nodes| ==> nodes[i].uuid != uuid
  }

  ghost predicate FreshEdge(edges: seq<TopoEdge>, uuid: int) {
    forall i :: 0 <= i < |edges| ==> edges[i].uuid != uuid
  }

  // ---- Dates, as values ----

  /** A node's id with its date, and an edge's pair with its date. */
  datatype Stamp = Stamp(id: int, at: int)
  datatype Link = Link(source: int, target: int, at: int)

  ghost function Stamps(nodes: seq<TopoNode>): seq<Stamp>
    reads nodes
  {
    seq(|nodes|, i requires 0 <= i < |nodes| reads nodes => Stamp(nodes[i].id, nodes[i].lastUpdated))
  }

  ghost function Links(edges: seq<TopoEdge>): seq<Link>
    reads edges
  {
    seq(|edges|, i requires 0 <= i < |edges| reads edges =>
      Link(edges[i].source.id, edges[i].target.id, edges[i].lastUpdated))
  }

  /** Some node with this id is dated `since` or later. */
  ghost predicate Fresher(ns: seq<Stamp>, id: int, since: int) {
    exists i :: 0 <= i < |ns| && ns[i].id == id && ns[i].at >= since
  }

  ghost predicate LinkAged(ns: seq<Stamp>, l: Link, now: int) {
    l.at <= now && (now - l.at <= DELETE_LIMIT ==> Fresher(ns, l.source, l.at) && Fresher(ns, l.target, l.at))
  }

  /** Nothing is dated in the future, and every edge within the delete limit has both ends in the node list,
      dated no earlier than the edge itself. */
  ghost predicate AgedTables(ns: seq<Stamp>, ls: seq<Link>, now: int) {
    (forall i :: 0 <= i < |ns| ==> ns[i].at <= now) && forall i :: 0 <= i < |ls| ==> LinkAged(ns, ls[i], now)
  }

  /** What a report does to the node list: it only grows, and dates only move to `now`. */
  ghost predicate Dated(ns: seq<Stamp>, ms: seq<Stamp>, now: int) {
    && |ns| <= |ms|
    && (forall i :: 0 <= i < |ns| ==> ms[i].id == ns[i].id && (ms[i].at == ns[i].at || ms[i].at == now))
    && (forall i :: |ns| <= i < |ms| ==> ms[i].at == now)
  }

  lemma DatedTwice(ns: seq<Stamp>, ms: seq<Stamp>, ks: seq<Stamp>, now: int)
    requires Dated(ns, ms, now) && Dated(ms, ks, now)
    ensures Dated(ns, ks, now)
  {
  }

  /** A report refreshes or adds one edge; with both its ends dated `now` the ageing invariant is kept. */
  lemma ReportKeepsAge(ns: seq<Stamp>, ms: seq<Stamp>, ls: seq<Link>, ks: seq<Link>, k: nat, before: int, now: int)
    requires AgedTables(ns, ls, before) && before <= now && Dated(ns, ms, now)
    requires k < |ks| && |ls| <= |ks| <= |ls| + 1 && (|ks| > |ls| ==> k == |ls|)
    requires forall i :: 0 <= i < |ls| && i != k ==> ks[i] == ls[i]
    requires ks[k].at == now && Fresher(ms, ks[k].source, now) && Fresher(ms, ks[k].target, now)
    ensures AgedTables(ms, ks, now)
  {
    forall i | 0 <= i < |ks| ensures LinkAged(ms, ks[i], now) {
      if i != k && now - ks[i].at <= DELETE_LIMIT {
        assert LinkAged(ns, ls[i], before);
        FresherStays(ns, ms, ks[i].source, ks[i].at, before, now);
        FresherStays(ns, ms, ks[i].target, ks[i].at, before, now);
      }
    }
  }

  lemma FresherStays(ns: seq<Stamp>, ms: seq<Stamp>, id: int, since: int, before: int, now: int)
    requires Dated(ns, ms, now) && Fresher(ns, id, since) && since <= before <= now
    ensures Fresher(ms, id, since)
  {
    var i :| 0 <= i < |ns| && ns[i].id == id && ns[i].at >= since;
    assert ms[i].id == id && ms[i].at >= since;
  }

  /** Dating nodes alone, as the root's refresh does, keeps the ageing invariant. */
  lemma RefreshKeepsAge(ns: seq<Stamp>, ms: seq<Stamp>, ls: seq<Link>, before: int, now: int)
    requires AgedTables(ns, ls, before) && before <= now && Dated(ns, ms, now)
    ensures AgedTables(ms, ls, now)
  {
    forall i | 0 <= i < |ls| ensures LinkAged(ms, ls[i], now) {
      assert LinkAged(ns, ls[i], before);
      if now - ls[i].at <= DELETE_LIMIT {
        FresherStays(ns, ms, ls[i].source, ls[i].at, before, now);
        FresherStays(ns, ms, ls[i].target, ls[i].at, before, now);
      }
    }
  }

  /** Dropping edges, and only nodes past the delete limit, keeps the ageing invariant. */
  lemma SweepKeepsAge(ns: seq<Stamp>, ms: seq<Stamp>, ls: seq<Link>, ks: seq<Link>, before: int, now: int)
    requires AgedTables(ns, ls, before) && before <= now
    requires forall m :: m in ms ==> m in ns
    requires forall n :: n in ns && now - n.at <= DELETE_LIMIT ==> n in ms
    requires forall k :: k in ks ==> k in ls
    ensures AgedTables(ms, ks, now)
  {
    forall i | 0 <= i < |ms| ensures ms[i].at <= now {
      assert ms[i] in ns;
    }
    forall i | 0 <= i < |ks| ensures LinkAged(ms, ks[i], now) {
      assert ks[i] in ls;
      var j :| 0 <= j < |ls| && ls[j] == ks[i];
      assert LinkAged(ns, ls[j], before);
      if now - ks[i].at <= DELETE_LIMIT {
        KeptFresher(ns, ms, ks[i].source, ks[i].at, now);
        KeptFresher(ns, ms, ks[i].target, ks[i].at, now);
      }
    }
  }

  lemma KeptFresher(ns: seq<Stamp>, ms: seq<Stamp>, id: int, since: int, now: int)
    requires Fresher(ns, id, since) && now - since <= DELETE_LIMIT
    requires forall n :: n in ns && now - n.at <= DELETE_LIMIT ==> n in ms
    ensures Fresher(ms, id, since)
  {
    var i :| 0 <= i < |ns| && ns[i].id == id && ns[i].at >= since;
    assert ns[i] in ms;
  }

  /** At most dated: neighbours and root mark are the same, and a fresh node stays fresh. */
  twostate predicate Refreshed(n: TopoNode)
    reads n
  {
    n.neighbors == old(n.neighbors) && n.isRoot == old(n.isRoot) && (!old(n.isOld) ==> !n.isOld)
  }

  /** No neighbour is lost, and what marks a node as a root or as fresh stays. */
  twostate predicate Kept(n: TopoNode)
    reads n
  {
    old(n.neighbors) <= n.neighbors && n.isRoot == old(n.isRoot) && (!old(n.isOld) ==> !n.isOld)
  }

  /** Both ids are listed, dated `now`, not old, and are neighbours of each other. */
  ghost predicate Acquainted(nodes: seq<TopoNode>, a: int, b: int, now: int)
    reads nodes
  {
    exists i, j :: 0 <= i < |nodes| && 0 <= j < |nodes| && nodes[i].id == a && nodes[j].id == b
      && nodes[i].lastUpdated == now && nodes[j].lastUpdated == now && !nodes[i].isOld && !nodes[j].isOld
      && nodes[i].Knows(nodes[j]) && nodes[j].Knows(nodes[i])
  }

  lemma NodeFresher(nodes: seq<TopoNode>, node: TopoNode, now: int)
    requires node in nodes && node.lastUpdated == now
    ensures Fresher(Stamps(nodes), node.id, now) && Listed(nodes, node.id)
  {
    var i :| 0 <= i < |nodes| && nodes[i] == node;
    assert Stamps(nodes)[i].id == node.id;
  }

  lemma NodesAcquainted(nodes: seq<TopoNode>, a: TopoNode, b: TopoNode, now: int)
    requires a in nodes && b in nodes && a.lastUpdated == now && b.lastUpdated == now && !a.isOld && !b.isOld
    requires a.Knows(b) && b.Knows(a)
    ensures Acquainted(nodes, a.id, b.id, now)
  {
    var i :| 0 <= i < |nodes| && nodes[i] == a;
    var j :| 0 <= j < |nodes| && nodes[j] == b;
  }

  /** The pair is on record with an edge dated `now` that is not old. */
  ghost predicate HasFresh(edges: seq<TopoEdge>, source: int, target: int, now: int)
    reads edges
  {
    exists i :: 0 <= i < |edges| && IsPair(edges[i], source, target) && edges[i].lastUpdated == now && !edges[i].isOld
  }

  const TO_PARENT_TO_ROOT := 3

  /** What the server makes of a MESH_TOPOLOGY packet; 0 is an unset target id. */
  datatype Message = Unreadable | Report(forwarding: int, source: int, target: int)

  function Resolved(m: Message, session: int): int
    requires m.Report?
  {
    if m.forwarding == TO_PARENT_TO_ROOT && m.target == 0 then session else m.target
  }

  function Read(m: Message, session: int): set<(int, int)> {
    if m.Unreadable? then {} else {(m.source, Resolved(m, session))}
  }

  ghost predicate IsTarget(edges: seq<TopoEdge>, uuid: int) {
    exists i :: 0 <= i < |edges| && edges[i].target.uuid == uuid
  }

  ghost predicate IsSource(edges: seq<TopoEdge>, uuid: int) {
    exists i :: 0 <= i < |edges| && edges[i].source.uuid == uuid
  }

  ghost predicate IsIsolated(nodes: seq<TopoNode>, uuid: int)
    reads nodes
  {
    exists i :: 0 <= i < |nodes| && nodes[i].uuid == uuid && nodes[i].neighbors == []
  }

  lemma TargetsGrow(edges: seq<TopoEdge>, e: TopoEdge)
    ensures forall u :: IsTarget(edges + [e], u) <==> IsTarget(edges, u) || u == e.target.uuid
  {
    var all := edges + [e];
    forall u ensures IsTarget(all, u) <==> IsTarget(edges, u) || u == e.target.uuid {
      if IsTarget(edges, u) {
        var i :| 0 <= i < |edges| && edges[i].target.uuid == u;
        assert all[i].target.uuid == u;
      }
      assert all[|edges|] == e;
    }
  }

  lemma SourcesGrow(edges: seq<TopoEdge>, e: TopoEdge)
    ensures forall u :: IsSource(edges + [e], u) <==> IsSource(edges, u) || u == e.source.uuid
  {
    var all := edges + [e];
    forall u ensures IsSource(all, u) <==> IsSource(edges, u) || u == e.source.uuid {
      if IsSource(edges, u) {
        var i :| 0 <= i < |edges| && edges[i].source.uuid == u;
        assert all[i].source.uuid == u;
      }
      assert all[|edges|] == e;
    }
  }

  lemma IsolatedGrow(nodes: seq<TopoNode>, n: TopoNode)
    ensures forall u :: IsIsolated(nodes + [n], u) <==> IsIsolated(nodes, u) || (u == n.uuid && n.neighbors == [])
  {
    var all := nodes + [n];
    forall u ensures IsIsolated(all, u) <==> IsIsolated(nodes, u) || (u == n.uuid && n.neighbors == []) {
      if IsIsolated(nodes, u) {
        var i :| 0 <= i < |nodes| && nodes[i].uuid == u && nodes[i].neighbors == [];
        assert all[i].uuid == u && all[i].neighbors == [];
      }
      assert all[|nodes|] == n;
    }
  }

  /** The array behind the slice: the live entries, then nil. */
  ghost predicate EdgesMirrored(cells: array<TopoEdge?>, edges: seq<TopoEdge>)
    reads cells
  {
    |edges| <= cells.Length && forall k :: 0 <= k < cells.Length ==> cells[k] == if k < |edges| then edges[k] else null
  }

  ghost predicate NodesMirrored(cells: array<TopoNode?>, nodes: seq<TopoNode>)
    reads cells
  {
    |nodes| <= cells.Length && forall k :: 0 <= k < cells.Length ==> cells[k] == if k < |nodes| then nodes[k] else null
  }

  /** A sweep of unique edges keeps every unexpired one, adds none, and leaves them unique. */
  lemma KeptEdges(was: seq<TopoEdge>, left: seq<TopoEdge>, dead: set<TopoEdge>)
    requires UniqueEdges(was) && left == SweepFrom(was, 0, dead)
    ensures UniqueEdges(left)
    ensures forall e :: e in left ==> e in was
    ensures forall e :: e in was && e !in dead ==> e in left
  {
    forall e ensures (e in left ==> e in was) && (e in was && e !in dead ==> e in left) {
      SweepMembers(was, dead, e);
    }
    forall i, j | 0 <= i < j < |left|
      ensures !IsPair(left[i], left[j].source.id, left[j].target.id) && left[i].uuid != left[j].uuid
    {
      SweepDistinct(was, dead, i, j);
      assert left[i] in was && left[j] in was;
      var k :| 0 <= k < |was| && was[k] == left[i];
      var l :| 0 <= l < |was| && was[l] == left[j];
      assert k < l || l < k;
    }
  }

  lemma KeptNodes(was: seq<TopoNode>, left: seq<TopoNode>, dead: set<TopoNode>)
    requires UniqueNodes(was) && left == SweepFrom(was, 0, dead)
    ensures UniqueNodes(left)
    ensures forall n :: n in left ==> n in was
    ensures forall n :: n in was && n !in dead ==> n in left
  {
    forall n ensures (n in left ==> n in was) && (n in was && n !in dead ==> n in left) {
      SweepMembers(was, dead, n);
    }
    forall i, j | 0 <= i < j < |left| ensures left[i].id != left[j].id && left[i].uuid != left[j].uuid {
      SweepDistinct(was, dead, i, j);
      assert left[i] in was && left[j] in was;
      var k :| 0 <= k < |was| && was[k] == left[i];
      var l :| 0 <= l < |was| && was[l] == left[j];
      assert k < l || l < k;
    }
  }

  method Pick<T(==)>(s: set<T>) returns (x: T)
    requires s != {}
    ensures x in s
  {
    x :| x in s;
  }

  ghost function Pairs(edges: seq<TopoEdge>): set<(int, int)> {
    set i | 0 <= i < |edges| :: (edges[i].source.id, edges[i].target.id)
  }

  lemma SweptRecorded(was: seq<TopoEdge>, left: seq<TopoEdge>)
    requires forall e :: e in left ==> e in was
    ensures Pairs(left) <= Pairs(was)
  {
    forall p | p in Pairs(left) ensures p in Pairs(was) {
      var k :| 0 <= k < |left| && p == (left[k].source.id, left[k].target.id);
      assert left[k] in was;
      var j :| 0 <= j < |was| && was[j] == left[k];
    }
  }

  /** The pairs dated `since` or later. */
  ghost function PairsSince(edges: seq<TopoEdge>, since: int): set<(int, int)>
    reads edges
  {
    set i | 0 <= i < |edges| && edges[i].lastUpdated >= since :: (edges[i].source.id, edges[i].target.id)
  }

  twostate lemma SameSince(edges: seq<TopoEdge>)
    requires forall e :: e in edges ==> e.lastUpdated == old(e.lastUpdated)
    ensures forall since :: PairsSince(edges, since) == old(PairsSince(edges, since))
  {
  }

  lemma SweptSince(was: seq<TopoEdge>, left: seq<TopoEdge>, since: int)
    requires forall e :: e in was && e.lastUpdated >= since ==> e in left
    ensures PairsSince(was, since) <= PairsSince(left, since)
  {
    forall p | p in PairsSince(was, since) ensures p in PairsSince(left, since) {
      var k :| 0 <= k < |was| && was[k].lastUpdated >= since && p == (was[k].source.id, was[k].target.id);
      assert was[k] in left;
      var j :| 0 <= j < |left| && left[j] == was[k];
    }
  }

  lemma SweptKeepsAge(was: seq<TopoNode>, left: seq<TopoNode>, wasEdges: seq<TopoEdge>, leftEdges: seq<TopoEdge>,
        before: int, now: int)
    requires AgedTables(Stamps(was), Links(wasEdges), before) && before <= now
    requires forall n :: n in left ==> n in was
    requires forall n :: n in was && now - n.lastUpdated <= DELETE_LIMIT ==> n in left
    requires forall e :: e in leftEdges ==> e in wasEdges
    ensures AgedTables(Stamps(left), Links(leftEdges), now)
  {
    hide AgedTables;
    var ns, ms, ls, ks := Stamps(was), Stamps(left), Links(wasEdges), Links(leftEdges);
    forall m | m in ms ensures m in ns {
      var k :| 0 <= k < |left| && ms[k] == m;
      assert left[k] in was;
      var j :| 0 <= j < |was| && was[j] == left[k];
      assert ns[j] == m;
    }
    forall n | n in ns && now - n.at <= DELETE_LIMIT ensures n in ms {
      var j :| 0 <= j < |was| && ns[j] == n;
      assert was[j] in left;
      var k :| 0 <= k < |left| && left[k] == was[j];
      assert ms[k] == n;
    }
    forall m | m in ks ensures m in ls {
      var k :| 0 <= k < |leftEdges| && ks[k] == m;
      assert leftEdges[k] in wasEdges;
      var j :| 0 <= j < |wasEdges| && wasEdges[j] == leftEdges[k];
      assert ls[j] == m;
    }
    SweepKeepsAge(ns, ms, ls, ks, before, now);
  }

  /** What two sweeps leave behind, dates and flags apart. */
  lemma SweptTables(wasNodes: seq<TopoNode>, nodes: seq<TopoNode>, deadNodes: set<TopoNode>, wasEdges: seq<TopoEdge>,
        edges: seq<TopoEdge>, deadEdges: set<TopoEdge>, before: int, now: int)
    requires UniqueNodes(wasNodes) && UniqueEdges(wasEdges) && before <= now
    requires AgedTables(Stamps(wasNodes), Links(wasEdges), before)
    requires deadEdges == set e | e in wasEdges && now - e.lastUpdated > DELETE_LIMIT
    requires deadNodes == set n | n in wasNodes && now - n.lastUpdated > DELETE_LIMIT
    requires edges == SweepFrom(wasEdges, 0, deadEdges) && nodes == SweepFrom(wasNodes, 0, deadNodes)
    ensures UniqueNodes(nodes) && UniqueEdges(edges) && AgedTables(Stamps(nodes), Links(edges), now)
    ensures Pairs(edges) <= Pairs(wasEdges)
    ensures forall since :: now - since <= DELETE_LIMIT ==> PairsSince(wasEdges, since) <= PairsSince(edges, since)
    ensures Count(edges, deadEdges) <= Count(wasEdges, deadEdges) / 2 && Count(wasEdges, deadEdges) <= |wasEdges|
    ensures Count(edges, deadEdges) == 0 <==> TailAlive(wasEdges, Count(wasEdges, deadEdges), deadEdges)
    ensures Count(nodes, deadNodes) <= Count(wasNodes, deadNodes) / 2 && Count(wasNodes, deadNodes) <= |wasNodes|
    ensures Count(nodes, deadNodes) == 0 <==> TailAlive(wasNodes, Count(wasNodes, deadNodes), deadNodes)
    ensures (forall n :: n in nodes ==> n in wasNodes) && forall e :: e in edges ==> e in wasEdges
    ensures (deadEdges == {} ==> edges == wasEdges) && (deadNodes == {} ==> nodes == wasNodes)
  {
    hide AgedTables;
    hide UniqueNodes;
    hide UniqueEdges;
    KeptEdges(wasEdges, edges, deadEdges);
    KeptNodes(wasNodes, nodes, deadNodes);
    SweptKeepsAge(wasNodes, nodes, wasEdges, edges, before, now);
    SweptRecorded(wasEdges, edges);
    SweepHalves(wasEdges, deadEdges);
    SweepClears(wasEdges, deadEdges);
    SweepHalves(wasNodes, deadNodes);
    SweepClears(wasNodes, deadNodes);
    forall since | now - since <= DELETE_LIMIT ensures PairsSince(wasEdges, since) <= PairsSince(edges, since) {
      SweptSince(wasEdges, edges, since);
    }
    if deadEdges == {} { SweepNothing(wasEdges, 0, deadEdges); }
    if deadNodes == {} { SweepNothing(wasNodes, 0, deadNodes); }
  }

  class RemTopology {
    var nodes: seq<TopoNode>
    var edges: seq<TopoEdge>

    constructor ()
      ensures Valid() && nodes == [] && edges == []
    {
      nodes, edges := [], [];
    }

    ghost predicate Valid()
      reads this
    {
      UniqueNodes(nodes) && UniqueEdges(edges)
    }

    ghost predicate Aged(now: int)
      reads this, nodes, edges
    {
      AgedTables(Stamps(nodes), Links(edges), now)
    }

    /** The node objects an operation may date: the listed ones and the ends of listed edges. */
    ghost function Objects(): set<TopoNode>
      reads this
    {
      (set i | 0 <= i < |nodes| :: nodes[i]) + (set i | 0 <= i < |edges| :: edges[i].source)
      + (set i | 0 <= i < |edges| :: edges[i].target)
    }

    method GetNodeFromID(id: int) returns (node: TopoNode?)
      ensures node == null <==> !Listed(nodes, id)
      ensures node != null ==> node in nodes && node.id == id
    {
      node := null;
      for i := 0 to |nodes|
        invariant node == null <==> !Listed(nodes[..i], id)
        invariant node != null ==> node in nodes && node.id == id
      {
        if nodes[i].id == id { node := nodes[i]; }
        assert nodes[..i + 1] == nodes[..i] + [nodes[i]];
        assert Listed(nodes[..i], id) ==> Listed(nodes[..i + 1], id) by {
          if Listed(nodes[..i], id) {
            var j :| 0 <= j < i && nodes[..i][j].id == id;
            assert nodes[..i + 1][j].id == id;
          }
        }
        assert nodes[..i + 1][i] == nodes[i];
      }
      assert nodes[..|nodes|] == nodes;
    }

    method GetNodeFromUUID(uuid: int) returns (node: TopoNode?)
      ensures node == null ==> forall n :: n in nodes ==> n.uuid != uuid
      ensures node != null ==> node in nodes && node.uuid == uuid
    {
      node := null;
      for i := 0 to |nodes|
        invariant node == null ==> forall j :: 0 <= j < i ==> nodes[j].uuid != uuid
        invariant node != null ==> node in nodes && node.uuid == uuid
      {
        if nodes[i].uuid == uuid { node := nodes[i]; }
      }
    }

    method GetEdgeFromID(source: int, target: int) returns (edge: TopoEdge?)
      ensures edge == null <==> !HasPair(edges, source, target)
      ensures edge != null ==> edge in edges && IsPair(edge, source, target)
    {
      edge := null;
      for i := 0 to |edges|
        invariant edge == null <==> forall j :: 0 <= j < i ==> !IsPair(edges[j], source, target)
        invariant edge != null ==> edge in edges && IsPair(edge, source, target)
      {
        if edges[i].source.id == source && edges[i].target.id == target { edge := edges[i]; }
      }
    }

    method ObtainNode(id: int, now: int, freshUUID: int) returns (node: TopoNode)
      requires Valid() && (Listed(nodes, id) || FreshNode(nodes, freshUUID))
      modifies this`nodes, nodes
      ensures Valid() && node in nodes && node.id == id && node.lastUpdated == now && !node.isOld
      ensures if Listed(old(nodes), id) then nodes == old(nodes)
              else fresh(node) && node.uuid == freshUUID && nodes == old(nodes) + [node] && node.neighbors == []
      ensures Dated(old(Stamps(nodes)), Stamps(nodes), now)
      ensures forall n: TopoNode :: n in old(nodes) ==> n in nodes
      ensures old(nodes) <= nodes && forall n: TopoNode :: n in nodes ==> n in old(nodes) || fresh(n)
      ensures forall n: TopoNode :: n in old(nodes) && n != node ==> unchanged(n)
      ensures forall n: TopoNode :: n in old(nodes) ==> Refreshed(n)
    {
      var found := GetNodeFromID(id);
      if found == null {
        node := new TopoNode(id, freshUUID, now);
        assert forall i :: 0 <= i < |nodes| ==> nodes[i].id != id;
        nodes := nodes + [node];
        ListedStays(old(nodes), nodes, id);
      } else {
        node := found;
        node.lastUpdated := now;
        node.isOld := false;
      }
    }

    /** The branch of `ObtainEdge` that finds the edge. */
    method RefreshEdge(edge: TopoEdge, now: int)
      requires edge in edges
      modifies edge, edge.source, edge.target
      ensures edge.lastUpdated == now && !edge.isOld && EndsDated(edge, now)
      ensures forall n: TopoNode :: n in nodes && old(n.lastUpdated) == now ==> n.lastUpdated == now
      ensures Dated(old(Stamps(nodes)), Stamps(nodes), now)
      ensures forall n: TopoNode :: n in nodes ==> Refreshed(n)
    {
      edge.lastUpdated := now;
      edge.isOld := false;
      edge.source.lastUpdated := edge.lastUpdated;
      edge.source.isOld := false;
      edge.target.lastUpdated := edge.lastUpdated;
      edge.target.isOld := false;
    }

    /** The branch of `ObtainEdge` that finds no edge. */
    method AddEdge(source: int, target: int, now: int, sourceUUID: int, targetUUID: int, edgeUUID: int)
      returns (edge: TopoEdge)
      requires Valid() && sourceUUID != targetUUID
      requires Listed(nodes, source) || FreshNode(nodes, sourceUUID)
      requires Listed(nodes, target) || FreshNode(nodes, targetUUID)
      requires FreshEdge(edges, edgeUUID) && !HasPair(edges, source, target)
      modifies this, nodes
      ensures Valid() && fresh(edge) && IsPair(edge, source, target) && edge.lastUpdated == now && !edge.isOld
      ensures EndsDated(edge, now)
      ensures edges == old(edges) + [edge] && old(nodes) <= nodes
      ensures forall n: TopoNode :: n in old(nodes) && old(n.lastUpdated) == now ==> n.lastUpdated == now
      ensures Listed(nodes, source) && Listed(nodes, target)
      ensures Listed(old(nodes), source) && Listed(old(nodes), target) ==> nodes == old(nodes)
      ensures Dated(old(Stamps(nodes)), Stamps(nodes), now)
      ensures forall n: TopoNode :: n in old(nodes) && n.id != source && n.id != target ==> unchanged(n)
      ensures forall n: TopoNode :: n in old(nodes) ==> Refreshed(n)
      ensures forall n: TopoNode :: n in nodes ==> n in old(nodes) || (fresh(n) && (n.id == source || n.id == target))
      ensures edge.source in nodes && edge.target in nodes
    {
      hide UniqueNodes;
      hide Dated;
      var sourceNode := ObtainNode(source, now, sourceUUID);
      ListedStays(old(nodes), nodes, target);
      assert sourceNode in nodes;
      ghost var ms := Stamps(nodes);
      var targetNode := ObtainNode(target, now, targetUUID);
      DatedTwice(old(Stamps(nodes)), ms, Stamps(nodes), now);
      assert sourceNode in nodes && targetNode in nodes;
      edge := new TopoEdge(sourceNode, targetNode, edgeUUID, now);
      edges := edges + [edge];
    }

    method ObtainEdge(source: int, target: int, now: int, sourceUUID: int, targetUUID: int, edgeUUID: int)
      returns (edge: TopoEdge)
      requires Valid() && sourceUUID != targetUUID
      requires Listed(nodes, source) || FreshNode(nodes, sourceUUID)
      requires Listed(nodes, target) || FreshNode(nodes, targetUUID)
      requires FreshEdge(edges, edgeUUID)
      modifies this, Objects(), edges
      ensures Valid() && edge in edges && IsPair(edge, source, target) && edge.lastUpdated == now && !edge.isOld
      ensures EndsDated(edge, now)
      ensures if HasPair(old(edges), source, target) then edges == old(edges) && nodes == old(nodes)
              else fresh(edge) && edges == old(edges) + [edge] && Listed(nodes, source) && Listed(nodes, target)
      ensures old(nodes) <= nodes && (edge in old(edges) || fresh(edge))
      ensures forall n: TopoNode :: n in old(nodes) && old(n.lastUpdated) == now ==> n.lastUpdated == now
      ensures Listed(old(nodes), source) && Listed(old(nodes), target) ==> nodes == old(nodes)
      ensures Dated(old(Stamps(nodes)), Stamps(nodes), now)
      ensures forall e: TopoEdge :: e in old(edges) && e != edge ==> unchanged(e)
      ensures forall n: TopoNode :: n in old(nodes) && n.id != source && n.id != target ==> unchanged(n)
      ensures forall n: TopoNode :: n in old(nodes) ==> Refreshed(n)
      ensures forall n: TopoNode :: n in nodes ==> n in old(nodes) || (fresh(n) && (n.id == source || n.id == target))
      ensures edge !in old(edges) ==> edge.source in nodes && edge.target in nodes
    {
      hide UniqueNodes;
      hide UniqueEdges;
      hide Dated;
      hide Stamps;
      var found := GetEdgeFromID(source, target);
      if found == null {
        edge := AddEdge(source, target, now, sourceUUID, targetUUID, edgeUUID);
      } else {
        edge := found;
        RefreshEdge(edge, now);
      }
    }

    /** `MakeEdgeFromIDs`, one atomic step at time `now`; the nodes are the ones it obtains first. */
    method MakeEdgeFromIDs(source: int, target: int, now: int, sourceUUID: int, targetUUID: int, edgeUUID: int,
          ghost before: int)
      returns (edge: TopoEdge)
      requires Valid() && sourceUUID != targetUUID
      requires Listed(nodes, source) || FreshNode(nodes, sourceUUID)
      requires Listed(nodes, target) || FreshNode(nodes, targetUUID)
      requires FreshEdge(edges, edgeUUID)
      requires Aged(before) && before <= now
      modifies this, Objects(), edges
      ensures Valid() && Aged(now)
      ensures edge in edges && IsPair(edge, source, target) && edge.lastUpdated == now && !edge.isOld
      ensures edges == if HasPair(old(edges), source, target) then old(edges) else old(edges) + [edge]
      ensures Dated(old(Stamps(nodes)), Stamps(nodes), now) && old(nodes) <= nodes
      ensures forall n: TopoNode :: n in old(nodes) ==> n in nodes
      ensures Acquainted(nodes, source, target, now)
      ensures forall e: TopoEdge :: e in old(edges) && e != edge ==> e.lastUpdated == old(e.lastUpdated)
      ensures forall e: TopoEdge :: e in old(edges) && e != edge ==> e.isOld == old(e.isOld)
      ensures forall n: TopoNode :: n in old(nodes) && n.id != source && n.id != target ==> unchanged(n)
      ensures forall n: TopoNode :: n in old(nodes) ==> Kept(n)
      ensures forall n: TopoNode :: n in nodes ==> n in old(nodes) || (fresh(n) && (n.id == source || n.id == target))
      ensures edge in old(edges) || (fresh(edge) && edge.source in nodes && edge.target in nodes)
    {
      hide AgedTables;
      hide UniqueNodes;
      hide UniqueEdges;
      hide Fresher;
      hide HasPair;
      hide FreshNode;
      hide FreshEdge;
      hide Listed;
      hide Acquainted;
      hide Dated;
      ghost var ns, ls := Stamps(nodes), Links(edges);
      var sourceNode, targetNode;
      sourceNode, targetNode, edge := ObtainAll(source, target, now, sourceUUID, targetUUID, edgeUUID);
      ghost var ms, ks := Stamps(nodes), Links(edges);
      var k :| 0 <= k < |edges| && edges[k] == edge;
      OthersDistinct(edges, k);
      assert |ks| > |ls| ==> edges[|ls|] == edge;
      assert ks[k] == Link(source, target, now);
      assert forall i :: 0 <= i < |ls| && i != k ==> ks[i] == ls[i];
      ReportKeepsAge(ns, ms, ls, ks, k, before, now);
      assert edge.source.id == source && edge.target.id == target;  // the "nodes do not match" panic never fires
      Introduce(sourceNode, targetNode, edge, now);
      NodesAcquainted(nodes, sourceNode, targetNode, now);
    }

    method ObtainAll(source: int, target: int, now: int, sourceUUID: int, targetUUID: int, edgeUUID: int)
      returns (sourceNode: TopoNode, targetNode: TopoNode, edge: TopoEdge)
      requires Valid() && sourceUUID != targetUUID
      requires Listed(nodes, source) || FreshNode(nodes, sourceUUID)
      requires Listed(nodes, target) || FreshNode(nodes, targetUUID)
      requires FreshEdge(edges, edgeUUID)
      modifies this, Objects(), edges
      ensures Valid() && edge in edges && IsPair(edge, source, target) && edge.lastUpdated == now && !edge.isOld
      ensures sourceNode in nodes && sourceNode.id == source && sourceNode.lastUpdated == now && !sourceNode.isOld
      ensures targetNode in nodes && targetNode.id == target && targetNode.lastUpdated == now && !targetNode.isOld
      ensures sourceNode in old(nodes) || fresh(sourceNode)
      ensures targetNode in old(nodes) || fresh(targetNode)
      ensures edge in old(edges) || fresh(edge)
      ensures edges == if HasPair(old(edges), source, target) then old(edges) else old(edges) + [edge]
      ensures Dated(old(Stamps(nodes)), Stamps(nodes), now) && old(nodes) <= nodes
      ensures forall n: TopoNode :: n in old(nodes) ==> n in nodes
      ensures forall e: TopoEdge :: e in old(edges) && e != edge ==> e.lastUpdated == old(e.lastUpdated)
      ensures forall e: TopoEdge :: e in old(edges) && e != edge ==> e.isOld == old(e.isOld)
      ensures forall n: TopoNode :: n in old(nodes) && n.id != source && n.id != target ==> unchanged(n)
      ensures Fresher(Stamps(nodes), source, now) && Fresher(Stamps(nodes), target, now)
      ensures forall n: TopoNode :: n in old(nodes) ==> Refreshed(n)
      ensures forall n: TopoNode :: n in nodes ==> n in old(nodes) || (fresh(n) && (n.id == source || n.id == target))
      ensures edge !in old(edges) ==> edge.source in nodes && edge.target in nodes
    {
      hide UniqueEdges;
      hide UniqueNodes;
      hide Dated;
      hide HasPair;
      hide Fresher;
      hide Stamps;
      hide FreshNode;
      hide FreshEdge;
      hide EndsDated;
      ghost var ns := Stamps(nodes);
      sourceNode, targetNode := ObtainEnds(source, target, now, sourceUUID, targetUUID);
      ghost var ms := Stamps(nodes);
      forall o | o in Objects() ensures o in old(Objects()) || fresh(o) {
        if o in nodes { assert o in old(nodes) || fresh(o); }
      }
      edge := ObtainEdge(source, target, now, sourceUUID, targetUUID, edgeUUID);
      DatedTwice(ns, ms, Stamps(nodes), now);
      FresherStays(ms, Stamps(nodes), source, now, now, now);
      FresherStays(ms, Stamps(nodes), target, now, now, now);
    }

    method ObtainEnds(source: int, target: int, now: int, sourceUUID: int, targetUUID: int)
      returns (sourceNode: TopoNode, targetNode: TopoNode)
      requires Valid() && sourceUUID != targetUUID
      requires Listed(nodes, source) || FreshNode(nodes, sourceUUID)
      requires Listed(nodes, target) || FreshNode(nodes, targetUUID)
      modifies this`nodes, nodes
      ensures Valid()
      ensures sourceNode in nodes && sourceNode.id == source && sourceNode.lastUpdated == now && !sourceNode.isOld
      ensures targetNode in nodes && targetNode.id == target && targetNode.lastUpdated == now && !targetNode.isOld
      ensures sourceNode in old(nodes) || fresh(sourceNode)
      ensures targetNode in old(nodes) || fresh(targetNode)
      ensures Dated(old(Stamps(nodes)), Stamps(nodes), now)
      ensures forall n: TopoNode :: n in old(nodes) ==> Refreshed(n)
      ensures forall n: TopoNode :: n in nodes ==> n in old(nodes) || (fresh(n) && (n.id == source || n.id == target))
      ensures old(nodes) <= nodes
      ensures forall n: TopoNode :: n in old(nodes) ==> n in nodes
      ensures Listed(nodes, source) && Listed(nodes, target)
      ensures Fresher(Stamps(nodes), source, now) && Fresher(Stamps(nodes), target, now)
      ensures forall n: TopoNode :: n in old(nodes) && n.id != source && n.id != target ==> unchanged(n)
    {
      hide UniqueEdges;
      hide UniqueNodes;
      hide Dated;
      hide Fresher;
      ghost var ns := Stamps(nodes);
      targetNode := ObtainNode(target, now, targetUUID);
      ListedStays(old(nodes), nodes, source);
      ghost var ms := Stamps(nodes);
      sourceNode := ObtainNode(source, now, sourceUUID);
      DatedTwice(ns, ms, Stamps(nodes), now);
      assert targetNode in nodes && sourceNode in nodes;
      NodeFresher(nodes, sourceNode, now);
      NodeFresher(nodes, targetNode, now);
    }

    /** The end of `MakeEdgeFromIDs`: all three are dated `now` already, so no date changes. */
    method Introduce(sourceNode: TopoNode, targetNode: TopoNode, edge: TopoEdge, now: int)
      requires sourceNode.lastUpdated == now && targetNode.lastUpdated == now && edge.lastUpdated == now
      modifies sourceNode, targetNode, edge
      ensures sourceNode.Knows(targetNode) && targetNode.Knows(sourceNode)
      ensures sourceNode.lastUpdated == now && targetNode.lastUpdated == now && edge.lastUpdated == now
      ensures Kept(sourceNode) && Kept(targetNode) && edge.isOld == old(edge.isOld)
      ensures sourceNode.isOld == old(sourceNode.isOld) && targetNode.isOld == old(targetNode.isOld)
      ensures forall m :: m in sourceNode.neighbors || m in targetNode.neighbors ==>
        m in old(sourceNode.neighbors) || m in old(targetNode.neighbors) || m == sourceNode || m == targetNode
      ensures Stamps(nodes) == old(Stamps(nodes)) && Links(edges) == old(Links(edges))
    {
      edge.lastUpdated := now;
      targetNode.AddNeighbor(sourceNode);
      sourceNode.AddNeighbor(targetNode);
      targetNode.lastUpdated := edge.lastUpdated;
      sourceNode.lastUpdated := edge.lastUpdated;
    }

    /** The (source, target) pairs on record. */
    ghost function Recorded(): set<(int, int)>
      reads this
    {
      Pairs(edges)
    }

    ghost function RecordedSince(since: int): set<(int, int)>
      reads this, edges
    {
      PairsSince(edges, since)
    }

    method CreateRoot(id: int, now: int, freshUUID: int, ghost before: int) returns (node: TopoNode)
      requires Valid() && (Listed(nodes, id) || FreshNode(nodes, freshUUID))
      requires Aged(before) && before <= now
      modifies this`nodes, nodes
      ensures Valid() && Aged(now)
      ensures node in nodes && node.id == id && node.isRoot && node.lastUpdated == now && !node.isOld
      ensures nodes == if Listed(old(nodes), id) then old(nodes) else old(nodes) + [node]
      ensures forall n: TopoNode :: n in old(nodes) && n != node ==> unchanged(n)
      ensures forall n: TopoNode :: n in nodes ==> n in old(nodes) || fresh(n)
    {
      hide AgedTables;
      node := ObtainNode(id, now, freshUUID);
      RefreshKeepsAge(old(Stamps(nodes)), Stamps(nodes), Links(edges), before, now);
      ghost var ms := Stamps(nodes);
      node.isRoot := true;
      assert Stamps(nodes) == ms;
    }

    lemma LaterKeepsAge(before: int, now: int)
      requires Aged(before) && before <= now
      ensures Aged(now)
    {
      RefreshKeepsAge(Stamps(nodes), Stamps(nodes), Links(edges), before, now);
    }

    /** The two nodes `Handle` obtains before it makes the edge. */
    method ObtainBoth(source: int, target: int, now: int, sourceUUID: int, targetUUID: int, ghost before: int)
      returns (first: TopoNode, second: TopoNode)
      requires Valid() && sourceUUID != targetUUID && FreshNode(nodes, sourceUUID) && FreshNode(nodes, targetUUID)
      requires Aged(before) && before <= now
      modifies this`nodes, nodes
      ensures Valid() && Aged(now) && first.id == source && second.id == target
      ensures Listed(nodes, source) && Listed(nodes, target)
      ensures forall n: TopoNode :: n in old(nodes) ==> Refreshed(n)
      ensures forall n: TopoNode :: n in nodes ==> n in old(nodes) || (fresh(n) && (n.id == source || n.id == target))
      ensures old(nodes) <= nodes
      ensures forall n: TopoNode :: n in old(nodes) ==> n in nodes
      ensures forall n: TopoNode :: n in old(nodes) && n.id != source && n.id != target ==> unchanged(n)
    {
      hide AgedTables;
      hide Dated;
      hide UniqueNodes;
      ghost var ns := Stamps(nodes);
      first := ObtainNode(source, now, sourceUUID);
      ghost var ms := Stamps(nodes);
      second := ObtainNode(target, now, targetUUID);
      DatedTwice(ns, ms, Stamps(nodes), now);
      RefreshKeepsAge(ns, Stamps(nodes), Links(edges), before, now);
    }

    lemma RecordedGrows(before: seq<TopoEdge>, edge: TopoEdge)
      requires edge in edges
      requires edges == before || edges == before + [edge]
      ensures Recorded() == Pairs(before) + {(edge.source.id, edge.target.id)}
    {
      var pairs := Pairs(before);
      var p := (edge.source.id, edge.target.id);
      forall q | q in pairs + {p} ensures q in Recorded() {
        if q in pairs {
          var i :| 0 <= i < |before| && q == (before[i].source.id, before[i].target.id);
          assert edges[i] == before[i];
        } else {
          var k :| 0 <= k < |edges| && edges[k] == edge;
        }
      }
    }

    lemma DatedGrows(before: seq<TopoEdge>, edge: TopoEdge, since: int, pairs: set<(int, int)>)
      requires edge in edges && edge.lastUpdated >= since && before <= edges
      requires forall p :: p in pairs ==> exists i ::
        0 <= i < |before| && p == (before[i].source.id, before[i].target.id)
        && (before[i] == edge || before[i].lastUpdated >= since)
      ensures pairs + {(edge.source.id, edge.target.id)} <= RecordedSince(since)
    {
      var own := (edge.source.id, edge.target.id);
      forall p | p in pairs + {own} ensures p in RecordedSince(since) {
        if p in pairs {
          var i :| 0 <= i < |before| && p == (before[i].source.id, before[i].target.id)
                   && (before[i] == edge || before[i].lastUpdated >= since);
          assert edges[i] == before[i];
        } else {
          var k :| 0 <= k < |edges| && edges[k] == edge;
        }
      }
    }

    /** The branch of `Handle` for a report that can be read. */
    method RecordReport(source: int, target: int, now: int, sourceUUID: int, targetUUID: int, edgeUUID: int,
          ghost before: int)
      returns (edge: TopoEdge)
      requires Valid() && sourceUUID != targetUUID
      requires FreshNode(nodes, sourceUUID) && FreshNode(nodes, targetUUID) && FreshEdge(edges, edgeUUID)
      requires Aged(before) && before <= now
      modifies this, Objects(), edges
      ensures Valid() && Aged(now) && Acquainted(nodes, source, target, now)
      ensures edge in edges && IsPair(edge, source, target) && edge.lastUpdated == now && !edge.isOld
      ensures edges == if HasPair(old(edges), source, target) then old(edges) else old(edges) + [edge]
      ensures forall e: TopoEdge :: e in old(edges) && e != edge ==> e.lastUpdated == old(e.lastUpdated)
      ensures old(nodes) <= nodes && forall n: TopoNode :: n in old(nodes) ==> Kept(n)
      ensures forall n: TopoNode :: n in old(nodes) && n.id != source && n.id != target ==> unchanged(n)
      ensures forall n: TopoNode :: n in nodes ==> n in old(nodes) || (fresh(n) && (n.id == source || n.id == target))
      ensures edge in old(edges) || (fresh(edge) && edge.source in nodes && edge.target in nodes)
    {
      hide AgedTables;
      hide UniqueNodes;
      hide UniqueEdges;
      hide Acquainted;
      hide HasPair;
      hide Dated;
      hide FreshNode;
      hide FreshEdge;
      var first, second := ObtainBoth(source, target, now, sourceUUID, targetUUID, before);
      forall o | o in Objects() ensures o in old(Objects()) || fresh(o) {
        if o in nodes { assert o in old(nodes) || fresh(o); }
      }
      edge := MakeEdgeFromIDs(first.id, second.id, now, sourceUUID, targetUUID, edgeUUID, now);
    }

    /** A report from the mesh: target 0 from a node whose parent is this server stands for the server session. */
    method Handle(message: Message, session: int, now: int, sourceUUID: int, targetUUID: int, edgeUUID: int,
          ghost before: int)
      requires Valid() && sourceUUID != targetUUID
      requires FreshNode(nodes, sourceUUID) && FreshNode(nodes, targetUUID) && FreshEdge(edges, edgeUUID)
      requires Aged(before) && before <= now
      modifies this, Objects(), edges
      ensures Valid() && Aged(now)
      ensures Recorded() == old(Recorded()) + Read(message, session)
      ensures message.Report? ==> HasPair(edges, message.source,
        if message.forwarding == TO_PARENT_TO_ROOT && message.target == 0 then session else message.target)
      ensures message.Unreadable? ==> unchanged(this) && forall o :: o in old(Objects()) ==> unchanged(o)
      ensures message.Report? ==> Acquainted(nodes, message.source, Resolved(message, session), now)
      ensures old(edges) <= edges
      ensures forall since :: since <= now ==>
        old(RecordedSince(since)) + Read(message, session) <= RecordedSince(since)
      ensures message.Report? ==> forall n: TopoNode ::
        n in old(nodes) && n.id != message.source && n.id != Resolved(message, session) ==> unchanged(n)
      ensures message.Report? ==> HasFresh(edges, message.source, Resolved(message, session), now)
      ensures old(nodes) <= nodes && forall n: TopoNode :: n in old(nodes) ==> Kept(n)
      ensures forall n: TopoNode :: n in nodes ==>
        n in old(nodes) || (fresh(n) && message.Report? && n.id in {message.source, Resolved(message, session)})
      ensures forall e: TopoEdge :: e in edges ==>
        e in old(edges) || (fresh(e) && e.source in nodes && e.target in nodes)
    {
      hide AgedTables;
      hide UniqueNodes;
      hide UniqueEdges;
      hide Acquainted;
      if message.Unreadable? {
        LaterKeepsAge(before, now);
        return;
      }
      var edge := RecordReport(message.source, Resolved(message, session), now, sourceUUID, targetUUID, edgeUUID,
                               before);
      RecordedGrows(old(edges), edge);
      forall since | since <= now
        ensures old(RecordedSince(since)) + Read(message, session) <= RecordedSince(since)
      {
        DatedGrows(old(edges), edge, since, old(RecordedSince(since)));
      }
    }

    /** The last live entry moves into the hole and its old place becomes nil. */
    method DropEdge(cells: array<TopoEdge?>, i: nat)
      requires i < |edges| && EdgesMirrored(cells, edges)
      modifies this`edges, cells
      ensures edges == SwapRemove(old(edges), i) && EdgesMirrored(cells, edges)
      ensures forall x :: x in edges ==> x in old(edges)
    {
      var last := |edges| - 1;
      edges, cells[i] := edges[i := edges[last]], cells[last];
      edges, cells[last] := edges[..last], null;
    }

    /** The first loop of `updateLifeDuration`. It ranges over the slice as it was, `cells`, whose tail it sets to nil
        while `edges` gets shorter; the index is checked against the shorter slice. */
    method SweepEdges(now: int, ghost dead: set<TopoEdge>)
      requires dead == set e | e in edges && now - e.lastUpdated > DELETE_LIMIT
      modifies this`edges, edges`isOld
      ensures edges == SweepFrom(old(edges), 0, dead)
      ensures forall e: TopoEdge :: e in old(edges) ==>
        e.isOld == if e in Examined(old(edges), 0, dead) - dead then now - e.lastUpdated > OLD_LIMIT else old(e.isOld)
      ensures Distinct(old(edges)) ==> |edges| <= |old(edges)|
      ensures Distinct(old(edges)) ==> forall k, e :: e in old(edges) && 0 <= k < |edges| && edges[k] == e ==>
        e.isOld == if e == old(edges)[k] then now - e.lastUpdated > OLD_LIMIT else old(e.isOld)
    {
      ghost var was := edges;
      ghost var seen: set<TopoEdge> := {};
      var cells := new TopoEdge?[|edges|](i requires 0 <= i < |edges| reads this => edges[i]);
      for i := 0 to cells.Length
        invariant fresh(cells)
        invariant forall x :: x in edges ==> x in was
        invariant EdgesMirrored(cells, edges)
        invariant SweepFrom(edges, i, dead) == SweepFrom(was, 0, dead)
        invariant seen + Examined(edges, i, dead) == Examined(was, 0, dead)
        invariant forall e: TopoEdge :: e in was ==>
          e.isOld == if e in seen - dead then now - e.lastUpdated > OLD_LIMIT else old(e.isOld)
      {
        var edge := cells[i];
        if edge != null {
          assert edge == edges[i] && edge in was;
          seen := seen + {edge};
          if now - edge.lastUpdated > DELETE_LIMIT {
            DropEdge(cells, i);
          } else if now - edge.lastUpdated > OLD_LIMIT {
            edge.isOld := true;
          } else {
            edge.isOld := false;
          }
        }
      }
      if Distinct(was) { LeftInPlace(was, edges, dead); }
    }

    /** The last live entry moves into the hole and its old place becomes nil. */
    method DropNode(cells: array<TopoNode?>, i: nat)
      requires i < |nodes| && NodesMirrored(cells, nodes)
      modifies this`nodes, cells
      ensures nodes == SwapRemove(old(nodes), i) && NodesMirrored(cells, nodes)
      ensures forall x :: x in nodes ==> x in old(nodes)
    {
      var last := |nodes| - 1;
      nodes, cells[i] := nodes[i := nodes[last]], cells[last];
      nodes, cells[last] := nodes[..last], null;
    }

    /** The second loop, the same over the nodes. */
    method SweepNodes(now: int, ghost dead: set<TopoNode>)
      requires dead == set n | n in nodes && now - n.lastUpdated > DELETE_LIMIT
      modifies this`nodes, nodes`isOld
      ensures nodes == SweepFrom(old(nodes), 0, dead)
      ensures forall n: TopoNode :: n in old(nodes) ==>
        n.isOld == if n in Examined(old(nodes), 0, dead) - dead then now - n.lastUpdated > OLD_LIMIT else old(n.isOld)
      ensures Distinct(old(nodes)) ==> |nodes| <= |old(nodes)|
      ensures Distinct(old(nodes)) ==> forall k, n :: n in old(nodes) && 0 <= k < |nodes| && nodes[k] == n ==>
        n.isOld == if n == old(nodes)[k] then now - n.lastUpdated > OLD_LIMIT else old(n.isOld)
    {
      ghost var was := nodes;
      ghost var seen: set<TopoNode> := {};
      var cells := new TopoNode?[|nodes|](i requires 0 <= i < |nodes| reads this => nodes[i]);
      for i := 0 to cells.Length
        invariant fresh(cells)
        invariant forall x :: x in nodes ==> x in was
        invariant NodesMirrored(cells, nodes)
        invariant SweepFrom(nodes, i, dead) == SweepFrom(was, 0, dead)
        invariant seen + Examined(nodes, i, dead) == Examined(was, 0, dead)
        invariant forall n: TopoNode :: n in was ==>
          n.isOld == if n in seen - dead then now - n.lastUpdated > OLD_LIMIT else old(n.isOld)
      {
        var node := cells[i];
        if node != null {
          assert node == nodes[i] && node in was;
          seen := seen + {node};
          if now - node.lastUpdated > DELETE_LIMIT {
            DropNode(cells, i);
          } else if now - node.lastUpdated > OLD_LIMIT {
            node.isOld := true;
          } else {
            node.isOld := false;
          }
        }
      }
      if Distinct(was) { LeftInPlace(was, nodes, dead); }
    }

    /** `updateLifeDuration`: both sweeps at time `now`. */
    method UpdateLifeDuration(now: int, ghost before: int)
      requires Valid() && Aged(before) && before <= now
      modifies this, nodes`isOld, edges`isOld
      ensures Valid() && Aged(now)
      ensures edges == SweepFrom(old(edges), 0, old(set e | e in edges && now - e.lastUpdated > DELETE_LIMIT))
      ensures nodes == SweepFrom(old(nodes), 0, old(set n | n in nodes && now - n.lastUpdated > DELETE_LIMIT))
      ensures Recorded() <= old(Recorded())
      ensures forall since :: now - since <= DELETE_LIMIT ==> old(RecordedSince(since)) <= RecordedSince(since)
      ensures var dead := old(set e | e in edges && now - e.lastUpdated > DELETE_LIMIT);
              && Count(edges, dead) <= Count(old(edges), dead) / 2
              && Count(old(edges), dead) <= |old(edges)|
              && (Count(edges, dead) == 0 <==> TailAlive(old(edges), Count(old(edges), dead), dead))
      ensures var dead := old(set n | n in nodes && now - n.lastUpdated > DELETE_LIMIT);
              && Count(nodes, dead) <= Count(old(nodes), dead) / 2
              && Count(old(nodes), dead) <= |old(nodes)|
              && (Count(nodes, dead) == 0 <==> TailAlive(old(nodes), Count(old(nodes), dead), dead))
      ensures forall n: TopoNode :: n in nodes ==> n in old(nodes)
      ensures |nodes| <= |old(nodes)| && forall k, n :: n in old(nodes) && 0 <= k < |nodes| && nodes[k] == n ==>
        n.isOld == if n == old(nodes)[k] then now - n.lastUpdated > OLD_LIMIT else old(n.isOld)
      ensures old(forall n :: n in nodes ==> now - n.lastUpdated <= DELETE_LIMIT) ==> nodes == old(nodes)
      ensures forall e: TopoEdge :: e in edges ==> e in old(edges)
      ensures |edges| <= |old(edges)| && forall k, e :: e in old(edges) && 0 <= k < |edges| && edges[k] == e ==>
        e.isOld == if e == old(edges)[k] then now - e.lastUpdated > OLD_LIMIT else old(e.isOld)
      ensures old(forall e :: e in edges ==> now - e.lastUpdated <= DELETE_LIMIT) ==> edges == old(edges)
    {
      hide UniqueNodes;
      hide UniqueEdges;
      hide AgedTables;
      hide SweepFrom;
      hide Count;
      hide TailAlive;
      hide Pairs;
      hide PairsSince;
      ghost var deadEdges := set e | e in edges && now - e.lastUpdated > DELETE_LIMIT;
      ghost var deadNodes := set n | n in nodes && now - n.lastUpdated > DELETE_LIMIT;
      ghost var wasNodes, wasEdges := nodes, edges;
      SweepBoth(now, deadEdges, deadNodes);
      SweptTables(wasNodes, nodes, deadNodes, wasEdges, edges, deadEdges, before, now);
      SameSince(wasEdges);
    }

    /** Both loops: what they do to the flags, and that they change no date. */
    method SweepBoth(now: int, ghost deadEdges: set<TopoEdge>, ghost deadNodes: set<TopoNode>)
      requires Valid() && deadEdges == set e | e in edges && now - e.lastUpdated > DELETE_LIMIT
      requires deadNodes == set n | n in nodes && now - n.lastUpdated > DELETE_LIMIT
      modifies this, nodes`isOld, edges`isOld
      ensures edges == SweepFrom(old(edges), 0, deadEdges) && nodes == SweepFrom(old(nodes), 0, deadNodes)
      ensures Stamps(old(nodes)) == old(Stamps(nodes)) && Links(old(edges)) == old(Links(edges))
      ensures |nodes| <= |old(nodes)| && forall k, n :: n in old(nodes) && 0 <= k < |nodes| && nodes[k] == n ==>
        n.isOld == if n == old(nodes)[k] then now - n.lastUpdated > OLD_LIMIT else old(n.isOld)
      ensures |edges| <= |old(edges)| && forall k, e :: e in old(edges) && 0 <= k < |edges| && edges[k] == e ==>
        e.isOld == if e == old(edges)[k] then now - e.lastUpdated > OLD_LIMIT else old(e.isOld)
    {
      EdgesApart(edges);
      NodesApart(nodes);
      hide UniqueNodes;
      hide UniqueEdges;
      hide Distinct;
      hide Examined;
      hide SweepFrom;
      SweepEdges(now, deadEdges);
      SweepNodes(now, deadNodes);
    }

    /** The loop over the map, in whatever order it comes. */
    method CollectRoots(roots: map<int, bool>) returns (found: seq<TopoNode>)
      requires Valid()
      ensures forall n: TopoNode :: n in found <==> n in nodes && n.uuid in roots && roots[n.uuid]
      ensures forall i, j :: 0 <= i < j < |found| ==> found[i] != found[j]
    {
      found := [];
      var left: set<int> := roots.Keys;
      while left != {}
        invariant left <= roots.Keys
        invariant forall n: TopoNode ::
          n in found <==> n in nodes && n.uuid in roots && n.uuid !in left && roots[n.uuid]
        invariant forall i, j :: 0 <= i < j < |found| ==> found[i] != found[j]
        decreases |left|
      {
        var uuid := Pick(left);
        left := left - {uuid};
        if roots[uuid] {
          var node := GetNodeFromUUID(uuid);
          if node != null {
            assert node !in found;
            assert forall n :: n in nodes && n.uuid == uuid ==> n == node;
            found := found + [node];
          }
        }
      }
    }

    ghost predicate SeemsRoot(n: TopoNode)
      reads this, n
    {
      n.neighbors == [] || (IsTarget(edges, n.uuid) && !IsSource(edges, n.uuid))
    }

    /** `GetRoots`: with unique UUIDs, exactly the isolated nodes and the nodes that only ever are a target. */
    method GetRoots() returns (found: seq<TopoNode>)
      requires Valid()
      ensures forall n: TopoNode :: n in found <==> n in nodes && SeemsRoot(n)
      ensures forall i, j :: 0 <= i < j < |found| ==> found[i] != found[j]
    {
      var roots: map<int, bool> := map[];
      for i := 0 to |edges|
        invariant forall u :: u in roots <==> IsTarget(edges[..i], u)
        invariant forall u :: u in roots ==> roots[u]
      {
        roots := roots[edges[i].target.uuid := true];
        assert edges[..i + 1] == edges[..i] + [edges[i]];
        TargetsGrow(edges[..i], edges[i]);
      }
      assert edges[..|edges|] == edges;
      for i := 0 to |edges|
        invariant forall u :: u in roots <==> IsTarget(edges, u) || IsSource(edges[..i], u)
        invariant forall u :: u in roots ==> roots[u] == !IsSource(edges[..i], u)
      {
        roots := roots[edges[i].source.uuid := false];
        assert edges[..i + 1] == edges[..i] + [edges[i]];
        SourcesGrow(edges[..i], edges[i]);
      }
      for i := 0 to |nodes|
        invariant forall u :: (u in roots && roots[u]) <==>
          IsIsolated(nodes[..i], u) || (IsTarget(edges, u) && !IsSource(edges, u))
      {
        if |nodes[i].neighbors| == 0 { roots := roots[nodes[i].uuid := true]; }
        assert nodes[..i + 1] == nodes[..i] + [nodes[i]];
        IsolatedGrow(nodes[..i], nodes[i]);
      }
      assert nodes[..|nodes|] == nodes;
      found := CollectRoots(roots);
      forall n: TopoNode | n in nodes ensures IsIsolated(nodes, n.uuid) <==> n.neighbors == [] {
        var i :| 0 <= i < |nodes| && nodes[i] == n;
        assert UniqueNodes(nodes);
      }
    }
  }
}
