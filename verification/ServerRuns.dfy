/** The Go server at work: any sequence of reports, root refreshes and sweeps, one atomic operation after the other. */
module ServerRuns {
  import opened Lists
  import opened Sweep
  import opened Topology
  import opened Reports
  import opened ReportRuns

  datatype Op = Tell(message: Message, at: int) | Refresh(at: int) | Clean(at: int)

  /** The clock never goes back. */
  predicate Ordered(ops: seq<Op>, before: int) {
    ops == [] || (before <= ops[0].at && Ordered(ops[1..], ops[0].at))
  }

  function Told(ops: seq<Op>): seq<Message> {
    if ops == [] then [] else (if ops[0].Tell? then [ops[0].message] else []) + Told(ops[1..])
  }

  function Finish(ops: seq<Op>, before: int): int {
    if ops == [] then before else Finish(ops[1..], ops[0].at)
  }

  predicate NoCleans(ops: seq<Op>) {
    forall i :: 0 <= i < |ops| ==> !ops[i].Clean?
  }

  /** The pairs read from reports at time `since` or later. */
  function ReadSince(ops: seq<Op>, session: Word, since: int): set<(int, int)> {
    if ops == [] then {}
    else (if ops[0].Tell? && ops[0].at >= since then Read(ops[0].message, session) else {})
         + ReadSince(ops[1..], session, since)
  }

  /** Stands for the random draw that is repeated until the number is new. */
  method NewNodeUUID(nodes: seq<TopoNode>) returns (uuid: int)
    ensures FreshNode(nodes, uuid) && FreshNode(nodes, uuid + 1)
  {
    uuid := 0;
    for i := 0 to |nodes|
      invariant forall j :: 0 <= j < i ==> nodes[j].uuid < uuid
    {
      if nodes[i].uuid >= uuid { uuid := nodes[i].uuid + 1; }
    }
  }

  method NewEdgeUUID(edges: seq<TopoEdge>) returns (uuid: int)
    ensures FreshEdge(edges, uuid)
  {
    uuid := 0;
    for i := 0 to |edges|
      invariant forall j :: 0 <= j < i ==> edges[j].uuid < uuid
    {
      if edges[i].uuid >= uuid { uuid := edges[i].uuid + 1; }
    }
  }

  /** Nothing is dated later than the clock. */
  lemma NoneLater(topo: RemTopology, now: int, since: int)
    requires topo.Aged(now) && since > now
    ensures topo.RecordedSince(since) == {}
  {
    var ls := Links(topo.edges);
    forall i | 0 <= i < |topo.edges| ensures topo.edges[i].lastUpdated <= now {
      assert ls[i].at == topo.edges[i].lastUpdated;
    }
  }

  method Perform(topo: RemTopology, session: Word, op: Op, ghost before: int)
    requires topo.Valid() && topo.Aged(before) && before <= op.at
    modifies topo, topo.Objects(), topo.edges
    ensures topo.Valid() && topo.Aged(op.at)
    ensures op.Clean? ==> topo.Recorded() <= old(topo.Recorded())
    ensures !op.Clean? ==> topo.Recorded() == old(topo.Recorded()) + if op.Tell? then Read(op.message, session) else {}
    ensures forall since :: since >= op.at - DELETE_LIMIT ==>
      old(topo.RecordedSince(since)) + (if op.Tell? && op.at >= since then Read(op.message, session) else {})
        <= topo.RecordedSince(since)
    ensures forall n: TopoNode :: n in topo.nodes ==> n in old(topo.nodes) || fresh(n)
    ensures forall e: TopoEdge :: e in topo.edges ==>
      e in old(topo.edges) || (fresh(e) && e.source in topo.nodes && e.target in topo.nodes)
  {
    hide AgedTables;
    hide UniqueNodes;
    hide UniqueEdges;
    hide SweepFrom;
    hide Count;
    hide TailAlive;
    hide Pairs;
    hide PairsSince;
    hide HasPair;
    hide HasFresh;
    hide Acquainted;
    hide Listed;
    hide FreshNode;
    hide FreshEdge;
    forall since | since > op.at ensures topo.RecordedSince(since) == {} { NoneLater(topo, before, since); }
    match op
    case Tell(message, at) =>
      var nodeUUID := NewNodeUUID(topo.nodes);
      var edgeUUID := NewEdgeUUID(topo.edges);
      topo.Handle(message, session, at, nodeUUID, nodeUUID + 1, edgeUUID, before);
    case Refresh(at) =>
      var nodeUUID := NewNodeUUID(topo.nodes);
      var root := topo.CreateRoot(session, at, nodeUUID, before);
    case Clean(at) =>
      topo.UpdateLifeDuration(at, before);
  }

  lemma ToldFirst(ops: seq<Op>, session: Word)
    requires ops != []
    ensures ReadAll(Told(ops), session)
            == (if ops[0].Tell? then Read(ops[0].message, session) else {}) + ReadAll(Told(ops[1..]), session)
  {
    if ops[0].Tell? {
      assert ([ops[0].message] + Told(ops[1..]))[1..] == Told(ops[1..]);
    } else {
      assert [] + Told(ops[1..]) == Told(ops[1..]);
    }
  }

  /** The node objects an operation may date later are those it could date before, or new. */
  twostate lemma ObjectsNew(topo: RemTopology)
    requires forall n: TopoNode :: n in topo.nodes ==> n in old(topo.nodes) || fresh(n)
    requires forall e: TopoEdge :: e in topo.edges ==>
      e in old(topo.edges) || (e.source in topo.nodes && e.target in topo.nodes)
    ensures fresh(topo.Objects() - old(topo.Objects()))
  {
    forall o | o in topo.Objects() ensures o in old(topo.Objects()) || fresh(o) {
      if o in topo.nodes { assert o in old(topo.nodes) || fresh(o); }
    }
  }

  lemma FinishLater(ops: seq<Op>, before: int)
    requires Ordered(ops, before)
    ensures before <= Finish(ops, before)
  {
  }

  lemma OpsFirst(ops: seq<Op>, before: int, session: Word)
    requires ops != [] && Ordered(ops, before)
    ensures before <= ops[0].at && Ordered(ops[1..], ops[0].at)
    ensures Finish(ops, before) == Finish(ops[1..], ops[0].at) >= ops[0].at
    ensures NoCleans(ops) ==> !ops[0].Clean? && NoCleans(ops[1..])
    ensures ReadAll(Told(ops), session)
            == (if ops[0].Tell? then Read(ops[0].message, session) else {}) + ReadAll(Told(ops[1..]), session)
  {
    FinishLater(ops[1..], ops[0].at);
    ToldFirst(ops, session);
  }

  /** Whatever the server does, it only ever records pairs it has read. It has all of them on record while it does not
      sweep, and always those it has read within the delete limit; ids, pairs and ages stay in order throughout. */
  method Serve(topo: RemTopology, session: Word, ops: seq<Op>, ghost before: int)
    requires topo.Valid() && topo.Aged(before) && Ordered(ops, before)
    modifies topo, topo.Objects(), topo.edges
    ensures topo.Valid() && topo.Aged(Finish(ops, before))
    ensures topo.Recorded() <= old(topo.Recorded()) + ReadAll(Told(ops), session)
    ensures NoCleans(ops) ==> topo.Recorded() == old(topo.Recorded()) + ReadAll(Told(ops), session)
    ensures forall since :: since >= Finish(ops, before) - DELETE_LIMIT ==>
      old(topo.RecordedSince(since)) + ReadSince(ops, session, since) <= topo.RecordedSince(since)
    decreases |ops|
  {
    if ops == [] { return; }
    hide AgedTables;
    hide UniqueNodes;
    hide UniqueEdges;
    hide Pairs;
    hide PairsSince;
    hide Read;
    hide ReadAll;
    hide Told;
    hide NoCleans;
    OpsFirst(ops, before, session);
    hide Ordered;
    hide Finish;
    Perform(topo, session, ops[0], before);
    ObjectsNew(topo);
    Serve(topo, session, ops[1..], ops[0].at);
  }

  lemma OnRecord(topo: RemTopology, since: int)
    ensures topo.RecordedSince(since) <= topo.Recorded()
  {
  }

  /** End to end: fed with what a run of the mesh delivers, and whatever else it does in between, a server that starts
      empty only ever has edges that are uplinks over which their source sent a report, and has all those it was told of
      within the delete limit. */
  method ServeMesh(session: Word, ops: seq<Op>, ghost s: State, ghost es: seq<Event>) returns (topo: RemTopology)
    requires Init(s) && Runs(session, s, es) && Told(ops) == ServerMessages(session, s, es)
    requires ops == [] || Ordered(ops, ops[0].at)
    ensures topo.Valid() && topo.Recorded() <= After(session, s, es).reported
    ensures NoCleans(ops) ==> topo.Recorded() == After(session, s, es).told
    ensures ReadSince(ops, session, Finish(ops, 0) - DELETE_LIMIT) <= topo.Recorded()
  {
    topo := new RemTopology();
    ghost var before := if ops == [] then 0 else ops[0].at;
    assert topo.Recorded() == {};
    assert topo.Aged(before);
    Serve(topo, session, ops, before);
    OnRecord(topo, Finish(ops, before) - DELETE_LIMIT);
    ToldIsRead(session, s, es);
    ToldAreUplinks(session, s, es);
  }

  // ---- Sweeps with the clock standing still ----

  lemma {:induction false} SweepSame<T>(s: seq<T>, i: nat, dead: set<T>, also: set<T>)
    requires forall x :: x in s ==> (x in dead <==> x in also)
    ensures SweepFrom(s, i, dead) == SweepFrom(s, i, also)
    decreases if i < |s| then |s| - i else 0
  {
    if i < |s| {
      assert s[i] in s;
      if s[i] in dead {
        SwapRemoveParts(s, i);
        var t := SwapRemove(s, i);
        forall x | x in t ensures x in s {
          var k :| 0 <= k < |t| && t[k] == x;
          assert t[k] == if k == i then s[|s| - 1] else s[k];
        }
        SweepSame(t, i + 1, dead, also);
      } else {
        SweepSame(s, i + 1, dead, also);
      }
    }
  }

  /** With the clock standing still, k calls leave at most m / 2^k of m expired edges. */
  method CleanRepeatedly(topo: RemTopology, now: int, k: nat, ghost before: int)
    requires topo.Valid() && topo.Aged(before) && before <= now
    modifies topo, topo.nodes, topo.edges
    ensures topo.Valid() && (k > 0 ==> topo.Aged(now))
    ensures var dead := old(set e | e in topo.edges && now - e.lastUpdated > DELETE_LIMIT);
            Count(topo.edges, dead) * Pow2(k) <= Count(old(topo.edges), dead)
  {
    hide AgedTables;
    hide UniqueNodes;
    hide UniqueEdges;
    hide TailAlive;
    hide SweepFrom;
    hide Count;
    ghost var dead := set e | e in topo.edges && now - e.lastUpdated > DELETE_LIMIT;
    ghost var at := before;
    for i := 0 to k
      invariant topo.Valid() && topo.Aged(at) && at <= now && (i > 0 ==> at == now)
      invariant forall j :: 0 <= j < |topo.edges| ==> topo.edges[j] in old(topo.edges)
      invariant forall j :: 0 <= j < |topo.nodes| ==> topo.nodes[j] in old(topo.nodes)
      invariant forall e: TopoEdge :: e in old(topo.edges) ==> e.lastUpdated == old(e.lastUpdated)
      invariant Count(topo.edges, dead) * Pow2(i) <= Count(old(topo.edges), dead)
    {
      ghost var was, wasNodes := topo.edges, topo.nodes;
      ghost var expired := set e | e in topo.edges && now - e.lastUpdated > DELETE_LIMIT;
      SweepSame(was, 0, dead, expired);
      SweepHalves(was, dead);
      topo.UpdateLifeDuration(now, at);
      assert topo.edges == SweepFrom(was, 0, expired);
      at := now;
      StillWithin(topo.edges, was, old(topo.edges));
      StillWithin(topo.nodes, wasNodes, old(topo.nodes));
      Halved(Count(topo.edges, dead), Count(was, dead), Pow2(i));
    }
  }

  lemma StillWithin<T>(a: seq<T>, b: seq<T>, c: seq<T>)
    requires (forall x :: x in a ==> x in b) && forall j :: 0 <= j < |b| ==> b[j] in c
    ensures forall j :: 0 <= j < |a| ==> a[j] in c
  {
    forall j | 0 <= j < |a| ensures a[j] in c {
      assert a[j] in b;
    }
  }

  lemma Halved(a: nat, b: nat, p: nat)
    requires a <= b / 2
    ensures a * (2 * p) <= b * p
  {
    assert (b - 2 * a) * p >= 0;
  }
}
