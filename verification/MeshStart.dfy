/** The runs the theorems speak of do happen: in every tree world the mesh comes up by itself. */
module MeshStart {
  import opened Texts
  import opened NodeSpec
  import opened Mesh
  import opened MeshSafety
  import opened MeshSteps
  import opened MeshFlood
  import opened MeshHandshake
  import opened MeshTree
  import opened MeshWays
  import opened MeshQuiet

  // ---- The start ----

  lemma {:induction false} Listing(all: set<Text>) returns (list: seq<Text>)
    ensures NoDup(list) && forall u :: u in list <==> u in all
    decreases all
  {
    if all == {} {
      list := [];
    } else {
      var u :| u in all;
      var rest := Listing(all - {u});
      list := rest + [u];
    }
  }

  lemma StartNode(w: World, d: Text) returns (n: NodeState)
    requires ValidWorld(w) && d in w.devices
    ensures InitNode(w, d, n)
  {
    var servers := set u | u in w.owner && w.owner[u] == d && u !in w.peer;
    var keys := Listing(servers);
    n := NodeState(d, d == w.root, keys,
                   map u | u in servers :: Chan(Some(u), Some(d), Some(w.protocol[u]), Some(-1), true, Server), map[]);
  }

  lemma {:induction false} StartNodes(w: World, some: set<Text>) returns (nodes: map<Text, NodeState>)
    requires ValidWorld(w) && some <= w.devices
    ensures nodes.Keys == some && forall d :: d in some ==> InitNode(w, d, nodes[d])
    decreases some
  {
    hide ValidWorld;
    hide InitNode;
    if some == {} {
      nodes := map[];
    } else {
      var d :| d in some;
      var rest := StartNodes(w, some - {d});
      var n := StartNode(w, d);
      nodes := rest[d := n];
    }
  }

  lemma Start(w: World) returns (s: MeshState)
    requires ValidWorld(w)
    ensures Init(w, s) && Reachable(w, s)
  {
    hide InitNode;
    var nodes := StartNodes(w, w.devices);
    s := MeshState(nodes, []);
  }

  // ---- Every channel is opened ----

  /** A client channel that its device has on record is open. */
  ghost predicate Openable(w: World, s: MeshState, c: Text) {
    c in w.owner && w.owner[c] in s.nodes
    && (c in s.nodes[w.owner[c]].chans ==> c in Clients(s.nodes[w.owner[c]]))
  }

  lemma OpenedIsClient(n: NodeState, c: Text, protocol: Text)
    requires c !in n.chans
    ensures var m := OpenChannel(n, c, protocol, Client); c in Clients(m) && m.chans.Keys == n.chans.Keys + {c}
  {
    var m := OpenChannel(n, c, protocol, Client);
    ClientsAreOwn(m.keys, m);
    assert m.keys[|n.keys|] == c;
  }

  lemma OpenOpens(w: World, s: MeshState, c: Text)
    requires Enabled(w, s, Open(c))
    ensures w.owner[c] in Apply(w, s, Open(c)).nodes && c in Clients(Apply(w, s, Open(c)).nodes[w.owner[c]])
    ensures forall d, u :: d in s.nodes && u in Apply(w, s, Open(c)).nodes[d].chans && u != c ==> u in s.nodes[d].chans
  {
    OpenedIsClient(s.nodes[w.owner[c]], c, w.protocol[c]);
    hide Clients;
    hide OpenChannel;
  }

  lemma OpenableStays(w: World, s: MeshState, c: Text, u: Text)
    requires ValidWorld(w) && Inv(w, s) && Enabled(w, s, Open(c)) && Openable(w, s, u)
    ensures Openable(w, Apply(w, s, Open(c)), u)
  {
    hide Inv;
    hide Clients;
    OpenOpens(w, s, c);
    if u in s.nodes[w.owner[u]].chans { StepKeepsClient(w, s, Open(c), w.owner[u], u); }
  }

  lemma {:induction false} OpenAll(w: World, s: MeshState, left: set<Text>) returns (es: seq<Event>)
    requires ValidWorld(w) && Inv(w, s) && left <= w.peer.Keys && forall c :: c in w.peer ==> Openable(w, s, c)
    ensures Runs(w, s, es) && forall i :: 0 <= i < |es| ==> es[i].Open?
    ensures forall c :: c in left ==>
      w.owner[c] in After(w, s, es).nodes && c in Clients(After(w, s, es).nodes[w.owner[c]])
    decreases left
  {
    hide Inv;
    hide Apply;
    hide Clients;
    if left == {} {
      es := [];
    } else {
      var c :| c in left;
      var t, first: seq<Event> := s, [];
      if c !in s.nodes[w.owner[c]].chans {
        assert Enabled(w, s, Open(c));
        StepKeeps(w, s, Open(c));
        OpenOpens(w, s, c);
        forall u | u in w.peer ensures Openable(w, Apply(w, s, Open(c)), u) { OpenableStays(w, s, c, u); }
        OneRuns(w, s, Open(c));
        t, first := Apply(w, s, Open(c)), [Open(c)];
      }
      var rest := OpenAll(w, t, left - {c});
      RunKeepsClient(w, t, rest, w.owner[c], c);
      RunsJoin(w, s, first, rest);
      es := first + rest;
    }
  }

  lemma StartOpenable(w: World, s: MeshState)
    requires ValidWorld(w) && Init(w, s)
    ensures forall c :: c in w.peer ==> Openable(w, s, c)
  {
  }

  /** Every client channel of the world is open. */
  ghost predicate AllOpen(w: World, s: MeshState) {
    forall c :: c in w.peer ==>
      c in w.owner && w.owner[c] in s.nodes && c in Clients(s.nodes[w.owner[c]])
  }

  lemma OpenMesh(w: World) returns (start: MeshState, es: seq<Event>)
    requires ValidWorld(w)
    ensures Init(w, start) && Runs(w, start, es) && forall i :: 0 <= i < |es| ==> es[i].Open?
    ensures Reachable(w, After(w, start, es)) && AllOpen(w, After(w, start, es))
  {
    hide Inv;
    hide Reachable;
    hide Clients;
    start := Start(w);
    StartOpenable(w, start);
    InitInv(w, start);
    hide Init;
    hide Openable;
    es := OpenAll(w, start, w.peer.Keys);
    ReachableRun(w, start, es);
  }

  lemma AllOpenStays(w: World, s: MeshState, es: seq<Event>)
    requires ValidWorld(w) && Inv(w, s) && Runs(w, s, es) && AllOpen(w, s)
    ensures AllOpen(w, After(w, s, es))
  {
    hide Inv;
    hide Clients;
    forall c | c in w.peer
      ensures w.owner[c] in After(w, s, es).nodes && c in Clients(After(w, s, es).nodes[w.owner[c]])
    {
      RunKeepsClient(w, s, es, w.owner[c], c);
    }
  }

  // ---- Pings, a flood, and quiet ----

  lemma StepReachable(w: World, s: MeshState, e: Event)
    requires ValidWorld(w) && Reachable(w, s) && Enabled(w, s, e)
    ensures Reachable(w, Apply(w, s, e))
  {
    OneRuns(w, s, e);
    ReachableRun(w, s, [e]);
  }

  lemma AllDevices(w: World, s: MeshState)
    requires ValidWorld(w) && Reachable(w, s)
    ensures s.nodes.Keys == w.devices && w.root in w.devices
  {
    hide NodeOk;
    hide FlightOk;
    ReachableInv(w, s);
  }

  lemma FloodQuiets(w: World, s: MeshState) returns (es: seq<Event>)
    requires ValidWorld(w) && Reachable(w, s)
    ensures Enabled(w, s, Flood) && QuietRun(w, Apply(w, s, Flood), es)
  {
    AllDevices(w, s);
    hide Reachable;
    hide Apply;
    StepReachable(w, s, Flood);
    es := ReachableQuiets(w, Apply(w, s, Flood));
  }

  lemma {:induction false} PingAll(w: World, s: MeshState, some: set<Text>, flag: bool) returns (es: seq<Event>)
    requires some <= s.nodes.Keys
    ensures Runs(w, s, es) && Lossless(es) && forall d :: d in some ==> PingsAs(es, d, flag)
    ensures forall i :: 0 <= i < |es| ==> es[i].Ping? && es[i].returnToRoot == flag
    decreases some
  {
    hide SendPing;
    if some == {} {
      es := [];
    } else {
      var d :| d in some;
      var rest := PingAll(w, Apply(w, s, Ping(d, flag)), some - {d}, flag);
      es := [Ping(d, flag)] + rest;
      assert es[1..] == rest;
      forall u | u in some ensures PingsAs(es, u, flag) { PingsFirst(d, flag, rest, u); }
    }
  }

  lemma PingsFirst(d: Text, flag: bool, rest: seq<Event>, u: Text)
    requires u == d || PingsAs(rest, u, flag)
    ensures PingsAs([Ping(d, flag)] + rest, u, flag)
  {
    var es := [Ping(d, flag)] + rest;
    if u == d {
      assert es[0] == Ping(u, flag);
    } else {
      var i :| 0 <= i < |rest| && rest[i] == Ping(u, flag);
      assert es[i + 1] == rest[i];
    }
  }

  lemma PingsMore(es: seq<Event>, more: seq<Event>, d: Text, flag: bool)
    requires PingsAs(es, d, flag)
    ensures PingsAs(es + more, d, flag) && Pings(es + more, d)
  {
    var i :| 0 <= i < |es| && es[i] == Ping(d, flag);
    assert (es + more)[i] == es[i];
  }

  /** From any reachable state every device can ping, for the root or not, and the mesh be quiet again. */
  lemma PingsQuiet(w: World, s: MeshState, flag: bool) returns (es: seq<Event>)
    requires ValidWorld(w) && Reachable(w, s)
    ensures QuietRun(w, s, es) && forall d :: d in w.devices ==> PingsAs(es, d, flag) && Pings(es, d)
    ensures forall i :: 0 <= i < |es| && es[i].Ping? ==> es[i].returnToRoot == flag
  {
    AllDevices(w, s);
    hide ValidWorld;
    hide Reachable;
    hide Apply;
    hide Enabled;
    hide PingsAs;
    hide Pings;
    var first := PingAll(w, s, w.devices, flag);
    ReachableRun(w, s, first);
    var more := ReachableQuiets(w, After(w, s, first));
    RunsJoin(w, s, first, more);
    es := first + more;
    forall d | d in w.devices ensures PingsAs(es, d, flag) && Pings(es, d) { PingsMore(first, more, d, flag); }
  }

  // ---- The mesh comes up ----

  /** Parent and child have a channel each way. */
  ghost predicate TwoWay(w: World, parent: map<Text, Text>)
    requires ValidWorld(w)
  {
    forall d :: d in parent ==> Linked(w, d, parent[d]) && Linked(w, parent[d], d)
  }

  lemma LinkIsOpen(w: World, s: MeshState, u: Text, v: Text)
    requires ValidWorld(w) && AllOpen(w, s) && Linked(w, u, v)
    ensures OpenLink(w, s, u, v)
  {
    hide Clients;
    var c :| c in w.peer && w.owner[c] == u && w.owner[w.peer[c]] == v;
    assert LeadsTo(w, c, v);
  }

  lemma OpenTree(w: World, parent: map<Text, Text>, s: MeshState)
    requires ValidWorld(w) && TwoWay(w, parent) && AllOpen(w, s)
    ensures OpenUp(w, parent, s) && OpenDown(w, parent, s)
  {
    hide OpenLink;
    hide AllOpen;
    hide ValidWorld;
    hide Linked;
    forall d | d in parent ensures OpenLink(w, s, d, parent[d]) && OpenLink(w, s, parent[d], d) {
      LinkIsOpen(w, s, d, parent[d]);
      LinkIsOpen(w, s, parent[d], d);
    }
  }

  /** The mesh is up: all channels open, every way known, nothing in flight. */
  ghost predicate IsUp(w: World, parent: map<Text, Text>, s: MeshState)
    requires ValidWorld(w)
  {
    Reachable(w, s) && AllOpen(w, s) && OpenDown(w, parent, s) && EveryWay(parent, s) && s.net == []
  }

  /** In every tree world with a channel each way between parent and child the mesh can come up: it reaches a state,
      by opening the channels, pinging and one flood, in which every device knows its way. */
  lemma MeshComesUp(w: World, parent: map<Text, Text>, depth: map<Text, nat>) returns (s: MeshState)
    requires ValidWorld(w) && TreeWorld(w, parent, depth) && TwoWay(w, parent)
    ensures IsUp(w, parent, s)
  {
    hide Inv;
    hide AllOpen;
    hide EveryWay;
    hide OpenUp;
    hide OpenDown;
    hide Apply;
    hide Enabled;
    hide Reachable;
    hide TwoWay;
    hide Pings;
    hide PingsAs;
    hide Lossless;
    var start, opens := OpenMesh(w);
    var open := After(w, start, opens);
    OpenTree(w, parent, open);
    var es := PingsQuiet(w, open, true);
    var t := After(w, open, es);
    ReachableRun(w, open, es);
    var more := FloodQuiets(w, t);
    assert forall d :: d in parent ==> Pings(es, d);
    hide TreeWorld;
    MeshSetsUp(w, parent, depth, open, es, more);
    StepReachable(w, t, Flood);
    ReachableRun(w, Apply(w, t, Flood), more);
    s := After(w, Apply(w, t, Flood), more);
    StaysOpen(w, open, es, more);
    OpenTree(w, parent, s);
  }

  lemma StaysOpen(w: World, s: MeshState, es: seq<Event>, more: seq<Event>)
    requires ValidWorld(w) && Reachable(w, s) && AllOpen(w, s) && Runs(w, s, es) && Enabled(w, After(w, s, es), Flood)
    requires Runs(w, Apply(w, After(w, s, es), Flood), more)
    ensures AllOpen(w, After(w, Apply(w, After(w, s, es), Flood), more))
  {
    hide Inv;
    hide AllOpen;
    ReachableInv(w, s);
    hide Reachable;
    hide Apply;
    hide Enabled;
    var t := After(w, s, es);
    RunKeeps(w, s, es);
    AllOpenStays(w, s, es);
    OneRuns(w, t, Flood);
    AllOpenStays(w, t, [Flood]);
    StepKeeps(w, t, Flood);
    AllOpenStays(w, Apply(w, t, Flood), more);
  }
}
