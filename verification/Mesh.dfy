/** The mesh as a whole: nodes, packets in flight, and one event per processed packet. */
module Mesh {
  import opened Lists
  import opened Texts
  import opened Packets
  import opened NodeSpec

  /** Who owns which channel, and which server channel each client channel reaches. */
  datatype World = World(root: Text, devices: set<Text>, owner: map<Text, Text>, protocol: map<Text, Text>,
                         peer: map<Text, Text>)

  ghost predicate ValidWorld(w: World) {
    && w.root in w.devices
    && |w.devices| <= 255
    && (forall d :: d in w.devices ==> IsField(d))
    && w.owner.Keys == w.protocol.Keys
    && (forall u :: u in w.owner ==> IsField(u) && w.owner[u] in w.devices && IsField(w.protocol[u]))
    && (forall c {:trigger w.peer[c]} :: c in w.peer ==> c in w.owner && w.peer[c] in w.owner)
    && (forall c, u :: c in w.peer && u in w.peer ==> w.peer[c] != u)
  }

  /** Device `u` has a client channel that reaches a server channel of `v`. */
  ghost predicate Linked(w: World, u: Text, v: Text)
    requires ValidWorld(w)
  {
    exists c :: c in w.peer && w.owner[c] == u && w.owner[w.peer[c]] == v
  }

  /** A duplicate-free path of real client links that starts at the root. */
  ghost predicate GoodPath(w: World, path: seq<Text>)
    requires ValidWorld(w)
  {
    && path != [] && path[0] == w.root && NoDup(path)
    && (forall i :: 0 <= i < |path| ==> path[i] in w.devices)
    && (forall i :: 0 < i < |path| ==> Linked(w, path[i - 1], path[i]))
  }

  datatype MeshState = MeshState(nodes: map<Text, NodeState>, net: seq<Send>)

  datatype Event =
    | Deliver(i: nat)          // a device processes the packet at position i
    | Dedup(i: nat, j: nat)    // a device skips a packet equal to another one it has yet to process
    | Lose(i: nat)             // a packet gets lost
    | Flood                    // the root starts a topology flood
    | Ping(device: Text, returnToRoot: bool)
    | Open(channel: Text)      // a device opens one of its client channels

  function DestOf(w: World, c: Text): Text
    requires c in w.peer && w.peer[c] in w.owner
  {
    w.owner[w.peer[c]]
  }

  predicate InFlight(w: World, s: MeshState, i: nat) {
    && i < |s.net| && s.net[i].channel in w.peer && w.peer[s.net[i].channel] in w.owner
    && DestOf(w, s.net[i].channel) in s.nodes
  }

  predicate Enabled(w: World, s: MeshState, e: Event) {
    match e
    case Deliver(i) => InFlight(w, s, i)
    case Dedup(i, j) =>
      && InFlight(w, s, i) && InFlight(w, s, j) && i != j && s.net[i].pkt == s.net[j].pkt
      && DestOf(w, s.net[i].channel) == DestOf(w, s.net[j].channel)
    case Lose(i) => i < |s.net|
    case Flood => w.root in s.nodes
    case Ping(d, _) => d in s.nodes
    case Open(c) =>
      && c in w.peer && c in w.owner && c in w.protocol
      && w.owner[c] in s.nodes && c !in s.nodes[w.owner[c]].chans
  }

  function Delivered(w: World, s: MeshState, i: nat): (NodeState, seq<Send>)
    requires InFlight(w, s, i)
  {
    var f := s.net[i];
    Process(s.nodes[DestOf(w, f.channel)], f.pkt, w.peer[f.channel])
  }

  function Apply(w: World, s: MeshState, e: Event): MeshState
    requires Enabled(w, s, e)
  {
    match e
    case Deliver(i) =>
      var (n, out) := Delivered(w, s, i);
      MeshState(s.nodes[DestOf(w, s.net[i].channel) := n], Without(s.net, i) + out)
    case Dedup(i, _) => s.(net := Without(s.net, i))
    case Lose(i) => s.(net := Without(s.net, i))
    case Flood => s.(net := s.net + StartFlood(s.nodes[w.root]))
    case Ping(d, flag) => s.(net := s.net + SendPing(s.nodes[d], flag))
    case Open(c) =>
      var d := w.owner[c];
      s.(nodes := s.nodes[d := OpenChannel(s.nodes[d], c, w.protocol[c], Client)])
  }

  ghost predicate Runs(w: World, s: MeshState, es: seq<Event>)
    decreases |es|
  {
    es == [] || (Enabled(w, s, es[0]) && Runs(w, Apply(w, s, es[0]), es[1..]))
  }

  ghost function After(w: World, s: MeshState, es: seq<Event>): MeshState
    requires Runs(w, s, es)
    decreases |es|
  {
    if es == [] then s else After(w, Apply(w, s, es[0]), es[1..])
  }

  // ---- The invariant ----

  /** The start: every device has its server channels open, no client channel, and knows nothing else. */
  ghost predicate Init(w: World, s: MeshState)
    requires ValidWorld(w)
  {
    && s.nodes.Keys == w.devices
    && s.net == []
    && forall d :: d in w.devices ==> InitNode(w, d, s.nodes[d])
  }

  ghost predicate InitNode(w: World, d: Text, n: NodeState)
    requires ValidWorld(w) && d in w.devices
  {
    && n.id == d && (n.isRoot <==> d == w.root) && n.conn == map[]
    && NoDup(n.keys) && (forall u :: u in n.keys <==> u in n.chans)
    && (forall u {:trigger u in n.chans} :: u in n.chans <==> u in w.owner && w.owner[u] == d && u !in w.peer)
    && (forall u :: u in n.chans ==>
          n.chans[u] == Chan(Some(u), Some(d), Some(w.protocol[u]), Some(-1), true, Server))
  }

  /** A set of states that holds every start and that no event leaves. */
  ghost predicate Closed(w: World, states: iset<MeshState>)
    requires ValidWorld(w)
  {
    && (forall s :: Init(w, s) ==> s in states)
    && forall s, e :: s in states && Enabled(w, s, e) ==> Apply(w, s, e) in states
  }

  /** `s` is in the smallest such set: it is what some sequence of events, losses included, makes of a start. */
  ghost predicate Reachable(w: World, s: MeshState)
    requires ValidWorld(w)
  {
    forall states :: Closed(w, states) ==> s in states
  }

  ghost predicate ByRun(w: World, s: MeshState)
    requires ValidWorld(w)
  {
    exists start, es :: Init(w, start) && Runs(w, start, es) && After(w, start, es) == s
  }

  lemma {:induction false} RunsJoin(w: World, s: MeshState, es: seq<Event>, more: seq<Event>)
    requires Runs(w, s, es) && Runs(w, After(w, s, es), more)
    ensures Runs(w, s, es + more) && After(w, s, es + more) == After(w, After(w, s, es), more)
    decreases |es|
  {
    hide Apply;
    hide Enabled;
    if es == [] {
      assert es + more == more;
    } else {
      assert (es + more)[1..] == es[1..] + more;
      RunsJoin(w, Apply(w, s, es[0]), es[1..], more);
    }
  }

  lemma OneRuns(w: World, s: MeshState, e: Event)
    requires Enabled(w, s, e)
    ensures Runs(w, s, [e]) && After(w, s, [e]) == Apply(w, s, e)
  {
    hide Apply;
    hide Enabled;
    assert [e][1..] == [];
  }

  lemma {:induction false} RunReaches(w: World, s: MeshState, es: seq<Event>, states: iset<MeshState>)
    requires ValidWorld(w) && Closed(w, states) && s in states && Runs(w, s, es)
    ensures After(w, s, es) in states
    decreases |es|
  {
    hide Apply;
    hide Enabled;
    hide Init;
    if es != [] {
      RunReaches(w, Apply(w, s, es[0]), es[1..], states);
    }
  }

  /** The two readings of reachability are the same. */
  lemma ReachableByRun(w: World, s: MeshState)
    requires ValidWorld(w)
    ensures Reachable(w, s) <==> ByRun(w, s)
  {
    hide Apply;
    hide Enabled;
    hide Init;
    if ByRun(w, s) {
      var start, es :| Init(w, start) && Runs(w, start, es) && After(w, start, es) == s;
      forall states | Closed(w, states) ensures s in states {
        RunReaches(w, start, es, states);
      }
    }
    RunsClosed(w);
  }

  lemma StartByRun(w: World, s: MeshState)
    requires ValidWorld(w) && Init(w, s)
    ensures ByRun(w, s)
  {
    hide Init;
    var none: seq<Event> := [];
    assert Runs(w, s, none) && After(w, s, none) == s;
  }

  lemma StepByRun(w: World, s: MeshState, e: Event)
    requires ValidWorld(w) && ByRun(w, s) && Enabled(w, s, e)
    ensures ByRun(w, Apply(w, s, e))
  {
    hide Apply;
    hide Enabled;
    hide Init;
    var start, es :| Init(w, start) && Runs(w, start, es) && After(w, start, es) == s;
    OneRuns(w, s, e);
    RunsJoin(w, start, es, [e]);
  }

  lemma RunsClosed(w: World)
    requires ValidWorld(w)
    ensures Closed(w, iset s | ByRun(w, s))
  {
    hide ByRun;
    hide Apply;
    hide Enabled;
    hide Init;
    forall s | Init(w, s) ensures ByRun(w, s) { StartByRun(w, s); }
    forall s, e | ByRun(w, s) && Enabled(w, s, e) ensures ByRun(w, Apply(w, s, e)) { StepByRun(w, s, e); }
  }

  /** A distance is that of some good path, so between the shortest distance and one less than the device count. */
  ghost predicate PathLength(w: World, d: Text, k: int)
    requires ValidWorld(w)
  {
    exists path :: GoodPath(w, path) && |path| == k + 1 && path[k] == d
  }

  ghost predicate ChanOk(w: World, d: Text, u: Text, ch: Chan, unnamed: bool)
    requires ValidWorld(w)
  {
    && u in w.owner
    && WfChan(ch, u, unnamed)
    && (ch.deviceId.Some? ==> ch.deviceId.value == w.owner[u])
    && (ch.protocol.Some? ==> ch.protocol.value == w.protocol[u])
    && (unnamed || (ch.deviceId.Some? && ch.protocol.Some?))
    && (ch.isHere ==> w.owner[u] == d && (ch.role == Client <==> u in w.peer))
    && (ch.rootDistance.Some? && ch.rootDistance.value != -1 ==> PathLength(w, w.owner[u], ch.rootDistance.value))
  }

  ghost predicate ChansOk(w: World, d: Text, chans: map<Text, Chan>, unnamed: set<Text>)
    requires ValidWorld(w)
  {
    forall u {:trigger chans[u]} :: u in chans ==> ChanOk(w, d, u, chans[u], u in unnamed)
  }

  ghost predicate KeysOk(keys: seq<Text>, chans: map<Text, Chan>) {
    NoDup(keys) && forall u :: u in keys <==> u in chans
  }

  /** Every pair in `conn_data` is a client channel and the server channel it really reaches. */
  ghost predicate ConnOk(w: World, chans: map<Text, Chan>, conn: map<Text, seq<Text>>)
    requires ValidWorld(w)
  {
    forall c {:trigger conn[c]} :: c in conn ==>
      c in w.peer && conn[c] == [w.peer[c]] && c in chans && w.peer[c] in chans
  }

  ghost predicate ServersOk(w: World, d: Text, chans: map<Text, Chan>)
    requires ValidWorld(w)
  {
    forall u {:trigger u in chans} :: u in w.owner && w.owner[u] == d && u !in w.peer ==> u in chans && chans[u].isHere
  }

  ghost predicate NodeOk(w: World, d: Text, n: NodeState, unnamed: set<Text>)
    requires ValidWorld(w)
  {
    && n.id == d && d in w.devices && (n.isRoot <==> d == w.root)
    && KeysOk(n.keys, n.chans)
    && ChansOk(w, d, n.chans, unnamed)
    && ConnOk(w, n.chans, n.conn)
    && ServersOk(w, d, n.chans)
  }

  ghost function TripleOf(w: World, u: Text): Triple
    requires ValidWorld(w) && u in w.owner
  {
    Triple(w.owner[u], u, w.protocol[u])
  }

  ghost function FieldsOf(ts: seq<Triple>): seq<Text> {
    if ts == [] then [] else FieldsOf(ts[..|ts| - 1]) + Fields(ts[|ts| - 1])
  }

  ghost predicate TopoOk(w: World, c: Text, p: Pkt, path: seq<Text>)
    requires ValidWorld(w) && c in w.peer
  {
    && GoodPath(w, path) && p.message == EncodePath(path) && p.priority == PRIORITY_MEDIUM
    && (p.meta == SEND_TOPO || p.meta == RETURN_TOPO)
    && (p.meta == SEND_TOPO ==>
          p.forwarding == TO_NEIGHBOR && path[|path| - 1] == w.owner[c] && p.hops == |path| - 1)
    && (p.meta == RETURN_TOPO ==> p.forwarding == TO_ROOT && 1 <= p.hops <= 255)
  }

  ghost predicate IsFlags(f: Text) {
    f == FLAGS || f == RETURN_FLAGS
  }

  /** The handshake so far: one triple in a ping, three in a pong, four on the way to the root. */
  ghost function Parties(w: World, c: Text, meta: int, a: Text, b: Text): seq<Triple>
    requires ValidWorld(w) && c in w.peer && a in w.peer && b in w.peer
  {
    if meta == SEND_PING then [TripleOf(w, c)]
    else if meta == SEND_PONG then [TripleOf(w, a), TripleOf(w, w.peer[a]), TripleOf(w, c)]
    else [TripleOf(w, a), TripleOf(w, w.peer[a]), TripleOf(w, b), TripleOf(w, w.peer[b])]
  }

  ghost predicate PingOk(w: World, c: Text, p: Pkt, flags: Text, a: Text, b: Text)
    requires ValidWorld(w) && c in w.peer
  {
    && a in w.peer && b in w.peer && IsFlags(flags) && p.priority == PRIORITY_MEDIUM
    && p.message == Encode(flags, FieldsOf(Parties(w, c, p.meta, a, b)))
    && (p.meta == SEND_PING || p.meta == SEND_PONG || p.meta == PING_PONG_ROOT)
    && (p.meta == SEND_PING ==> p.forwarding == TO_NEIGHBOR && p.hops == 0)
    && (p.meta == SEND_PONG ==> p.forwarding == TO_NEIGHBOR && p.hops == 1 && DestOf(w, a) == w.owner[c])
    && (p.meta == PING_PONG_ROOT ==>
          && p.forwarding == TO_ROOT && 2 <= p.hops <= PING_HOP_LIMIT && flags == RETURN_FLAGS
          && DestOf(w, a) == w.owner[b] && DestOf(w, b) == w.owner[a])
  }

  ghost predicate FlightOk(w: World, f: Send)
    requires ValidWorld(w)
  {
    && f.channel in w.peer
    && f.pkt == Normalized(f.pkt) && 0 <= f.pkt.hops < 256 && IsBytes(f.pkt.message)
    && (f.pkt.contents == MESH_TOPO || f.pkt.contents == PING_PONG)
    && (f.pkt.contents == MESH_TOPO ==> exists path :: TopoOk(w, f.channel, f.pkt, path))
    && (f.pkt.contents == PING_PONG ==> exists flags, a, b :: PingOk(w, f.channel, f.pkt, flags, a, b))
  }

  ghost predicate Inv(w: World, s: MeshState)
    requires ValidWorld(w)
  {
    && s.nodes.Keys == w.devices
    && (forall d {:trigger s.nodes[d]} :: d in w.devices ==> NodeOk(w, d, s.nodes[d], {}))
    && (forall i :: 0 <= i < |s.net| ==> FlightOk(w, s.net[i]))
  }
}
