/** Every event keeps the mesh invariant, so it holds in every reachable state. */
module MeshSafety {
  import opened Texts
  import opened Packets
  import opened NodeSpec
  import opened Mesh

  // ---- Paths ----

  lemma {:induction false} NoDupFits(s: seq<Text>, universe: set<Text>)
    requires NoDup(s) && forall i :: 0 <= i < |s| ==> s[i] in universe
    ensures |s| <= |universe|
  {
    if s != [] {
      var k := s[|s| - 1];
      NoDupFits(s[..|s| - 1], universe - {k});
    }
  }

  lemma PathFields(w: World, path: seq<Text>)
    requires ValidWorld(w) && GoodPath(w, path)
    ensures AreFields(path) && |path| <= |w.devices|
  {
    NoDupFits(path, w.devices);
  }

  lemma GrowPath(w: World, path: seq<Text>, c: Text)
    requires ValidWorld(w) && GoodPath(w, path) && c in w.peer
    requires path[|path| - 1] == w.owner[c] && DestOf(w, c) !in path
    ensures GoodPath(w, path + [DestOf(w, c)])
  {
    var grown := path + [DestOf(w, c)];
    assert Linked(w, w.owner[c], DestOf(w, c));
    forall i | 0 < i < |grown| ensures Linked(w, grown[i - 1], grown[i]) {
      if i < |path| { assert Linked(w, path[i - 1], path[i]); }
    }
  }

  lemma PathPrefix(w: World, path: seq<Text>, k: nat)
    requires ValidWorld(w) && GoodPath(w, path) && k < |path|
    ensures PathLength(w, path[k], k)
  {
    assert GoodPath(w, path[..k + 1]);
  }

  // ---- Distances ----

  lemma NodeIsWf(w: World, d: Text, n: NodeState, unnamed: set<Text>)
    requires ValidWorld(w) && NodeOk(w, d, n, unnamed)
    ensures WfExcept(n, unnamed)
  {
    hide ValidWorld;
    hide WfChan;
    hide PathLength;
    hide ServersOk;
  }

  lemma SetDistanceKeeps(w: World, d: Text, n: NodeState, dev: Text, k: nat)
    requires ValidWorld(w) && NodeOk(w, d, n, {}) && PathLength(w, dev, k)
    ensures NodeOk(w, d, SetDistance(n, dev, k), {})
  {
    hide PathLength;
    hide ValidWorld;
    var m := SetDistance(n, dev, k);
    assert m.chans.Keys == n.chans.Keys;
    forall u | u in m.chans ensures ChanOk(w, d, u, m.chans[u], u in {}) {
      assert ChanOk(w, d, u, n.chans[u], u in {});
    }
    forall u | u in w.owner && w.owner[u] == d && u !in w.peer ensures u in m.chans && m.chans[u].isHere {
      assert u in n.chans;
    }
  }

  lemma {:induction false} SetDistancesKeep(w: World, d: Text, n: NodeState, path: seq<Text>, k: nat)
    requires ValidWorld(w) && NodeOk(w, d, n, {}) && GoodPath(w, path) && k <= |path|
    ensures NodeOk(w, d, SetDistances(n, path[k..], k), {})
    decreases |path| - k
  {
    if k < |path| {
      PathPrefix(w, path, k);
      SetDistanceKeeps(w, d, n, path[k], k);
      assert path[k..][1..] == path[k + 1..];
      SetDistancesKeep(w, d, SetDistance(n, path[k], k), path, k + 1);
    }
  }

  lemma ProcessTopoKeeps(w: World, d: Text, n: NodeState, path: seq<Text>)
    requires ValidWorld(w) && NodeOk(w, d, n, {}) && GoodPath(w, path)
    ensures ProcessTopo(n, EncodePath(path)) == SetDistances(n, path, 0)
    ensures NodeOk(w, d, ProcessTopo(n, EncodePath(path)), {})
  {
    PathFields(w, path);
    DecodePath(path);
    SetDistancesKeep(w, d, n, path, 0);
    assert path[0..] == path;
  }

  // ---- Discovered links ----

  lemma PutChans(w: World, d: Text, chans: map<Text, Chan>, u: Text, ch: Chan, before: set<Text>, after: set<Text>)
    requires ValidWorld(w) && ChansOk(w, d, chans, before) && before - {u} <= after
    requires ChanOk(w, d, u, ch, u in after)
    ensures ChansOk(w, d, chans[u := ch], after)
  {
    hide PathLength;
    hide ValidWorld;
    forall v | v in chans && v != u ensures ChanOk(w, d, v, chans[v], v in after) {
      assert ChanOk(w, d, v, chans[v], v in before);
    }
  }

  lemma PutKeys(n: NodeState, u: Text, ch: Chan)
    requires KeysOk(n.keys, n.chans)
    ensures KeysOk(Put(n, u, ch).keys, Put(n, u, ch).chans)
  {
  }

  lemma PutServers(w: World, d: Text, chans: map<Text, Chan>, u: Text, ch: Chan)
    requires ValidWorld(w) && ServersOk(w, d, chans) && (u in chans && chans[u].isHere ==> ch.isHere)
    ensures ServersOk(w, d, chans[u := ch])
  {
    hide ValidWorld;
    forall v | v in w.owner && w.owner[v] == d && v !in w.peer ensures v in chans[u := ch] && chans[u := ch][v].isHere {
      assert v in chans;
    }
  }

  lemma PutConn(w: World, chans: map<Text, Chan>, conn: map<Text, seq<Text>>, u: Text, ch: Chan)
    requires ValidWorld(w) && ConnOk(w, chans, conn)
    ensures ConnOk(w, chans[u := ch], conn)
  {
    hide ValidWorld;
  }

  /** Storing one sound record keeps a node sound. */
  lemma PutKeeps(w: World, d: Text, n: NodeState, u: Text, ch: Chan, before: set<Text>, after: set<Text>)
    requires ValidWorld(w) && NodeOk(w, d, n, before) && before - {u} <= after
    requires ChanOk(w, d, u, ch, u in after) && (u in n.chans && n.chans[u].isHere ==> ch.isHere)
    ensures NodeOk(w, d, Put(n, u, ch), after)
  {
    hide ValidWorld;
    hide KeysOk;
    hide ServersOk;
    hide ConnOk;
    hide ChansOk;
    hide ChanOk;
    PutChans(w, d, n.chans, u, ch, before, after);
    PutKeys(n, u, ch);
    PutServers(w, d, n.chans, u, ch);
    PutConn(w, n.chans, n.conn, u, ch);
  }

  lemma NamedKeeps(w: World, d: Text, n: NodeState, u: Text, unnamed: set<Text>)
    requires ValidWorld(w) && u in w.owner && u in unnamed && NodeOk(w, d, n, unnamed)
    ensures NodeOk(w, d, Named(n, u), unnamed)
  {
    var ch := ChanAt(n, u).(uuid := Some(u));
    assert ChanOk(w, d, u, ch, true) by {
      hide PathLength;
      hide ValidWorld;
      if u in n.chans { assert ChanOk(w, d, u, n.chans[u], true); }
    }
    PutKeeps(w, d, n, u, ch, unnamed, unnamed);
  }

  lemma ConnKeeps(w: World, n: NodeState, m: NodeState, a: Text)
    requires ValidWorld(w) && ConnOk(w, n.chans, n.conn) && a in w.peer
    requires n.chans.Keys + {a, w.peer[a]} <= m.chans.Keys
    ensures AddOnce(if a in n.conn then n.conn[a] else [], w.peer[a]) == [w.peer[a]]
    ensures ConnOk(w, m.chans, n.conn[a := [w.peer[a]]])
  {
    hide ValidWorld;
    forall c | c in n.conn ensures c in m.chans && w.peer[c] in m.chans {
      assert c in n.chans.Keys && w.peer[c] in n.chans.Keys;
    }
    assert a in m.chans.Keys && w.peer[a] in m.chans.Keys;
  }

  lemma LinkKeeps(w: World, d: Text, n: NodeState, a: Text, unnamed: set<Text>)
    requires ValidWorld(w) && a in w.peer && a in unnamed && w.peer[a] in unnamed
    requires NodeOk(w, d, n, unnamed)
    ensures NodeOk(w, d, Link(n, a, w.peer[a]), unnamed)
  {
    hide ConnOk;
    hide ChansOk;
    hide ServersOk;
    hide KeysOk;
    NamedKeeps(w, d, n, a, unnamed);
    NamedKeeps(w, d, Named(n, a), w.peer[a], unnamed);
    ConnKeeps(w, n, Link(n, a, w.peer[a]), a);
  }

  lemma LearnChan(w: World, d: Text, u: Text, ch: Chan)
    requires ValidWorld(w) && ChanOk(w, d, u, ch, true)
    ensures var t := TripleOf(w, u); var ch1 := WithDefault(ch, DeviceId, t.device);
            ChanOk(w, d, u, ch1, true) && ChanOk(w, d, u, WithDefault(ch1, Protocol, t.protocol), false)
  {
    hide PathLength;
  }

  lemma LearnKeeps(w: World, d: Text, n: NodeState, u: Text, unnamed: set<Text>)
    requires ValidWorld(w) && NodeOk(w, d, n, unnamed) && u in n.chans
    ensures NodeOk(w, d, Learn(n, TripleOf(w, u)), unnamed - {u})
    ensures Learn(n, TripleOf(w, u)).chans.Keys == n.chans.Keys
  {
    var t, ch := TripleOf(w, u), n.chans[u];
    assert ChanOk(w, d, u, ch, true) by { assert ChanOk(w, d, u, ch, u in unnamed); }
    LearnChan(w, d, u, ch);
    hide ConnOk;
    hide ChansOk;
    hide ServersOk;
    hide KeysOk;
    hide ChanOk;
    hide ValidWorld;
    var ch2 := WithDefault(WithDefault(ch, DeviceId, t.device), Protocol, t.protocol);
    LearnIsPut(n, t);
    PutKeeps(w, d, n, u, ch2, unnamed, unnamed - {u});
  }

  lemma LearnIsPut(n: NodeState, t: Triple)
    ensures Learn(n, t)
            == Put(n, t.uuid, WithDefault(WithDefault(ChanAt(n, t.uuid), DeviceId, t.device), Protocol, t.protocol))
  {
  }

  ghost function PartiesData(w: World, flags: Text, a: Text, b: Text): PingData
    requires ValidWorld(w) && a in w.peer && b in w.peer
  {
    PingData(flags, TripleOf(w, a), TripleOf(w, w.peer[a]), TripleOf(w, b), TripleOf(w, w.peer[b]))
  }

  lemma LoosenNames(w: World, d: Text, n: NodeState, unnamed: set<Text>)
    requires ValidWorld(w) && NodeOk(w, d, n, {})
    ensures NodeOk(w, d, n, unnamed)
  {
    hide PathLength;
    forall u | u in n.chans ensures ChanOk(w, d, u, n.chans[u], u in unnamed) {
      assert ChanOk(w, d, u, n.chans[u], u in {});
    }
  }

  lemma LearnAllKeeps(w: World, d: Text, n: NodeState, flags: Text, a: Text, b: Text)
    requires ValidWorld(w) && NodeOk(w, d, n, {}) && a in w.peer && b in w.peer
    ensures NodeOk(w, d, LearnAll(n, PartiesData(w, flags, a, b)), {})
    ensures LearnAll(n, PartiesData(w, flags, a, b)).isRoot == n.isRoot
  {
    var open := {a, w.peer[a], b, w.peer[b]};
    LoosenNames(w, d, n, open);
    LinkKeys(n, a, w.peer[a]);
    LinkKeys(Link(n, a, w.peer[a]), b, w.peer[b]);
    hide ChansOk;
    hide KeysOk;
    hide ConnOk;
    hide ServersOk;
    hide Learn;
    hide Link;
    LinkKeeps(w, d, n, a, open);
    var n1 := Link(n, a, w.peer[a]);
    LinkKeeps(w, d, n1, b, open);
    var n2 := Link(n1, b, w.peer[b]);
    LearnKeeps(w, d, n2, a, open);
    var n3 := Learn(n2, TripleOf(w, a));
    LearnKeeps(w, d, n3, w.peer[a], open - {a});
    var n4 := Learn(n3, TripleOf(w, w.peer[a]));
    LearnKeeps(w, d, n4, b, open - {a} - {w.peer[a]});
    var n5 := Learn(n4, TripleOf(w, b));
    LearnKeeps(w, d, n5, w.peer[b], open - {a} - {w.peer[a]} - {b});
    assert open - {a} - {w.peer[a]} - {b} - {w.peer[b]} == {};
  }

  // ---- The ping text ----

  lemma EncodeTriples(flags: Text, ts: seq<Triple>, t: Triple)
    ensures Encode(flags, FieldsOf(ts + [t])) == Encode(flags, FieldsOf(ts)) + EncodeTriple(t)
  {
    var fs := FieldsOf(ts);
    assert (ts + [t])[..|ts|] == ts;
    EncodeAppend(flags, fs, t.device);
    EncodeAppend(flags, fs + [t.device], t.uuid);
    EncodeAppend(flags, fs + [t.device] + [t.uuid], t.protocol);
    assert fs + [t.device] + [t.uuid] + [t.protocol] == fs + Fields(t);
  }

  lemma FlagsAreText(flags: Text)
    requires IsFlags(flags)
    ensures COLON !in flags && IsBytes(flags)
  {
    assert FLAGS == [102, 108, 97, 103, 115];
    assert RETURN_FLAG == [114, 101, 116, 117, 114, 110, 95, 116, 111, 95, 114, 111, 111, 116];
    assert Ascii(";") == [59];
  }

  lemma {:induction false} TripleFields(w: World, us: seq<Text>)
    requires ValidWorld(w) && forall i :: 0 <= i < |us| ==> us[i] in w.owner
    ensures AreFields(FieldsOf(seq(|us|, i requires 0 <= i < |us| => TripleOf(w, us[i]))))
  {
    var ts := seq(|us|, i requires 0 <= i < |us| => TripleOf(w, us[i]));
    if us != [] {
      var front := us[..|us| - 1];
      assert ts[..|ts| - 1] == seq(|front|, i requires 0 <= i < |front| => TripleOf(w, front[i]));
      TripleFields(w, front);
    }
  }

  lemma PartiesBytes(w: World, c: Text, meta: int, a: Text, b: Text, flags: Text)
    requires ValidWorld(w) && c in w.peer && a in w.peer && b in w.peer && IsFlags(flags)
    ensures IsBytes(Encode(flags, FieldsOf(Parties(w, c, meta, a, b))))
    ensures AreFields(FieldsOf(Parties(w, c, meta, a, b)))
  {
    FlagsAreText(flags);
    var us := if meta == SEND_PING then [c] else if meta == SEND_PONG then [a, w.peer[a], c]
              else [a, w.peer[a], b, w.peer[b]];
    TripleFields(w, us);
    assert Parties(w, c, meta, a, b) == seq(|us|, i requires 0 <= i < |us| => TripleOf(w, us[i]));
    EncodeBytes(flags, FieldsOf(Parties(w, c, meta, a, b)));
  }

  /** Round trip: decoding a complete handshake gives the four triples their four writers appended, and the flags. */
  lemma DecodeParties(w: World, flags: Text, a: Text, b: Text)
    requires ValidWorld(w) && a in w.peer && b in w.peer && IsFlags(flags)
    ensures DecodePing(Encode(flags, FieldsOf(Parties(w, a, PING_PONG_ROOT, a, b))))
            == Some(PartiesData(w, flags, a, b))
  {
    var ts := Parties(w, a, PING_PONG_ROOT, a, b);
    PartiesBytes(w, a, PING_PONG_ROOT, a, b, flags);
    FlagsAreText(flags);
    SplitEncode(flags, FieldsOf(ts));
    assert ts == [ts[0], ts[1], ts[2], ts[3]];
    assert ts[..3][..2] == [ts[0], ts[1]] && ts[..3][..2][..1] == [ts[0]];
    assert FieldsOf(ts[..3][..2][..1]) == Fields(ts[0]) by { assert ts[..3][..2][..1][..0] == []; }
    assert FieldsOf(ts[..3][..2]) == Fields(ts[0]) + Fields(ts[1]);
    assert FieldsOf(ts[..3]) == Fields(ts[0]) + Fields(ts[1]) + Fields(ts[2]);
    assert FieldsOf(ts) == Fields(ts[0]) + Fields(ts[1]) + Fields(ts[2]) + Fields(ts[3]);
  }

  // ---- Sending ----

  ghost predicate AllOk(w: World, d: Text, out: seq<Send>)
    requires ValidWorld(w)
  {
    forall i :: 0 <= i < |out| ==> FlightOk(w, out[i]) && w.owner[out[i].channel] == d
  }

  lemma ClientsOwned(w: World, d: Text, n: NodeState, c: Text)
    requires ValidWorld(w) && NodeOk(w, d, n, {}) && c in Clients(n)
    ensures c in w.peer && w.owner[c] == d && OwnTriple(n, c) == TripleOf(w, c)
  {
    ClientsAreOwn(n.keys, n);
    assert ChanOk(w, d, c, n.chans[c], c in {});
  }

  lemma LeadingOwned(w: World, d: Text, n: NodeState, c: Text, closer: bool)
    requires ValidWorld(w) && NodeOk(w, d, n, {}) && c in Leading(n, closer)
    ensures c in w.peer && w.owner[c] == d
  {
    LeadingAre(Clients(n), n, closer);
    ClientsOwned(w, d, n, c);
  }

  /** A packet routed towards the root goes out unchanged, over one client channel of this device. */
  lemma RouteToRootOk(w: World, d: Text, n: NodeState, p: Pkt)
    requires ValidWorld(w) && NodeOk(w, d, n, {}) && p.forwarding == TO_ROOT
    requires forall c :: c in w.peer ==> FlightOk(w, Send(c, Normalized(p)))
    ensures AllOk(w, d, Route(n, p))
  {
    if Leading(n, true) != [] {
      LeadingOwned(w, d, n, Leading(n, true)[0], true);
    }
  }

  // ---- Topology packets ----

  lemma GrownOk(w: World, d: Text, n: NodeState, p: Pkt, path: seq<Text>, c: Text)
    requires ValidWorld(w) && NodeOk(w, d, n, {}) && c in Clients(n)
    requires GoodPath(w, path) && path[|path| - 1] == d && p.message == EncodePath(path) && p.hops == |path| - 1
    requires p.contents == MESH_TOPO && p.meta == SEND_TOPO && p.forwarding == TO_NEIGHBOR
    requires p.priority == PRIORITY_MEDIUM
    ensures FlightOk(w, Send(c, Normalized(p)))
  {
    ClientsOwned(w, d, n, c);
    PathFields(w, path);
    EncodeBytes([], path);
    assert TopoOk(w, c, Normalized(p), path);
  }

  lemma SendAllTopoOk(w: World, d: Text, n: NodeState, p: Pkt, path: seq<Text>)
    requires ValidWorld(w) && NodeOk(w, d, n, {})
    requires GoodPath(w, path) && path[|path| - 1] == d && p.message == EncodePath(path) && p.hops == |path| - 1
    requires p.contents == MESH_TOPO && p.meta == SEND_TOPO && p.forwarding == TO_NEIGHBOR
    requires p.priority == PRIORITY_MEDIUM
    ensures AllOk(w, d, SendAll(Clients(n), p))
  {
    var cs := Clients(n);
    forall i | 0 <= i < |cs| ensures FlightOk(w, SendAll(cs, p)[i]) && w.owner[cs[i]] == d {
      ClientsOwned(w, d, n, cs[i]);
      GrownOk(w, d, n, p, path, cs[i]);
    }
  }

  lemma ReturnOk(w: World, c: Text, p: Pkt, path: seq<Text>)
    requires ValidWorld(w) && c in w.peer && GoodPath(w, path) && p.message == EncodePath(path)
    requires p.contents == MESH_TOPO && p.meta == RETURN_TOPO && p.forwarding == TO_ROOT && 1 <= p.hops <= 255
    requires p.priority == PRIORITY_MEDIUM
    ensures FlightOk(w, Send(c, Normalized(p)))
  {
    PathFields(w, path);
    EncodeBytes([], path);
    assert TopoOk(w, c, Normalized(p), path);
  }

  lemma RouteReturnOk(w: World, d: Text, n: NodeState, p: Pkt, path: seq<Text>)
    requires ValidWorld(w) && NodeOk(w, d, n, {}) && GoodPath(w, path) && p.message == EncodePath(path)
    requires p.contents == MESH_TOPO && p.meta == RETURN_TOPO && p.forwarding == TO_ROOT && 1 <= p.hops <= 255
    requires p.priority == PRIORITY_MEDIUM
    ensures AllOk(w, d, Route(n, p))
  {
    forall c | c in w.peer ensures FlightOk(w, Send(c, Normalized(p))) {
      ReturnOk(w, c, p, path);
    }
    RouteToRootOk(w, d, n, p);
  }

  /** A device appends itself exactly when it is not on the path yet. */
  lemma AppendTopoIs(w: World, d: Text, n: NodeState, c: Text, p: Pkt, path: seq<Text>)
    requires ValidWorld(w) && NodeOk(w, d, n, {}) && c in w.peer && DestOf(w, c) == d
    requires GoodPath(w, path) && p.message == EncodePath(path) && path[|path| - 1] == w.owner[c]
    ensures Carries(p, d) <==> d in path
    ensures d !in path ==> GoodPath(w, path + [d]) && Appended(p, d + [COLON]).message == EncodePath(path + [d])
  {
    hide NodeOk;
    hide GoodPath;
    hide Contains;
    PathFields(w, path);
    ContainsId(path, d);
    if d !in path {
      GrowPath(w, path, c);
      EncodeAppend([], path, d);
    }
  }

  lemma ReturnTopoOk(w: World, d: Text, n: NodeState, p: Pkt, path: seq<Text>)
    requires ValidWorld(w) && NodeOk(w, d, n, {}) && GoodPath(w, path) && p.message == EncodePath(path)
    requires p.contents == MESH_TOPO && 1 <= p.hops <= 255
    ensures AllOk(w, d, ReturnTopo(n, p))
  {
    hide NodeOk;
    hide GoodPath;
    if !n.isRoot {
      RouteReturnOk(w, d, n, ReturnedTopo(p), path);
    }
  }

  lemma AllOkJoin(w: World, d: Text, a: seq<Send>, b: seq<Send>)
    requires ValidWorld(w) && AllOk(w, d, a) && AllOk(w, d, b)
    ensures AllOk(w, d, a + b)
  {
    hide FlightOk;
  }

  lemma NodeIsNamed(w: World, d: Text, n: NodeState)
    requires ValidWorld(w) && NodeOk(w, d, n, {})
    ensures n.id == d
  {
  }

  lemma AppendTopoKeeps(w: World, d: Text, n: NodeState, c: Text, p: Pkt, path: seq<Text>)
    requires ValidWorld(w) && NodeOk(w, d, n, {}) && c in w.peer && DestOf(w, c) == d && p.contents == MESH_TOPO
    requires GoodPath(w, path) && p.message == EncodePath(path) && path[|path| - 1] == w.owner[c]
    requires p.meta == SEND_TOPO && p.hops == |path| && p.priority == PRIORITY_MEDIUM
    ensures var e := AppendTopo(n, p);
            && NodeOk(w, d, e.node, {}) && AllOk(w, d, e.out)
            && e.pkt.contents == MESH_TOPO && e.pkt.hops == p.hops
            && exists path' :: GoodPath(w, path') && e.pkt.message == EncodePath(path')
  {
    hide NodeOk;
    hide GoodPath;
    hide FlightOk;
    hide ValidWorld;
    hide ProcessTopo;
    AppendTopoIs(w, d, n, c, p, path);
    assert n.id == d by { NodeIsNamed(w, d, n); }
    var e := AppendTopo(n, p);
    if !Carries(p, n.id) {
      ProcessTopoKeeps(w, d, n, path + [d]);
      SendAllTopoOk(w, d, n, e.pkt, path + [d]);
      AllOkJoin(w, d, SendAll(Clients(n), e.pkt), Route(n, e.pkt));
    }
  }

  lemma CheckTopoKeeps(w: World, d: Text, n: NodeState, c: Text, p0: Pkt, path: seq<Text>)
    requires ValidWorld(w) && NodeOk(w, d, n, {}) && c in w.peer && DestOf(w, c) == d
    requires p0.contents == MESH_TOPO && TopoOk(w, c, p0, path)
    ensures var r := CheckTopo(n, p0.(hops := p0.hops + 1)); NodeOk(w, d, r.0, {}) && AllOk(w, d, r.1)
  {
    var p := p0.(hops := p0.hops + 1);
    PathFields(w, path);
    hide NodeOk;
    hide GoodPath;
    hide FlightOk;
    if p.meta == SEND_TOPO {
      AppendTopoKeeps(w, d, n, c, p, path);
      var e := AppendTopo(n, p);
      var path' :| GoodPath(w, path') && e.pkt.message == EncodePath(path');
      ReturnTopoOk(w, d, e.node, e.pkt, path');
      AllOkJoin(w, d, e.out, ReturnTopo(e.node, e.pkt));
    } else if p.hops <= TOPO_HOP_LIMIT {
      if n.isRoot { ProcessTopoKeeps(w, d, n, path); } else { RouteReturnOk(w, d, n, p, path); }
    }
  }

  // ---- Handshake packets ----

  lemma PingFlightOk(w: World, c: Text, p: Pkt, flags: Text, a: Text, b: Text)
    requires ValidWorld(w) && c in w.peer && PingOk(w, c, p, flags, a, b)
    requires p == Normalized(p) && p.contents == PING_PONG
    ensures FlightOk(w, Send(c, p))
  {
    PartiesBytes(w, c, p.meta, a, b, flags);
  }

  lemma SendPingOk(w: World, d: Text, n: NodeState, returnToRoot: bool)
    requires ValidWorld(w) && NodeOk(w, d, n, {})
    ensures AllOk(w, d, SendPing(n, returnToRoot))
  {
    var cs, flags, out := Clients(n), PingFlags(returnToRoot), SendPing(n, returnToRoot);
    hide FlightOk;
    forall i | 0 <= i < |cs| ensures cs[i] in w.peer && FlightOk(w, out[i]) && w.owner[out[i].channel] == d {
      ClientsOwned(w, d, n, cs[i]);
      OnePingOk(w, cs[i], flags);
    }
  }

  lemma OnePingOk(w: World, c: Text, flags: Text)
    requires ValidWorld(w) && c in w.peer && IsFlags(flags)
    ensures FlightOk(w, Send(c, Normalized(PingPkt(flags, TripleOf(w, c)))))
  {
    EncodeTriples(flags, [], TripleOf(w, c));
    assert [] + [TripleOf(w, c)] == [TripleOf(w, c)];
    var p := Normalized(PingPkt(flags, TripleOf(w, c)));
    hide FlightOk;
    hide ValidWorld;
    assert PingOk(w, c, p, flags, c, c);
    PingFlightOk(w, c, p, flags, c, c);
  }

  lemma PongedText(w: World, d: Text, n: NodeState, c: Text, p: Pkt, flags: Text)
    requires ValidWorld(w) && NodeOk(w, d, n, {}) && c in w.peer && DestOf(w, c) == d
    requires p.message == Encode(flags, FieldsOf([TripleOf(w, c)]))
    ensures Ponged(n, p, w.peer[c]).message == Encode(flags, FieldsOf([TripleOf(w, c), TripleOf(w, w.peer[c])]))
  {
    ServerTriple(w, d, n, c);
    EncodeTriples(flags, [TripleOf(w, c)], TripleOf(w, w.peer[c]));
    assert [TripleOf(w, c)] + [TripleOf(w, w.peer[c])] == [TripleOf(w, c), TripleOf(w, w.peer[c])];
  }

  lemma OnePongOk(w: World, e: Text, q: Pkt, flags: Text, c: Text)
    requires ValidWorld(w) && c in w.peer && e in w.peer && IsFlags(flags) && DestOf(w, c) == w.owner[e]
    requires q.message == Encode(flags, FieldsOf([TripleOf(w, c), TripleOf(w, w.peer[c])]))
    requires q.contents == PING_PONG && q.meta == SEND_PONG && q.forwarding == TO_NEIGHBOR
    requires q.priority == PRIORITY_MEDIUM && q.hops == 1
    ensures FlightOk(w, Send(e, Appended(q, EncodeTriple(TripleOf(w, e)))))
    ensures PingOk(w, e, Appended(q, EncodeTriple(TripleOf(w, e))), flags, c, c)
  {
    hide FlightOk;
    EncodeTriples(flags, [TripleOf(w, c), TripleOf(w, w.peer[c])], TripleOf(w, e));
    assert [TripleOf(w, c), TripleOf(w, w.peer[c])] + [TripleOf(w, e)] == Parties(w, e, SEND_PONG, c, c);
    var r := Appended(q, EncodeTriple(TripleOf(w, e)));
    assert PingOk(w, e, r, flags, c, c);
    PingFlightOk(w, e, r, flags, c, c);
  }

  lemma RecvPingOk(w: World, d: Text, n: NodeState, c: Text, p: Pkt, flags: Text)
    requires ValidWorld(w) && NodeOk(w, d, n, {}) && c in w.peer && DestOf(w, c) == d
    requires p.contents == PING_PONG && IsFlags(flags) && p.hops == 1 && p.priority == PRIORITY_MEDIUM
    requires p.message == Encode(flags, FieldsOf([TripleOf(w, c)]))
    ensures AllOk(w, d, RecvPing(n, p, w.peer[c]))
  {
    var cs, q, out := Clients(n), Ponged(n, p, w.peer[c]), RecvPing(n, p, w.peer[c]);
    PongedText(w, d, n, c, p, flags);
    hide FlightOk;
    hide OwnTriple;
    forall i | 0 <= i < |cs| ensures cs[i] in w.peer && FlightOk(w, out[i]) && w.owner[out[i].channel] == d {
      ClientsOwned(w, d, n, cs[i]);
      OnePongOk(w, cs[i], q, flags, c);
    }
  }

  lemma ServerTriple(w: World, d: Text, n: NodeState, c: Text)
    requires ValidWorld(w) && NodeOk(w, d, n, {}) && c in w.peer && DestOf(w, c) == d
    ensures OwnChannel(n, w.peer[c]) && OwnTriple(n, w.peer[c]) == TripleOf(w, w.peer[c])
  {
    var s := w.peer[c];
    assert OwnChannel(n, s);
    assert ChanOk(w, d, s, n.chans[s], s in {});
  }

  lemma FlagDecides(flags: Text)
    requires IsFlags(flags)
    ensures Contains(RETURN_FLAG, flags) <==> flags == RETURN_FLAGS
  {
    if flags == RETURN_FLAGS {
      assert OccursAt(RETURN_FLAG, flags, 6);
    }
  }

  lemma RootPongOk(w: World, d: Text, n: NodeState, p: Pkt, flags: Text, a: Text, b: Text)
    requires ValidWorld(w) && NodeOk(w, d, n, {}) && a in w.peer && b in w.peer && flags == RETURN_FLAGS
    requires p.contents == PING_PONG && DestOf(w, a) == w.owner[b] && DestOf(w, b) == w.owner[a]
    requires p.message == Encode(flags, FieldsOf(Parties(w, a, PING_PONG_ROOT, a, b)))
    requires 2 <= p.hops <= PING_HOP_LIMIT
    ensures AllOk(w, d, Route(n, RootPong(p)))
  {
    hide NodeOk;
    hide ValidWorld;
    hide FlightOk;
    forall c | c in w.peer ensures FlightOk(w, Send(c, Normalized(RootPong(p)))) {
      assert PingOk(w, c, RootPong(p), flags, a, b);
      PingFlightOk(w, c, RootPong(p), flags, a, b);
    }
    RouteToRootOk(w, d, n, RootPong(p));
  }

  lemma ProcessPingKeeps(w: World, d: Text, n: NodeState, p: Pkt, flags: Text, a: Text, b: Text)
    requires ValidWorld(w) && NodeOk(w, d, n, {}) && a in w.peer && b in w.peer && IsFlags(flags)
    requires p.contents == PING_PONG && DestOf(w, a) == w.owner[b]
    requires p.message == Encode(flags, FieldsOf(Parties(w, a, PING_PONG_ROOT, a, b)))
    requires n.isRoot || 2 <= p.hops <= PING_HOP_LIMIT
    ensures DecodePing(p.message).Some?
    ensures var r := ProcessPing(n, p); NodeOk(w, d, r.0, {}) && AllOk(w, d, r.1)
  {
    hide NodeOk;
    hide FlightOk;
    hide DecodePing;
    hide LearnAll;
    hide ValidWorld;
    hide Encode;
    DecodeParties(w, flags, a, b);
    LearnAllKeeps(w, d, n, flags, a, b);
    var data := PartiesData(w, flags, a, b);
    FlagDecides(flags);
    if ReturnsToRoot(LearnAll(n, data), data) {
      RootPongOk(w, d, LearnAll(n, data), p, flags, a, b);
    }
  }

  lemma RecvPongText(w: World, d: Text, n: NodeState, c: Text, p: Pkt, flags: Text, a: Text)
    requires ValidWorld(w) && NodeOk(w, d, n, {}) && c in w.peer && DestOf(w, c) == d && a in w.peer
    requires p.message == Encode(flags, FieldsOf(Parties(w, c, SEND_PONG, a, a)))
    ensures RecvPong(n, p, w.peer[c]).message == Encode(flags, FieldsOf(Parties(w, a, PING_PONG_ROOT, a, c)))
  {
    hide NodeOk;
    hide Encode;
    hide FieldsOf;
    ServerTriple(w, d, n, c);
    var ts := Parties(w, c, SEND_PONG, a, a);
    EncodeTriples(flags, ts, TripleOf(w, w.peer[c]));
    assert ts + [TripleOf(w, w.peer[c])] == Parties(w, a, PING_PONG_ROOT, a, c);
  }

  lemma CheckPingKeeps(w: World, d: Text, n: NodeState, c: Text, p0: Pkt, flags: Text, a: Text, b: Text)
    requires ValidWorld(w) && NodeOk(w, d, n, {}) && c in w.peer && DestOf(w, c) == d
    requires p0.contents == PING_PONG && PingOk(w, c, p0, flags, a, b)
    ensures var p := p0.(hops := p0.hops + 1);
            && Decodable(n, p0, w.peer[c])
            && var r := CheckPing(n, p, w.peer[c]); NodeOk(w, d, r.0, {}) && AllOk(w, d, r.1)
  {
    hide NodeOk;
    hide ValidWorld;
    var p := p0.(hops := p0.hops + 1);
    if p.meta == SEND_PING {
      RecvPingOk(w, d, n, c, p, flags);
    } else if p.meta == SEND_PONG {
      RecvPongText(w, d, n, c, p0, flags, a);
      RecvPongText(w, d, n, c, p, flags, a);
      DecodeParties(w, flags, a, c);
      ProcessPingKeeps(w, d, n, RecvPong(n, p, w.peer[c]), flags, a, c);
    } else {
      DecodeParties(w, flags, a, b);
      if p.hops <= PING_HOP_LIMIT {
        if n.isRoot {
          ProcessPingKeeps(w, d, n, p, flags, a, b);
        } else {
          forall e | e in w.peer ensures FlightOk(w, Send(e, Normalized(p))) {
            assert PingOk(w, e, Normalized(p), flags, a, b);
            PingFlightOk(w, e, Normalized(p), flags, a, b);
          }
          RouteToRootOk(w, d, n, p);
        }
      }
    }
  }

  // ---- Events ----

  lemma ProcessIs(n: NodeState, p: Pkt, server: Text)
    requires p.contents == MESH_TOPO || p.contents == PING_PONG
    ensures p.contents == MESH_TOPO ==>
              Decodable(n, p, server) && Process(n, p, server) == CheckTopo(n, p.(hops := p.hops + 1))
    ensures p.contents == PING_PONG ==> Process(n, p, server) == CheckPing(n, p.(hops := p.hops + 1), server)
  {
    hide CheckTopo;
    hide CheckPing;
    hide Route;
  }

  lemma ProcessKeeps(w: World, d: Text, n: NodeState, f: Send)
    requires ValidWorld(w) && NodeOk(w, d, n, {}) && FlightOk(w, f) && DestOf(w, f.channel) == d
    ensures Decodable(n, f.pkt, w.peer[f.channel]) && OwnChannel(n, w.peer[f.channel])
    ensures var r := Process(n, f.pkt, w.peer[f.channel]); NodeOk(w, d, r.0, {}) && AllOk(w, d, r.1)
  {
    hide NodeOk;
    hide AllOk;
    hide PingOk;
    hide TopoOk;
    hide Process;
    hide Decodable;
    hide OwnTriple;
    hide IsBytes;
    hide ValidWorld;
    hide Encode;
    ServerTriple(w, d, n, f.channel);
    ProcessIs(n, f.pkt, w.peer[f.channel]);
    if f.pkt.contents == MESH_TOPO {
      var path :| TopoOk(w, f.channel, f.pkt, path);
      CheckTopoKeeps(w, d, n, f.channel, f.pkt, path);
    } else {
      var flags, a, b :| PingOk(w, f.channel, f.pkt, flags, a, b);
      CheckPingKeeps(w, d, n, f.channel, f.pkt, flags, a, b);
    }
  }

  lemma OpenKeeps(w: World, d: Text, n: NodeState, c: Text)
    requires ValidWorld(w) && NodeOk(w, d, n, {}) && c in w.peer && w.owner[c] == d && c !in n.chans
    ensures NodeOk(w, d, OpenChannel(n, c, w.protocol[c], Client), {})
  {
    PutKeeps(w, d, n, c, Chan(Some(c), Some(d), Some(w.protocol[c]), Some(-1), true, Client), {}, {});
  }

  lemma FloodOk(w: World, n: NodeState)
    requires ValidWorld(w) && NodeOk(w, w.root, n, {})
    ensures AllOk(w, w.root, StartFlood(n))
  {
    var p := TopoPkt(EncodePath([n.id]));
    assert GoodPath(w, [w.root]);
    SendAllTopoOk(w, w.root, n, p, [w.root]);
  }

  lemma StepKeeps(w: World, s: MeshState, e: Event)
    requires ValidWorld(w) && Inv(w, s) && Enabled(w, s, e)
    ensures Inv(w, Apply(w, s, e))
  {
    hide NodeOk;
    hide FlightOk;
    hide Process;
    hide StartFlood;
    hide SendPing;
    match e
    case Deliver(i) =>
      ProcessKeeps(w, DestOf(w, s.net[i].channel), s.nodes[DestOf(w, s.net[i].channel)], s.net[i]);
    case Dedup(i, j) =>
    case Lose(i) =>
    case Flood =>
      FloodOk(w, s.nodes[w.root]);
    case Ping(d, flag) =>
      SendPingOk(w, d, s.nodes[d], flag);
    case Open(c) =>
      OpenKeeps(w, w.owner[c], s.nodes[w.owner[c]], c);
  }

  lemma InitNodeOk(w: World, d: Text, n: NodeState)
    requires ValidWorld(w) && d in w.devices && InitNode(w, d, n)
    ensures NodeOk(w, d, n, {})
  {
    hide PathLength;
  }

  lemma InitInv(w: World, s: MeshState)
    requires ValidWorld(w) && Init(w, s)
    ensures Inv(w, s)
  {
    hide NodeOk;
    hide InitNode;
    forall d | d in w.devices ensures NodeOk(w, d, s.nodes[d], {}) {
      InitNodeOk(w, d, s.nodes[d]);
    }
  }

  lemma {:induction false} RunKeeps(w: World, s: MeshState, es: seq<Event>)
    requires ValidWorld(w) && Inv(w, s) && Runs(w, s, es)
    ensures Inv(w, After(w, s, es))
    decreases |es|
  {
    if es != [] {
      StepKeeps(w, s, es[0]);
      RunKeeps(w, Apply(w, s, es[0]), es[1..]);
    }
  }

  /** The invariant holds after any sequence of events, losses included. */
  lemma ReachableInv(w: World, s: MeshState)
    requires ValidWorld(w) && Reachable(w, s)
    ensures Inv(w, s)
  {
    hide Inv;
    hide Init;
    hide Apply;
    hide Enabled;
    var states := iset t | Inv(w, t);
    forall t | Init(w, t) ensures Inv(w, t) { InitInv(w, t); }
    forall t, e | Inv(w, t) && Enabled(w, t, e) ensures Inv(w, Apply(w, t, e)) { StepKeeps(w, t, e); }
    assert Closed(w, states);
  }
}
