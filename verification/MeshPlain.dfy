/** Pings that are not for the root: their handshakes stay between neighbours, who all overhear the pong. */
module MeshPlain {
  import opened Texts
  import opened Packets
  import opened NodeSpec
  import opened Mesh
  import opened MeshSafety
  import opened MeshSteps
  import opened MeshHandshake
  import opened MeshWays
  import opened MeshReturns
  import opened MeshQuiet
  import opened MeshLearning
  import opened MeshStart

  ghost predicate Plain(es: seq<Event>) {
    forall i :: 0 <= i < |es| && es[i].Ping? ==> !es[i].returnToRoot
  }

  /** A ping or a pong without the flag. */
  ghost predicate PlainHandshake(w: World, f: Send)
    requires ValidWorld(w)
  {
    f.channel in w.peer && f.pkt.meta != PING_PONG_ROOT && exists a, b :: PingOk(w, f.channel, f.pkt, FLAGS, a, b)
  }

  ghost predicate PlainNet(w: World, s: MeshState)
    requires ValidWorld(w)
  {
    forall f :: f in s.net && f.pkt.contents == PING_PONG ==> PlainHandshake(w, f)
  }

  /** Device `x` can hear of client channel `c`: the far device of `c` has a channel to `x`, or `c` leads to `x` and
      some channel leads to its owner. */
  ghost predicate Hearable(w: World, x: Text, c: Text)
    requires ValidWorld(w)
  {
    c in w.peer
    && ((exists b :: b in w.peer && w.owner[b] == DestOf(w, c) && DestOf(w, b) == x)
        || (DestOf(w, c) == x && exists a :: a in w.peer && DestOf(w, a) == w.owner[c]))
  }

  ghost predicate AllHearable(w: World, s: MeshState)
    requires ValidWorld(w)
  {
    forall x, c :: x in s.nodes && c in s.nodes[x].conn ==> Hearable(w, x, c)
  }

  lemma FlagsDiffer()
    ensures FLAGS != RETURN_FLAGS
  {
    assert |FLAGS| == 5 && |RETURN_FLAGS| > 5;
  }

  /** A plain pong is where the handshake ends: it is not sent on. */
  lemma PlainPongEnds(w: World, d: Text, n: NodeState, f: Send, a: Text, b: Text)
    requires ValidWorld(w) && NodeOk(w, d, n, {}) && f.channel in w.peer && DestOf(w, f.channel) == d
    requires IsPong(f.pkt) && PingOk(w, f.channel, f.pkt, FLAGS, a, b)
    ensures Process(n, f.pkt, w.peer[f.channel]).1 == []
  {
    hide NodeOk;
    var p, server := f.pkt.(hops := f.pkt.hops + 1), w.peer[f.channel];
    RecvPongText(w, d, n, f.channel, p, FLAGS, a);
    DecodeParties(w, FLAGS, a, f.channel);
    FlagDecides(FLAGS);
    FlagsDiffer();
    hide LearnAll;
    hide DecodePing;
    hide RecvPong;
    hide Route;
    hide Contains;
    hide Encode;
    hide PingOk;
  }

  lemma PlainDelivered(w: World, s: MeshState, i: nat, g: Send)
    requires ValidWorld(w) && Inv(w, s) && PlainNet(w, s) && InFlight(w, s, i) && g in Delivered(w, s, i).1
    requires g.pkt.contents == PING_PONG
    ensures PlainHandshake(w, g)
  {
    hide NodeOk;
    hide PingOk;
    var f := s.net[i];
    var d := DestOf(w, f.channel);
    var n := s.nodes[d];
    assert FlightOk(w, f) && f in s.net;
    hide FlightOk;
    hide Process;
    if f.pkt.contents == PING_PONG {
      var a, b :| PingOk(w, f.channel, f.pkt, FLAGS, a, b);
      StageHops(w, f.channel, f.pkt, FLAGS, a, b);
      if IsPong(f.pkt) {
        PlainPongEnds(w, d, n, f, a, b);
      } else {
        var k := PongAmong(n, f.pkt, w.peer[f.channel], g);
        PingOutput(n, f.pkt, w.peer[f.channel], k);
        assert g == PongOver(w, n, f, Clients(n)[k]);
        PongIsOk(w, d, n, f, Clients(n)[k], FLAGS, a, b);
        assert PingOk(w, g.channel, g.pkt, FLAGS, f.channel, f.channel);
      }
    } else {
      assert f.pkt.contents == MESH_TOPO by { FlightKinds(w, f); }
      TopoMakesTopo(n, f.pkt, w.peer[f.channel], g);
    }
  }

  lemma FlightKinds(w: World, f: Send)
    requires ValidWorld(w) && FlightOk(w, f)
    ensures f.pkt.contents == MESH_TOPO || f.pkt.contents == PING_PONG
  {
    hide GoodPath;
    hide PingOk;
  }

  lemma PongAmong(n: NodeState, p: Pkt, server: Text, g: Send) returns (k: nat)
    requires IsPing(p) && g in Process(n, p, server).1
    ensures k < |Process(n, p, server).1| && Process(n, p, server).1[k] == g && k < |Clients(n)|
  {
    var out := Process(n, p, server).1;
    assert |out| == |Clients(n)| by { hide Clients; }
    hide Process;
    hide Clients;
    k :| 0 <= k < |out| && out[k] == g;
  }

  lemma PlainSent(w: World, d: Text, n: NodeState, g: Send)
    requires ValidWorld(w) && NodeOk(w, d, n, {}) && g in SendPing(n, false)
    ensures PlainHandshake(w, g)
  {
    var cs := Clients(n);
    var i :| 0 <= i < |SendPing(n, false)| && SendPing(n, false)[i] == g;
    ClientsOwned(w, d, n, cs[i]);
    hide NodeOk;
    hide Clients;
    OnePingOk(w, cs[i], FLAGS);
    var c := cs[i];
    assert PingOk(w, c, g.pkt, FLAGS, c, c) by { PlainPingOk(w, c); }
  }

  lemma PlainPingOk(w: World, c: Text)
    requires ValidWorld(w) && c in w.peer
    ensures PingOk(w, c, Normalized(PingPkt(FLAGS, TripleOf(w, c))), FLAGS, c, c)
  {
    EncodeTriples(FLAGS, [], TripleOf(w, c));
    assert [] + [TripleOf(w, c)] == [TripleOf(w, c)];
  }

  lemma StepPlain(w: World, s: MeshState, e: Event)
    requires ValidWorld(w) && Inv(w, s) && PlainNet(w, s) && Enabled(w, s, e) && (e.Ping? ==> !e.returnToRoot)
    ensures PlainNet(w, Apply(w, s, e))
  {
    hide NodeOk;
    hide FlightOk;
    hide PlainHandshake;
    forall g | g in Apply(w, s, e).net && g.pkt.contents == PING_PONG ensures PlainHandshake(w, g) {
      NetAfter(w, s, e, g);
      if g !in s.net {
        hide Apply;
        match e
        case Deliver(i) => PlainDelivered(w, s, i, g);
        case Ping(d, _) => PlainSent(w, d, s.nodes[d], g);
        case _ =>
      }
    }
  }

  lemma HearableDelivered(w: World, x: Text, n: NodeState, f: Send, c: Text)
    requires ValidWorld(w) && NodeOk(w, x, n, {}) && FlightOk(w, f) && DestOf(w, f.channel) == x
    requires f.pkt.contents == PING_PONG ==> PlainHandshake(w, f)
    requires c in Process(n, f.pkt, w.peer[f.channel]).0.conn && c !in n.conn
    ensures Hearable(w, x, c)
  {
    hide NodeOk;
    hide Process;
    hide Encode;
    hide GoodPath;
    hide Parties;
    if f.pkt.contents == MESH_TOPO {
      TopoKeepsLinks(n, f.pkt, w.peer[f.channel]);
    } else {
      var a, b :| PingOk(w, f.channel, f.pkt, FLAGS, a, b);
      PingLinks(w, x, n, f, FLAGS, a, b);
      assert IsPong(f.pkt);
      assert DestOf(w, a) == w.owner[f.channel];
    }
  }

  lemma StepHearable(w: World, s: MeshState, e: Event)
    requires ValidWorld(w) && Inv(w, s) && PlainNet(w, s) && AllHearable(w, s) && Enabled(w, s, e)
    ensures AllHearable(w, Apply(w, s, e))
  {
    hide NodeOk;
    hide FlightOk;
    hide Process;
    hide PlainHandshake;
    hide Hearable;
    var t := Apply(w, s, e);
    forall x, c | x in t.nodes && c in t.nodes[x].conn ensures Hearable(w, x, c) {
      if e.Deliver? && x == DestOf(w, s.net[e.i].channel) && c !in s.nodes[x].conn {
        var f := s.net[e.i];
        assert FlightOk(w, f) && f in s.net;
        HearableDelivered(w, x, s.nodes[x], f, c);
      }
    }
  }

  lemma StartPlain(w: World, s: MeshState)
    requires ValidWorld(w) && Init(w, s)
    ensures PlainNet(w, s) && AllHearable(w, s)
  {
  }

  lemma {:induction false} RunPlain(w: World, s: MeshState, es: seq<Event>)
    requires ValidWorld(w) && Inv(w, s) && PlainNet(w, s) && AllHearable(w, s) && Runs(w, s, es) && Plain(es)
    ensures PlainNet(w, After(w, s, es)) && AllHearable(w, After(w, s, es)) && Inv(w, After(w, s, es))
    decreases |es|
  {
    hide Inv;
    hide PlainNet;
    hide AllHearable;
    hide Apply;
    hide Enabled;
    if es != [] {
      StepKeeps(w, s, es[0]);
      StepPlain(w, s, es[0]);
      StepHearable(w, s, es[0]);
      assert Plain(es[1..]);
      RunPlain(w, Apply(w, s, es[0]), es[1..]);
    }
  }

  /** As long as no device pings for the root, whatever else happens: no handshake is ever on its way to the root, and
      every device knows only links that it can hear of. */
  lemma PlainStaysNear(w: World, start: MeshState, es: seq<Event>)
    requires ValidWorld(w) && Init(w, start) && Runs(w, start, es) && Plain(es)
    ensures var t := After(w, start, es);
            && (forall f :: f in t.net ==> !IsRootPong(f.pkt))
            && forall x, c :: x in t.nodes && c in t.nodes[x].conn ==> Hearable(w, x, c)
  {
    hide Inv;
    StartPlain(w, start);
    InitInv(w, start);
    hide Init;
    RunPlain(w, start, es);
  }

  /** What can be heard of is heard of, once every device has pinged over its open channels and it is quiet. */
  lemma HearableHeard(w: World, s: MeshState, es: seq<Event>, x: Text, c: Text)
    requires ValidWorld(w) && Reachable(w, s) && AllOpen(w, s) && Runs(w, s, es) && Lossless(es)
    requires NoHandshake(After(w, s, es)) && forall d :: d in w.devices ==> Pings(es, d)
    requires x in w.devices && Hearable(w, x, c)
    ensures x in After(w, s, es).nodes && c in After(w, s, es).nodes[x].conn
  {
    hide Inv;
    AllDevices(w, s);
    hide Reachable;
    hide Clients;
    hide Pings;
    hide NoHandshake;
    if b :| b in w.peer && w.owner[b] == DestOf(w, c) && DestOf(w, b) == x {
      PingsLink(w, s, es, w.owner[c], x, c, b);
    } else {
      var a :| a in w.peer && DestOf(w, a) == w.owner[c];
      PingsLink(w, s, es, w.owner[a], x, a, c);
    }
  }

  /** Plain pings tell exactly this: with all channels open, after a lossless run in which every device pings but none
      for the root, once it is quiet, a device knows a link if and only if it can hear of it. */
  lemma PlainKnowsExactly(w: World, start: MeshState, first: seq<Event>, es: seq<Event>)
    requires ValidWorld(w) && Init(w, start) && Runs(w, start, first) && Plain(first)
    requires AllOpen(w, After(w, start, first)) && Runs(w, After(w, start, first), es) && Plain(es) && Lossless(es)
    requires NoHandshake(After(w, After(w, start, first), es)) && forall d :: d in w.devices ==> Pings(es, d)
    ensures var t := After(w, After(w, start, first), es);
            forall x, c :: x in w.devices ==> x in t.nodes && (c in t.nodes[x].conn <==> Hearable(w, x, c))
  {
    hide Inv;
    hide PlainNet;
    hide AllOpen;
    hide Hearable;
    hide NoHandshake;
    hide Pings;
    StartPlain(w, start);
    InitInv(w, start);
    assert Reachable(w, start);
    hide Init;
    RunPlain(w, start, first);
    ReachableRun(w, start, first);
    hide Reachable;
    var s := After(w, start, first);
    RunPlain(w, s, es);
    ReachableRun(w, s, es);
    var t := After(w, s, es);
    AllDevices(w, t);
    forall x, c | x in w.devices && Hearable(w, x, c) ensures c in t.nodes[x].conn { HearableHeard(w, s, es, x, c); }
  }
}
