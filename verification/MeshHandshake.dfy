/** The handshake comes to its end: a ping over a channel whose far device has a channel back links the two. */
module MeshHandshake {
  import opened Texts
  import opened Packets
  import opened NodeSpec
  import opened Mesh
  import opened MeshSafety
  import opened MeshSteps

  ghost predicate IsPing(p: Pkt) {
    p.contents == PING_PONG && p.meta == SEND_PING
  }

  ghost predicate IsPong(p: Pkt) {
    p.contents == PING_PONG && p.meta == SEND_PONG
  }

  /** No ping and no pong is on its way between neighbours. */
  ghost predicate NoHandshake(s: MeshState) {
    forall f :: f in s.net ==> !IsPing(f.pkt) && !IsPong(f.pkt)
  }

  /** A pong over channel `e` that answers a ping over channel `c`. */
  ghost predicate Answers(w: World, f: Send, c: Text, e: Text)
    requires ValidWorld(w)
  {
    f.channel == e && e in w.peer && IsPong(f.pkt) && exists flags, b :: PingOk(w, e, f.pkt, flags, c, b)
  }

  /** The far device of channel `c` has client channel `e` open, which leads to `x`. */
  ghost predicate OpenBack(w: World, s: MeshState, x: Text, c: Text, e: Text) {
    && c in w.peer && w.peer[c] in w.owner && DestOf(w, c) in s.nodes && x in s.nodes
    && e in Clients(s.nodes[DestOf(w, c)]) && LeadsTo(w, e, x)
  }

  ghost predicate Knows(s: MeshState, x: Text, c: Text, e: Text) {
    x in s.nodes && c in s.nodes[x].conn && e in s.nodes[x].conn
  }

  /** How far the handshake over channel `c`, answered over `e`, has come at device `x`. */
  ghost predicate Underway(w: World, s: MeshState, x: Text, c: Text, e: Text)
    requires ValidWorld(w)
  {
    || (exists f :: f in s.net && IsPing(f.pkt) && f.channel == c)
    || (exists f :: f in s.net && Answers(w, f, c, e))
    || Knows(s, x, c, e)
  }

  // ---- The text names its channels ----

  lemma {:induction false} FieldsNameTriples(ts: seq<Triple>, us: seq<Triple>)
    requires FieldsOf(ts) == FieldsOf(us)
    ensures ts == us
    decreases |ts|
  {
    if ts != [] && us != [] {
      var k, l := |ts| - 1, |us| - 1;
      var a, b := FieldsOf(ts), FieldsOf(us);
      assert a[|a| - 3..] == Fields(ts[k]) && b[|b| - 3..] == Fields(us[l]);
      assert a[..|a| - 3] == FieldsOf(ts[..k]) && b[..|b| - 3] == FieldsOf(us[..l]);
      assert Fields(ts[k])[0] == Fields(us[l])[0] && Fields(ts[k])[1] == Fields(us[l])[1];
      assert Fields(ts[k])[2] == Fields(us[l])[2];
      FieldsNameTriples(ts[..k], us[..l]);
      assert ts == ts[..k] + [ts[k]] && us == us[..l] + [us[l]];
    }
  }

  /** Equal handshake packets come from the same channels. */
  lemma SameParties(w: World, p: Pkt, c: Text, flags: Text, a: Text, b: Text, c': Text, flags': Text, a': Text,
        b': Text)
    requires ValidWorld(w) && c in w.peer && c' in w.peer
    requires PingOk(w, c, p, flags, a, b) && PingOk(w, c', p, flags', a', b')
    ensures p.meta == SEND_PING ==> c == c'
    ensures p.meta == SEND_PONG ==> a == a' && c == c'
  {
    var ts, us := Parties(w, c, p.meta, a, b), Parties(w, c', p.meta, a', b');
    PartiesBytes(w, c, p.meta, a, b, flags);
    PartiesBytes(w, c', p.meta, a', b', flags');
    FlagsAreText(flags);
    FlagsAreText(flags');
    SplitEncode(flags, FieldsOf(ts));
    SplitEncode(flags', FieldsOf(us));
    var parts := Split(p.message);
    assert parts[1..|parts| - 1] == FieldsOf(ts) && parts[1..|parts| - 1] == FieldsOf(us);
    FieldsNameTriples(ts, us);
    assert |ts| > 0 && ts[0] == us[0] && ts[|ts| - 1] == us[|us| - 1];
  }

  // ---- One stage after the other ----

  lemma PingSent(w: World, s: MeshState, e: Event, c: Text)
    requires ValidWorld(w) && Enabled(w, s, e) && e.Ping? && c in Clients(s.nodes[e.device])
    ensures exists f :: f in Apply(w, s, e).net && IsPing(f.pkt) && f.channel == c
  {
    hide Clients;
    hide Apply;
    var n := s.nodes[e.device];
    var k :| 0 <= k < |Clients(n)| && Clients(n)[k] == c;
    var f := Added(w, s, e)[k];
    assert f.channel == c && IsPing(f.pkt);
    AddedArrives(w, s, e, k);
  }

  /** The pong that device `v`, with tables `n`, sends back over its client `e`. */
  ghost function PongOver(w: World, n: NodeState, g: Send, e: Text): Send
    requires g.channel in w.peer
  {
    Send(e, Appended(Ponged(n, g.pkt.(hops := g.pkt.hops + 1), w.peer[g.channel]), EncodeTriple(OwnTriple(n, e))))
  }

  lemma PongedShape(n: NodeState, p: Pkt, server: Text)
    ensures var q := Ponged(n, p, server);
            && q.contents == p.contents && q.meta == SEND_PONG && q.forwarding == TO_NEIGHBOR
            && q.priority == p.priority && q.hops == p.hops
  {
  }

  /** The answer has the ping's flags and names its channel. */
  lemma PongIsOk(w: World, v: Text, n: NodeState, g: Send, e: Text, flags: Text, a: Text, b: Text)
    requires ValidWorld(w) && NodeOk(w, v, n, {}) && g.channel in w.peer && IsPing(g.pkt) && DestOf(w, g.channel) == v
    requires PingOk(w, g.channel, g.pkt, flags, a, b) && e in Clients(n)
    ensures e in w.peer && PingOk(w, e, PongOver(w, n, g, e).pkt, flags, g.channel, g.channel)
    ensures IsPong(PongOver(w, n, g, e).pkt)
  {
    hide NodeOk;
    hide Clients;
    hide Ponged;
    hide OwnTriple;
    hide TripleOf;
    hide ValidWorld;
    hide Encode;
    var c, p := g.channel, g.pkt.(hops := g.pkt.hops + 1);
    PongedText(w, v, n, c, p, flags);
    PongedShape(n, p, w.peer[c]);
    ClientsOwned(w, v, n, e);
    OnePongOk(w, e, Ponged(n, p, w.peer[c]), flags, c);
  }

  lemma PongAnswers(w: World, v: Text, n: NodeState, g: Send, e: Text)
    requires ValidWorld(w) && NodeOk(w, v, n, {}) && FlightOk(w, g) && IsPing(g.pkt) && DestOf(w, g.channel) == v
    requires e in Clients(n)
    ensures Answers(w, PongOver(w, n, g, e), g.channel, e)
  {
    hide NodeOk;
    hide Clients;
    hide ValidWorld;
    var flags, a, b :| PingOk(w, g.channel, g.pkt, flags, a, b);
    hide FlightOk;
    hide PingOk;
    PongIsOk(w, v, n, g, e, flags, a, b);
  }

  lemma PongSent(w: World, s: MeshState, i: nat, e: Text)
    requires ValidWorld(w) && Inv(w, s) && InFlight(w, s, i) && IsPing(s.net[i].pkt)
    requires e in Clients(s.nodes[DestOf(w, s.net[i].channel)])
    ensures PongOver(w, s.nodes[DestOf(w, s.net[i].channel)], s.net[i], e) in Apply(w, s, Deliver(i)).net
  {
    hide Inv;
    hide Clients;
    hide Process;
    hide Apply;
    hide Ponged;
    hide IsPing;
    var g := s.net[i];
    var n := s.nodes[DestOf(w, g.channel)];
    var k :| 0 <= k < |Clients(n)| && Clients(n)[k] == e;
    PingOutput(n, g.pkt, w.peer[g.channel], k);
    assert Added(w, s, Deliver(i))[k] == PongOver(w, n, g, e);
    AddedArrives(w, s, Deliver(i), k);
  }

  /** A ping that is received is answered over every client of its receiver. */
  lemma PingAnswered(w: World, s: MeshState, i: nat, x: Text, c: Text, e: Text)
    requires ValidWorld(w) && Inv(w, s) && InFlight(w, s, i) && IsPing(s.net[i].pkt) && s.net[i].channel == c
    requires OpenBack(w, s, x, c, e)
    ensures exists f :: f in Apply(w, s, Deliver(i)).net && Answers(w, f, c, e)
  {
    hide NodeOk;
    hide FlightOk;
    hide Clients;
    hide Apply;
    hide Answers;
    hide PongOver;
    hide IsPing;
    var v := DestOf(w, c);
    PongAnswers(w, v, s.nodes[v], s.net[i], e);
    PongSent(w, s, i, e);
  }

  lemma PingOutput(n: NodeState, p0: Pkt, server: Text, k: nat)
    requires IsPing(p0) && k < |Clients(n)|
    ensures var p := p0.(hops := p0.hops + 1); var out := Process(n, p0, server).1;
            && |out| == |Clients(n)|
            && out[k] == Send(Clients(n)[k], Appended(Ponged(n, p, server), EncodeTriple(OwnTriple(n, Clients(n)[k]))))
  {
    hide Clients;
    hide Ponged;
    hide OwnTriple;
  }

  lemma PongLearnt(w: World, x: Text, n: NodeState, f: Send, c: Text)
    requires ValidWorld(w) && NodeOk(w, x, n, {}) && Answers(w, f, c, f.channel) && DestOf(w, f.channel) == x
    ensures {c, f.channel} <= Process(n, f.pkt, w.peer[f.channel]).0.conn.Keys
  {
    hide NodeOk;
    hide Process;
    var flags, b :| PingOk(w, f.channel, f.pkt, flags, c, b);
    RecvPongText(w, x, n, f.channel, f.pkt.(hops := f.pkt.hops + 1), flags, c);
    DecodeParties(w, flags, c, f.channel);
    hide PingOk;
    PongProcessed(n, f.pkt, w.peer[f.channel], PartiesData(w, flags, c, f.channel));
    LearnAllLinks(n, PartiesData(w, flags, c, f.channel));
  }

  /** A pong that is received links both channels. */
  lemma PongLinks(w: World, s: MeshState, i: nat, x: Text, c: Text, e: Text)
    requires ValidWorld(w) && Inv(w, s) && InFlight(w, s, i) && Answers(w, s.net[i], c, e) && LeadsTo(w, e, x)
    ensures Knows(Apply(w, s, Deliver(i)), x, c, e)
  {
    hide NodeOk;
    hide FlightOk;
    hide Process;
    assert s.net[i].channel == e && DestOf(w, e) == x;
    PongLearnt(w, x, s.nodes[x], s.net[i], c);
  }

  lemma PongProcessed(n: NodeState, p0: Pkt, server: Text, data: PingData)
    requires IsPong(p0) && DecodePing(RecvPong(n, p0.(hops := p0.hops + 1), server).message) == Some(data)
    ensures Process(n, p0, server).0 == LearnAll(n, data)
  {
    hide LearnAll;
    hide DecodePing;
    hide RecvPong;
    hide Route;
    hide ReturnsToRoot;
  }

  /** A complete handshake adds the channels of the ping and the pong to the links, and no others. */
  lemma LearnAllLinks(n: NodeState, data: PingData)
    ensures LearnAll(n, data).conn.Keys == n.conn.Keys + {data.sendPing.uuid, data.sendPong.uuid}
  {
    var n1 := Link(n, data.sendPing.uuid, data.recvPing.uuid);
    var n2 := Link(n1, data.sendPong.uuid, data.recvPong.uuid);
    assert n2.conn.Keys == n.conn.Keys + {data.sendPing.uuid, data.sendPong.uuid} by { hide Named; }
    hide Link;
    LearnKeepsLinks(n2, data.sendPing);
    hide Learn;
    var n3 := Learn(n2, data.sendPing);
    LearnKeepsLinks(n3, data.recvPing);
    var n4 := Learn(n3, data.recvPing);
    LearnKeepsLinks(n4, data.sendPong);
    LearnKeepsLinks(Learn(n4, data.sendPong), data.recvPong);
  }

  lemma LearnKeepsLinks(n: NodeState, t: Triple)
    ensures Learn(n, t).conn == n.conn
  {
  }

  // ---- Over a run ----

  lemma SameSend(w: World, g: Send, f: Send)
    requires ValidWorld(w) && FlightOk(w, g) && FlightOk(w, f) && g.pkt == f.pkt && (IsPing(g.pkt) || IsPong(g.pkt))
    ensures f == g
  {
    var flags, a, b :| PingOk(w, g.channel, g.pkt, flags, a, b);
    var flags', a', b' :| PingOk(w, f.channel, f.pkt, flags', a', b');
    hide PingOk;
    hide FlightOk;
    SameParties(w, g.pkt, g.channel, flags, a, b, f.channel, flags', a', b');
  }

  lemma InFlightOk(w: World, s: MeshState, f: Send)
    requires ValidWorld(w) && Inv(w, s) && f in s.net
    ensures FlightOk(w, f)
  {
    hide NodeOk;
    hide FlightOk;
  }

  lemma FlightChannel(w: World, f: Send)
    requires ValidWorld(w) && FlightOk(w, f)
    ensures f.channel in w.peer && w.peer[f.channel] in w.owner
  {
  }

  /** A ping or pong that is neither delivered nor lost stays: the packet it is skipped for came over the same
      channel. */
  lemma HandshakeStays(w: World, s: MeshState, e: Event, i: nat)
    requires ValidWorld(w) && Inv(w, s) && Enabled(w, s, e) && !e.Lose? && i < |s.net|
    requires (IsPing(s.net[i].pkt) || IsPong(s.net[i].pkt)) && !(e.Deliver? && e.i == i)
    ensures s.net[i] in Apply(w, s, e).net
  {
    hide Inv;
    hide Apply;
    hide FlightOk;
    hide Enabled;
    hide IsPing;
    hide IsPong;
    var g := s.net[i];
    InFlightOk(w, s, g);
    FlightChannel(w, g);
    var k := FlightStays(w, s, e, i, DestOf(w, g.channel));
    InFlightOk(w, s, Apply(w, s, e).net[k]);
    SameSend(w, g, Apply(w, s, e).net[k]);
  }

  lemma LinkStays(w: World, s: MeshState, e: Event, d: Text, c: Text)
    requires Enabled(w, s, e) && d in s.nodes && c in s.nodes[d].conn
    ensures d in Apply(w, s, e).nodes && c in Apply(w, s, e).nodes[d].conn
  {
    hide Apply;
    StepKeepsTables(w, s, e, d);
  }

  lemma KnownStays(w: World, s: MeshState, e: Event, x: Text, c: Text, e': Text)
    requires Enabled(w, s, e) && Knows(s, x, c, e')
    ensures Knows(Apply(w, s, e), x, c, e')
  {
    hide Apply;
    LinkStays(w, s, e, x, c);
    LinkStays(w, s, e, x, e');
  }

  lemma AnswerIsPong(w: World, f: Send, c: Text, e: Text)
    requires ValidWorld(w) && Answers(w, f, c, e)
    ensures IsPong(f.pkt)
  {
  }

  lemma BackLeads(w: World, s: MeshState, x: Text, c: Text, e: Text)
    requires OpenBack(w, s, x, c, e)
    ensures LeadsTo(w, e, x)
  {
  }

  /** No lossless event sets a handshake back. */
  lemma StepUnderway(w: World, s: MeshState, e: Event, x: Text, c: Text, e': Text)
    requires ValidWorld(w) && Inv(w, s) && Enabled(w, s, e) && !e.Lose?
    requires Underway(w, s, x, c, e') && OpenBack(w, s, x, c, e')
    ensures Underway(w, Apply(w, s, e), x, c, e')
  {
    hide NodeOk;
    hide FlightOk;
    hide Apply;
    hide Answers;
    hide OpenBack;
    hide IsPing;
    hide Knows;
    BackLeads(w, s, x, c, e');
    if Knows(s, x, c, e') {
      KnownStays(w, s, e, x, c, e');
    } else if f :| f in s.net && IsPing(f.pkt) && f.channel == c {
      var i :| 0 <= i < |s.net| && s.net[i] == f;
      if e.Deliver? && e.i == i { PingAnswered(w, s, i, x, c, e'); } else { HandshakeStays(w, s, e, i); }
    } else {
      var f :| f in s.net && Answers(w, f, c, e');
      var i :| 0 <= i < |s.net| && s.net[i] == f;
      assert IsPong(f.pkt) by { AnswerIsPong(w, f, c, e'); }
      if e.Deliver? && e.i == i { PongLinks(w, s, i, x, c, e'); } else { HandshakeStays(w, s, e, i); }
    }
  }

  lemma StepKeepsBack(w: World, s: MeshState, e: Event, x: Text, c: Text, e': Text)
    requires ValidWorld(w) && Inv(w, s) && Enabled(w, s, e) && OpenBack(w, s, x, c, e')
    ensures OpenBack(w, Apply(w, s, e), x, c, e')
  {
    hide NodeOk;
    hide FlightOk;
    hide Apply;
    hide Clients;
    StepKeepsClient(w, s, e, DestOf(w, c), e');
    StepKeepsTables(w, s, e, x);
  }

  lemma {:induction false} RunUnderway(w: World, s: MeshState, es: seq<Event>, x: Text, c: Text, e: Text)
    requires ValidWorld(w) && Inv(w, s) && Runs(w, s, es) && Lossless(es)
    requires Underway(w, s, x, c, e) && OpenBack(w, s, x, c, e)
    ensures Underway(w, After(w, s, es), x, c, e)
    decreases |es|
  {
    hide Inv;
    hide Apply;
    hide Enabled;
    hide Underway;
    hide OpenBack;
    if es != [] {
      StepKeeps(w, s, es[0]);
      StepUnderway(w, s, es[0], x, c, e);
      StepKeepsBack(w, s, es[0], x, c, e);
      LosslessRest(es);
      RunUnderway(w, Apply(w, s, es[0]), es[1..], x, c, e);
    }
  }

  ghost predicate Pings(es: seq<Event>, d: Text) {
    exists i :: 0 <= i < |es| && es[i].Ping? && es[i].device == d
  }

  ghost predicate PingsAs(es: seq<Event>, d: Text, returnToRoot: bool) {
    exists i :: 0 <= i < |es| && es[i] == Ping(d, returnToRoot)
  }

  lemma PingsLater(es: seq<Event>, d: Text)
    requires Pings(es, d)
    ensures es != [] && ((es[0].Ping? && es[0].device == d) || Pings(es[1..], d))
  {
    var i :| 0 <= i < |es| && es[i].Ping? && es[i].device == d;
    if i > 0 { assert es[1..][i - 1] == es[i]; }
  }

  /** Somewhere in the run `d` pings; from there on the handshake is under way. */
  lemma {:induction false} RunPings(w: World, s: MeshState, es: seq<Event>, d: Text, x: Text, c: Text, e: Text)
    requires ValidWorld(w) && Inv(w, s) && Runs(w, s, es) && Lossless(es) && Pings(es, d)
    requires d in s.nodes && c in Clients(s.nodes[d]) && OpenBack(w, s, x, c, e)
    ensures Underway(w, After(w, s, es), x, c, e)
    decreases |es|
  {
    hide Inv;
    hide Apply;
    hide Enabled;
    hide OpenBack;
    hide Clients;
    hide Pings;
    hide ValidWorld;
    PingsLater(es, d);
    var first, rest := es[0], es[1..];
    StepKeeps(w, s, first);
    StepKeepsBack(w, s, first, x, c, e);
    LosslessRest(es);
    if first.Ping? && first.device == d {
      PingSent(w, s, first, c);
      RunUnderway(w, Apply(w, s, first), rest, x, c, e);
    } else {
      hide Underway;
      StepKeepsClient(w, s, first, d, c);
      RunPings(w, Apply(w, s, first), rest, d, x, c, e);
    }
  }

  /** Handshake completeness: after a lossless run in which `d` pings, once no ping and no pong is in flight, every
      device `x` to which the far device of d's client channel `c` had a channel `e` knows both channels, linked to the
      server channels they reach. With x == d this is the handshake; every other x has overheard it. */
  lemma PingsLink(w: World, s: MeshState, es: seq<Event>, d: Text, x: Text, c: Text, e: Text)
    requires ValidWorld(w) && Reachable(w, s) && Runs(w, s, es) && Lossless(es) && Pings(es, d)
    requires d in s.nodes && c in Clients(s.nodes[d]) && OpenBack(w, s, x, c, e)
    requires NoHandshake(After(w, s, es))
    ensures x in After(w, s, es).nodes && c in w.peer && e in w.peer
    ensures var conn := After(w, s, es).nodes[x].conn;
            c in conn && conn[c] == [w.peer[c]] && e in conn && conn[e] == [w.peer[e]]
  {
    hide Inv;
    hide Reachable;
    hide Clients;
    hide OpenBack;
    ReachableInv(w, s);
    RunPings(w, s, es, d, x, c, e);
    RunKeeps(w, s, es);
    QuietLinked(w, After(w, s, es), x, c, e);
  }

  lemma QuietLinked(w: World, t: MeshState, x: Text, c: Text, e: Text)
    requires ValidWorld(w) && Inv(w, t) && Underway(w, t, x, c, e) && NoHandshake(t)
    ensures x in t.nodes && c in w.peer && e in w.peer
    ensures var conn := t.nodes[x].conn;
            c in conn && conn[c] == [w.peer[c]] && e in conn && conn[e] == [w.peer[e]]
  {
    hide FlightOk;
    hide ChansOk;
    assert Knows(t, x, c, e);
    assert NodeOk(w, x, t.nodes[x], {});
  }
}
