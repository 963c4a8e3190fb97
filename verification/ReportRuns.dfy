/** Runs of the C++ mesh with its Go server: reports on their way, links that come and go, and every pair the
    server is ever told. */
module ReportRuns {
  import opened Lists
  import opened Reports
  import Topology

  /** `reported` holds each uplink over which its device has sent a report, as a pair of ids. */
  datatype State = State(routers: map<Word, seq<Channel>>, net: seq<Flight>, told: set<(int, int)>,
                         reported: set<(int, int)>)

  datatype Event =
    | Report(id: Word)
    | Other(id: Word, packet: Packet)
    | Deliver(i: nat)
    | Lose(i: nat)
    | Rewire(id: Word, channels: seq<Channel>)

  function PeerId(p: Peer, session: Word): Word {
    if p.Server? then session else p.id
  }

  ghost predicate IsUplink(channels: seq<Channel>, p: Peer) {
    Channel(p, true) in channels
  }

  ghost predicate Known(s: State, channels: seq<Channel>) {
    forall c :: c in channels && c.peer.Device? ==> c.peer.id in s.routers
  }

  ghost predicate Enabled(s: State, e: Event) {
    match e
    case Report(id) => id in s.routers
    case Other(id, packet) =>
      id in s.routers && packet.header.protobuf != MESH_TOPOLOGY && Length(packet) < 0x1_0000
    case Deliver(i) =>
      && i < |s.net| && (s.net[i].to.Device? ==> s.net[i].to.id in s.routers)
      && Length(s.net[i].packet) < 0x1_0000
    case Lose(i) => i < |s.net|
    case Rewire(id, channels) => Known(s, channels)
  }

  /** What `onNewPacket` and `Handle` make of a packet. */
  function Told(p: Packet, session: Word): set<(int, int)> {
    if Dispatched(p) then Topology.Read(MessageOf(p), session) else {}
  }

  predicate Dispatched(p: Packet) {
    p.header.forwarding in {TO_PARENT, TO_PARENT_TO_ROOT, TO_ROOT} && p.header.protobuf == MESH_TOPOLOGY
  }

  function MessageOf(p: Packet): Topology.Message {
    if p.body.Encoded? then Topology.Report(p.header.forwarding, p.body.info.source, p.body.info.target)
    else Topology.Unreadable
  }

  ghost function UplinksOf(id: Word, channels: seq<Channel>, session: Word): set<(int, int)> {
    set c | c in channels && c.connectedToRoot :: (id, PeerId(c.peer, session))
  }

  ghost function Apply(session: Word, s: State, e: Event): State
    requires Enabled(s, e)
  {
    match e
    case Report(id) =>
      s.(net := s.net + Sends(s.routers[id], ReportPacket(id)),
         reported := s.reported + UplinksOf(id, s.routers[id], session))
    case Other(id, packet) => s.(net := s.net + Sends(s.routers[id], Sized(packet, Length(packet))))
    case Lose(i) => s.(net := Without(s.net, i))
    case Rewire(id, channels) => s.(routers := s.routers[id := channels])
    case Deliver(i) =>
      var f := s.net[i];
      if f.to.Server? then s.(net := Without(s.net, i), told := s.told + Told(f.packet, session))
      else s.(net := Without(s.net, i) + Routed(f.to.id, s.routers[f.to.id], f.packet, Length(f.packet)))
  }

  ghost predicate Runs(session: Word, s: State, es: seq<Event>)
    decreases |es|
  {
    es == [] || (Enabled(s, es[0]) && Runs(session, Apply(session, s, es[0]), es[1..]))
  }

  ghost function After(session: Word, s: State, es: seq<Event>): State
    requires Runs(session, s, es)
    decreases |es|
  {
    if es == [] then s else After(session, Apply(session, s, es[0]), es[1..])
  }

  ghost predicate Init(s: State) {
    s.net == [] && s.told == {} && s.reported == {} && forall d :: d in s.routers ==> Known(s, s.routers[d])
  }

  // ---- The invariant ----

  ghost predicate IsReport(p: Packet) {
    p.header.protobuf == MESH_TOPOLOGY
  }

  /** A first-hop report has no target yet and goes over an uplink of its source; a relayed one carries the pair. */
  ghost predicate ReportOk(session: Word, f: Flight, reported: set<(int, int)>) {
    && f.packet.body.Encoded? && f.packet.body.info.kind == MESH_TOPOLOGY
    && var i := f.packet.body.info;
       || (f.packet.header.forwarding == TO_PARENT_TO_ROOT && i.target == 0
           && (i.source as int, PeerId(f.to, session) as int) in reported)
       || (f.packet.header.forwarding == TO_ROOT && (i.source as int, i.target as int) in reported)
  }

  ghost predicate FlightOk(session: Word, f: Flight, s: State) {
    && (f.to.Device? ==> f.to.id in s.routers)
    && Length(f.packet) < 0x1_0000 && f.packet.header.Size() == Length(f.packet)
    && (IsReport(f.packet) ==> ReportOk(session, f, s.reported))
  }

  ghost predicate Inv(session: Word, s: State) {
    && (forall d :: d in s.routers ==> Known(s, s.routers[d]))
    && (forall f :: f in s.net ==> FlightOk(session, f, s))
    && s.told <= s.reported
  }

  lemma {:induction false} SentUp(channels: seq<Channel>, p: Packet, f: Flight)
    ensures f in ToUp(channels, p) <==> f.packet == p && IsUplink(channels, f.to)
  {
    if channels != [] {
      SentUp(channels[1..], p, f);
      assert channels == [channels[0]] + channels[1..];
    }
  }

  lemma {:induction false} SentAll(channels: seq<Channel>, p: Packet, f: Flight)
    ensures f in ToAll(channels, p) ==> f.packet == p && exists c :: c in channels && c.peer == f.to
  {
    if channels != [] {
      SentAll(channels[1..], p, f);
      assert channels == [channels[0]] + channels[1..];
    }
  }

  lemma SendsTo(channels: seq<Channel>, p: Packet, f: Flight)
    requires f in Sends(channels, p)
    ensures f.packet == p && exists c :: c in channels && c.peer == f.to
    ensures p.header.forwarding in {TO_ROOT, TO_PARENT_TO_ROOT} ==> IsUplink(channels, f.to)
  {
    SentUp(channels, p, f);
    SentAll(channels, p, f);
    assert IsUplink(channels, f.to) ==> Channel(f.to, true).peer == f.to;
  }

  /** The first hop sets the target to itself, and nothing else about a report ever changes on its way. */
  lemma RelayedOnce(session: Word, f: Flight, s: State, channels: seq<Channel>, g: Flight)
    requires FlightOk(session, f, s) && f.to.Device? && IsReport(f.packet)
    requires g in Routed(f.to.id, channels, f.packet, Length(f.packet))
    ensures IsUplink(channels, g.to) && IsReport(g.packet) && g.packet.header.forwarding == TO_ROOT
    ensures g.packet.header.Size() == Length(g.packet) < 0x1_0000
    ensures g.packet.body == if f.packet.header.forwarding == TO_PARENT_TO_ROOT
                             then Encoded(f.packet.body.info.(target := f.to.id)) else f.packet.body
  {
    var q := Sized(f.packet, Length(f.packet));
    if q.header.forwarding == TO_ROOT {
      SentUp(channels, q, g);
    } else {
      SendsTo(channels, Rewritten(f.to.id, q), g);
    }
  }

  lemma OtherRouted(f: Flight, channels: seq<Channel>, id: Word, g: Flight)
    requires !IsReport(f.packet) && Length(f.packet) < 0x1_0000 && g in Routed(id, channels, f.packet, Length(f.packet))
    ensures IsUplink(channels, g.to) && !IsReport(g.packet) && g.packet.header.Size() == Length(g.packet) < 0x1_0000
  {
    SentUp(channels, Sized(f.packet, Length(f.packet)), g);
  }

  lemma RoutedOk(session: Word, s: State, f: Flight, g: Flight)
    requires Inv(session, s) && f in s.net && f.to.Device?
    requires g in Routed(f.to.id, s.routers[f.to.id], f.packet, Length(f.packet))
    ensures FlightOk(session, g, s)
  {
    var channels := s.routers[f.to.id];
    assert FlightOk(session, f, s) && Known(s, channels);
    if IsReport(f.packet) {
      RelayedOnce(session, f, s, channels, g);
    } else {
      OtherRouted(f, channels, f.to.id, g);
    }
    assert Channel(g.to, true) in channels;
  }

  lemma ReportSent(session: Word, s: State, id: Word, g: Flight, t: State)
    requires Inv(session, s) && id in s.routers && g in Sends(s.routers[id], ReportPacket(id))
    requires t == Apply(session, s, Report(id))
    ensures FlightOk(session, g, t)
  {
    SendsTo(s.routers[id], ReportPacket(id), g);
    var c := Channel(g.to, true);
    assert c in s.routers[id] && c.connectedToRoot;
    assert (id as int, PeerId(g.to, session) as int) in UplinksOf(id, s.routers[id], session);
  }

  lemma ToldTrue(session: Word, s: State, f: Flight)
    requires FlightOk(session, f, s) && f.to.Server?
    ensures Told(f.packet, session) <= s.reported
  {
  }

  /** Every step keeps the invariant. */
  lemma StepKeeps(session: Word, s: State, e: Event)
    requires Inv(session, s) && Enabled(s, e)
    ensures Inv(session, Apply(session, s, e))
  {
    var t := Apply(session, s, e);
    forall g | g in t.net ensures FlightOk(session, g, t) {
      match e
      case Report(id) =>
        if g in s.net { assert FlightOk(session, g, s); } else { ReportSent(session, s, id, g, t); }
      case Other(id, packet) =>
        if g in s.net { assert FlightOk(session, g, s); }
        else { SendsTo(s.routers[id], Sized(packet, Length(packet)), g); assert Known(s, s.routers[id]); }
      case Lose(i) => WithoutMember(s.net, i, g); assert FlightOk(session, g, s);
      case Rewire(id, channels) => assert FlightOk(session, g, s);
      case Deliver(i) =>
        WithoutMember(s.net, i, g);
        var f := s.net[i];
        assert f in s.net;
        if g in s.net { assert FlightOk(session, g, s); } else { RoutedOk(session, s, f, g); }
    }
    if e.Deliver? && s.net[e.i].to.Server? {
      assert s.net[e.i] in s.net;
      ToldTrue(session, s, s.net[e.i]);
    }
  }

  lemma {:induction false} RunKeeps(session: Word, s: State, es: seq<Event>)
    requires Inv(session, s) && Runs(session, s, es)
    ensures Inv(session, After(session, s, es))
    decreases |es|
  {
    if es != [] {
      StepKeeps(session, s, es[0]);
      RunKeeps(session, Apply(session, s, es[0]), es[1..]);
    }
  }

  /** End-to-end soundness, whatever is lost, reordered or rewired: every pair the server is told is an uplink over
      which its source sent a report; and every packet in flight is stamped with its own length. */
  lemma ToldAreUplinks(session: Word, s: State, es: seq<Event>)
    requires Init(s) && Runs(session, s, es)
    ensures var t := After(session, s, es);
            && t.told <= t.reported
            && forall f :: f in t.net ==> f.packet.header.Size() == Length(f.packet)
  {
    RunKeeps(session, s, es);
    var t := After(session, s, es);
    forall f | f in t.net ensures f.packet.header.Size() == Length(f.packet) {
      assert FlightOk(session, f, t);
    }
  }

  // ---- Nothing reported is forgotten ----

  ghost predicate Carrying(session: Word, f: Flight, pair: (int, int)) {
    && IsReport(f.packet) && f.packet.body.Encoded? && f.packet.body.info.source == pair.0
    && pair.1 == if f.packet.header.forwarding == TO_PARENT_TO_ROOT
                 then PeerId(f.to, session) else f.packet.body.info.target
  }

  ghost predicate Pending(session: Word, s: State, pair: (int, int)) {
    pair in s.told || exists f :: f in s.net && Carrying(session, f, pair)
  }

  ghost predicate Accounted(session: Word, s: State) {
    forall pair :: pair in s.reported ==> Pending(session, s, pair)
  }

  ghost predicate AllUp(s: State) {
    forall d :: d in s.routers ==> exists p :: IsUplink(s.routers[d], p)
  }

  lemma HandedOn(session: Word, s: State, f: Flight, pair: (int, int)) returns (g: Flight)
    requires Inv(session, s) && AllUp(s) && f in s.net && f.to.Device? && Carrying(session, f, pair)
    ensures g in Routed(f.to.id, s.routers[f.to.id], f.packet, Length(f.packet)) && Carrying(session, g, pair)
  {
    var channels := s.routers[f.to.id];
    assert FlightOk(session, f, s);
    var p :| IsUplink(channels, p);
    var q := Sized(f.packet, Length(f.packet));
    if q.header.forwarding == TO_ROOT {
      g := Flight(p, q);
      SentUp(channels, q, g);
    } else {
      g := Flight(p, Rewritten(f.to.id, q));
      SentUp(channels, Rewritten(f.to.id, q), g);
    }
  }

  lemma ToldNow(session: Word, s: State, f: Flight, pair: (int, int))
    requires FlightOk(session, f, s) && f.to.Server? && Carrying(session, f, pair)
    ensures pair in Told(f.packet, session)
  {
  }

  lemma PairStays(session: Word, s: State, e: Event, pair: (int, int))
    requires Inv(session, s) && AllUp(s) && Enabled(s, e) && !e.Lose? && Pending(session, s, pair)
    ensures Pending(session, Apply(session, s, e), pair)
  {
    var t := Apply(session, s, e);
    if pair !in s.told {
      var f :| f in s.net && Carrying(session, f, pair);
      if e.Deliver? && s.net[e.i] == f {
        if f.to.Server? {
          assert FlightOk(session, f, s);
          ToldNow(session, s, f, pair);
        } else {
          var g := HandedOn(session, s, f, pair);
          assert g in t.net;
        }
      } else {
        if e.Deliver? { WithoutMember(s.net, e.i, f); }
        assert f in t.net;
      }
    }
  }

  lemma StepAccounts(session: Word, s: State, e: Event)
    requires Inv(session, s) && AllUp(s) && Accounted(session, s) && Enabled(s, e) && !e.Lose?
    ensures Accounted(session, Apply(session, s, e))
  {
    var t := Apply(session, s, e);
    forall pair | pair in t.reported ensures Pending(session, t, pair) {
      if pair in s.reported {
        PairStays(session, s, e, pair);
      } else {
        var c :| c in s.routers[e.id] && c.connectedToRoot && pair == (e.id as int, PeerId(c.peer, session) as int);
        assert c == Channel(c.peer, true);
        var f := Flight(c.peer, ReportPacket(e.id));
        SentUp(s.routers[e.id], ReportPacket(e.id), f);
        assert f in t.net && Carrying(session, f, pair);
      }
    }
  }

  ghost predicate NeverCutOff(session: Word, s: State, es: seq<Event>)
    requires Runs(session, s, es)
    decreases |es|
  {
    AllUp(s) && (es != [] ==> !es[0].Lose? && NeverCutOff(session, Apply(session, s, es[0]), es[1..]))
  }

  lemma {:induction false} RunAccounts(session: Word, s: State, es: seq<Event>)
    requires Inv(session, s) && Accounted(session, s) && Runs(session, s, es) && NeverCutOff(session, s, es)
    ensures Accounted(session, After(session, s, es))
    decreases |es|
  {
    if es != [] {
      StepKeeps(session, s, es[0]);
      StepAccounts(session, s, es[0]);
      RunAccounts(session, Apply(session, s, es[0]), es[1..]);
    }
  }

  /** With no loss and an uplink at every device, once no report is in flight the server has been told exactly the
      uplinks over which reports were sent. */
  lemma ToldExactly(session: Word, s: State, es: seq<Event>)
    requires Init(s) && Runs(session, s, es) && NeverCutOff(session, s, es)
    requires forall f :: f in After(session, s, es).net ==> !IsReport(f.packet)
    ensures After(session, s, es).told == After(session, s, es).reported
  {
    RunKeeps(session, s, es);
    RunAccounts(session, s, es);
    var t := After(session, s, es);
    forall pair | pair in t.reported ensures pair in t.told {
      assert Pending(session, t, pair);
    }
  }

  // ---- What reaches the server, in order ----

  function ReadAll(messages: seq<Topology.Message>, session: Word): set<(int, int)> {
    if messages == [] then {} else Topology.Read(messages[0], session) + ReadAll(messages[1..], session)
  }

  /** The MESH_TOPOLOGY packets the run delivers to the server, as `onNewPacket` dispatches them. */
  ghost function ServerMessages(session: Word, s: State, es: seq<Event>): seq<Topology.Message>
    requires Runs(session, s, es)
    decreases |es|
  {
    if es == [] then [] else NewMessage(s, es[0]) + ServerMessages(session, Apply(session, s, es[0]), es[1..])
  }

  ghost function NewMessage(s: State, e: Event): seq<Topology.Message>
    requires Enabled(s, e)
  {
    if e.Deliver? && s.net[e.i].to.Server? && Dispatched(s.net[e.i].packet) then [MessageOf(s.net[e.i].packet)] else []
  }

  lemma {:induction false} ReadJoin(a: seq<Topology.Message>, b: seq<Topology.Message>, session: Word)
    ensures ReadAll(a + b, session) == ReadAll(a, session) + ReadAll(b, session)
  {
    if a == [] {
      assert a + b == b;
    } else {
      assert (a + b)[1..] == a[1..] + b;
      ReadJoin(a[1..], b, session);
    }
  }

  lemma StepTells(session: Word, s: State, e: Event)
    requires Enabled(s, e)
    ensures Apply(session, s, e).told == s.told + ReadAll(NewMessage(s, e), session)
  {
    hide Routed;
    hide Sends;
    var ms := NewMessage(s, e);
    if ms != [] { assert ms[1..] == []; }
  }

  /** What the server has been told is what is read from the packets delivered to it. */
  lemma {:induction false} ToldIsRead(session: Word, s: State, es: seq<Event>)
    requires Runs(session, s, es)
    ensures After(session, s, es).told == s.told + ReadAll(ServerMessages(session, s, es), session)
    decreases |es|
  {
    hide Apply;
    hide Enabled;
    hide NewMessage;
    if es != [] {
      var t := Apply(session, s, es[0]);
      StepTells(session, s, es[0]);
      ToldIsRead(session, t, es[1..]);
      ReadJoin(NewMessage(s, es[0]), ServerMessages(session, t, es[1..]), session);
    }
  }
}
