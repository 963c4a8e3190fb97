/** What RemRouter.py and RemOrchestrator.py compute, as functions on values.
    The class in Nodes.dfy is proved against these functions, and the mesh theorems are about them. */
module NodeSpec {
  import opened Texts
  import opened Packets

  datatype Role = Client | Server | Remote

  /** A channel record; a field nobody set yet is None, as a missing dictionary key. */
  datatype Chan = Chan(uuid: Option<Text>, deviceId: Option<Text>, protocol: Option<Text>,
                       rootDistance: Option<int>, isHere: bool, role: Role)

  const EMPTY_CHAN := Chan(None, None, None, None, false, Remote)

  /** `channels_list` is `keys` (insertion order) with `chans`; `conn_data` is `conn`. */
  datatype NodeState = NodeState(id: Text, isRoot: bool, keys: seq<Text>, chans: map<Text, Chan>,
                                 conn: map<Text, seq<Text>>)

  /** A packet handed to one client channel. */
  datatype Send = Send(channel: Text, pkt: Pkt)

  // ---- Well-formed tables ----

  /** The tables are consistent, except that channels in `unnamed` may still lack a device id. */
  ghost predicate WfExcept(n: NodeState, unnamed: set<Text>) {
    && NoDup(n.keys)
    && (forall u :: u in n.keys <==> u in n.chans)
    && (forall u :: u in n.chans ==> WfChan(n.chans[u], u, u in unnamed))
    && (forall c, i :: c in n.conn && 0 <= i < |n.conn[c]| ==> n.conn[c][i] in n.chans)
    && (forall c :: c in n.conn ==> NoDup(n.conn[c]))
  }

  ghost predicate WfChan(ch: Chan, u: Text, unnamed: bool) {
    && ch.uuid == Some(u)
    && (unnamed || ch.deviceId.Some?)
    && (ch.isHere <==> ch.role != Remote)
    && (ch.isHere ==> ch.deviceId.Some? && ch.protocol.Some? && ch.rootDistance.Some?)
  }

  ghost predicate Wf(n: NodeState) {
    WfExcept(n, {})
  }

  // ---- Channel tables ----

  predicate IsClient(chans: map<Text, Chan>, u: Text) {
    u in chans && chans[u].isHere && chans[u].role == Client
  }

  function ClientsOf(keys: seq<Text>, chans: map<Text, Chan>): seq<Text> {
    if keys == [] then []
    else var k := keys[|keys| - 1];
         ClientsOf(keys[..|keys| - 1], chans) + if IsClient(chans, k) then [k] else []
  }

  /** `get_ch_clients` */
  function Clients(n: NodeState): seq<Text> {
    ClientsOf(n.keys, n.chans)
  }

  function DistanceOf(n: NodeState, u: Text): int {
    if u in n.chans && n.chans[u].rootDistance.Some? then n.chans[u].rootDistance.value else -1
  }

  predicate Better(n: NodeState, c: Text, dest: Text, closer: bool) {
    && DistanceOf(n, dest) != -1
    && if closer then DistanceOf(n, dest) < DistanceOf(n, c) else DistanceOf(n, dest) > DistanceOf(n, c)
  }

  predicate Leads(n: NodeState, c: Text, closer: bool) {
    c in n.conn && exists i | 0 <= i < |n.conn[c]| :: Better(n, c, n.conn[c][i], closer)
  }

  function LeadingOf(cs: seq<Text>, n: NodeState, closer: bool): seq<Text> {
    if cs == [] then []
    else var c := cs[|cs| - 1];
         LeadingOf(cs[..|cs| - 1], n, closer) + if Leads(n, c, closer) then [c] else []
  }

  /** `get_ch_closer_to_root` and, with `closer` false, `get_ch_farther_from_root`. */
  function Leading(n: NodeState, closer: bool): seq<Text> {
    LeadingOf(Clients(n), n, closer)
  }

  /** The record under a key, or the empty one that `setdefault` would put there. */
  function ChanAt(n: NodeState, u: Text): Chan {
    if u in n.chans then n.chans[u] else EMPTY_CHAN
  }

  /** Storing a record under a key; a new key goes last. */
  function Put(n: NodeState, u: Text, ch: Chan): NodeState {
    n.(keys := if u in n.chans then n.keys else n.keys + [u], chans := n.chans[u := ch])
  }

  function Named(n: NodeState, u: Text): NodeState {
    Put(n, u, ChanAt(n, u).(uuid := Some(u)))
  }

  function AddOnce(s: seq<Text>, t: Text): seq<Text> {
    if t in s then s else s + [t]
  }

  /** `channel_link_2_uuid` */
  function Link(n: NodeState, a: Text, b: Text): NodeState {
    Named(Named(n, a), b).(conn := n.conn[a := AddOnce(if a in n.conn then n.conn[a] else [], b)])
  }

  datatype Field = DeviceId | Protocol

  function WithDefault(ch: Chan, field: Field, value: Text): Chan {
    match field
    case DeviceId => if ch.deviceId.Some? then ch else ch.(deviceId := Some(value))
    case Protocol => if ch.protocol.Some? then ch else ch.(protocol := Some(value))
  }

  /** `channel_set_value` keeps a value that is already there. */
  function SetDefault(n: NodeState, u: Text, field: Field, value: Text): NodeState {
    Put(n, u, WithDefault(ChanAt(n, u), field, value))
  }

  function Redistanced(ch: Chan, device: Text, distance: int): Chan {
    if ch.deviceId == Some(device) then ch.(rootDistance := Some(distance)) else ch
  }

  /** `set_device_root_distance` */
  function SetDistance(n: NodeState, device: Text, distance: int): NodeState {
    n.(chans := map u | u in n.chans :: Redistanced(n.chans[u], device, distance))
  }

  function SetDistances(n: NodeState, devices: seq<Text>, first: nat): NodeState
    decreases |devices|
  {
    if devices == [] then n
    else SetDistances(SetDistance(n, devices[0], first), devices[1..], first + 1)
  }

  /** `process_mesh_topo` */
  function ProcessTopo(n: NodeState, message: Text): NodeState {
    SetDistances(n, NonEmpty(Split(message)), 0)
  }

  /** `init_client_type_1` and `init_server_type_1` */
  function OpenChannel(n: NodeState, u: Text, protocol: Text, role: Role): NodeState {
    Put(n, u, Chan(Some(u), Some(n.id), Some(protocol), Some(-1), true, role))
  }

  // ---- Routing ----

  function SendAll(cs: seq<Text>, p: Pkt): seq<Send> {
    seq(|cs|, i requires 0 <= i < |cs| => Send(cs[i], Normalized(p)))
  }

  /** `route_packet` */
  function Route(n: NodeState, p: Pkt): seq<Send> {
    if p.forwarding == TO_ROOT then
      if n.isRoot || Leading(n, true) == [] then [] else [Send(Leading(n, true)[0], Normalized(p))]
    else if p.forwarding == TO_EDGES then SendAll(Leading(n, false), p)
    else if p.forwarding == TO_NEIGHBOR then SendAll(Clients(n), p)
    else []
  }

  // ---- Topology flood ----

  const SEND_TOPO := 1
  const RETURN_TOPO := 2
  const TOPO_HOP_LIMIT := 70

  function TopoPkt(message: Text): Pkt {
    Normalized(NewPkt(message).(forwarding := TO_NEIGHBOR, priority := PRIORITY_MEDIUM,
                                contents := MESH_TOPO, meta := SEND_TOPO))
  }

  /** `send_mesh_topo` */
  function StartFlood(n: NodeState): seq<Send> {
    SendAll(Clients(n), TopoPkt(EncodePath([n.id])))
  }

  predicate Carries(p: Pkt, id: Text) {
    Contains([COLON] + id + [COLON], p.message)
  }

  datatype Effect = Effect(node: NodeState, pkt: Pkt, out: seq<Send>)

  /** `append_mesh_topo`: the grown packet goes to every client twice. */
  function AppendTopo(n: NodeState, p: Pkt): Effect {
    if Carries(p, n.id) then Effect(n, p, [])
    else
      var grown := Appended(p, n.id + [COLON]).(forwarding := TO_NEIGHBOR);
      Effect(ProcessTopo(n, grown.message), grown, SendAll(Clients(n), grown) + Route(n, grown))
  }

  function ReturnedTopo(p: Pkt): Pkt {
    Normalized(p.(forwarding := TO_ROOT, priority := PRIORITY_MEDIUM, meta := RETURN_TOPO))
  }

  /** `return_mesh_topo` */
  function ReturnTopo(n: NodeState, p: Pkt): seq<Send> {
    if n.isRoot then [] else Route(n, ReturnedTopo(p))
  }

  /** `check_mesh_topo`; `p` has been counted as one more hop. */
  function CheckTopo(n: NodeState, p: Pkt): (NodeState, seq<Send>) {
    if p.meta == RETURN_TOPO then
      if p.hops > TOPO_HOP_LIMIT then (n, [])
      else if n.isRoot then (ProcessTopo(n, p.message), [])
      else (n, Route(n, p))
    else if p.meta == SEND_TOPO then
      var e := AppendTopo(n, p);
      (e.node, e.out + ReturnTopo(e.node, e.pkt))
    else (n, [])
  }

  // ---- Ping-pong handshake ----

  const SEND_PING := 1
  const RECV_PING := 2
  const SEND_PONG := 3
  const RECV_PONG := 4
  const PING_PONG_ROOT := 5
  const PING_HOP_LIMIT := 220

  function Ascii(s: string): Text {
    seq(|s|, i requires 0 <= i < |s| => s[i] as int)
  }

  const FLAGS := Ascii("flags")
  const RETURN_FLAG := Ascii("return_to_root")
  const RETURN_FLAGS := FLAGS + Ascii(";") + RETURN_FLAG

  datatype Triple = Triple(device: Text, uuid: Text, protocol: Text)

  function Fields(t: Triple): seq<Text> {
    [t.device, t.uuid, t.protocol]
  }

  /** `encode_ping_packet` */
  function EncodeTriple(t: Triple): Text {
    t.device + [COLON] + t.uuid + [COLON] + t.protocol + [COLON]
  }

  /** The triple a node writes for one of its own channels. */
  function OwnTriple(n: NodeState, u: Text): Triple {
    var ch := if u in n.chans then n.chans[u] else EMPTY_CHAN;
    Triple(n.id, ch.uuid.GetOr([]), ch.protocol.GetOr([]))
  }

  ghost predicate OwnChannel(n: NodeState, u: Text) {
    u in n.chans && n.chans[u].isHere
  }

  datatype PingData = PingData(flags: Text, sendPing: Triple, recvPing: Triple, sendPong: Triple, recvPong: Triple)

  /** `decode_ping_packet`; None where reading the parts raises an index error. */
  function DecodePing(message: Text): Option<PingData> {
    var parts := Split(message);
    if |parts| < 13 then None
    else Some(PingData(parts[0], Triple(parts[1], parts[2], parts[3]), Triple(parts[4], parts[5], parts[6]),
                       Triple(parts[7], parts[8], parts[9]), Triple(parts[10], parts[11], parts[12])))
  }

  function PingPkt(flags: Text, t: Triple): Pkt {
    NewPkt(flags + [COLON] + EncodeTriple(t)).(forwarding := TO_NEIGHBOR, priority := PRIORITY_MEDIUM,
                                               contents := PING_PONG, meta := SEND_PING)
  }

  function PingFlags(returnToRoot: bool): Text {
    if returnToRoot then RETURN_FLAGS else FLAGS
  }

  function PingsOver(n: NodeState, cs: seq<Text>, flags: Text): seq<Send> {
    seq(|cs|, i requires 0 <= i < |cs| => Send(cs[i], Normalized(PingPkt(flags, OwnTriple(n, cs[i])))))
  }

  /** `send_ping` */
  function SendPing(n: NodeState, returnToRoot: bool): seq<Send> {
    PingsOver(n, Clients(n), PingFlags(returnToRoot))
  }

  function PongsOver(n: NodeState, cs: seq<Text>, p: Pkt): seq<Send> {
    seq(|cs|, i requires 0 <= i < |cs| => Send(cs[i], Appended(p, EncodeTriple(OwnTriple(n, cs[i])))))
  }

  function Ponged(n: NodeState, p: Pkt, server: Text): Pkt {
    Appended(p, EncodeTriple(OwnTriple(n, server))).(forwarding := TO_NEIGHBOR, meta := SEND_PONG)
  }

  /** `recv_ping`: the ping is answered over every client, with a copy for each. */
  function RecvPing(n: NodeState, p: Pkt, server: Text): seq<Send> {
    PongsOver(n, Clients(n), Ponged(n, p, server))
  }

  function Learn(n: NodeState, t: Triple): NodeState {
    SetDefault(SetDefault(n, t.uuid, DeviceId, t.device), t.uuid, Protocol, t.protocol)
  }

  function LearnAll(n: NodeState, d: PingData): NodeState {
    var n1 := Link(Link(n, d.sendPing.uuid, d.recvPing.uuid), d.sendPong.uuid, d.recvPong.uuid);
    Learn(Learn(Learn(Learn(n1, d.sendPing), d.recvPing), d.sendPong), d.recvPong)
  }

  predicate ReturnsToRoot(n: NodeState, d: PingData) {
    && Contains(RETURN_FLAG, d.flags)
    && d.sendPing.device == d.recvPong.device
    && d.recvPing.device == d.sendPong.device
    && !n.isRoot
  }

  function RootPong(p: Pkt): Pkt {
    Normalized(p.(meta := PING_PONG_ROOT, forwarding := TO_ROOT, priority := PRIORITY_MEDIUM))
  }

  /** `process_ping_pong` with `return_ping_pong` */
  function ProcessPing(n: NodeState, p: Pkt): (NodeState, seq<Send>) {
    match DecodePing(p.message)
    case None => (n, [])
    case Some(d) =>
      var n1 := LearnAll(n, d);
      (n1, if ReturnsToRoot(n1, d) then Route(n1, RootPong(p)) else [])
  }

  function RecvPong(n: NodeState, p: Pkt, server: Text): Pkt {
    Appended(p.(meta := RECV_PONG), EncodeTriple(OwnTriple(n, server)))
  }

  /** Handling `p` never reads past the parts of its message, which would raise an index error. */
  ghost predicate Decodable(n: NodeState, p: Pkt, server: Text) {
    p.contents == PING_PONG ==>
      && (p.meta == SEND_PONG ==> DecodePing(RecvPong(n, p, server).message).Some?)
      && (p.meta == RECV_PONG || p.meta == PING_PONG_ROOT ==> DecodePing(p.message).Some?)
  }

  /** `check_ping_pong` */
  function CheckPing(n: NodeState, p: Pkt, server: Text): (NodeState, seq<Send>) {
    if p.meta == SEND_PING then (n, RecvPing(n, p, server))
    else if p.meta == SEND_PONG then ProcessPing(n, RecvPong(n, p, server))
    else if p.meta == RECV_PONG then ProcessPing(n, p)
    else if p.meta == PING_PONG_ROOT then
      if p.hops > PING_HOP_LIMIT then (n, [])
      else if n.isRoot then ProcessPing(n, p)
      else (n, Route(n, p))
    else (n, [])
  }

  // ---- One received packet ----

  /** How a packet of any other kind changes direction at this node. */
  function NextForwarding(isRoot: bool, f: int): int {
    var g := if isRoot && f == TO_ROOT then TO_HERE
             else if isRoot && f == TO_NEIGHBOR_TO_ROOT then TO_ROOT else f;
    if g == TO_BACK || g == TO_NEIGHBOR || g == TO_PARENT then TO_HERE
    else if g == TO_NEIGHBOR_TO_ROOT then TO_ROOT
    else if g == TO_NEIGHBOR_AND_BACK then TO_BACK
    else g
  }

  /** `process_packet` for every contents type but RemMakeClient1. */
  function Process(n: NodeState, p0: Pkt, server: Text): (NodeState, seq<Send>) {
    var p := p0.(hops := p0.hops + 1);
    if p.contents == PING_PONG then CheckPing(n, p, server)
    else if p.contents == MESH_TOPO then CheckTopo(n, p)
    else (n, Route(n, p.(forwarding := NextForwarding(n.isRoot, p.forwarding))))
  }

  // ---- Table lemmas ----

  lemma {:induction false} ClientsAreOwn(keys: seq<Text>, n: NodeState)
    ensures forall c :: c in ClientsOf(keys, n.chans) <==> c in keys && IsClient(n.chans, c)
    ensures NoDup(keys) ==> NoDup(ClientsOf(keys, n.chans))
  {
    if keys != [] {
      var front, k := keys[..|keys| - 1], keys[|keys| - 1];
      assert keys == front + [k];
      ClientsAreOwn(front, n);
      if NoDup(keys) {
        assert NoDup(front);
        assert k !in front;
      }
    }
  }

  lemma LinkKeys(n: NodeState, a: Text, b: Text)
    ensures Link(n, a, b).chans.Keys == n.chans.Keys + {a, b}
  {
  }

  lemma {:induction false} LeadingAre(cs: seq<Text>, n: NodeState, closer: bool)
    ensures forall c :: c in LeadingOf(cs, n, closer) <==> c in cs && Leads(n, c, closer)
  {
    if cs != [] {
      assert cs == cs[..|cs| - 1] + [cs[|cs| - 1]];
      LeadingAre(cs[..|cs| - 1], n, closer);
    }
  }
}
