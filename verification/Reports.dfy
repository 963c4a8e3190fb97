/** Topology reports of the C++ nodes, RemRouter.cpp, and what the Go server is told by them.
    The protobuf codec is a faithful one for three fields; only the length of its output is computed. */
module Reports {
  import opened Framing

  const TO_ROOT := 1
  const TO_PARENT_TO_ROOT := 3
  const TO_PARENT := 4
  const TO_NEIGHBORS := 6
  const NEIGHBOR_TO_ROOT := 11
  const PARENT_AND_BACK := 22

  const BASIC := 1
  const MESH_TOPOLOGY := 4
  const BUFFER_SIZE := 64

  type Word = x: int | 0 <= x < 0x1_0000_0000

  datatype Info = Info(target: Word, source: Word, kind: Word)

  /** What follows the header: an encoded report, or `length` bytes that do not decode to one. */
  datatype Body = Encoded(info: Info) | Garbage(length: nat)
  datatype Packet = Packet(header: Header, body: Body)

  function VarintSize(x: Word): (r: nat)
    ensures r <= 5
  {
    if x < 0x80 then 1 else if x < 0x4000 then 2 else if x < 0x20_0000 then 3 else if x < 0x1000_0000 then 4 else 5
  }

  /** A field that is zero is not written. */
  function FieldSize(x: Word): nat {
    if x == 0 then 0 else 1 + VarintSize(x)
  }

  function EncodedSize(i: Info): nat {
    FieldSize(i.target) + FieldSize(i.source) + FieldSize(i.kind)
  }

  function Length(p: Packet): nat {
    HEADER_SIZE + if p.body.Encoded? then EncodedSize(p.body.info) else p.body.length
  }

  /** Encoding a report into what the buffer has left never fails. */
  lemma ReportFits(i: Info)
    requires i.kind == MESH_TOPOLOGY
    ensures EncodedSize(i) <= 14 <= BUFFER_SIZE - HEADER_SIZE
  {
  }

  datatype Peer = Server | Device(id: Word)
  datatype Channel = Channel(peer: Peer, connectedToRoot: bool)
  datatype Flight = Flight(to: Peer, packet: Packet)

  // ---- What a router sends ----

  function ToUp(channels: seq<Channel>, p: Packet): seq<Flight> {
    if channels == [] then []
    else (if channels[0].connectedToRoot then [Flight(channels[0].peer, p)] else []) + ToUp(channels[1..], p)
  }

  function ToAll(channels: seq<Channel>, p: Packet): seq<Flight> {
    if channels == [] then [] else [Flight(channels[0].peer, p)] + ToAll(channels[1..], p)
  }

  function Sized(p: Packet, size: nat): Packet
    requires size < 0x1_0000
  {
    p.(header := p.header.(sizeLow := size % 256, sizeHigh := size / 256))
  }

  function Sends(channels: seq<Channel>, p: Packet): seq<Flight> {
    if p.header.forwarding in {PARENT_AND_BACK, TO_PARENT, TO_PARENT_TO_ROOT, TO_ROOT} then ToUp(channels, p)
    else if p.header.forwarding in {TO_NEIGHBORS, NEIGHBOR_TO_ROOT} then ToAll(channels, p)
    else []
  }

  function ReportPacket(id: Word): Packet {
    var body := Encoded(Info(0, id, MESH_TOPOLOGY));
    Sized(Packet(Header(0, 0, TO_PARENT_TO_ROOT, BASIC, MESH_TOPOLOGY), body), HEADER_SIZE + EncodedSize(body.info))
  }

  /** The report as the first hop, device `id`, passes it on. */
  function Rewritten(id: Word, p: Packet): Packet
    requires p.body.Encoded?
  {
    var body := Encoded(Info(id, p.body.info.source, MESH_TOPOLOGY));
    Sized(Packet(p.header.(forwarding := TO_ROOT), body), HEADER_SIZE + EncodedSize(body.info))
  }

  function Processed(id: Word, channels: seq<Channel>, p: Packet): seq<Flight> {
    if p.header.protobuf == MESH_TOPOLOGY && p.body.Encoded? && p.header.forwarding == TO_PARENT_TO_ROOT
    then Sends(channels, Rewritten(id, p)) else []
  }

  function Routed(id: Word, channels: seq<Channel>, p: Packet, size: nat): seq<Flight>
    requires size < 0x1_0000
  {
    var q := Sized(p, size);
    if q.header.forwarding == TO_ROOT then ToUp(channels, q)
    else if q.header.forwarding in {PARENT_AND_BACK, TO_PARENT, TO_PARENT_TO_ROOT} then Processed(id, channels, q)
    else []
  }

  // ---- Which packet goes over which channels ----

  ghost predicate Hit(at: seq<int>, k: int) {
    k in at
  }

  ghost predicate SentAt(channels: seq<Channel>, out: seq<Flight>, p: Packet, at: seq<int>, i: nat)
    requires i < |at| && i < |out|
  {
    0 <= at[i] < |channels| && channels[at[i]].connectedToRoot && out[i] == Flight(channels[at[i]].peer, p)
  }

  ghost predicate OverUplinksAt(channels: seq<Channel>, out: seq<Flight>, p: Packet, at: seq<int>) {
    && |at| == |out|
    && (forall i, j :: 0 <= i < j < |at| ==> at[i] < at[j])
    && (forall i :: 0 <= i < |at| ==> SentAt(channels, out, p, at, i))
    && (forall k {:trigger Hit(at, k)} :: 0 <= k < |channels| && channels[k].connectedToRoot ==> Hit(at, k))
  }

  /** `p` goes once over every uplink, in the order of the channels, and nowhere else. */
  ghost predicate OverUplinks(channels: seq<Channel>, out: seq<Flight>, p: Packet) {
    exists at :: OverUplinksAt(channels, out, p, at)
  }

  ghost predicate Behind(channels: seq<Channel>, rest: seq<Channel>) {
    |channels| == |rest| + 1 && forall k :: 0 <= k < |rest| ==> rest[k] == channels[k + 1]
  }

  /** The places of the uplinks, with one more channel in front. */
  lemma LaterPlaces(channels: seq<Channel>, rest: seq<Channel>, at: seq<int>) returns (later: seq<int>)
    requires Behind(channels, rest) && forall k :: 0 <= k < |rest| && rest[k].connectedToRoot ==> Hit(at, k)
    ensures |later| == |at| && forall i :: 0 <= i < |at| ==> later[i] == at[i] + 1
    ensures forall k :: 0 < k < |channels| && channels[k].connectedToRoot ==> Hit(later, k)
  {
    later := seq(|at|, i requires 0 <= i < |at| => at[i] + 1);
    forall k | 0 < k < |channels| && channels[k].connectedToRoot ensures Hit(later, k) {
      assert rest[k - 1] == channels[k] && Hit(at, k - 1);
      var i :| 0 <= i < |at| && at[i] == k - 1;
      assert later[i] == k;
    }
  }

  lemma OtherFirst(channels: seq<Channel>, rest: seq<Channel>, out: seq<Flight>, p: Packet)
    requires Behind(channels, rest) && OverUplinks(rest, out, p) && !channels[0].connectedToRoot
    ensures OverUplinks(channels, out, p)
  {
    var at :| OverUplinksAt(rest, out, p, at);
    var later := LaterPlaces(channels, rest, at);
    hide Behind;
    hide Hit;
    forall i | 0 <= i < |later| ensures SentAt(channels, out, p, later, i) {
      assert SentAt(rest, out, p, at, i);
      PlaceBehind(channels, rest, at[i]);
    }
    assert OverUplinksAt(channels, out, p, later);
  }

  lemma PlacesFromFirst(channels: seq<Channel>, rest: seq<Channel>, at: seq<int>) returns (all: seq<int>)
    requires Behind(channels, rest) && forall k :: 0 <= k < |rest| && rest[k].connectedToRoot ==> Hit(at, k)
    ensures |all| == |at| + 1 && all[0] == 0 && forall i :: 0 < i < |all| ==> all[i] == at[i - 1] + 1
    ensures forall k :: 0 <= k < |channels| && channels[k].connectedToRoot ==> Hit(all, k)
  {
    var later := LaterPlaces(channels, rest, at);
    all := [0] + later;
    forall k | 0 <= k < |channels| && channels[k].connectedToRoot ensures Hit(all, k) {
      assert k > 0 ==> Hit(later, k);
    }
  }

  lemma UplinkFirst(channels: seq<Channel>, rest: seq<Channel>, out: seq<Flight>, p: Packet)
    requires Behind(channels, rest) && OverUplinks(rest, out, p) && channels[0].connectedToRoot
    ensures OverUplinks(channels, [Flight(channels[0].peer, p)] + out, p)
  {
    var at :| OverUplinksAt(rest, out, p, at);
    var all := PlacesFromFirst(channels, rest, at);
    var sent := [Flight(channels[0].peer, p)] + out;
    hide Behind;
    hide Hit;
    forall i | 0 <= i < |at| ensures at[i] >= 0 { assert SentAt(rest, out, p, at, i); }
    forall i | 0 <= i < |all| ensures SentAt(channels, sent, p, all, i) {
      if i > 0 {
        assert SentAt(rest, out, p, at, i - 1);
        PlaceBehind(channels, rest, at[i - 1]);
      }
    }
    assert OverUplinksAt(channels, sent, p, all);
  }

  lemma PlaceBehind(channels: seq<Channel>, rest: seq<Channel>, k: int)
    requires Behind(channels, rest) && 0 <= k < |rest|
    ensures k + 1 < |channels| && channels[k + 1] == rest[k]
  {
  }

  lemma {:induction false} UpIsOverUplinks(channels: seq<Channel>, p: Packet)
    ensures OverUplinks(channels, ToUp(channels, p), p)
  {
    if channels == [] {
      assert OverUplinksAt(channels, [], p, []);
    } else {
      UpIsOverUplinks(channels[1..], p);
      hide OverUplinks;
      if channels[0].connectedToRoot {
        UplinkFirst(channels, channels[1..], ToUp(channels[1..], p), p);
      } else {
        OtherFirst(channels, channels[1..], ToUp(channels[1..], p), p);
        assert [] + ToUp(channels[1..], p) == ToUp(channels[1..], p);
      }
    }
  }

  lemma {:induction false} AllIsOverAll(channels: seq<Channel>, p: Packet)
    ensures |ToAll(channels, p)| == |channels|
    ensures forall i :: 0 <= i < |channels| ==> ToAll(channels, p)[i] == Flight(channels[i].peer, p)
  {
    if channels != [] { AllIsOverAll(channels[1..], p); }
  }

  /** Sending: over the uplinks for the parent and the root, over every channel for the neighbours, else nowhere. */
  lemma SendsExactly(channels: seq<Channel>, p: Packet)
    ensures p.header.forwarding in {PARENT_AND_BACK, TO_PARENT, TO_PARENT_TO_ROOT, TO_ROOT} ==>
              OverUplinks(channels, Sends(channels, p), p)
    ensures p.header.forwarding in {TO_NEIGHBORS, NEIGHBOR_TO_ROOT} ==>
              |Sends(channels, p)| == |channels|
              && forall i :: 0 <= i < |channels| ==> Sends(channels, p)[i] == Flight(channels[i].peer, p)
    ensures Sends(channels, p) == [] || p.header.forwarding in {PARENT_AND_BACK, TO_PARENT, TO_PARENT_TO_ROOT, TO_ROOT}
            || p.header.forwarding in {TO_NEIGHBORS, NEIGHBOR_TO_ROOT}
  {
    UpIsOverUplinks(channels, p);
    AllIsOverAll(channels, p);
    hide OverUplinks;
  }

  /** The same header with this size in its two bytes. */
  ghost predicate Resized(h: Header, size: nat, was: Header) {
    && h.Size() == size && 0 <= h.sizeLow < 256 && 0 <= h.sizeHigh < 256
    && h == was.(sizeLow := h.sizeLow, sizeHigh := h.sizeHigh)
  }

  /** A device's own report: it is the source, no target is set, and it goes over every uplink. */
  lemma ReportExactly(channels: seq<Channel>, id: Word)
    ensures exists h :: OverUplinks(channels, Sends(channels, ReportPacket(id)),
                                    Packet(h, Encoded(Info(0, id, MESH_TOPOLOGY))))
                        && Resized(h, Length(Packet(h, Encoded(Info(0, id, MESH_TOPOLOGY)))),
                                   Header(0, 0, TO_PARENT_TO_ROOT, BASIC, MESH_TOPOLOGY))
  {
    var p := ReportPacket(id);
    ReportFits(p.body.info);
    UpIsOverUplinks(channels, p);
    hide OverUplinks;
    assert p == Packet(p.header, Encoded(Info(0, id, MESH_TOPOLOGY)));
    assert Resized(p.header, Length(p), Header(0, 0, TO_PARENT_TO_ROOT, BASIC, MESH_TOPOLOGY));
  }

  /** What is received is relayed over the uplinks as it is if it is for the root; a first-hop report that can be read
      goes over them with this device as its target and the root as its aim; and nothing else is sent. */
  lemma RoutedExactly(id: Word, channels: seq<Channel>, p: Packet, size: nat)
    requires size < 0x1_0000
    ensures var out := Routed(id, channels, p, size);
            if p.header.forwarding == TO_ROOT
            then exists h :: OverUplinks(channels, out, Packet(h, p.body)) && Resized(h, size, p.header)
            else if p.header.forwarding == TO_PARENT_TO_ROOT && p.header.protobuf == MESH_TOPOLOGY && p.body.Encoded?
            then var body := Encoded(Info(id, p.body.info.source, MESH_TOPOLOGY));
                 exists h :: OverUplinks(channels, out, Packet(h, body))
                             && Resized(h, Length(Packet(h, body)), p.header.(forwarding := TO_ROOT))
            else out == []
  {
    var q := Sized(p, size);
    UpIsOverUplinks(channels, q);
    if p.body.Encoded? {
      var r := Rewritten(id, q);
      ReportFits(r.body.info);
      UpIsOverUplinks(channels, r);
      assert r == Packet(r.header, Encoded(Info(id, p.body.info.source, MESH_TOPOLOGY)));
      assert Resized(r.header, Length(r), p.header.(forwarding := TO_ROOT));
    }
    assert q == Packet(q.header, p.body) && Resized(q.header, size, p.header);
    hide OverUplinks;
  }

  // ---- The router, on buffers it rewrites in place ----

  class PacketBuffer {
    const header: RemBasicHeader
    var body: Body

    constructor (h: Header, body: Body)
      ensures Contents() == Packet(h, body) && fresh(header)
    {
      header := new RemBasicHeader(h);
      this.body := body;
    }

    function Contents(): Packet
      reads this, header
    {
      Packet(header.Value(), body)
    }
  }

  class RemRouter {
    const id: Word
    const pbBuffer: PacketBuffer
    var channels: seq<Channel>

    constructor (id: Word)
      ensures this.id == id && channels == [] && fresh(pbBuffer) && fresh(pbBuffer.header)
    {
      this.id, channels := id, [];
      pbBuffer := new PacketBuffer(Header(0, 0, 0, 0, 0), Garbage(0));
    }

    method SendUp(data: PacketBuffer) returns (sent: seq<Flight>)
      ensures sent == ToUp(channels, data.Contents())
    {
      sent := [];
      for i := 0 to |channels|
        invariant sent + ToUp(channels[i..], data.Contents()) == ToUp(channels, data.Contents())
      {
        assert channels[i..][1..] == channels[i + 1..];
        if channels[i].connectedToRoot {
          sent := sent + [Flight(channels[i].peer, data.Contents())];
        }
      }
    }

    method SendToAll(data: PacketBuffer) returns (sent: seq<Flight>)
      ensures sent == ToAll(channels, data.Contents())
    {
      sent := [];
      for i := 0 to |channels|
        invariant sent + ToAll(channels[i..], data.Contents()) == ToAll(channels, data.Contents())
      {
        assert channels[i..][1..] == channels[i + 1..];
        sent := sent + [Flight(channels[i].peer, data.Contents())];
      }
    }

    method SendPacket(data: PacketBuffer, size: nat) returns (sent: seq<Flight>)
      requires size < 0x1_0000
      modifies data.header`sizeLow, data.header`sizeHigh
      ensures data.Contents() == Sized(old(data.Contents()), size)
      ensures sent == Sends(channels, data.Contents())
    {
      data.header.SetSize(size);
      var forwarding := data.header.forwarding;
      if forwarding in {PARENT_AND_BACK, TO_PARENT, TO_PARENT_TO_ROOT, TO_ROOT} {
        sent := SendUp(data);
      } else if forwarding in {TO_NEIGHBORS, NEIGHBOR_TO_ROOT} {
        sent := SendToAll(data);
      } else {
        sent := [];
      }
    }

    method RoutePacket(data: PacketBuffer, size: nat) returns (sent: seq<Flight>)
      requires size < 0x1_0000 && data != pbBuffer && data.header != pbBuffer.header
      modifies data.header, pbBuffer, pbBuffer.header
      ensures data.Contents() == Sized(old(data.Contents()), size)
      ensures sent == Routed(id, channels, old(data.Contents()), size)
    {
      data.header.SetSize(size);
      var forwarding := data.header.forwarding;
      if forwarding == TO_ROOT {
        sent := SendUp(data);
      } else if forwarding in {PARENT_AND_BACK, TO_PARENT, TO_PARENT_TO_ROOT} {
        sent := ProcessPacket(data);
      } else {
        sent := [];
      }
    }

    method ProcessPacket(data: PacketBuffer) returns (sent: seq<Flight>)
      requires data != pbBuffer && data.header != pbBuffer.header
      modifies pbBuffer, pbBuffer.header
      ensures sent == Processed(id, channels, data.Contents())
    {
      sent := [];
      if data.header.protobuf == MESH_TOPOLOGY {
        sent := HandleMeshTopo(data);
      }
    }

    method HandleMeshTopo(data: PacketBuffer) returns (sent: seq<Flight>)
      requires data.header.protobuf == MESH_TOPOLOGY && data != pbBuffer && data.header != pbBuffer.header
      modifies pbBuffer, pbBuffer.header
      ensures sent == Processed(id, channels, data.Contents())
    {
      sent := [];
      var header := pbBuffer.header;
      header.sizeLow, header.sizeHigh := data.header.sizeLow, data.header.sizeHigh;
      header.forwarding, header.headerType := data.header.forwarding, data.header.headerType;
      header.protobuf := data.header.protobuf;
      if data.body.Garbage? { return; }
      var meshTopo := data.body.info;
      if header.forwarding == TO_PARENT_TO_ROOT {
        header.forwarding := TO_ROOT;
        meshTopo := meshTopo.(kind := MESH_TOPOLOGY);
        meshTopo := meshTopo.(target := id);
        ReportFits(meshTopo);
        if EncodedSize(meshTopo) <= BUFFER_SIZE - HEADER_SIZE {
          pbBuffer.body := Encoded(meshTopo);
          sent := SendPacket(pbBuffer, HEADER_SIZE + EncodedSize(meshTopo));
        }
      }
    }

    method SendMeshTopo() returns (sent: seq<Flight>)
      modifies pbBuffer, pbBuffer.header
      ensures sent == Sends(channels, ReportPacket(id))
    {
      sent := [];
      var header := pbBuffer.header;
      header.forwarding, header.headerType, header.protobuf := TO_PARENT_TO_ROOT, BASIC, MESH_TOPOLOGY;
      var meshTopo := Info(0, id, MESH_TOPOLOGY);
      ReportFits(meshTopo);
      if EncodedSize(meshTopo) <= BUFFER_SIZE - HEADER_SIZE {
        pbBuffer.body := Encoded(meshTopo);
        sent := SendPacket(pbBuffer, HEADER_SIZE + EncodedSize(meshTopo));
      }
    }
  }
}
