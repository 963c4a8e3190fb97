/** What one delivery does to the mesh: which path goes back to the root, and over which channel. */
module MeshActs {
  import opened Texts
  import opened Packets
  import opened NodeSpec
  import opened NodeLaws
  import opened Mesh
  import opened MeshSafety

  /** A delivery takes one packet out, and its device's tables and what it sends are the answer to it. */
  lemma DeliveredNet(w: World, s: MeshState, i: nat)
    requires InFlight(w, s, i)
    ensures var d := DestOf(w, s.net[i].channel); var t := Apply(w, s, Deliver(i));
            && d in t.nodes && t.nodes[d] == Process(s.nodes[d], s.net[i].pkt, w.peer[s.net[i].channel]).0
            && t.nodes.Keys == s.nodes.Keys && (forall e :: e in s.nodes && e != d ==> t.nodes[e] == s.nodes[e])
            && t.net == s.net[..i] + s.net[i + 1..] + Process(s.nodes[d], s.net[i].pkt, w.peer[s.net[i].channel]).1
  {
    hide Process;
  }

  lemma PathOf(w: World, f: Send) returns (path: seq<Text>)
    requires ValidWorld(w) && FlightOk(w, f) && f.pkt.contents == MESH_TOPO
    ensures GoodPath(w, path) && f.pkt.message == EncodePath(path) && AreFields(path) && NoDup(path)
  {
    path :| TopoOk(w, f.channel, f.pkt, path);
    PathFields(w, path);
  }

  lemma ReceiverNamed(w: World, s: MeshState, i: nat)
    requires ValidWorld(w) && Inv(w, s) && InFlight(w, s, i)
    ensures var d := DestOf(w, s.net[i].channel); s.nodes[d].id == d && IsField(d) && FlightOk(w, s.net[i])
  {
    hide FlightOk;
    assert NodeOk(w, DestOf(w, s.net[i].channel), s.nodes[DestOf(w, s.net[i].channel)], {});
  }

  /** In every reachable state, an outgoing topology packet that is delivered adds exactly one returned path, one hop
      further, over what is then the first closer channel of its device; none at the root, or where no channel goes
      closer. The path is the packet's own if the device is on it already, else that path with the device added. */
  lemma DeliverReturns(w: World, s: MeshState, i: nat) returns (path: seq<Text>, more: seq<Send>, back: seq<Send>)
    requires ValidWorld(w) && Reachable(w, s) && InFlight(w, s, i) && Outgoing(s.net[i])
    ensures GoodPath(w, path) && s.net[i].pkt.message == EncodePath(path)
    ensures var d := DestOf(w, s.net[i].channel); var t := Apply(w, s, Deliver(i));
            && d in t.nodes && t.net == s.net[..i] + s.net[i + 1..] + more && ReturnsIn(more, back)
            && (d in path ==> t.nodes[d] == s.nodes[d] && more == back)
            && GoesUp(t.nodes[d], back, Pkt(TO_ROOT, PRIORITY_MEDIUM, MESH_TOPO, RETURN_TOPO, 0, s.net[i].pkt.hops + 1,
                                            EncodePath(PathBack(path, d))))
  {
    hide Inv;
    ReachableInv(w, s);
    hide Reachable;
    hide FlightOk;
    hide ValidWorld;
    hide Process;
    hide Apply;
    hide GoodPath;
    hide GoesUp;
    hide IsField;
    var f := s.net[i];
    var d := DestOf(w, f.channel);
    ReceiverNamed(w, s, i);
    path := PathOf(w, f);
    DeliveredNet(w, s, i);
    more := Process(s.nodes[d], f.pkt, w.peer[f.channel]).1;
    back := PathReturned(s.nodes[d], f.pkt, w.peer[f.channel], path);
  }
}
