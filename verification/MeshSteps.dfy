/** What any event of the mesh does to the packets in flight and to the tables. */
module MeshSteps {
  import opened Texts
  import opened NodeSpec
  import opened Mesh
  import opened MeshSafety
  import opened MeshGrowth

  // ---- Packets in flight ----

  ghost predicate LeadsTo(w: World, c: Text, v: Text) {
    c in w.peer && w.peer[c] in w.owner && DestOf(w, c) == v
  }

  ghost predicate ArrivesAt(w: World, f: Send, v: Text) {
    LeadsTo(w, f.channel, v)
  }

  ghost predicate Lossless(es: seq<Event>) {
    forall i :: 0 <= i < |es| ==> !es[i].Lose?
  }

  lemma LosslessRest(es: seq<Event>)
    requires Lossless(es) && es != []
    ensures !es[0].Lose? && Lossless(es[1..])
  {
  }

  /** A packet that is neither delivered nor lost stays in flight to its device, if need be as the equal packet for
      which it is skipped. */
  lemma FlightStays(w: World, s: MeshState, e: Event, i: nat, v: Text) returns (k: nat)
    requires Enabled(w, s, e) && !e.Lose? && i < |s.net| && ArrivesAt(w, s.net[i], v)
    requires !(e.Deliver? && e.i == i)
    ensures k < |Apply(w, s, e).net| && ArrivesAt(w, Apply(w, s, e).net[k], v)
    ensures Apply(w, s, e).net[k].pkt == s.net[i].pkt && Apply(w, s, e).net[k] in s.net
  {
    hide Process;
    hide SendPing;
    hide StartFlood;
    var j := if e.Dedup? && e.i == i then e.j else i;
    k := if (e.Deliver? || e.Dedup?) && e.i < j then j - 1 else j;
    assert Apply(w, s, e).net[k] == s.net[j];
  }

  /** What an event adds to the packets in flight. */
  ghost function Added(w: World, s: MeshState, e: Event): seq<Send>
    requires Enabled(w, s, e)
  {
    match e
    case Deliver(i) => Delivered(w, s, i).1
    case Flood => StartFlood(s.nodes[w.root])
    case Ping(d, flag) => SendPing(s.nodes[d], flag)
    case _ => []
  }

  lemma AddedArrives(w: World, s: MeshState, e: Event, k: nat)
    requires Enabled(w, s, e) && k < |Added(w, s, e)|
    ensures Added(w, s, e)[k] in Apply(w, s, e).net
  {
    hide Process;
    hide SendPing;
    hide StartFlood;
    var net, more := Apply(w, s, e).net, Added(w, s, e);
    assert net[|net| - |more| + k] == more[k];
  }

  // ---- Tables ----

  lemma KeysKnown(w: World, d: Text, n: NodeState)
    requires ValidWorld(w) && NodeOk(w, d, n, {})
    ensures n.id == d && forall i :: 0 <= i < |n.keys| ==> n.keys[i] in n.chans
  {
  }

  ghost predicate Keeps(n: NodeState, m: NodeState) {
    && (forall u :: u in n.chans ==> u in m.chans && ChanGrows(n.chans[u], m.chans[u]))
    && ConnGrows(n.conn, m.conn)
  }

  lemma KeepsTrans(n: NodeState, m: NodeState, k: NodeState)
    requires Keeps(n, m) && Keeps(m, k)
    ensures Keeps(n, k)
  {
    forall u | u in n.chans ensures u in k.chans && ChanGrows(n.chans[u], k.chans[u]) {
      assert ChanGrows(n.chans[u], m.chans[u]) && ChanGrows(m.chans[u], k.chans[u]);
    }
    forall c, i | c in n.conn && 0 <= i < |n.conn[c]| ensures c in k.conn && n.conn[c][i] in k.conn[c] {
      assert c in m.conn && n.conn[c][i] in m.conn[c];
      var j :| 0 <= j < |m.conn[c]| && m.conn[c][j] == n.conn[c][i];
      assert m.conn[c][j] in k.conn[c];
    }
  }

  lemma KeepsSelf(n: NodeState)
    ensures Keeps(n, n)
  {
  }

  lemma StepKeepsTables(w: World, s: MeshState, e: Event, d: Text)
    requires Enabled(w, s, e) && d in s.nodes
    ensures d in Apply(w, s, e).nodes && Keeps(s.nodes[d], Apply(w, s, e).nodes[d])
  {
    hide Process;
    match e
    case Deliver(i) =>
      ProcessGrows(s.nodes[DestOf(w, s.net[i].channel)], s.net[i].pkt, w.peer[s.net[i].channel]);
    case _ =>
  }

  /** A client channel stays a client channel. */
  lemma ClientStays(w: World, d: Text, n: NodeState, m: NodeState, c: Text)
    requires ValidWorld(w) && NodeOk(w, d, n, {}) && NodeOk(w, d, m, {}) && Keeps(n, m) && c in Clients(n)
    ensures c in Clients(m)
  {
    hide ChansOk;
    hide ConnOk;
    ClientsAreOwn(n.keys, n);
    ClientsAreOwn(m.keys, m);
    assert ChanGrows(n.chans[c], m.chans[c]);
  }

  lemma StepKeepsClient(w: World, s: MeshState, e: Event, d: Text, c: Text)
    requires ValidWorld(w) && Inv(w, s) && Enabled(w, s, e) && d in s.nodes && c in Clients(s.nodes[d])
    ensures d in Apply(w, s, e).nodes && c in Clients(Apply(w, s, e).nodes[d])
  {
    hide NodeOk;
    hide FlightOk;
    hide Apply;
    hide Keeps;
    StepKeeps(w, s, e);
    StepKeepsTables(w, s, e, d);
    ClientStays(w, d, s.nodes[d], Apply(w, s, e).nodes[d], c);
  }

  lemma {:induction false} RunKeepsClient(w: World, s: MeshState, es: seq<Event>, d: Text, c: Text)
    requires ValidWorld(w) && Inv(w, s) && Runs(w, s, es) && d in s.nodes && c in Clients(s.nodes[d])
    ensures d in After(w, s, es).nodes && c in Clients(After(w, s, es).nodes[d])
    decreases |es|
  {
    hide Inv;
    hide Apply;
    hide Enabled;
    hide Clients;
    if es != [] {
      StepKeeps(w, s, es[0]);
      StepKeepsClient(w, s, es[0], d, c);
      RunKeepsClient(w, Apply(w, s, es[0]), es[1..], d, c);
    }
  }
}
