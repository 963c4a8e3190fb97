/** What no processed packet undoes: a node's tables only grow, and distances agree per device. */
module MeshGrowth {
  import opened Texts
  import opened Packets
  import opened NodeSpec

  predicate DistanceSet(ch: Chan) {
    ch.rootDistance.Some? && ch.rootDistance.value != -1
  }

  /** A record keeps its device id, protocol and role for ever, and a distance stays set once it is. */
  ghost predicate ChanGrows(a: Chan, b: Chan) {
    && (a.deviceId.Some? ==> b.deviceId == a.deviceId)
    && (a.protocol.Some? ==> b.protocol == a.protocol)
    && b.isHere == a.isHere && b.role == a.role
    && (DistanceSet(a) ==> DistanceSet(b))
  }

  ghost predicate ChansGrow(a: map<Text, Chan>, b: map<Text, Chan>) {
    && (forall u :: u in a ==> u in b && ChanGrows(a[u], b[u]))
    && (forall u :: u in b && u !in a ==> !b[u].isHere)
  }

  ghost predicate ConnGrows(a: map<Text, seq<Text>>, b: map<Text, seq<Text>>) {
    forall c :: c in a ==> c in b && forall i :: 0 <= i < |a[c]| ==> a[c][i] in b[c]
  }

  ghost predicate Grows(n: NodeState, m: NodeState) {
    && m.id == n.id && m.isRoot == n.isRoot
    && n.keys <= m.keys
    && (forall i :: |n.keys| <= i < |m.keys| ==> m.keys[i] !in n.chans)
    && ChansGrow(n.chans, m.chans)
    && ConnGrows(n.conn, m.conn)
  }

  lemma GrowsTrans(n: NodeState, m: NodeState, k: NodeState)
    requires Grows(n, m) && Grows(m, k)
    ensures Grows(n, k)
  {
    forall c, i | c in n.conn && 0 <= i < |n.conn[c]| ensures c in k.conn && n.conn[c][i] in k.conn[c] {
      var j :| 0 <= j < |m.conn[c]| && m.conn[c][j] == n.conn[c][i];
      assert m.conn[c][j] in k.conn[c];
    }
    forall i | |n.keys| <= i < |k.keys| ensures k.keys[i] !in n.chans {
      if i < |m.keys| { assert k.keys[i] == m.keys[i]; }
    }
  }

  lemma PutGrows(n: NodeState, u: Text, ch: Chan)
    requires ChanGrows(ChanAt(n, u), ch)
    ensures Grows(n, Put(n, u, ch))
  {
  }

  lemma LinkGrows(n: NodeState, a: Text, b: Text)
    ensures Grows(n, Link(n, a, b))
  {
    PutGrows(n, a, ChanAt(n, a).(uuid := Some(a)));
    PutGrows(Named(n, a), b, ChanAt(Named(n, a), b).(uuid := Some(b)));
    GrowsTrans(n, Named(n, a), Named(Named(n, a), b));
  }

  lemma LearnGrows(n: NodeState, t: Triple)
    ensures Grows(n, Learn(n, t))
  {
    var n1 := SetDefault(n, t.uuid, DeviceId, t.device);
    PutGrows(n, t.uuid, WithDefault(ChanAt(n, t.uuid), DeviceId, t.device));
    PutGrows(n1, t.uuid, WithDefault(ChanAt(n1, t.uuid), Protocol, t.protocol));
    GrowsTrans(n, n1, Learn(n, t));
  }

  lemma LearnAllGrows(n: NodeState, d: PingData)
    ensures Grows(n, LearnAll(n, d))
  {
    hide Grows;
    hide Link;
    hide Learn;
    var n1 := Link(n, d.sendPing.uuid, d.recvPing.uuid);
    var n2 := Link(n1, d.sendPong.uuid, d.recvPong.uuid);
    LinkGrows(n, d.sendPing.uuid, d.recvPing.uuid);
    LinkGrows(n1, d.sendPong.uuid, d.recvPong.uuid);
    var n3 := Learn(n2, d.sendPing);
    var n4 := Learn(n3, d.recvPing);
    var n5 := Learn(n4, d.sendPong);
    LearnGrows(n2, d.sendPing);
    LearnGrows(n3, d.recvPing);
    LearnGrows(n4, d.sendPong);
    LearnGrows(n5, d.recvPong);
    GrowsTrans(n, n1, n2);
    GrowsTrans(n, n2, n3);
    GrowsTrans(n, n3, n4);
    GrowsTrans(n, n4, n5);
    GrowsTrans(n, n5, LearnAll(n, d));
  }

  lemma {:induction false} SetDistancesGrow(n: NodeState, devices: seq<Text>, first: nat)
    ensures Grows(n, SetDistances(n, devices, first))
    ensures SetDistances(n, devices, first).conn == n.conn && SetDistances(n, devices, first).keys == n.keys
    ensures SetDistances(n, devices, first).chans.Keys == n.chans.Keys
    decreases |devices|
  {
    if devices != [] {
      var n1 := SetDistance(n, devices[0], first);
      assert Grows(n, n1);
      SetDistancesGrow(n1, devices[1..], first + 1);
      GrowsTrans(n, n1, SetDistances(n, devices, first));
    }
  }

  /** Processing any packet, even a malformed one, only grows the tables. */
  lemma ProcessGrows(n: NodeState, p: Pkt, server: Text)
    ensures Grows(n, Process(n, p, server).0)
  {
    hide Grows;
    hide LearnAll;
    assert Grows(n, n) by { SelfGrows(n); }
    forall message ensures Grows(n, ProcessTopo(n, message)) {
      SetDistancesGrow(n, NonEmpty(Split(message)), 0);
    }
    forall d ensures Grows(n, LearnAll(n, d)) {
      LearnAllGrows(n, d);
    }
  }

  lemma SelfGrows(n: NodeState)
    ensures Grows(n, n)
  {
  }

  // ---- Channels of one device agree on its distance ----

  /** `t` gives the one distance each device's channels can have. */
  ghost predicate Tabled(chans: map<Text, Chan>, t: map<Text, int>) {
    forall u :: u in chans && DistanceSet(chans[u]) ==>
      && chans[u].deviceId.Some? && chans[u].deviceId.value in t
      && t[chans[u].deviceId.value] == chans[u].rootDistance.value
  }

  ghost predicate Agree(n: NodeState) {
    exists t :: Tabled(n.chans, t)
  }

  lemma AgreeMeans(n: NodeState, u: Text, v: Text)
    requires Agree(n) && u in n.chans && v in n.chans && n.chans[u].deviceId == n.chans[v].deviceId
    requires DistanceOf(n, u) != -1 && DistanceOf(n, v) != -1
    ensures DistanceOf(n, u) == DistanceOf(n, v)
  {
  }

  lemma SetDistanceAgrees(n: NodeState, device: Text, k: nat)
    requires Agree(n)
    ensures Agree(SetDistance(n, device, k))
  {
    var t :| Tabled(n.chans, t);
    assert Tabled(SetDistance(n, device, k).chans, t[device := k]);
  }

  lemma {:induction false} SetDistancesAgree(n: NodeState, devices: seq<Text>, first: nat)
    requires Agree(n)
    ensures Agree(SetDistances(n, devices, first))
    decreases |devices|
  {
    if devices != [] {
      SetDistanceAgrees(n, devices[0], first);
      SetDistancesAgree(SetDistance(n, devices[0], first), devices[1..], first + 1);
    }
  }

  lemma PutAgrees(n: NodeState, u: Text, ch: Chan)
    requires Agree(n)
    requires (DistanceSet(ch) ==> ChanGrows(ChanAt(n, u), ch) && ch.rootDistance == ChanAt(n, u).rootDistance)
    ensures Agree(Put(n, u, ch))
  {
    var t :| Tabled(n.chans, t);
    assert Tabled(Put(n, u, ch).chans, t);
  }

  lemma LearnAllAgrees(n: NodeState, d: PingData)
    requires Agree(n)
    ensures Agree(LearnAll(n, d))
  {
    hide Agree;
    forall m: NodeState, u | Agree(m) ensures Agree(Named(m, u)) {
      PutAgrees(m, u, ChanAt(m, u).(uuid := Some(u)));
    }
    forall m: NodeState, u, f, v | Agree(m) ensures Agree(SetDefault(m, u, f, v)) {
      PutAgrees(m, u, WithDefault(ChanAt(m, u), f, v));
    }
    forall m: NodeState, a, b | Agree(m) ensures Agree(Link(m, a, b)) {
      SameChansAgree(Named(Named(m, a), b), Link(m, a, b));
    }
    hide Link;
    hide SetDefault;
  }

  lemma SameChansAgree(n: NodeState, m: NodeState)
    requires Agree(n) && m.chans == n.chans
    ensures Agree(m)
  {
  }

  lemma ProcessAgrees(n: NodeState, p: Pkt, server: Text)
    requires Agree(n)
    ensures Agree(Process(n, p, server).0)
  {
    hide Agree;
    hide LearnAll;
    forall message ensures Agree(ProcessTopo(n, message)) {
      SetDistancesAgree(n, NonEmpty(Split(message)), 0);
    }
    forall d ensures Agree(LearnAll(n, d)) {
      LearnAllAgrees(n, d);
    }
  }
}
