/** Worlds at which the hop limits bite: devices in a line under the root, with a channel each way. */
module MeshLine {
  import opened Texts
  import opened NodeSpec
  import opened Mesh
  import opened MeshSafety
  import opened MeshTree
  import opened MeshWays
  import opened MeshReturns
  import opened MeshHandshake
  import opened MeshQuiet
  import opened MeshLearning
  import opened MeshPlain
  import opened MeshStart

  const DEVICE := 1
  const DOWN_CLIENT := 2
  const DOWN_SERVER := 3
  const UP_CLIENT := 4
  const UP_SERVER := 5

  /** The device of a number, or the channels between it and the next. */
  function Name(kind: int, i: nat): Text {
    [kind, 100 + i / 100, 100 + i % 100]
  }

  function Number(t: Text): int {
    if |t| == 3 then 100 * (t[1] - 100) + t[2] - 100 else 0
  }

  function Kind(t: Text): int {
    if |t| == 3 then t[0] else 0
  }

  lemma NameParts(kind: int, i: nat)
    ensures Kind(Name(kind, i)) == kind && Number(Name(kind, i)) == i
    ensures 1 <= kind <= 5 && i < 255 ==> IsField(Name(kind, i))
  {
  }

  function Devices(n: nat): set<Text> {
    set i | 0 <= i < n :: Name(DEVICE, i)
  }

  lemma {:induction false} DevicesFit(n: nat)
    ensures |Devices(n)| <= n
  {
    if n > 0 {
      DevicesFit(n - 1);
      assert Devices(n) == Devices(n - 1) + {Name(DEVICE, n - 1)};
    }
  }

  function Channels(n: nat): set<Text> {
    set kind, i | 2 <= kind <= 5 && 0 <= i < n :: Name(kind, i)
  }

  predicate OfUpper(u: Text) {
    Kind(u) == DOWN_CLIENT || Kind(u) == UP_SERVER
  }

  function OwnerOf(u: Text): Text
    requires Number(u) >= 0
  {
    Name(DEVICE, if OfUpper(u) then Number(u) else Number(u) + 1)
  }

  lemma ChannelIs(n: nat, u: Text)
    requires u in Channels(n)
    ensures 2 <= Kind(u) <= 5 && 0 <= Number(u) < n && u == Name(Kind(u), Number(u))
  {
    var kind, i :| 2 <= kind <= 5 && 0 <= i < n && u == Name(kind, i);
    NameParts(kind, i);
  }

  lemma DeviceIs(n: nat, d: Text)
    requires d in Devices(n)
    ensures 0 <= Number(d) < n && d == Name(DEVICE, Number(d))
  {
    var i :| 0 <= i < n && d == Name(DEVICE, i);
    NameParts(DEVICE, i);
  }

  predicate IsClientName(u: Text) {
    Kind(u) == DOWN_CLIENT || Kind(u) == UP_CLIENT
  }

  /** A root and `n` devices below it, each the parent of the next. */
  function Line(n: nat): World {
    World(Name(DEVICE, 0), Devices(n + 1),
          map u | u in Channels(n) :: if Number(u) >= 0 then OwnerOf(u) else [],
          map u | u in Channels(n) :: Name(DEVICE, 0),
          map u | u in Channels(n) && IsClientName(u) :: if Number(u) >= 0 then Name(Kind(u) + 1, Number(u)) else [])
  }

  function LineParent(n: nat): map<Text, Text> {
    map d | d in Devices(n + 1) && Number(d) > 0 :: Name(DEVICE, Number(d) - 1)
  }

  function LineDepth(n: nat): map<Text, nat> {
    map d | d in Devices(n + 1) && Number(d) >= 0 :: Number(d)
  }

  /** The channels of the line, by name. */
  lemma NamedChannel(n: nat, kind: int, i: nat)
    requires 2 <= kind <= 5 && i < n
    ensures var w, u := Line(n), Name(kind, i);
            && u in w.owner && u in w.protocol && w.protocol[u] == Name(DEVICE, 0)
            && w.owner[u] == Name(DEVICE, if kind == DOWN_CLIENT || kind == UP_SERVER then i else i + 1)
            && (u in w.peer <==> kind == DOWN_CLIENT || kind == UP_CLIENT)
            && (u in w.peer ==> w.peer[u] == Name(kind + 1, i))
  {
    NameParts(kind, i);
    assert Name(kind, i) in Channels(n);
    hide Channels;
    hide Name;
    hide Number;
    hide Kind;
  }

  /** There are no others. */
  lemma AllNamed(n: nat, u: Text)
    requires u in Line(n).owner
    ensures 2 <= Kind(u) <= 5 && 0 <= Number(u) < n && u == Name(Kind(u), Number(u))
  {
    ChannelIs(n, u);
  }

  lemma DeviceIn(n: nat, i: nat)
    requires i < n
    ensures Name(DEVICE, i) in Devices(n)
  {
  }

  lemma ChannelValid(n: nat, u: Text)
    requires n < 255 && u in Line(n).owner
    ensures IsField(u) && Line(n).owner[u] in Line(n).devices
    ensures u in Line(n).protocol && IsField(Line(n).protocol[u])
  {
    assert Line(n).devices == Devices(n + 1);
    hide Line;
    hide Devices;
    hide Name;
    hide Number;
    hide Kind;
    hide IsField;
    AllNamed(n, u);
    NamedChannel(n, Kind(u), Number(u));
    NameParts(Kind(u), Number(u));
    NameParts(DEVICE, 0);
    DeviceIn(n + 1, Number(u));
    DeviceIn(n + 1, Number(u) + 1);
  }

  lemma PeerValid(n: nat, c: Text)
    requires c in Line(n).peer
    ensures c in Line(n).owner && Line(n).peer[c] in Line(n).owner && Line(n).peer[c] !in Line(n).peer
  {
    assert c in Line(n).owner;
    hide Line;
    hide Name;
    hide Number;
    hide Kind;
    AllNamed(n, c);
    NamedChannel(n, Kind(c), Number(c));
    NamedChannel(n, Kind(c) + 1, Number(c));
  }

  lemma DevicesValid(n: nat)
    requires n < 255
    ensures Line(n).root in Line(n).devices && |Line(n).devices| <= 255
    ensures forall d :: d in Line(n).devices ==> IsField(d)
  {
    DevicesFit(n + 1);
    DeviceIn(n + 1, 0);
    forall d | d in Devices(n + 1) ensures IsField(d) {
      DeviceIs(n + 1, d);
      NameParts(DEVICE, Number(d));
    }
  }

  lemma LineValid(n: nat)
    requires n < 255
    ensures ValidWorld(Line(n))
  {
    var w := Line(n);
    assert w.owner.Keys == w.protocol.Keys;
    hide Line;
    hide IsField;
    DevicesValid(n);
    forall u | u in w.owner ensures IsField(u) && w.owner[u] in w.devices && IsField(w.protocol[u]) {
      ChannelValid(n, u);
    }
    forall c | c in w.peer ensures c in w.owner && w.peer[c] in w.owner && w.peer[c] !in w.peer { PeerValid(n, c); }
  }

  lemma Ends(n: nat, c: Text)
    requires n < 255 && ValidWorld(Line(n)) && c in Line(n).peer
    ensures 0 <= Number(c) < n
    ensures var upper, lower := Name(DEVICE, Number(c)), Name(DEVICE, Number(c) + 1);
            if Kind(c) == DOWN_CLIENT then Line(n).owner[c] == upper && DestOf(Line(n), c) == lower
            else Kind(c) == UP_CLIENT && Line(n).owner[c] == lower && DestOf(Line(n), c) == upper
  {
    hide Line;
    hide Name;
    hide Number;
    hide Kind;
    AllNamed(n, c);
    NamedChannel(n, Kind(c), Number(c));
    NamedChannel(n, Kind(c) + 1, Number(c));
  }

  lemma LineStep(n: nat, i: nat)
    requires i < n
    ensures Name(DEVICE, i + 1) in LineParent(n) && LineParent(n)[Name(DEVICE, i + 1)] == Name(DEVICE, i)
  {
    NameParts(DEVICE, i + 1);
    DeviceIn(n + 1, i + 1);
    hide Devices;
    hide Name;
    hide Number;
  }

  lemma LineJoined(n: nat, c: Text)
    requires n < 255 && ValidWorld(Line(n)) && c in Line(n).peer
    ensures Joined(LineParent(n), Line(n).owner[c], DestOf(Line(n), c))
  {
    hide Line;
    hide LineParent;
    hide Name;
    hide Number;
    hide Kind;
    Ends(n, c);
    LineStep(n, Number(c));
  }

  lemma LineLinked(n: nat, i: nat)
    requires n < 255 && ValidWorld(Line(n)) && i < n
    ensures Linked(Line(n), Name(DEVICE, i), Name(DEVICE, i + 1))
    ensures Linked(Line(n), Name(DEVICE, i + 1), Name(DEVICE, i))
  {
    hide Line;
    hide Name;
    NamedChannel(n, DOWN_CLIENT, i);
    NamedChannel(n, DOWN_SERVER, i);
    NamedChannel(n, UP_CLIENT, i);
    NamedChannel(n, UP_SERVER, i);
  }

  lemma LineIsTree(n: nat)
    ensures IsTree(Name(DEVICE, 0), Devices(n + 1), LineParent(n), LineDepth(n))
    ensures Name(DEVICE, n) in LineDepth(n) && LineDepth(n)[Name(DEVICE, n)] == n
  {
    var parent, depth := LineParent(n), LineDepth(n);
    NameParts(DEVICE, 0);
    NameParts(DEVICE, n);
    DeviceIn(n + 1, 0);
    DeviceIn(n + 1, n);
    hide Name;
    hide Number;
    forall d | d in Devices(n + 1) ensures 0 <= Number(d) <= n && d == Name(DEVICE, Number(d)) { DeviceIs(n + 1, d); }
    forall d | d in parent ensures parent[d] in depth && depth[d] == depth[parent[d]] + 1 {
      NameParts(DEVICE, Number(d) - 1);
      DeviceIn(n + 1, Number(d) - 1);
    }
  }

  /** The line is a tree world with a channel each way, and its last device is `n` deep. */
  lemma LineTree(n: nat)
    requires n < 255
    ensures ValidWorld(Line(n)) && TreeWorld(Line(n), LineParent(n), LineDepth(n)) && TwoWay(Line(n), LineParent(n))
    ensures Name(DEVICE, n) in LineDepth(n) && LineDepth(n)[Name(DEVICE, n)] == n
  {
    LineValid(n);
    LineIsTree(n);
    var w, parent := Line(n), LineParent(n);
    assert w.root == Name(DEVICE, 0) && w.devices == Devices(n + 1);
    hide Line;
    hide LineParent;
    hide LineDepth;
    hide ValidWorld;
    hide IsTree;
    hide Name;
    hide Number;
    hide Devices;
    hide Joined;
    forall c | c in w.peer ensures Joined(parent, w.owner[c], DestOf(w, c)) { LineJoined(n, c); }
    forall d | d in parent ensures Linked(w, d, parent[d]) && Linked(w, parent[d], d) { LineLinkedUp(n, d); }
  }

  lemma LineLinkedUp(n: nat, d: Text)
    requires n < 255 && ValidWorld(Line(n)) && d in LineParent(n)
    ensures Linked(Line(n), d, LineParent(n)[d]) && Linked(Line(n), LineParent(n)[d], d)
  {
    hide Line;
    hide Name;
    hide Number;
    hide Devices;
    hide ValidWorld;
    assert d in Devices(n + 1) && Number(d) > 0 && LineParent(n)[d] == Name(DEVICE, Number(d) - 1);
    hide LineParent;
    DeviceIs(n + 1, d);
    hide Linked;
    LineLinked(n, Number(d) - 1);
  }

  /** A line comes up, and after one more flood the root has heard of its last device exactly if it is short enough:
      35 devices below the root, of the 254 that are possible. */
  lemma LineHears(n: nat) returns (s: MeshState, es: seq<Event>)
    requires 0 < n < 255
    ensures ValidWorld(Line(n)) && TreeWorld(Line(n), LineParent(n), LineDepth(n)) && IsUp(Line(n), LineParent(n), s)
    ensures Enabled(Line(n), s, Flood) && QuietRun(Line(n), Apply(Line(n), s, Flood), es)
    ensures RootHears(Line(n), Apply(Line(n), s, Flood), es, Name(DEVICE, n)) <==> n <= 35
  {
    hide Line;
    hide LineParent;
    hide LineDepth;
    hide Name;
    hide ValidWorld;
    hide TreeWorld;
    hide Reachable;
    hide EveryWay;
    hide OpenDown;
    hide AllOpen;
    hide Apply;
    hide RootHears;
    LineTree(n);
    LineStep(n, n - 1);
    s := MeshComesUp(Line(n), LineParent(n), LineDepth(n));
    es := FloodQuiets(Line(n), s);
    RootHearsExactly(Line(n), LineParent(n), LineDepth(n), s, es);
  }

  lemma DepthIs(n: nat, i: nat)
    requires i <= n
    ensures Name(DEVICE, i) in LineDepth(n) && LineDepth(n)[Name(DEVICE, i)] == i
  {
    NameParts(DEVICE, i);
    DeviceIn(n + 1, i);
  }

  lemma LastEnds(n: nat)
    requires 0 < n < 255 && ValidWorld(Line(n))
    ensures var up, down := Name(UP_CLIENT, n - 1), Name(DOWN_CLIENT, n - 1);
            && up in Line(n).peer && down in Line(n).peer
            && Line(n).owner[up] == DestOf(Line(n), down) == Name(DEVICE, n)
            && Line(n).owner[down] == DestOf(Line(n), up) == Name(DEVICE, n - 1)
  {
    hide Line;
    hide Name;
    NamedChannel(n, DOWN_CLIENT, n - 1);
    NamedChannel(n, DOWN_SERVER, n - 1);
    NamedChannel(n, UP_CLIENT, n - 1);
    NamedChannel(n, UP_SERVER, n - 1);
  }

  lemma LastNear(n: nat)
    requires 0 < n < 255 && ValidWorld(Line(n))
    ensures Near(Line(n), LineDepth(n), Name(UP_CLIENT, n - 1)) <==> n <= 219
  {
    hide Line;
    hide Name;
    hide LineDepth;
    LastEnds(n);
    DepthIs(n, n);
    DepthIs(n, n - 1);
  }

  lemma LastFaces(n: nat, s: MeshState)
    requires 0 < n < 255 && ValidWorld(Line(n)) && AllOpen(Line(n), s)
    ensures OpenFacing(Line(n), s, Name(UP_CLIENT, n - 1), Name(DOWN_CLIENT, n - 1))
  {
    hide Line;
    hide Name;
    hide Clients;
    LastEnds(n);
  }

  /** A line comes up, every device pings for the root, and when it is quiet the root knows the last link exactly if
      there are at most 219 devices below the root. */
  lemma LineLearns(n: nat) returns (s: MeshState, es: seq<Event>)
    requires 0 < n < 255
    ensures ValidWorld(Line(n)) && TreeWorld(Line(n), LineParent(n), LineDepth(n)) && IsUp(Line(n), LineParent(n), s)
    ensures QuietRun(Line(n), s, es) && forall d :: d in Line(n).devices ==> PingsUp(es, d)
    ensures RootHasLink(Line(n), After(Line(n), s, es), Name(UP_CLIENT, n - 1)) <==> n <= 219
  {
    hide Line;
    hide LineParent;
    hide LineDepth;
    hide Name;
    hide ValidWorld;
    hide TreeWorld;
    hide Reachable;
    hide EveryWay;
    hide OpenDown;
    hide AllOpen;
    hide Apply;
    hide PingsAs;
    hide OpenFacing;
    hide Near;
    hide RootHasLink;
    LineTree(n);
    s := MeshComesUp(Line(n), LineParent(n), LineDepth(n));
    es := PingsQuiet(Line(n), s, true);
    RootLearnsExactly(Line(n), LineParent(n), LineDepth(n), s, es);
    LastFaces(n, s);
    LastNear(n);
  }

  /** Even of plain pings the root overhears links that do not end at it: in a line, that of device 2 to device 1. */
  lemma LineOverhears(n: nat) returns (start: MeshState, es: seq<Event>)
    requires 2 <= n < 255
    ensures ValidWorld(Line(n)) && Init(Line(n), start) && Runs(Line(n), start, es) && Plain(es)
    ensures RootHasLink(Line(n), After(Line(n), start, es), Name(UP_CLIENT, 1))
    ensures Line(n).owner[Name(UP_CLIENT, 1)] == Name(DEVICE, 2)
    ensures DestOf(Line(n), Name(UP_CLIENT, 1)) == Name(DEVICE, 1)
  {
    LineTree(n);
    var w, far := Line(n), Name(UP_CLIENT, 1);
    assert w.root == Name(DEVICE, 0);
    hide Line;
    hide Name;
    NamedChannel(n, UP_CLIENT, 0);
    NamedChannel(n, UP_SERVER, 0);
    NamedChannel(n, UP_CLIENT, 1);
    NamedChannel(n, UP_SERVER, 1);
    var near := Name(UP_CLIENT, 0);
    assert Hearable(w, w.root, far) by {
      assert near in w.peer && w.owner[near] == DestOf(w, far) && DestOf(w, near) == w.root;
    }
    start, es := PlainRun(w);
    hide Plain;
    hide Init;
    hide ValidWorld;
    hide Hearable;
    RunReachable(w, start, es);
    LinkOnRecord(w, After(w, start, es), far);
  }

  /** A mesh opens its channels, every device pings, none for the root, and it is quiet. */
  lemma PlainRun(w: World) returns (start: MeshState, es: seq<Event>)
    requires ValidWorld(w)
    ensures Init(w, start) && Runs(w, start, es) && Plain(es) && w.root in After(w, start, es).nodes
    ensures forall c :: Hearable(w, w.root, c) ==> c in After(w, start, es).nodes[w.root].conn
  {
    hide Inv;
    hide AllOpen;
    hide Hearable;
    hide Pings;
    hide PingsAs;
    hide Apply;
    hide Enabled;
    var first;
    start, first := OpenMesh(w);
    hide Init;
    hide Reachable;
    var s := After(w, start, first);
    var more := PingsQuiet(w, s, false);
    ReachableRun(w, s, more);
    AllDevices(w, After(w, s, more));
    PlainKnowsExactly(w, start, first, more);
    RunsJoin(w, start, first, more);
    es := first + more;
  }

  lemma RunReachable(w: World, start: MeshState, es: seq<Event>)
    requires ValidWorld(w) && Init(w, start) && Runs(w, start, es)
    ensures Reachable(w, After(w, start, es))
  {
    assert Reachable(w, start);
    ReachableRun(w, start, es);
  }

  lemma LinkOnRecord(w: World, s: MeshState, c: Text)
    requires ValidWorld(w) && Reachable(w, s) && w.root in s.nodes && c in s.nodes[w.root].conn
    ensures RootHasLink(w, s, c)
  {
    hide Inv;
    ReachableInv(w, s);
    hide Reachable;
    KnownIsLink(w, s, c);
  }
}
