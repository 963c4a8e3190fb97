/** Joining the mesh: each node scans the others' record files, OSI2FileScanner.py, and links once to the nearest
    node that is already connected to the root. */
module Join {
  import opened Doubles
  import opened Mesh
  import opened Texts
  import MeshTree

  type Id = Text

  /** What a node writes about itself. */
  datatype Record = Record(connected: bool, parent: Option<Id>)

  const UNCONNECTED := Record(false, None)
  const ROOT_RECORD := Record(true, None)

  /** length * min(1, scans / 10), as floats give it: the quotient is rounded, and then the product. */
  function Window(length: nat, scans: nat): Double {
    if scans >= 10 then Double(length, 0) else Times(length, Nearest(scans, 10))
  }

  /** Entries are tried while i is not past the window. */
  predicate InWindow(i: nat, length: nat, scans: nat) {
    !Exceeds(i, Window(length, scans))
  }

  /** In the k-th scan, an entry before k tenths of the list is within the window and one behind it is not. An entry
      that is exactly k tenths in may fall on either side. From the tenth scan on the window is the whole list. */
  lemma WindowIsTenths(i: nat, length: nat, scans: nat)
    requires length < 0x1_0000_0000_0000
    ensures scans < 10 && 10 * i < length * scans ==> InWindow(i, length, scans)
    ensures scans < 10 && 10 * i > length * scans ==> !InWindow(i, length, scans)
    ensures scans >= 10 ==> (InWindow(i, length, scans) <==> i <= length)
  {
    if scans < 10 { TenthsPart(i, length, scans); }
  }

  /** Rounding shows: 63 is seven tenths of 90, and past the window of 90 entries at the seventh scan. */
  lemma WindowFallsShort()
    ensures InWindow(62, 90, 7) && !InWindow(63, 90, 7)
  {
    SevenTenths();
    NinetyTimes();
    SomePowers();
  }

  /** The parent a scan picks, trying the listed nodes from index i on. */
  function PickFrom(nodes: map<Id, Record>, dists: seq<Id>, scans: nat, i: nat): Option<Id>
    requires i <= |dists| && forall n :: n in dists ==> n in nodes
    decreases |dists| - i
  {
    if i == |dists| || !InWindow(i, |dists|, scans) then None
    else if !nodes[dists[i]].connected then PickFrom(nodes, dists, scans, i + 1)
    else Some(dists[i])
  }

  function Scanned(nodes: map<Id, Record>, own: Record, dists: seq<Id>, scans: nat): Record
    requires forall n :: n in dists ==> n in nodes
  {
    if own.connected then own
    else
      var pick := PickFrom(nodes, dists, scans, 0);
      if pick.None? then own else Record(true, pick)
  }

  /** The records found: a node's file where there is one, else what the mesh file says. */
  function Merged(mesh: map<Id, Record>, files: map<Id, Record>, paths: seq<Id>): map<Id, Record> {
    if paths == [] then mesh
    else
      var n := paths[|paths| - 1];
      var before := Merged(mesh, files, paths[..|paths| - 1]);
      if n in files then before[n := files[n]] else before
  }

  lemma {:induction false} MergedIs(mesh: map<Id, Record>, files: map<Id, Record>, paths: seq<Id>, n: Id)
    ensures n in Merged(mesh, files, paths) <==> n in mesh || (n in paths && n in files)
    ensures n in Merged(mesh, files, paths) ==>
              Merged(mesh, files, paths)[n] == if n in paths && n in files then files[n] else mesh[n]
  {
    if paths != [] {
      MergedIs(mesh, files, paths[..|paths| - 1], n);
      assert paths == paths[..|paths| - 1] + [paths[|paths| - 1]];
    }
  }

  lemma {:induction false} PicksListed(nodes: map<Id, Record>, dists: seq<Id>, scans: nat, i: nat)
    requires i <= |dists| && forall n :: n in dists ==> n in nodes
    ensures var p := PickFrom(nodes, dists, scans, i);
            p.Some? ==> (exists j :: i <= j < |dists| && dists[j] == p.value) && nodes[p.value].connected
    decreases |dists| - i
  {
    if i < |dists| && InWindow(i, |dists|, scans) && !nodes[dists[i]].connected {
      PicksListed(nodes, dists, scans, i + 1);
    }
  }

  /** Exactly when a scan picks p: p is connected, nothing listed before it is, and it is within the window. */
  lemma {:induction false} PicksFirstConnected(nodes: map<Id, Record>, dists: seq<Id>, scans: nat, i: nat, k: nat)
    requires forall n :: n in dists ==> n in nodes
    requires NoDup(dists) && i <= k < |dists|
    ensures PickFrom(nodes, dists, scans, i) == Some(dists[k]) <==>
            nodes[dists[k]].connected && InWindow(k, |dists|, scans)
            && forall j :: i <= j < k ==> !nodes[dists[j]].connected
    decreases k - i
  {
    if i < k {
      if !InWindow(i, |dists|, scans) {
        ExceedsMore(i, k, Window(|dists|, scans));
      } else if nodes[dists[i]].connected {
        assert dists[i] != dists[k];
      } else {
        PicksFirstConnected(nodes, dists, scans, i + 1, k);
      }
    } else if InWindow(i, |dists|, scans) {
      PicksListed(nodes, dists, scans, i + 1);
    }
  }

  /** Listed in order of distance, the pick is a closest connected node. */
  lemma PicksClosest(nodes: map<Id, Record>, dists: seq<Id>, far: map<Id, real>, scans: nat, n: Id)
    requires NoDup(dists) && forall m :: m in dists ==> m in nodes && m in far
    requires forall i, j :: 0 <= i < j < |dists| ==> far[dists[i]] <= far[dists[j]]
    requires PickFrom(nodes, dists, scans, 0).Some? && n in dists && nodes[n].connected
    ensures PickFrom(nodes, dists, scans, 0).value in dists
    ensures far[PickFrom(nodes, dists, scans, 0).value] <= far[n]
  {
    PicksListed(nodes, dists, scans, 0);
    var p := PickFrom(nodes, dists, scans, 0).value;
    var k :| 0 <= k < |dists| && dists[k] == p;
    var j :| 0 <= j < |dists| && dists[j] == n;
    PicksFirstConnected(nodes, dists, scans, 0, k);
  }

  /** Entry k is the one to join: it is connected, none listed before it is, and it is within the window. */
  ghost predicate FirstInReach(nodes: map<Id, Record>, dists: seq<Id>, scans: nat, k: nat) {
    && k < |dists| && dists[k] in nodes && nodes[dists[k]].connected && InWindow(k, |dists|, scans)
    && forall j :: 0 <= j < k ==> dists[j] in nodes && !nodes[dists[j]].connected
  }

  ghost predicate NoneInReach(nodes: map<Id, Record>, dists: seq<Id>, scans: nat) {
    forall k: nat :: k < |dists| ==> !FirstInReach(nodes, dists, scans, k)
  }

  /** What a scan makes of a node: an unconnected one joins the first connected entry within the window, if there is
      one, and nothing else ever changes. */
  ghost predicate JoinsFirst(nodes: map<Id, Record>, own: Record, dists: seq<Id>, scans: nat, node: Record) {
    if own.connected || NoneInReach(nodes, dists, scans) then node == own
    else forall k: nat :: k < |dists| && FirstInReach(nodes, dists, scans, k) ==> node == Record(true, Some(dists[k]))
  }

  lemma PastWindow(nodes: map<Id, Record>, dists: seq<Id>, scans: nat, i: nat, k: nat)
    requires i <= k && !InWindow(i, |dists|, scans)
    ensures !FirstInReach(nodes, dists, scans, k)
  {
    hide Window;
    ExceedsMore(i, k, Window(|dists|, scans));
  }

  lemma {:induction false} PickIs(nodes: map<Id, Record>, dists: seq<Id>, scans: nat, i: nat)
    requires i <= |dists| && forall n :: n in dists ==> n in nodes
    requires forall j :: 0 <= j < i ==> !nodes[dists[j]].connected
    ensures var pick := PickFrom(nodes, dists, scans, i);
            if pick.None? then NoneInReach(nodes, dists, scans)
            else exists k: nat :: k < |dists| && FirstInReach(nodes, dists, scans, k) && dists[k] == pick.value
    decreases |dists| - i
  {
    hide InWindow;
    if i == |dists| {
    } else if !InWindow(i, |dists|, scans) {
      forall k: nat | i <= k ensures !FirstInReach(nodes, dists, scans, k) { PastWindow(nodes, dists, scans, i, k); }
    } else if nodes[dists[i]].connected {
      assert FirstInReach(nodes, dists, scans, i);
    } else {
      PickIs(nodes, dists, scans, i + 1);
    }
  }

  lemma OneFirst(nodes: map<Id, Record>, dists: seq<Id>, scans: nat, k: nat, l: nat)
    requires FirstInReach(nodes, dists, scans, k) && FirstInReach(nodes, dists, scans, l)
    ensures k == l
  {
    hide InWindow;
  }

  lemma ScansJoinFirst(nodes: map<Id, Record>, own: Record, dists: seq<Id>, scans: nat)
    requires forall n :: n in dists ==> n in nodes
    ensures JoinsFirst(nodes, own, dists, scans, Scanned(nodes, own, dists, scans))
  {
    PickIs(nodes, dists, scans, 0);
    forall k: nat, l: nat | FirstInReach(nodes, dists, scans, k) && FirstInReach(nodes, dists, scans, l)
      ensures k == l
    {
      OneFirst(nodes, dists, scans, k, l);
    }
    hide FirstInReach;
    hide PickFrom;
  }

  /** From the tenth scan on the window is the whole list. */
  lemma {:induction false} TenthPicks(nodes: map<Id, Record>, dists: seq<Id>, scans: nat, i: nat, k: nat)
    requires scans >= 10 && i <= k < |dists| && nodes.Keys >= (set n | n in dists) && nodes[dists[k]].connected
    requires forall n :: n in dists ==> n in nodes
    ensures PickFrom(nodes, dists, scans, i).Some?
    decreases k - i
  {
    if !nodes[dists[i]].connected {
      TenthPicks(nodes, dists, scans, i + 1, k);
    }
  }

  // ---- The scanner of one node ----

  /** A scan is due at every thirtieth count, at an offset the node's number gives. */
  predicate Due(counter: nat, number: int) {
    counter % 30 == number - 8
  }

  /** In any thirty counts a node is due exactly once if its number is 8 to 37, else never; the root has number 0. */
  lemma DueOnce(number: int, from: nat)
    ensures (exists c :: from <= c < from + 30 && Due(c, number)) <==> 8 <= number < 38
    ensures forall b, c :: from <= b < c < from + 30 ==> !(Due(b, number) && Due(c, number))
  {
    if 8 <= number < 38 {
      var offset := (number - 8 - from) % 30;
      var c := from + offset;
      assert c % 30 == (number - 8) % 30 by { assert c == number - 8 - 30 * ((number - 8 - from) / 30); }
      assert Due(c, number);
    }
  }

  class Scanner {
    const deviceId: Id
    var number: int
    var scanCounter: nat
    var connectedToId: Option<Id>
    var connectedToRoot: bool

    constructor (deviceId: Id)
      ensures this.deviceId == deviceId && scanCounter == 0 && !connectedToRoot
    {
      this.deviceId, number, scanCounter, connectedToId, connectedToRoot := deviceId, 0, 0, None, false;
    }

    method Begin(number: int)
      modifies this`number, this`scanCounter
      ensures this.number == number && scanCounter == 0
    {
      this.number := number;
      scanCounter := 0;
    }

    method GetMeshData(mesh: map<Id, Record>, files: map<Id, Record>, paths: seq<Id>) returns (nodes: map<Id, Record>)
      ensures nodes == Merged(mesh, files, paths)
    {
      nodes := mesh;
      for i := 0 to |paths|
        invariant nodes == Merged(mesh, files, paths[..i])
      {
        assert paths[..i + 1][..i] == paths[..i];
        if paths[i] !in files { continue; }
        nodes := nodes[paths[i] := files[paths[i]]];
      }
      assert paths[..|paths|] == paths;
    }

    method ConnectToNode(parentId: Id, parent: Record) returns (node: Record)
      modifies this`connectedToId, this`connectedToRoot
      ensures node == Record(parent.connected, Some(parentId))
      ensures connectedToId == node.parent && connectedToRoot == node.connected
    {
      node := Record(parent.connected, Some(parentId));
      connectedToId := node.parent;
      connectedToRoot := node.connected;
    }

    method ScanClosestRootLink(nodes: map<Id, Record>, own: Record, dists: seq<Id>) returns (node: Record)
      requires forall n :: n in dists ==> n in nodes
      modifies this`connectedToId, this`connectedToRoot
      ensures node == Scanned(nodes, own, dists, scanCounter)
      ensures JoinsFirst(nodes, own, dists, scanCounter, node)
      ensures if node == own then connectedToId == old(connectedToId) && connectedToRoot == old(connectedToRoot)
              else connectedToId == node.parent && connectedToRoot
    {
      node := own;
      ScansJoinFirst(nodes, own, dists, scanCounter);
      if own.connected { return; }
      for i := 0 to |dists|
        invariant node == own
        invariant PickFrom(nodes, dists, scanCounter, i) == PickFrom(nodes, dists, scanCounter, 0)
        invariant connectedToId == old(connectedToId) && connectedToRoot == old(connectedToRoot)
      {
        if Exceeds(i, Window(|dists|, scanCounter)) { break; }
        var tryNode := nodes[dists[i]];
        if tryNode.connected == false { continue; }
        node := ConnectToNode(dists[i], tryNode);
        break;
      }
    }

    /** One update: if it is due and the mesh file is there, count the scan, then look. */
    method UpdateDiscrete(counter: nat, mesh: Option<map<Id, Record>>, files: map<Id, Record>, paths: seq<Id>,
          dists: seq<Id>)
      returns (node: Option<Record>)
      requires deviceId in files
      requires mesh.Some? ==> forall n :: n in dists ==> n in mesh.value
      modifies this`scanCounter, this`connectedToId, this`connectedToRoot
      ensures var scans := counter % 30 == number - 8 && mesh.Some?;
              && scanCounter == old(scanCounter) + (if scans then 1 else 0)
              && (node.Some? <==> scans)
              && (!scans ==> connectedToId == old(connectedToId) && connectedToRoot == old(connectedToRoot))
      ensures node.Some? ==> forall n :: n in dists ==> n in Merged(mesh.value, files, paths)
      ensures node.Some? ==>
                node.value == Scanned(Merged(mesh.value, files, paths), files[deviceId], dists, scanCounter)
                && JoinsFirst(Merged(mesh.value, files, paths), files[deviceId], dists, scanCounter, node.value)
    {
      if counter % 30 == number - 8 {
        if mesh.None? { return None; }
        scanCounter := scanCounter + 1;
        var nodes := GetMeshData(mesh.value, files, paths);
        forall n | n in dists ensures n in nodes { MergedIs(mesh.value, files, paths, n); }
        var found := ScanClosestRootLink(nodes, files[deviceId], dists);
        return Some(found);
      }
      node := None;
    }
  }

  // ---- All nodes together ----

  /** `files[d]` holds every version of d's file, the last one current; the root writes none. */
  datatype State = State(files: map<Id, seq<Record>>, scans: map<Id, nat>)

  /** One scan by `id`: its list of the others in order of distance, and which version of each file it reads. */
  datatype Scan = Scan(id: Id, dists: seq<Id>, seen: map<Id, nat>)

  ghost predicate IsList(root: Id, devices: set<Id>, id: Id, dists: seq<Id>) {
    NoDup(dists) && forall n :: n in dists <==> n in devices && n != id
  }

  ghost predicate Shaped(root: Id, devices: set<Id>, s: State) {
    && root in devices && s.files.Keys == devices - {root} && s.scans.Keys == s.files.Keys
    && forall d :: d in s.files ==> |s.files[d]| > 0
  }

  ghost predicate Enabled(root: Id, devices: set<Id>, s: State, e: Scan) {
    && Shaped(root, devices, s) && e.id in s.files && IsList(root, devices, e.id, e.dists)
    && forall n :: n in e.dists && n != root ==> n in e.seen && e.seen[n] < |s.files[n]|
  }

  function Last(s: seq<Record>): Record
    requires |s| > 0
  {
    s[|s| - 1]
  }

  ghost function ReadNodes(root: Id, devices: set<Id>, s: State, e: Scan): map<Id, Record>
    requires Enabled(root, devices, s, e)
  {
    map n | n in devices && n != e.id :: if n == root then ROOT_RECORD else s.files[n][e.seen[n]]
  }

  ghost function Apply(root: Id, devices: set<Id>, s: State, e: Scan): State
    requires Enabled(root, devices, s, e)
  {
    var scans := s.scans[e.id] + 1;
    var node := Scanned(ReadNodes(root, devices, s, e), Last(s.files[e.id]), e.dists, scans);
    State(s.files[e.id := s.files[e.id] + [node]], s.scans[e.id := scans])
  }

  ghost predicate Runs(root: Id, devices: set<Id>, s: State, es: seq<Scan>)
    decreases |es|
  {
    es == [] || (Enabled(root, devices, s, es[0]) && Runs(root, devices, Apply(root, devices, s, es[0]), es[1..]))
  }

  ghost function After(root: Id, devices: set<Id>, s: State, es: seq<Scan>): State
    requires Runs(root, devices, s, es)
    decreases |es|
  {
    if es == [] then s else After(root, devices, Apply(root, devices, s, es[0]), es[1..])
  }

  ghost predicate Init(root: Id, devices: set<Id>, s: State) {
    && Shaped(root, devices, s)
    && forall d :: d in s.files ==> s.files[d] == [UNCONNECTED] && s.scans[d] == 0
  }

  // ---- The tree ----

  ghost function Connected(root: Id, devices: set<Id>, s: State): set<Id>
    requires Shaped(root, devices, s)
  {
    {root} + set d | d in s.files && Last(s.files[d]).connected
  }

  /** The parent of every connected node. */
  ghost function Parents(root: Id, devices: set<Id>, s: State): map<Id, Id>
    requires Shaped(root, devices, s)
  {
    map d | d in s.files && Last(s.files[d]).connected && Last(s.files[d]).parent.Some? :: Last(s.files[d]).parent.value
  }

  /** Versions of a file: unconnected ones, then one connected record for ever. */
  ghost predicate History(h: seq<Record>) {
    && |h| > 0
    && (forall i :: 0 <= i < |h| ==> (h[i].connected <==> h[i].parent.Some?))
    && forall i, j :: 0 <= i < j < |h| && h[i].connected ==> h[j] == h[i]
  }

  ghost predicate Inv(root: Id, devices: set<Id>, s: State, depth: map<Id, nat>) {
    && Shaped(root, devices, s)
    && Histories(s)
    && (forall d :: d in s.files && s.scans[d] >= 10 ==> Last(s.files[d]).connected)
    && MeshTree.IsTree(root, Connected(root, devices, s), Parents(root, devices, s), depth)
  }

  ghost predicate Histories(s: State) {
    forall d :: d in s.files ==> History(s.files[d])
  }

  /** A node read as connected, in whatever version, is connected now. */
  lemma SeenConnected(root: Id, devices: set<Id>, s: State, e: Scan, n: Id)
    requires Enabled(root, devices, s, e) && Histories(s)
    requires n in e.dists && n in ReadNodes(root, devices, s, e) && ReadNodes(root, devices, s, e)[n].connected
    ensures n in Connected(root, devices, s) && n != e.id
  {
    if n != root {
      var h := s.files[n];
      assert History(h);
      var i := e.seen[n];
      assert i < |h| - 1 ==> h[|h| - 1] == h[i];
    }
  }

  lemma ReadAll(root: Id, devices: set<Id>, s: State, e: Scan)
    requires Enabled(root, devices, s, e)
    ensures forall n :: n in e.dists ==> n in ReadNodes(root, devices, s, e)
    ensures root in e.dists && ReadNodes(root, devices, s, e)[root].connected
  {
  }

  ghost predicate JoinsUnder(root: Id, devices: set<Id>, s: State, id: Id, was: Record, now: Record)
    requires Shaped(root, devices, s)
  {
    && !was.connected && now.connected && now.parent.Some?
    && now.parent.value != id && now.parent.value in Connected(root, devices, s)
  }

  /** A scan leaves the record alone or joins the node under one that is connected already. */
  lemma ScanJoins(root: Id, devices: set<Id>, s: State, e: Scan)
    requires Enabled(root, devices, s, e) && Histories(s)
    ensures forall n :: n in e.dists ==> n in ReadNodes(root, devices, s, e)
    ensures var was := Last(s.files[e.id]);
            var now := Scanned(ReadNodes(root, devices, s, e), was, e.dists, s.scans[e.id] + 1);
            && (now == was || JoinsUnder(root, devices, s, e.id, was, now))
            && (s.scans[e.id] + 1 >= 10 ==> now.connected)
  {
    var nodes := ReadNodes(root, devices, s, e);
    var scans := s.scans[e.id] + 1;
    ReadAll(root, devices, s, e);
    hide ReadNodes;
    hide Histories;
    hide Connected;
    hide IsList;
    PicksListed(nodes, e.dists, scans, 0);
    var pick := PickFrom(nodes, e.dists, scans, 0);
    if pick.Some? {
      SeenConnected(root, devices, s, e, pick.value);
    }
    if scans >= 10 {
      var k :| 0 <= k < |e.dists| && e.dists[k] == root;
      TenthPicks(nodes, e.dists, scans, 0, k);
    }
  }

  /** The tree grows by one leaf, or not at all. */
  lemma TreeGrows(root: Id, devices: set<Id>, s: State, t: State, id: Id, now: Record, depth: map<Id, nat>)
    returns (deeper: map<Id, nat>)
    requires Shaped(root, devices, s) && Shaped(root, devices, t) && id in s.files
    requires MeshTree.IsTree(root, Connected(root, devices, s), Parents(root, devices, s), depth)
    requires t.files == s.files[id := s.files[id] + [now]]
    requires now == Last(s.files[id]) || JoinsUnder(root, devices, s, id, Last(s.files[id]), now)
    ensures MeshTree.IsTree(root, Connected(root, devices, t), Parents(root, devices, t), deeper)
    ensures forall d :: d in depth ==> d in deeper && deeper[d] == depth[d]
  {
    hide Connected;
    hide Parents;
    if now == Last(s.files[id]) {
      deeper := depth;
      SameTree(root, devices, s, t, id, now);
    } else {
      deeper := depth[id := depth[now.parent.value] + 1];
      OneLeaf(root, devices, s, t, id, now);
    }
  }

  lemma SameTree(root: Id, devices: set<Id>, s: State, t: State, id: Id, now: Record)
    requires Shaped(root, devices, s) && Shaped(root, devices, t) && id in s.files && now == Last(s.files[id])
    requires t.files == s.files[id := s.files[id] + [now]]
    ensures Connected(root, devices, t) == Connected(root, devices, s)
    ensures Parents(root, devices, t) == Parents(root, devices, s)
  {
    assert Last(t.files[id]) == now;
    assert forall d :: d in s.files ==> Last(t.files[d]) == Last(s.files[d]);
  }

  lemma OneLeaf(root: Id, devices: set<Id>, s: State, t: State, id: Id, now: Record)
    requires Shaped(root, devices, s) && Shaped(root, devices, t) && id in s.files
    requires JoinsUnder(root, devices, s, id, Last(s.files[id]), now)
    requires t.files == s.files[id := s.files[id] + [now]]
    ensures Connected(root, devices, t) == Connected(root, devices, s) + {id}
    ensures Parents(root, devices, t) == Parents(root, devices, s)[id := now.parent.value]
    ensures id !in Connected(root, devices, s) && now.parent.value in Connected(root, devices, s)
  {
    LastIs(s, t, id, now);
    ConnectedGrows(root, devices, s, t, id, now);
    hide Connected;
    hide Last;
    var ps, pt := Parents(root, devices, s)[id := now.parent.value], Parents(root, devices, t);
    assert forall d :: d in pt <==> d in ps;
    assert forall d :: d in pt ==> pt[d] == ps[d];
    assert pt == ps;
  }

  lemma ConnectedGrows(root: Id, devices: set<Id>, s: State, t: State, id: Id, now: Record)
    requires Shaped(root, devices, s) && Shaped(root, devices, t) && id in s.files && now.connected
    requires !Last(s.files[id]).connected && t.files == s.files[id := s.files[id] + [now]]
    ensures Connected(root, devices, t) == Connected(root, devices, s) + {id} && id !in Connected(root, devices, s)
  {
    LastIs(s, t, id, now);
    hide Last;
    var before, after := Connected(root, devices, s) + {id}, Connected(root, devices, t);
    assert forall d :: d in after <==> d in before;
  }

  lemma LastIs(s: State, t: State, id: Id, now: Record)
    requires id in s.files && (forall d :: d in s.files ==> |s.files[d]| > 0)
    requires t.files == s.files[id := s.files[id] + [now]]
    ensures t.files.Keys == s.files.Keys && forall d :: d in s.files ==> |t.files[d]| > 0
    ensures Last(t.files[id]) == now && forall d :: d in s.files && d != id ==> Last(t.files[d]) == Last(s.files[d])
  {
  }

  lemma HistoryExtends(h: seq<Record>, now: Record)
    requires History(h) && (now == Last(h) || (!Last(h).connected && now.connected && now.parent.Some?))
    ensures History(h + [now])
  {
    var g := h + [now];
    forall i, j | 0 <= i < j < |g| && g[i].connected ensures g[j] == g[i] {
      assert i < |h| - 1 ==> h[|h| - 1] == h[i];
    }
  }

  lemma StepKeeps(root: Id, devices: set<Id>, s: State, e: Scan, depth: map<Id, nat>) returns (deeper: map<Id, nat>)
    requires Inv(root, devices, s, depth) && Enabled(root, devices, s, e)
    ensures Inv(root, devices, Apply(root, devices, s, e), deeper)
    ensures forall d :: d in depth ==> d in deeper && deeper[d] == depth[d]
  {
    hide Connected;
    hide Parents;
    hide ReadNodes;
    hide History;
    hide IsList;
    hide MeshTree.IsTree;
    ScanJoins(root, devices, s, e);
    var t := Apply(root, devices, s, e);
    var now := Last(t.files[e.id]);
    hide Scanned;
    HistoryExtends(s.files[e.id], now);
    deeper := TreeGrows(root, devices, s, t, e.id, now, depth);
  }

  lemma InitTree(root: Id, devices: set<Id>, s: State) returns (depth: map<Id, nat>)
    requires Init(root, devices, s)
    ensures Inv(root, devices, s, depth)
  {
    depth := map[root := 0];
    assert Connected(root, devices, s) == {root};
    assert Parents(root, devices, s) == map[];
  }

  lemma {:induction false} RunKeeps(root: Id, devices: set<Id>, s: State, es: seq<Scan>, depth: map<Id, nat>)
    returns (deeper: map<Id, nat>)
    requires Inv(root, devices, s, depth) && Runs(root, devices, s, es)
    ensures Inv(root, devices, After(root, devices, s, es), deeper)
    ensures forall d :: d in depth ==> d in deeper && deeper[d] == depth[d]
    decreases |es|
  {
    if es == [] {
      deeper := depth;
    } else {
      var next := StepKeeps(root, devices, s, es[0], depth);
      deeper := RunKeeps(root, devices, Apply(root, devices, s, es[0]), es[1..], next);
    }
  }

  /** At every moment of every run, however stale the files read, the connected nodes are a tree under the root. */
  lemma AlwaysTree(root: Id, devices: set<Id>, s: State, es: seq<Scan>) returns (depth: map<Id, nat>)
    requires Init(root, devices, s) && Runs(root, devices, s, es)
    ensures Shaped(root, devices, After(root, devices, s, es))
    ensures var t := After(root, devices, s, es);
            MeshTree.IsTree(root, Connected(root, devices, t), Parents(root, devices, t), depth)
  {
    var start := InitTree(root, devices, s);
    depth := RunKeeps(root, devices, s, es, start);
  }

  lemma {:induction false} HistoryGrows(root: Id, devices: set<Id>, s: State, es: seq<Scan>, d: Id)
    requires Shaped(root, devices, s) && Runs(root, devices, s, es) && d in s.files
    ensures d in After(root, devices, s, es).files && s.files[d] <= After(root, devices, s, es).files[d]
    decreases |es|
  {
    if es != [] {
      HistoryGrows(root, devices, Apply(root, devices, s, es[0]), es[1..], d);
    }
  }

  lemma HistoryOf(root: Id, devices: set<Id>, s: State, depth: map<Id, nat>, d: Id)
    requires Inv(root, devices, s, depth) && d in s.files
    ensures History(s.files[d])
  {
    hide History;
    hide Connected;
    hide Parents;
    hide MeshTree.IsTree;
  }

  lemma RestKeepsParent(root: Id, devices: set<Id>, s: State, es: seq<Scan>, depth: map<Id, nat>, d: Id)
    requires Inv(root, devices, s, depth) && Runs(root, devices, s, es) && d in s.files
    requires |s.files[d]| > 0 && Last(s.files[d]).connected
    ensures var t := After(root, devices, s, es);
            d in t.files && |t.files[d]| > 0 && Last(t.files[d]) == Last(s.files[d])
  {
    hide Connected;
    hide Parents;
    hide MeshTree.IsTree;
    hide Histories;
    hide History;
    hide Apply;
    hide Enabled;
    hide Last;
    var deeper := RunKeeps(root, devices, s, es, depth);
    HistoryGrows(root, devices, s, es, d);
    var t, i := After(root, devices, s, es), |s.files[d]| - 1;
    HistoryOf(root, devices, t, deeper, d);
    hide Inv;
    assert t.files[d][i] == s.files[d][i];
    assert Last(s.files[d]) == s.files[d][i] by { LastIsLast(s.files[d]); }
    SameFromThere(t.files[d], i);
  }

  lemma LastIsLast(h: seq<Record>)
    requires |h| > 0
    ensures Last(h) == h[|h| - 1]
  {
  }

  lemma SameFromThere(h: seq<Record>, i: nat)
    requires History(h) && i < |h| && h[i].connected
    ensures Last(h) == h[i]
  {
  }

  /** Once connected, a node keeps its record, and with it its parent, for ever. */
  lemma ParentForever(root: Id, devices: set<Id>, s: State, es: seq<Scan>, more: seq<Scan>, d: Id)
    requires Init(root, devices, s) && Runs(root, devices, s, es)
    requires Runs(root, devices, After(root, devices, s, es), more)
    requires d in After(root, devices, s, es).files && |After(root, devices, s, es).files[d]| > 0
    requires Last(After(root, devices, s, es).files[d]).connected
    ensures var t := After(root, devices, After(root, devices, s, es), more);
            d in t.files && |t.files[d]| > 0 && Last(t.files[d]) == Last(After(root, devices, s, es).files[d])
  {
    hide Inv;
    var start := InitTree(root, devices, s);
    var depth := RunKeeps(root, devices, s, es, start);
    RestKeepsParent(root, devices, After(root, devices, s, es), more, depth, d);
  }

  // ---- Whom a node joins ----

  /** One scan writes one new version of one file, which is that of a node that joins the first in reach. */
  lemma ApplyJoins(root: Id, devices: set<Id>, s: State, e: Scan)
    requires Enabled(root, devices, s, e)
    ensures var t := Apply(root, devices, s, e);
            && t.files.Keys == s.files.Keys && (forall d :: d in s.files && d != e.id ==> t.files[d] == s.files[d])
            && |t.files[e.id]| == |s.files[e.id]| + 1 && s.files[e.id] <= t.files[e.id]
            && t.scans == s.scans[e.id := s.scans[e.id] + 1]
            && JoinsFirst(ReadNodes(root, devices, s, e), Last(s.files[e.id]), e.dists, t.scans[e.id],
                          Last(t.files[e.id]))
  {
    ReadAll(root, devices, s, e);
    hide ReadNodes;
    hide JoinsFirst;
    ScansJoinFirst(ReadNodes(root, devices, s, e), Last(s.files[e.id]), e.dists, s.scans[e.id] + 1);
    hide Scanned;
  }

  /** In this scan `p` is the nearest of the listed nodes that are read as connected. */
  ghost predicate NearestRead(root: Id, devices: set<Id>, s: State, e: Scan, far: map<Id, map<Id, real>>, p: Id)
    requires Enabled(root, devices, s, e) && Measures(far, e)
  {
    && p in e.dists && p in ReadNodes(root, devices, s, e) && ReadNodes(root, devices, s, e)[p].connected
    && forall n ::
         n in e.dists && n in ReadNodes(root, devices, s, e) && ReadNodes(root, devices, s, e)[n].connected ==>
           far[e.id][p] <= far[e.id][n]
  }

  /** The scan lists the others in order of distance. */
  ghost predicate Measures(far: map<Id, map<Id, real>>, e: Scan) {
    && e.id in far && (forall n :: n in e.dists ==> n in far[e.id])
    && forall i, j :: 0 <= i < j < |e.dists| ==> far[e.id][e.dists[i]] <= far[e.id][e.dists[j]]
  }

  /** Somewhere in the run `d`, unconnected, scans, and `p` is the nearest node it reads as connected. */
  ghost predicate JoinedNearest(root: Id, devices: set<Id>, s: State, es: seq<Scan>, far: map<Id, map<Id, real>>, d: Id,
        p: Id)
    requires Runs(root, devices, s, es) && forall i :: 0 <= i < |es| ==> Measures(far, es[i])
    decreases |es|
  {
    es != []
    && ((es[0].id == d && !Last(s.files[d]).connected && NearestRead(root, devices, s, es[0], far, p))
        || JoinedNearest(root, devices, Apply(root, devices, s, es[0]), es[1..], far, d, p))
  }

  lemma FirstIsNearest(nodes: map<Id, Record>, e: Scan, scans: nat, far: map<Id, map<Id, real>>, k: nat, n: Id)
    requires Measures(far, e) && k < |e.dists| && FirstInReach(nodes, e.dists, scans, k)
    requires n in e.dists && n in nodes && nodes[n].connected
    ensures far[e.id][e.dists[k]] <= far[e.id][n]
  {
    hide InWindow;
    var j :| 0 <= j < |e.dists| && e.dists[j] == n;
    assert j >= k;
  }

  lemma JoinsNearest(root: Id, devices: set<Id>, s: State, e: Scan, far: map<Id, map<Id, real>>)
    requires Enabled(root, devices, s, e) && Measures(far, e) && e.id in s.files && !Last(s.files[e.id]).connected
    requires Last(Apply(root, devices, s, e).files[e.id]).connected
    ensures var node := Last(Apply(root, devices, s, e).files[e.id]);
            node.parent.Some? && NearestRead(root, devices, s, e, far, node.parent.value)
  {
    hide ReadNodes;
    hide Apply;
    hide FirstInReach;
    hide Last;
    var nodes, scans := ReadNodes(root, devices, s, e), s.scans[e.id] + 1;
    ApplyJoins(root, devices, s, e);
    var k: nat :| k < |e.dists| && FirstInReach(nodes, e.dists, scans, k);
    assert e.dists[k] in nodes && nodes[e.dists[k]].connected by { FirstConnects(nodes, e.dists, scans, k); }
    forall n | n in e.dists && n in nodes && nodes[n].connected ensures far[e.id][e.dists[k]] <= far[e.id][n] {
      FirstIsNearest(nodes, e, scans, far, k, n);
    }
  }

  lemma FirstConnects(nodes: map<Id, Record>, dists: seq<Id>, scans: nat, k: nat)
    requires FirstInReach(nodes, dists, scans, k)
    ensures k < |dists| && dists[k] in nodes && nodes[dists[k]].connected
  {
    hide InWindow;
  }

  lemma FilesShaped(root: Id, devices: set<Id>, s: State, depth: map<Id, nat>, d: Id)
    requires Inv(root, devices, s, depth) && d in s.files
    ensures |s.files[d]| > 0
  {
    hide Connected;
    hide Parents;
    hide MeshTree.IsTree;
  }

  lemma OthersKeepFile(root: Id, devices: set<Id>, s: State, e: Scan, d: Id)
    requires Enabled(root, devices, s, e) && d in s.files && d != e.id
    ensures d in Apply(root, devices, s, e).files && Apply(root, devices, s, e).files[d] == s.files[d]
  {
    hide Scanned;
  }

  lemma FilesStay(root: Id, devices: set<Id>, s: State, e: Scan, d: Id)
    requires Enabled(root, devices, s, e) && d in s.files
    ensures d in Apply(root, devices, s, e).files
  {
    hide Scanned;
  }

  /** The parent on file is the nearest node that the child read as connected in the scan in which it joined. */
  lemma {:induction false} NearestParent(root: Id, devices: set<Id>, s: State, es: seq<Scan>, depth: map<Id, nat>,
        far: map<Id, map<Id, real>>, d: Id)
    requires Inv(root, devices, s, depth) && Runs(root, devices, s, es)
    requires forall i :: 0 <= i < |es| ==> Measures(far, es[i])
    requires d in s.files && |s.files[d]| > 0 && !Last(s.files[d]).connected
    requires d in After(root, devices, s, es).files && |After(root, devices, s, es).files[d]| > 0
    requires Last(After(root, devices, s, es).files[d]).connected
    ensures var node := Last(After(root, devices, s, es).files[d]);
            node.parent.Some? && JoinedNearest(root, devices, s, es, far, d, node.parent.value)
    decreases |es|
  {
    hide NearestRead;
    hide Measures;
    hide Apply;
    hide Enabled;
    hide Inv;
    hide Last;
    var t := Apply(root, devices, s, es[0]);
    var next := StepKeeps(root, devices, s, es[0], depth);
    FilesStay(root, devices, s, es[0], d);
    FilesShaped(root, devices, t, next, d);
    assert forall i :: 0 <= i < |es[1..]| ==> es[1..][i] == es[i + 1];
    if es[0].id != d { OthersKeepFile(root, devices, s, es[0], d); }
    if Last(t.files[d]).connected {
      JoinsNearest(root, devices, s, es[0], far);
      RestKeepsParent(root, devices, t, es[1..], next, d);
    } else {
      NearestParent(root, devices, t, es[1..], next, far, d);
    }
  }

  /** From the start: every connected node has as its parent the nearest it read as connected when it joined. */
  lemma ParentsNearest(root: Id, devices: set<Id>, s: State, es: seq<Scan>, far: map<Id, map<Id, real>>, d: Id)
    requires Init(root, devices, s) && Runs(root, devices, s, es)
    requires forall i :: 0 <= i < |es| ==> Measures(far, es[i])
    requires d in After(root, devices, s, es).files && |After(root, devices, s, es).files[d]| > 0
    requires Last(After(root, devices, s, es).files[d]).connected && d in s.files
    ensures var node := Last(After(root, devices, s, es).files[d]);
            node.parent.Some? && JoinedNearest(root, devices, s, es, far, d, node.parent.value)
  {
    assert !Last(s.files[d]).connected;
    var depth := InitTree(root, devices, s);
    hide Inv;
    hide Apply;
    hide Enabled;
    hide Init;
    hide Measures;
    NearestParent(root, devices, s, es, depth, far, d);
  }

  /** A node is connected after at most ten of its own scans, whatever the others do. */
  lemma TenScansConnect(root: Id, devices: set<Id>, s: State, es: seq<Scan>, d: Id)
    requires Init(root, devices, s) && Runs(root, devices, s, es)
    requires d in After(root, devices, s, es).scans && After(root, devices, s, es).scans[d] >= 10
    ensures d in After(root, devices, s, es).files && |After(root, devices, s, es).files[d]| > 0
    ensures Last(After(root, devices, s, es).files[d]).connected
  {
    hide Histories;
    hide Connected;
    hide Parents;
    var start := InitTree(root, devices, s);
    var depth := RunKeeps(root, devices, s, es, start);
  }

  /** When every node has scanned ten times, all of them are the tree. */
  lemma TenScansConnectAll(root: Id, devices: set<Id>, s: State, es: seq<Scan>) returns (depth: map<Id, nat>)
    requires Init(root, devices, s) && Runs(root, devices, s, es)
    requires forall d :: d in After(root, devices, s, es).scans ==> After(root, devices, s, es).scans[d] >= 10
    ensures Shaped(root, devices, After(root, devices, s, es))
    ensures MeshTree.IsTree(root, devices, Parents(root, devices, After(root, devices, s, es)), depth)
  {
    var start := InitTree(root, devices, s);
    depth := RunKeeps(root, devices, s, es, start);
    AllJoined(root, devices, After(root, devices, s, es), depth);
  }

  lemma AllJoined(root: Id, devices: set<Id>, s: State, depth: map<Id, nat>)
    requires Inv(root, devices, s, depth) && forall d :: d in s.scans ==> s.scans[d] >= 10
    ensures Connected(root, devices, s) == devices
  {
    hide Histories;
    hide Parents;
    hide MeshTree.IsTree;
    forall d | d in devices && d != root ensures d in Connected(root, devices, s) {
      assert d in s.files && s.scans[d] >= 10;
    }
  }

  /** And a mesh whose only channels are the ones a join makes, child to parent and back, is the tree world in which
      distances are depths and returned packets reach the root. */
  lemma JoinedWorld(w: World, s: State, es: seq<Scan>) returns (depth: map<Id, nat>)
    requires ValidWorld(w) && Init(w.root, w.devices, s) && Runs(w.root, w.devices, s, es)
    requires forall d :: d in After(w.root, w.devices, s, es).scans ==> After(w.root, w.devices, s, es).scans[d] >= 10
    requires Shaped(w.root, w.devices, After(w.root, w.devices, s, es))
    requires forall c :: c in w.peer ==>
      MeshTree.Joined(Parents(w.root, w.devices, After(w.root, w.devices, s, es)), w.owner[c], DestOf(w, c))
    ensures MeshTree.TreeWorld(w, Parents(w.root, w.devices, After(w.root, w.devices, s, es)), depth)
  {
    depth := TenScansConnectAll(w.root, w.devices, s, es);
  }
}
