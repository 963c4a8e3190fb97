/** Packet framing between the C++ nodes and the Go server: the size stamp in the first two bytes, and the
    splitter `onNewBytes` over the slice one read of the socket gives. */
module Framing {
  const HEADER_SIZE := 5

  /** The five header bytes. */
  datatype Header = Header(sizeLow: int, sizeHigh: int, forwarding: int, headerType: int, protobuf: int) {
    function Bytes(): seq<int> {
      [sizeLow, sizeHigh, forwarding, headerType, protobuf]
    }

    /** `get_size` and `PacketSize`; the two operands of the bitwise or share no bit. */
    function Size(): int {
      sizeLow + 256 * sizeHigh
    }
  }

  class RemBasicHeader {
    var sizeLow: int
    var sizeHigh: int
    var forwarding: int
    var headerType: int
    var protobuf: int

    constructor (h: Header)
      ensures Value() == h
    {
      sizeLow, sizeHigh := h.sizeLow, h.sizeHigh;
      forwarding, headerType, protobuf := h.forwarding, h.headerType, h.protobuf;
    }

    function Value(): Header
      reads this
    {
      Header(sizeLow, sizeHigh, forwarding, headerType, protobuf)
    }

    method SetSize(size: int)
      requires 0 <= size < 0x1_0000
      modifies this`sizeLow, this`sizeHigh
      ensures 0 <= sizeLow < 256 && 0 <= sizeHigh < 256
      ensures Value().Size() == size
    {
      sizeLow := size % 256;
      sizeHigh := size / 256 % 256;
    }
  }

  function GetHeader(s: seq<int>): Header
    requires |s| >= HEADER_SIZE
  {
    Header(s[0], s[1], s[2], s[3], s[4])
  }

  ghost predicate IsBytes(s: seq<int>) {
    forall i :: 0 <= i < |s| ==> 0 <= s[i] < 256
  }

  /** A packet whose stamp is its own length. */
  ghost predicate Stamped(p: seq<int>) {
    |p| >= HEADER_SIZE && IsBytes(p) && GetHeader(p).Size() == |p|
  }

  ghost predicate AllStamped(ps: seq<seq<int>>) {
    forall i :: 0 <= i < |ps| ==> Stamped(ps[i])
  }

  function Concat(ps: seq<seq<int>>): seq<int> {
    if ps == [] then [] else ps[0] + Concat(ps[1..])
  }

  /** How one call of the splitter ends: by itself, by `log.Fatal` on a header that is too short, or by a slice
      bound past the buffer. */
  datatype End = Done | Fatal | Panic
  datatype Outcome = Outcome(packets: seq<seq<int>>, end: End)

  /** The loop from `beg` on. The slice has length n but its capacity is the whole buffer, which a chunk may use. */
  function SplitFrom(buffer: seq<int>, n: nat, beg: nat): Outcome
    requires n <= |buffer| && IsBytes(buffer)
    decreases |buffer| - beg
  {
    if beg >= n then Outcome([], Done)
    else if beg + HEADER_SIZE > |buffer| then Outcome([], Panic)
    else
      var size := GetHeader(buffer[beg..beg + HEADER_SIZE]).Size();
      if beg + size > |buffer| then Outcome([], Panic)
      else if size < HEADER_SIZE then Outcome([], Fatal)
      else
        var rest := SplitFrom(buffer, n, beg + size);
        Outcome([buffer[beg..beg + size]] + rest.packets, rest.end)
  }

  function Split(buffer: seq<int>, n: nat): Outcome
    requires n <= |buffer| && IsBytes(buffer)
  {
    if n < HEADER_SIZE then Outcome([], Fatal) else SplitFrom(buffer, n, 0)
  }

  lemma SplitStep(buffer: seq<int>, n: nat, beg: nat)
    requires n <= |buffer| && IsBytes(buffer) && beg < n && beg + HEADER_SIZE <= |buffer|
    ensures var size := GetHeader(buffer[beg..beg + HEADER_SIZE]).Size();
            && size >= 0
            && SplitFrom(buffer, n, beg) ==
               if beg + size > |buffer| then Outcome([], Panic) else if size < HEADER_SIZE then Outcome([], Fatal)
               else Then(buffer[beg..beg + size], SplitFrom(buffer, n, beg + size))
  {
  }

  function Then(p: seq<int>, rest: Outcome): Outcome {
    Outcome([p] + rest.packets, rest.end)
  }

  /** Where the loop stands: `packets` delivered, `beg` reached, and the rest still to come. */
  ghost predicate SoFar(buffer: seq<int>, n: nat, beg: nat, packets: seq<seq<int>>)
    requires n <= |buffer| && IsBytes(buffer)
  {
    Split(buffer, n) == Outcome(packets + SplitFrom(buffer, n, beg).packets, SplitFrom(buffer, n, beg).end)
  }

  lemma LoopStarts(buffer: seq<int>, n: nat)
    requires HEADER_SIZE <= n <= |buffer| && IsBytes(buffer)
    ensures SoFar(buffer, n, 0, [])
  {
    assert [] + SplitFrom(buffer, n, 0).packets == SplitFrom(buffer, n, 0).packets;
  }

  lemma LoopSteps(buffer: seq<int>, n: nat, beg: nat, packets: seq<seq<int>>)
    requires n <= |buffer| && IsBytes(buffer) && SoFar(buffer, n, beg, packets)
    requires beg < n && beg + HEADER_SIZE <= |buffer|
    ensures var size := GetHeader(buffer[beg..beg + HEADER_SIZE]).Size();
            && size >= 0
            && (beg + size > |buffer| ==> Split(buffer, n) == Outcome(packets, Panic))
            && (beg + size <= |buffer| && size < HEADER_SIZE ==> Split(buffer, n) == Outcome(packets, Fatal))
            && (beg + size <= |buffer| && size >= HEADER_SIZE ==>
                  SoFar(buffer, n, beg + size, packets + [buffer[beg..beg + size]]))
  {
    SplitStep(buffer, n, beg);
    hide SplitFrom;
    hide IsBytes;
    var size := GetHeader(buffer[beg..beg + HEADER_SIZE]).Size();
    assert packets + [] == packets;
    if beg + size <= |buffer| && size >= HEADER_SIZE {
      var chunk, rest := buffer[beg..beg + size], SplitFrom(buffer, n, beg + size).packets;
      assert packets + ([chunk] + rest) == packets + [chunk] + rest;
    }
  }

  lemma LoopEnds(buffer: seq<int>, n: nat, beg: nat, packets: seq<seq<int>>)
    requires n <= |buffer| && IsBytes(buffer) && SoFar(buffer, n, beg, packets)
    ensures beg >= n ==> Split(buffer, n) == Outcome(packets, Done)
    ensures beg < n && beg + HEADER_SIZE > |buffer| ==> Split(buffer, n) == Outcome(packets, Panic)
  {
    assert packets + [] == packets;
  }

  /** `onNewBytes`; a delivered chunk is one that passes the header check at the top of `onNewPacket`. */
  method OnNewBytes(buffer: array<int>, n: nat) returns (packets: seq<seq<int>>, end: End)
    requires n <= buffer.Length && IsBytes(buffer[..])
    ensures Outcome(packets, end) == Split(buffer[..], n)
  {
    packets := [];
    if n < HEADER_SIZE { return packets, Fatal; }
    ghost var s := buffer[..];
    LoopStarts(s, n);
    hide IsBytes;
    hide SoFar;
    hide Split;
    var chBeg, chEnd := 0, 0;
    while chEnd < n
      invariant chBeg == chEnd <= buffer.Length && SoFar(s, n, chBeg, packets)
      decreases buffer.Length - chEnd
    {
      LoopEnds(s, n, chBeg, packets);
      if chBeg + HEADER_SIZE > buffer.Length { return packets, Panic; }
      LoopSteps(s, n, chBeg, packets);
      var header := buffer[chBeg..chBeg + HEADER_SIZE];
      assert header == s[chBeg..chBeg + HEADER_SIZE];
      var chunkSize := GetHeader(header).Size();
      chEnd := chBeg + chunkSize;
      if chEnd > buffer.Length { return packets, Panic; }
      if chunkSize < HEADER_SIZE { return packets, Fatal; }
      assert buffer[chBeg..chEnd] == s[chBeg..chEnd];
      packets := packets + [buffer[chBeg..chEnd]];
      chBeg := chEnd;
    }
    LoopEnds(s, n, chBeg, packets);
    return packets, Done;
  }

  lemma ConcatAppend(p: seq<int>, ps: seq<seq<int>>)
    ensures Concat([p] + ps) == p + Concat(ps)
  {
    assert ([p] + ps)[1..] == ps;
  }

  lemma ChunkStamped(buffer: seq<int>, beg: nat)
    requires IsBytes(buffer) && beg + HEADER_SIZE <= |buffer|
    ensures var size := GetHeader(buffer[beg..beg + HEADER_SIZE]).Size();
            size >= HEADER_SIZE && beg + size <= |buffer| ==> Stamped(buffer[beg..beg + size])
  {
    var size := GetHeader(buffer[beg..beg + HEADER_SIZE]).Size();
    if size >= HEADER_SIZE && beg + size <= |buffer| {
      var p := buffer[beg..beg + size];
      assert GetHeader(p) == GetHeader(buffer[beg..beg + HEADER_SIZE]);
    }
  }

  /** Whatever comes in, what is delivered is the start of the buffer cut into stamped packets, and the splitter
      ends by itself exactly when those packets cover the data. */
  lemma {:induction false} DeliversStamped(buffer: seq<int>, n: nat, beg: nat)
    requires n <= |buffer| && IsBytes(buffer) && beg <= |buffer|
    ensures Delivers(buffer, n, beg, SplitFrom(buffer, n, beg))
    decreases |buffer| - beg
  {
    if beg < n && beg + HEADER_SIZE <= |buffer| {
      SplitStep(buffer, n, beg);
      ChunkStamped(buffer, beg);
      hide IsBytes;
      hide Stamped;
      hide SplitFrom;
      var size := GetHeader(buffer[beg..beg + HEADER_SIZE]).Size();
      if beg + size <= |buffer| && size >= HEADER_SIZE {
        DeliversStamped(buffer, n, beg + size);
        OneMore(buffer, n, beg, size, SplitFrom(buffer, n, beg + size));
      }
    }
  }

  ghost predicate Delivers(buffer: seq<int>, n: nat, beg: nat, r: Outcome)
    requires beg <= |buffer|
  {
    AllStamped(r.packets) && Concat(r.packets) <= buffer[beg..] && (r.end.Done? <==> beg + |Concat(r.packets)| >= n)
  }

  lemma OneMore(buffer: seq<int>, n: nat, beg: nat, size: nat, rest: Outcome)
    requires beg + size <= |buffer| && Delivers(buffer, n, beg + size, rest) && Stamped(buffer[beg..beg + size])
    ensures Delivers(buffer, n, beg, Then(buffer[beg..beg + size], rest))
  {
    hide Stamped;
    ConcatAppend(buffer[beg..beg + size], rest.packets);
    assert buffer[beg..] == buffer[beg..beg + size] + buffer[beg + size..];
  }

  /** From a packet boundary, the splitter gives back the packets that start there. */
  lemma {:induction false} SplitsBack(buffer: seq<int>, n: nat, beg: nat, ps: seq<seq<int>>)
    requires n <= |buffer| && IsBytes(buffer) && beg <= n
    requires AllStamped(ps) && Concat(ps) == buffer[beg..n]
    ensures SplitFrom(buffer, n, beg) == Outcome(ps, Done)
    decreases |ps|
  {
    if ps == [] {
      assert |buffer[beg..n]| == 0;
    } else {
      var p := ps[0];
      assert Stamped(p);
      assert p == Concat(ps)[..|p|];
      assert buffer[beg..beg + |p|] == p;
      assert GetHeader(buffer[beg..beg + HEADER_SIZE]) == GetHeader(p);
      assert Concat(ps[1..]) == Concat(ps)[|p|..];
      assert Concat(ps[1..]) == buffer[beg + |p|..n];
      SplitsBack(buffer, n, beg + |p|, ps[1..]);
      assert [p] + ps[1..] == ps;
    }
  }

  /** The framing round trip, and no other input is split cleanly: the splitter ends by itself having delivered
      exactly the bytes it was given, as `ps`, if and only if the bytes are the stamped packets `ps`, one or more. */
  lemma SplitExact(buffer: seq<int>, n: nat, ps: seq<seq<int>>)
    requires n <= |buffer| && IsBytes(buffer)
    ensures (Split(buffer, n) == Outcome(ps, Done) && Concat(ps) == buffer[..n])
            <==> (ps != [] && AllStamped(ps) && Concat(ps) == buffer[..n])
  {
    if ps != [] && AllStamped(ps) && Concat(ps) == buffer[..n] {
      assert |Concat(ps)| >= |ps[0]|;
      assert buffer[0..n] == buffer[..n];
      SplitsBack(buffer, n, 0, ps);
    }
    if Split(buffer, n) == Outcome(ps, Done) {
      DeliversStamped(buffer, n, 0);
    }
  }

  /** So a byte string is the concatenation of stamped packets in at most one way. */
  lemma FramingUnique(ps: seq<seq<int>>, qs: seq<seq<int>>)
    requires AllStamped(ps) && AllStamped(qs) && Concat(ps) == Concat(qs)
    ensures ps == qs
  {
    var data := Concat(ps);
    ConcatBytes(ps);
    assert data[0..|data|] == data;
    SplitsBack(data, |data|, 0, ps);
    SplitsBack(data, |data|, 0, qs);
  }

  lemma {:induction false} ConcatBytes(ps: seq<seq<int>>)
    requires AllStamped(ps)
    ensures IsBytes(Concat(ps))
  {
    if ps != [] {
      assert Stamped(ps[0]);
      ConcatBytes(ps[1..]);
    }
  }

  // ---- The other ends, each at an input ----

  /** A header of zeros announces no bytes at all, and the server stops. */
  lemma ZeroSizeFatal()
    ensures Split([0, 0, 1, 1, 4], 5) == Outcome([], Fatal)
  {
    SplitStep([0, 0, 1, 1, 4], 5, 0);
  }

  /** A size past the buffer panics on the slice bound. */
  lemma LongSizePanics()
    ensures Split([9, 0, 1, 1, 4, 7, 7], 7) == Outcome([], Panic)
  {
    SplitStep([9, 0, 1, 1, 4, 7, 7], 7, 0);
  }

  /** A packet cut short by the read, six bytes of eight, is delivered with what lies behind the data. */
  lemma ShortPacketFilled()
    ensures Split([8, 0, 1, 1, 4, 7, 0, 0, 0], 6) == Outcome([[8, 0, 1, 1, 4, 7, 0, 0]], Done)
  {
    var buffer := [8, 0, 1, 1, 4, 7, 0, 0, 0];
    SplitStep(buffer, 6, 0);
    assert buffer[0..5] == [8, 0, 1, 1, 4] && buffer[0..8] == [8, 0, 1, 1, 4, 7, 0, 0];
    assert SplitFrom(buffer, 6, 8) == Outcome([], Done);
  }

  /** What a sender ends up with: `set_size` on a header, then the body behind it. */
  method Stamp(header: RemBasicHeader, body: seq<int>) returns (packet: seq<int>)
    requires IsBytes(body) && HEADER_SIZE + |body| < 0x1_0000
    requires 0 <= header.forwarding < 256 && 0 <= header.headerType < 256 && 0 <= header.protobuf < 256
    modifies header`sizeLow, header`sizeHigh
    ensures Stamped(packet) && packet[HEADER_SIZE..] == body
    ensures GetHeader(packet) == header.Value()
  {
    header.SetSize(HEADER_SIZE + |body|);
    packet := header.Value().Bytes() + body;
  }
}
