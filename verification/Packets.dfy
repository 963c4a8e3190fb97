/** The packet list of RemHeaderTypes.py: seven header cells followed by the message bytes. */
module Packets {
  import opened Texts

  const HEADER_SIZE := 7

  const TO_HERE := 11
  const TO_ROOT := 12
  const TO_PARENT := 13
  const TO_NEIGHBOR := 14
  const TO_NEIGHBOR_TO_ROOT := 15
  const TO_NEIGHBOR_AND_BACK := 16
  const TO_DROP := 17
  const TO_BACK := 18
  const TO_EDGES := 19

  const PRIORITY_MEDIUM := 100

  const MESH_TOPO := 50
  const PING_PONG := 51
  const EXTERNAL := 110

  /** The meaning of a packet list, one field per header entry. */
  datatype Pkt = Pkt(forwarding: int, priority: int, contents: int, meta: int, size: int, hops: int, message: Text)

  function SizeStamp(length: nat): int {
    length % 0x1_0000
  }

  /** `normalize`: stamp the real length, kept to 16 bits. */
  function Normalized(p: Pkt): Pkt {
    p.(size := SizeStamp(HEADER_SIZE + |p.message|))
  }

  function Appended(p: Pkt, extra: Text): Pkt {
    Normalized(p.(message := p.message + extra))
  }

  function NewPkt(message: Text): Pkt {
    Normalized(Pkt(TO_DROP, PRIORITY_MEDIUM, EXTERNAL, 0, 0, 0, message))
  }

  predicate WellFormed(cells: seq<int>) {
    |cells| >= HEADER_SIZE && 0 <= cells[4] < 256 && 0 <= cells[5] < 256
  }

  function Parse(cells: seq<int>): Pkt
    requires WellFormed(cells)
  {
    Pkt(cells[0], cells[1], cells[2], cells[3], cells[4] + 256 * cells[5], cells[6], cells[HEADER_SIZE..])
  }

  function Layout(p: Pkt): seq<int> {
    [p.forwarding, p.priority, p.contents, p.meta, p.size % 256, p.size / 256, p.hops] + p.message
  }

  /** The length on the wire: header and message. */
  ghost predicate StampedTrue(cells: seq<int>) {
    WellFormed(cells) && cells[4] + 256 * cells[5] == |cells| % 0x1_0000
  }

  /** Stamping makes the size the length of the whole list, and changes nothing else. */
  lemma StampIsLength(p: Pkt)
    ensures Normalized(p) == p.(size := |Layout(p)| % 0x1_0000) && StampedTrue(Layout(Normalized(p)))
  {
  }

  /** Comparing two packet lists, as the queue does, is comparing their meanings. */
  lemma LayoutFaithful(p: Pkt, cells: seq<int>)
    requires 0 <= p.size < 0x1_0000 && WellFormed(cells)
    ensures WellFormed(Layout(p)) && Parse(Layout(p)) == p
    ensures Layout(Parse(cells)) == cells
  {
    assert Layout(p)[HEADER_SIZE..] == p.message;
    assert Layout(Parse(cells)) == cells[..HEADER_SIZE] + cells[HEADER_SIZE..];
  }

  lemma StampBytes(length: nat)
    ensures length % 256 + 256 * (length / 256 % 256) == length % 0x1_0000
  {
    var high, low := length / 256, length % 256;
    assert high == 256 * (high / 256) + high % 256;
    RestIs(length, high / 256, 256 * (high % 256) + low);
  }

  lemma RestIs(length: nat, times: nat, rest: nat)
    requires length == 0x1_0000 * times + rest && rest < 0x1_0000
    ensures length % 0x1_0000 == rest
  {
  }

  class Packet {
    var cells: seq<int>

    ghost predicate Valid()
      reads this
    {
      WellFormed(cells)
    }

    function Value(): Pkt
      requires Valid()
      reads this
    {
      Parse(cells)
    }

    /** `new_packet_message` */
    constructor (message: Text)
      ensures Valid() && Value() == NewPkt(message)
      ensures StampedTrue(cells) && cells[..4] == [TO_DROP, PRIORITY_MEDIUM, EXTERNAL, 0] && cells[6..] == [0] + message
    {
      cells := seq(HEADER_SIZE, i => 0) + message;
      new;
      SetForwarding(TO_DROP);
      SetPriority(PRIORITY_MEDIUM);
      SetContents(EXTERNAL);
      Normalize();
    }

    /** The list made on reception by `decode_recv`. */
    constructor Received(wire: seq<int>)
      ensures cells == wire && (WellFormed(wire) ==> Valid())
    {
      cells := wire;
    }

    method SetForwarding(value: int)
      requires Valid()
      modifies this
      ensures Valid() && Value() == old(Value()).(forwarding := value)
      ensures cells == old(cells)[0 := value]
    {
      cells := cells[0 := value];
    }

    method SetPriority(value: int)
      requires Valid()
      modifies this
      ensures Valid() && Value() == old(Value()).(priority := value)
      ensures cells == old(cells)[1 := value]
    {
      cells := cells[1 := value];
    }

    method SetContents(value: int)
      requires Valid()
      modifies this
      ensures Valid() && Value() == old(Value()).(contents := value)
      ensures cells == old(cells)[2 := value]
    {
      cells := cells[2 := value];
    }

    method SetMeta(value: int)
      requires Valid()
      modifies this
      ensures Valid() && Value() == old(Value()).(meta := value)
      ensures cells == old(cells)[3 := value]
    {
      cells := cells[3 := value];
    }

    method AddHop()
      requires Valid()
      modifies this
      ensures Valid() && Value() == old(Value()).(hops := old(Value()).hops + 1)
      ensures cells == old(cells)[6 := old(cells)[6] + 1]
    {
      cells := cells[6 := cells[6] + 1];
    }

    method Normalize()
      requires Valid()
      modifies this
      ensures Valid() && Value() == Normalized(old(Value()))
      ensures StampedTrue(cells) && cells[..4] == old(cells)[..4] && cells[6..] == old(cells)[6..]
    {
      StampBytes(|cells|);
      cells := cells[4 := |cells| % 256][5 := |cells| / 256 % 256];
    }

    /** `packet_append` */
    method Append(extra: Text)
      requires Valid()
      modifies this
      ensures Valid() && Value() == Appended(old(Value()), extra)
      ensures StampedTrue(cells) && cells[..4] == old(cells)[..4] && cells[6..] == old(cells)[6..] + extra
    {
      cells := cells + extra;
      assert cells[HEADER_SIZE..] == old(cells)[HEADER_SIZE..] + extra;
      Normalize();
    }

    method Clone() returns (copy: Packet)
      requires Valid()
      ensures fresh(copy) && copy.Valid() && copy.Value() == Value() && copy.cells == cells
    {
      copy := new Packet.Received(cells);
    }

    /** `encode_send` stamps the size in place and hands out a copy of the list. */
    method EncodeSend() returns (wire: seq<int>)
      requires Valid()
      modifies this
      ensures Valid() && Value() == Normalized(old(Value()))
      ensures WellFormed(wire) && Parse(wire) == Value()
      ensures wire == cells && wire[4] + 256 * wire[5] == |wire| % 0x1_0000
      ensures wire[..4] == old(cells)[..4] && wire[6..] == old(cells)[6..]
    {
      Normalize();
      wire := cells;
    }
  }
}
