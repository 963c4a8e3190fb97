/** Colon-separated text fields, the payload format of topology and ping packets. */
module Texts {
  datatype Option<+T> = None | Some(value: T) {
    function GetOr(default: T): T {
      if Some? then value else default
    }
  }

  /** A text is the list of its bytes; `encode` and `decode` are then the identity. */
  type Text = seq<int>

  const COLON := 58

  ghost predicate IsBytes(t: Text) {
    forall i :: 0 <= i < |t| ==> 0 <= t[i] < 256
  }

  /** A legal device id, channel uuid or protocol name. */
  ghost predicate IsField(t: Text) {
    t != [] && COLON !in t && IsBytes(t)
  }

  ghost predicate AreFields(ts: seq<Text>) {
    forall i :: 0 <= i < |ts| ==> IsField(ts[i])
  }

  ghost predicate NoDup<T>(s: seq<T>) {
    forall i, j :: 0 <= i < j < |s| ==> s[i] != s[j]
  }

  /** `t.split(":")` */
  function Split(t: Text): (parts: seq<Text>)
    ensures |parts| > 0
  {
    if t == [] then [[]]
    else if t[0] == COLON then [[]] + Split(t[1..])
    else var rest := Split(t[1..]); [[t[0]] + rest[0]] + rest[1..]
  }

  /** `t.count(":")` */
  function CountColons(t: Text): nat {
    if t == [] then 0 else (if t[0] == COLON then 1 else 0) + CountColons(t[1..])
  }

  /** `needle in t` */
  predicate Contains(needle: Text, t: Text) {
    exists i | 0 <= i <= |t| - |needle| :: OccursAt(needle, t, i)
  }

  predicate OccursAt(needle: Text, t: Text, i: int) {
    0 <= i <= |t| - |needle| && t[i..i + |needle|] == needle
  }

  /** The parts a `for` loop with `if not part: continue` goes through. */
  function NonEmpty(parts: seq<Text>): seq<Text> {
    if parts == [] then []
    else (if parts[0] == [] then [] else [parts[0]]) + NonEmpty(parts[1..])
  }

  /** The parts that are not empty, in order: each part counts by itself. */
  lemma {:induction false} NonEmptyJoin(a: seq<Text>, b: seq<Text>)
    ensures NonEmpty(a + b) == NonEmpty(a) + NonEmpty(b)
    ensures forall x :: NonEmpty([x]) == if x == [] then [] else [x]
  {
    if a == [] {
      assert a + b == b;
    } else {
      assert (a + b)[1..] == a[1..] + b;
      NonEmptyJoin(a[1..], b);
    }
  }

  /** The substring test holds exactly if the text is something, the needle, and something. */
  lemma ContainsIs(needle: Text, t: Text)
    ensures Contains(needle, t) <==> exists a, b :: t == a + needle + b
  {
    if Contains(needle, t) {
      var i :| 0 <= i <= |t| - |needle| && OccursAt(needle, t, i);
      assert t == t[..i] + needle + t[i + |needle|..];
    }
    if a, b :| t == a + needle + b {
      assert t[|a|..|a| + |needle|] == needle;
      assert OccursAt(needle, t, |a|);
    }
  }

  /** The text `head:f0:f1:...:fn:`, built the way packets grow: field by field at the end. */
  function Encode(head: Text, fields: seq<Text>): Text {
    if fields == [] then head + [COLON]
    else Encode(head, fields[..|fields| - 1]) + fields[|fields| - 1] + [COLON]
  }

  function EncodePath(path: seq<Text>): Text {
    Encode([], path)
  }

  lemma EncodeAppend(head: Text, fields: seq<Text>, f: Text)
    ensures Encode(head, fields + [f]) == Encode(head, fields) + f + [COLON]
  {
    assert (fields + [f])[..|fields|] == fields;
  }

  lemma {:induction false} SplitAtColon(a: Text, b: Text)
    ensures Split(a + [COLON] + b) == Split(a) + Split(b)
  {
    var t := a + [COLON] + b;
    if a == [] {
      assert t[1..] == b;
    } else {
      assert t[1..] == a[1..] + [COLON] + b;
      SplitAtColon(a[1..], b);
    }
  }

  lemma {:induction false} SplitField(f: Text)
    requires COLON !in f
    ensures Split(f) == [f]
  {
    if f != [] {
      SplitField(f[1..]);
      assert [f[0]] + f[1..] == f;
    }
  }

  lemma EncodeEndsInColon(head: Text, fields: seq<Text>) returns (stem: Text)
    ensures Encode(head, fields) == stem + [COLON]
  {
    stem := if fields == [] then head else Encode(head, fields[..|fields| - 1]) + fields[|fields| - 1];
  }

  /** Splitting gives back the head, every field, and one empty part after the last colon. */
  lemma {:induction false} SplitEncode(head: Text, fields: seq<Text>)
    requires COLON !in head && AreFields(fields)
    ensures Split(Encode(head, fields)) == [head] + fields + [[]]
  {
    if fields == [] {
      SplitAtColon(head, []);
      SplitField(head);
      assert head + [COLON] + [] == head + [COLON];
    } else {
      var front, last := fields[..|fields| - 1], fields[|fields| - 1];
      SplitEncode(head, front);
      var stem := EncodeEndsInColon(head, front);
      SplitAtColon(stem, []);
      assert stem + [COLON] + [] == Encode(head, front);
      assert Split(stem) == [head] + front by {
        assert Split(stem) + [[]] == [head] + front + [[]];
        assert Split(stem) == (Split(stem) + [[]])[..|Split(stem)|];
      }
      SplitAtColon(stem, last + [COLON]);
      SplitAtColon(last, []);
      SplitField(last);
      assert last + [COLON] + [] == last + [COLON];
      assert stem + [COLON] + (last + [COLON]) == Encode(head, fields);
      assert front + [last] == fields;
    }
  }

  lemma {:induction false} NonEmptyFields(fields: seq<Text>)
    requires AreFields(fields)
    ensures NonEmpty(fields + [[]]) == fields
  {
    if fields == [] {
    } else {
      assert (fields + [[]])[1..] == fields[1..] + [[]];
      NonEmptyFields(fields[1..]);
    }
  }

  /** Decoding a path packet: split, then drop the empty parts. */
  lemma DecodePath(path: seq<Text>)
    requires AreFields(path)
    ensures NonEmpty(Split(EncodePath(path))) == path
  {
    SplitEncode([], path);
    var parts := Split(EncodePath(path));
    assert parts[1..] == path + [[]];
    NonEmptyFields(path);
  }

  lemma {:induction false} CountSplit(t: Text)
    ensures CountColons(t) == |Split(t)| - 1
  {
    if t != [] {
      CountSplit(t[1..]);
    }
  }

  /** The hop count read off the text, `message.count(":") - 1`, is the path length. */
  lemma CountEncodePath(path: seq<Text>)
    requires AreFields(path)
    ensures CountColons(EncodePath(path)) - 1 == |path|
  {
    CountSplit(EncodePath(path));
    SplitEncode([], path);
  }

  /** An encoding only grows at its end. */
  lemma {:induction false} EncodePrefix(head: Text, front: seq<Text>, back: seq<Text>)
    ensures Encode(head, front) <= Encode(head, front + back)
    decreases |back|
  {
    if back == [] {
      assert front + back == front;
    } else {
      var b := back[..|back| - 1];
      EncodePrefix(head, front, b);
      assert front + back == (front + b) + [back[|back| - 1]];
      EncodeAppend(head, front + b, back[|back| - 1]);
    }
  }

  lemma IdOccurs(path: seq<Text>, k: nat)
    requires k < |path|
    ensures Contains([COLON] + path[k] + [COLON], EncodePath(path))
  {
    var t, needle, front := EncodePath(path), [COLON] + path[k] + [COLON], path[..k];
    var stem := EncodeEndsInColon([], front);
    EncodeAppend([], front, path[k]);
    assert stem + needle == Encode([], front + [path[k]]);
    EncodePrefix([], front + [path[k]], path[k + 1..]);
    assert front + [path[k]] + path[k + 1..] == path;
    assert stem + needle <= t;
    assert t[|stem|..|stem| + |needle|] == (stem + needle)[|stem|..];
    assert OccursAt(needle, t, |stem|);
  }

  lemma OccurrenceIsPart(t: Text, id: Text, i: int)
    requires COLON !in id && OccursAt([COLON] + id + [COLON], t, i)
    ensures id in Split(t)
  {
    var needle := [COLON] + id + [COLON];
    var a, b := t[..i], t[i + |needle|..];
    assert t == a + needle + b;
    assert a + needle + b == a + [COLON] + (id + [COLON] + b);
    SplitAtColon(a, id + [COLON] + b);
    SplitAtColon(id, b);
    SplitField(id);
    assert Split(t)[|Split(a)|] == id;
  }

  /** The substring test `":id:" in message` decides membership of the path, both ways. */
  lemma ContainsId(path: seq<Text>, id: Text)
    requires AreFields(path) && IsField(id)
    ensures Contains([COLON] + id + [COLON], EncodePath(path)) <==> id in path
  {
    var t, needle := EncodePath(path), [COLON] + id + [COLON];
    if id in path {
      var k :| 0 <= k < |path| && path[k] == id;
      IdOccurs(path, k);
    }
    if Contains(needle, t) {
      var i :| 0 <= i <= |t| - |needle| && OccursAt(needle, t, i);
      OccurrenceIsPart(t, id, i);
      SplitEncode([], path);
    }
  }

  lemma {:induction false} EncodeBytes(head: Text, fields: seq<Text>)
    requires IsBytes(head) && AreFields(fields)
    ensures IsBytes(Encode(head, fields))
  {
    if fields != [] {
      EncodeBytes(head, fields[..|fields| - 1]);
    }
  }
}
