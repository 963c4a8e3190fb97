/** The sweep of RemTopology.go: a range loop that deletes by moving the last entry into the hole. */
module Sweep {
  import opened Lists

  /** What is left of the live slice `s` when the loop has reached index i: an expired entry is overwritten by
      the last one, which the loop then does not look at. */
  function SweepFrom<T(==)>(s: seq<T>, i: nat, dead: set<T>): seq<T>
    decreases if i < |s| then |s| - i else 0
  {
    if i >= |s| then s
    else if s[i] in dead then SweepFrom(SwapRemove(s, i), i + 1, dead)
    else SweepFrom(s, i + 1, dead)
  }

  /** The entries the loop looks at: not the ones it moves behind itself. */
  function Examined<T(==)>(s: seq<T>, i: nat, dead: set<T>): set<T>
    decreases if i < |s| then |s| - i else 0
  {
    if i >= |s| then {}
    else {s[i]} + Examined(if s[i] in dead then SwapRemove(s, i) else s, i + 1, dead)
  }

  function SwapRemove<T>(s: seq<T>, i: nat): seq<T>
    requires i < |s|
  {
    s[i := s[|s| - 1]][..|s| - 1]
  }

  function Count<T(==)>(s: seq<T>, dead: set<T>): nat {
    if s == [] then 0 else (if s[0] in dead then 1 else 0) + Count(s[1..], dead)
  }

  lemma {:induction false} CountJoin<T>(a: seq<T>, b: seq<T>, dead: set<T>)
    ensures Count(a + b, dead) == Count(a, dead) + Count(b, dead)
  {
    if a == [] {
      assert a + b == b;
    } else {
      assert (a + b)[1..] == a[1..] + b;
      CountJoin(a[1..], b, dead);
    }
  }

  lemma CountSplit<T>(s: seq<T>, i: nat, dead: set<T>)
    requires i < |s|
    ensures Count(s[i..], dead) == (if s[i] in dead then 1 else 0) + Count(s[i + 1..], dead)
    ensures Count(s[..i + 1], dead) == Count(s[..i], dead) + (if s[i] in dead then 1 else 0)
    ensures Count(s, dead) == Count(s[..i], dead) + Count(s[i..], dead)
  {
    assert s[i..][1..] == s[i + 1..];
    assert s[..i + 1] == s[..i] + [s[i]];
    CountJoin(s[..i], [s[i]], dead);
    assert s == s[..i] + s[i..];
    CountJoin(s[..i], s[i..], dead);
  }

  lemma SwapRemoveParts<T>(s: seq<T>, i: nat)
    requires i < |s|
    ensures var n := |s| - 1;
            if i == n then SwapRemove(s, i) == s[..i]
            else SwapRemove(s, i) == s[..i] + [s[n]] + s[i + 1..n] && s[i + 1..] == s[i + 1..n] + [s[n]]
  {
  }

  /** Passing index i, at most half of the expired entries still ahead escape. */
  lemma {:induction false} SweepEscapes<T>(s: seq<T>, i: nat, dead: set<T>)
    requires i <= |s|
    ensures Count(SweepFrom(s, i, dead), dead) <= Count(s[..i], dead) + Count(s[i..], dead) / 2
    decreases |s| - i
  {
    if i == |s| {
      assert s[..i] == s;
    } else {
      CountSplit(s, i, dead);
      if s[i] !in dead {
        SweepEscapes(s, i + 1, dead);
      } else {
        var t, n := SwapRemove(s, i), |s| - 1;
        SwapRemoveParts(s, i);
        if i < n {
          assert t[..i] == s[..i] && t[i] == s[n] && t[i + 1..] == s[i + 1..n];
          CountSplit(t, i, dead);
          CountJoin(s[i + 1..n], [s[n]], dead);
          SweepEscapes(t, i + 1, dead);
        }
      }
    }
  }

  /** A sweep leaves at most half of the expired entries. */
  lemma SweepHalves<T>(s: seq<T>, dead: set<T>)
    ensures Count(SweepFrom(s, 0, dead), dead) <= Count(s, dead) / 2
  {
    SweepEscapes(s, 0, dead);
    assert s[0..] == s;
  }

  lemma SwapRemoveBag<T>(s: seq<T>, i: nat)
    requires i < |s|
    ensures multiset(s) == multiset(SwapRemove(s, i)) + multiset{s[i]}
  {
    SwapRemoveParts(s, i);
    var n := |s| - 1;
    if i == n {
      assert s == s[..i] + [s[i]];
    } else {
      assert s == s[..i] + [s[i]] + s[i + 1..n] + [s[n]];
    }
  }

  /** A sweep keeps every unexpired entry as often as it was there, and adds none. */
  lemma {:induction false} SweepKeeps<T>(s: seq<T>, i: nat, dead: set<T>, x: T)
    ensures x !in dead ==> multiset(SweepFrom(s, i, dead))[x] == multiset(s)[x]
    ensures multiset(SweepFrom(s, i, dead))[x] <= multiset(s)[x]
    decreases if i < |s| then |s| - i else 0
  {
    if i < |s| {
      if s[i] in dead {
        SwapRemoveBag(s, i);
        SweepKeeps(SwapRemove(s, i), i + 1, dead, x);
      } else {
        SweepKeeps(s, i + 1, dead, x);
      }
    }
  }

  lemma SweepMembers<T>(s: seq<T>, dead: set<T>, x: T)
    ensures x in SweepFrom(s, 0, dead) ==> x in s
    ensures x in s && x !in dead ==> x in SweepFrom(s, 0, dead)
  {
    SweepKeeps(s, 0, dead, x);
    var t := SweepFrom(s, 0, dead);
    assert x in s <==> multiset(s)[x] > 0;
    assert x in t <==> multiset(t)[x] > 0;
  }

  lemma SweepDistinct<T>(s: seq<T>, dead: set<T>, k: nat, l: nat)
    requires forall i, j :: 0 <= i < j < |s| ==> s[i] != s[j]
    requires k < l < |SweepFrom(s, 0, dead)|
    ensures SweepFrom(s, 0, dead)[k] != SweepFrom(s, 0, dead)[l]
  {
    var t := SweepFrom(s, 0, dead);
    if t[k] == t[l] {
      var x := t[k];
      SweepKeeps(s, 0, dead, x);
      Twofold(t, k, l);
      Once(s, x);
    }
  }

  lemma Twofold<T>(t: seq<T>, k: nat, l: nat)
    requires k < l < |t| && t[k] == t[l]
    ensures multiset(t)[t[k]] >= 2
  {
    assert t == t[..k] + [t[k]] + t[k + 1..l] + [t[l]] + t[l + 1..];
  }

  lemma {:induction false} Once<T>(s: seq<T>, x: T)
    requires forall i, j :: 0 <= i < j < |s| ==> s[i] != s[j]
    ensures multiset(s)[x] <= 1
  {
    if s != [] {
      assert s == s[..|s| - 1] + [s[|s| - 1]];
      Once(s[..|s| - 1], x);
    }
  }

  // ---- When one sweep is enough ----

  /** What the loop has passed it does not touch again. */
  lemma {:induction false} PassedStays<T>(s: seq<T>, i: nat, dead: set<T>)
    requires i <= |s|
    ensures i <= |SweepFrom(s, i, dead)| && SweepFrom(s, i, dead)[..i] == s[..i]
    decreases |s| - i
  {
    if i < |s| {
      var t := if s[i] in dead then SwapRemove(s, i) else s;
      if i < |t| {
        PassedStays(t, i + 1, dead);
        assert SweepFrom(t, i + 1, dead)[..i] == SweepFrom(t, i + 1, dead)[..i + 1][..i];
        assert t[..i] == s[..i];
      }
    }
  }

  lemma {:induction false} CountMembers<T>(s: seq<T>, dead: set<T>, k: nat)
    requires k < |s| && s[k] in dead
    ensures Count(s, dead) > 0
  {
    if k > 0 { CountMembers(s[1..], dead, k - 1); }
  }

  lemma {:induction false} CountAtMost<T>(s: seq<T>, dead: set<T>)
    ensures Count(s, dead) <= |s|
  {
    if s != [] { CountAtMost(s[1..], dead); }
  }

  /** None of the last `d - 1` entries is expired. */
  predicate TailAlive<T(==)>(s: seq<T>, d: nat, dead: set<T>)
    requires d <= |s|
  {
    d == 0 || Count(s[|s| - (d - 1)..], dead) == 0
  }

  /** An expired entry moved behind the loop escapes it. */
  lemma MovedEscapes<T>(s: seq<T>, i: nat, dead: set<T>)
    requires i < |s| - 1 && s[i] in dead && s[|s| - 1] in dead
    ensures Count(SweepFrom(s, i, dead), dead) > 0
  {
    var t := SwapRemove(s, i);
    PassedStays(t, i + 1, dead);
    var r := SweepFrom(t, i + 1, dead);
    assert r[i] == r[..i + 1][i] == t[i] == s[|s| - 1];
    CountMembers(r, dead, i);
  }

  /** Moving an unexpired entry into the hole takes one expired entry out. */
  lemma MovedCounts<T>(s: seq<T>, i: nat, dead: set<T>)
    requires i < |s| - 1 && s[i] in dead && s[|s| - 1] !in dead && Count(s[..i], dead) == 0
    ensures var t := SwapRemove(s, i);
            && Count(t[..i + 1], dead) == 0 && Count(s, dead) == Count(t, dead) + 1
            && Count(t, dead) <= |s| - 2 - i
  {
    var t, n := SwapRemove(s, i), |s| - 1;
    SwapRemoveParts(s, i);
    CountSplit(s, i, dead);
    CountJoin(s[i + 1..n], [s[n]], dead);
    CountAlone(s[n], dead);
    hide Count;
    assert t[..i] == s[..i] && t[i] == s[n] && t[i + 1..] == s[i + 1..n];
    CountSplit(t, i, dead);
    CountAtMost(t[i + 1..], dead);
  }

  lemma CountAlone<T>(x: T, dead: set<T>)
    ensures Count([x], dead) == if x in dead then 1 else 0
  {
    assert [x][1..] == [];
  }

  /** The tail that has to be alive is the same before and after. */
  lemma MovedTail<T>(s: seq<T>, i: nat, dead: set<T>, d: nat)
    requires i < |s| - 1 && s[|s| - 1] !in dead && 0 < d && d - 1 <= |s| - 2 - i
    ensures d - 1 <= |SwapRemove(s, i)| && (TailAlive(SwapRemove(s, i), d - 1, dead) <==> TailAlive(s, d, dead))
  {
    var t, n := SwapRemove(s, i), |s| - 1;
    if d == 1 {
      assert s[|s|..] == [];
    } else {
      var k := n - (d - 2);
      assert s[k..] == s[k..n] + [s[n]] && t[k..] == s[k..n];
      CountJoin(s[k..n], [s[n]], dead);
      CountAlone(s[n], dead);
    }
  }

  lemma {:induction false} SweepClearsFrom<T>(s: seq<T>, i: nat, dead: set<T>)
    requires i <= |s| && Count(s[..i], dead) == 0
    ensures Count(s, dead) <= |s|
    ensures Count(SweepFrom(s, i, dead), dead) == 0 <==> TailAlive(s, Count(s, dead), dead)
    decreases |s| - i
  {
    CountAtMost(s, dead);
    if i == |s| {
      assert s[..i] == s;
    } else {
      CountSplit(s, i, dead);
      var n := |s| - 1;
      if s[i] !in dead {
        SweepClearsFrom(s, i + 1, dead);
      } else if i == n {
        assert SwapRemove(s, i) == s[..i];
        assert s[|s| - 0..] == [];
        assert Count(s[i + 1..], dead) == 0;
      } else if s[n] in dead {
        MovedEscapes(s, i, dead);
        LastTwo(s, i, dead);
      } else {
        MovedCounts(s, i, dead);
        MovedTail(s, i, dead, Count(s, dead));
        SweepClearsFrom(SwapRemove(s, i), i + 1, dead);
      }
    }
  }

  lemma LastTwo<T>(s: seq<T>, i: nat, dead: set<T>)
    requires i < |s| - 1 && s[i] in dead && s[|s| - 1] in dead
    ensures 2 <= Count(s, dead) <= |s| && !TailAlive(s, Count(s, dead), dead)
  {
    var n := |s| - 1;
    CountAtMost(s, dead);
    CountMembers(s[..n], dead, i);
    CountAlone(s[n], dead);
    assert s == s[..n] + [s[n]];
    CountJoin(s[..n], [s[n]], dead);
    hide Count;
    LastInTail(s, Count(s, dead), dead);
  }

  lemma LastInTail<T>(s: seq<T>, d: nat, dead: set<T>)
    requires 2 <= d <= |s| && s[|s| - 1] in dead
    ensures !TailAlive(s, d, dead)
  {
    var tail := s[|s| - (d - 1)..];
    CountMembers(tail, dead, |tail| - 1);
  }

  /** One sweep removes every expired entry if and only if, of d of them, none is among the last d - 1 entries. */
  lemma SweepClears<T>(s: seq<T>, dead: set<T>)
    ensures Count(s, dead) <= |s|
    ensures Count(SweepFrom(s, 0, dead), dead) == 0 <==> TailAlive(s, Count(s, dead), dead)
  {
    SweepClearsFrom(s, 0, dead);
  }

  // ---- What the loop looks at ----

  ghost predicate Distinct<T>(s: seq<T>) {
    forall i, j :: 0 <= i < j < |s| ==> s[i] != s[j]
  }

  /** Entry x is at the same place before and after, at index i or behind it. */
  ghost predicate InPlace<T>(s: seq<T>, r: seq<T>, i: nat, x: T) {
    exists k :: i <= k < |r| && k < |s| && r[k] == x && s[k] == x
  }

  lemma SwapRemoveAt<T>(s: seq<T>, i: nat)
    requires i < |s| && Distinct(s)
    ensures var t := SwapRemove(s, i);
            Distinct(t) && |t| == |s| - 1 && forall k :: 0 <= k < |t| ==> t[k] == if k == i then s[|s| - 1] else s[k]
  {
  }

  lemma {:induction false} ExaminedAhead<T>(s: seq<T>, i: nat, dead: set<T>, x: T)
    requires x in Examined(s, i, dead)
    ensures exists k :: i <= k < |s| && s[k] == x
    decreases if i < |s| then |s| - i else 0
  {
    if x != s[i] {
      var t := if s[i] in dead then SwapRemove(s, i) else s;
      ExaminedAhead(t, i + 1, dead, x);
      var k :| i + 1 <= k < |t| && t[k] == x;
      assert s[k] == x;
    }
  }

  lemma {:induction false} SweepShorter<T>(s: seq<T>, i: nat, dead: set<T>)
    ensures |SweepFrom(s, i, dead)| <= |s|
    decreases if i < |s| then |s| - i else 0
  {
    if i < |s| { SweepShorter(if s[i] in dead then SwapRemove(s, i) else s, i + 1, dead); }
  }

  /** The unexpired entries that the loop looks at are exactly those that it leaves where they were. */
  lemma {:induction false} ExaminedStays<T>(s: seq<T>, i: nat, dead: set<T>, x: T)
    requires Distinct(s)
    ensures x in Examined(s, i, dead) && x !in dead <==> InPlace(s, SweepFrom(s, i, dead), i, x)
    decreases if i < |s| then |s| - i else 0
  {
    SweepShorter(s, i, dead);
    if i < |s| {
      var r := SweepFrom(s, i, dead);
      if s[i] in dead {
        var t := SwapRemove(s, i);
        SwapRemoveAt(s, i);
        ExaminedStays(t, i + 1, dead, x);
        if i < |t| { PassedStays(t, i + 1, dead); assert r[i] == r[..i + 1][i] == t[i]; }
        SweepShorter(t, i + 1, dead);
        MovedInPlace(s, t, r, i, x);
      } else {
        ExaminedStays(s, i + 1, dead, x);
        PassedStays(s, i + 1, dead);
        assert r[i] == r[..i + 1][i] == s[i];
        assert InPlace(s, r, i, x) <==> x == s[i] || InPlace(s, r, i + 1, x);
      }
    }
  }

  lemma MovedInPlace<T>(s: seq<T>, t: seq<T>, r: seq<T>, i: nat, x: T)
    requires i < |s| && Distinct(s) && |t| == |s| - 1 && |r| <= |t| && (i < |r| ==> i < |t| && r[i] == t[i])
    requires forall k :: 0 <= k < |t| ==> t[k] == if k == i then s[|s| - 1] else s[k]
    ensures InPlace(s, r, i, x) <==> InPlace(t, r, i + 1, x)
  {
    if InPlace(s, r, i, x) {
      var k :| i <= k < |r| && k < |s| && r[k] == x && s[k] == x;
      assert k != i;
      assert t[k] == x;
    }
    if InPlace(t, r, i + 1, x) {
      var k :| i + 1 <= k < |r| && k < |t| && r[k] == x && t[k] == x;
      assert s[k] == x;
    }
  }

  /** Of what is left, an entry was looked at, unexpired, exactly if it is where it was; the others were moved. */
  lemma LeftInPlace<T>(s: seq<T>, r: seq<T>, dead: set<T>)
    requires Distinct(s) && r == SweepFrom(s, 0, dead)
    ensures |r| <= |s| && forall k :: 0 <= k < |r| ==> (r[k] in Examined(s, 0, dead) - dead <==> r[k] == s[k])
  {
    SweepShorter(s, 0, dead);
    forall k | 0 <= k < |r| ensures r[k] in Examined(s, 0, dead) - dead <==> r[k] == s[k] {
      ExaminedStays(s, 0, dead, r[k]);
      if InPlace(s, r, 0, r[k]) {
        var j :| 0 <= j < |r| && j < |s| && r[j] == r[k] && s[j] == r[k];
        if j != k { SweepDistinct(s, dead, if j < k then j else k, if j < k then k else j); }
      }
    }
  }

  /** With nothing expired a sweep changes nothing. */
  lemma {:induction false} SweepNothing<T>(s: seq<T>, i: nat, dead: set<T>)
    requires forall x :: x in s ==> x !in dead
    ensures SweepFrom(s, i, dead) == s
    decreases if i < |s| then |s| - i else 0
  {
    if i < |s| {
      assert s[i] in s;
      SweepNothing(s, i + 1, dead);
    }
  }

  /** Two expired entries next to each other at the end: the second one is left. */
  lemma SweepLeavesOne()
    ensures SweepFrom([1, 2], 0, {1, 2}) == [2]
    ensures Count([1, 2], {1, 2}) == 2 && !TailAlive([1, 2], 2, {1, 2})
  {
    var s, dead := [1, 2], {1, 2};
    assert SwapRemove(s, 0) == [2];
    assert s[1..] == [2] && s[1..][1..] == [];
    LastTwo(s, 0, dead);
  }

  function Sweeps<T(==)>(s: seq<T>, k: nat, dead: set<T>): seq<T>
    decreases k
  {
    if k == 0 then s else Sweeps(SweepFrom(s, 0, dead), k - 1, dead)
  }

  /** With the clock standing still, k sweeps leave at most m / 2^k of m expired entries. */
  lemma {:induction false} SweepsVanish<T>(s: seq<T>, k: nat, dead: set<T>)
    ensures Count(Sweeps(s, k, dead), dead) * Pow2(k) <= Count(s, dead)
    decreases k
  {
    if k > 0 {
      var t := SweepFrom(s, 0, dead);
      SweepHalves(s, dead);
      SweepsVanish(t, k - 1, dead);
      var left, p := Count(Sweeps(t, k - 1, dead), dead), Pow2(k - 1);
      assert left * Pow2(k) == 2 * (left * p) by { assert Pow2(k) == 2 * p; Twice(left, p); }
    }
  }

  lemma Twice(a: nat, b: nat)
    ensures a * (2 * b) == 2 * (a * b)
  {
  }
}
