/** Sequences: taking one entry out, and adding up weights; powers of two. */
module Lists {
  function Without<T>(s: seq<T>, i: nat): seq<T>
    requires i < |s|
  {
    s[..i] + s[i + 1..]
  }

  lemma WithoutMember<T>(s: seq<T>, i: nat, x: T)
    requires i < |s|
    ensures x in Without(s, i) ==> x in s
    ensures x in s ==> x in Without(s, i) || x == s[i]
  {
    var t := Without(s, i);
    if x in s && x != s[i] {
      var k :| 0 <= k < |s| && s[k] == x;
      assert t[if k < i then k else k - 1] == x;
    }
  }

  ghost function Total<T>(s: seq<T>, weigh: T -> nat): nat {
    if s == [] then 0 else Total(s[..|s| - 1], weigh) + weigh(s[|s| - 1])
  }

  lemma {:induction false} TotalJoin<T>(a: seq<T>, b: seq<T>, weigh: T -> nat)
    ensures Total(a + b, weigh) == Total(a, weigh) + Total(b, weigh)
    decreases |b|
  {
    if b == [] {
      assert a + b == a;
    } else {
      assert (a + b)[..|a + b| - 1] == a + b[..|b| - 1];
      TotalJoin(a, b[..|b| - 1], weigh);
    }
  }

  lemma TotalOne<T>(x: T, weigh: T -> nat)
    ensures Total([x], weigh) == weigh(x)
  {
    assert [x][..0] == [];
  }

  lemma TotalWithout<T>(s: seq<T>, i: nat, weigh: T -> nat)
    requires i < |s|
    ensures Total(Without(s, i), weigh) == Total(s, weigh) - weigh(s[i])
  {
    hide Total;
    assert s == s[..i] + [s[i]] + s[i + 1..];
    TotalJoin(s[..i] + [s[i]], s[i + 1..], weigh);
    TotalJoin(s[..i], [s[i]], weigh);
    TotalJoin(s[..i], s[i + 1..], weigh);
    TotalOne(s[i], weigh);
  }

  lemma {:induction false} TotalBounded<T>(s: seq<T>, weigh: T -> nat, most: nat)
    requires forall i :: 0 <= i < |s| ==> weigh(s[i]) <= most
    ensures Total(s, weigh) <= |s| * most
  {
    if s != [] {
      var k := |s| - 1;
      TotalBounded(s[..k], weigh, most);
      assert (k + 1) * most == k * most + most;
    }
  }

  lemma ProductGrows(a: nat, b: nat, k: nat)
    requires a <= b
    ensures a * k <= b * k
  {
  }

  function Pow2(k: nat): (r: nat)
    ensures r >= 1
  {
    if k == 0 then 1 else 2 * Pow2(k - 1)
  }
}
