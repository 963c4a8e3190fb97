/** Python's floats where their rounding shows: 53 significant bits, nearest value, a tie to the even one. */
module Doubles {
  import opened Lists

  const LEAST := 0x10_0000_0000_0000  // the least significand, 2^52

  /** The value significand / 2^scale. */
  datatype Double = Double(significand: nat, scale: nat)

  /** n / d to the nearest integer, a half to the even one. */
  function Rounded(n: nat, d: nat): nat
    requires d > 0
  {
    var q, rest := n / d, n % d;
    if 2 * rest < d || (2 * rest == d && q % 2 == 0) then q else q + 1
  }

  /** No integer is nearer. */
  lemma RoundedNearest(n: nat, d: nat, k: int)
    requires d > 0
    ensures var r := Rounded(n, d) * d; (if r < n then n - r else r - n) <= if k * d < n then n - k * d else k * d - n
  {
    var q, rest := n / d, n % d;
    assert n == q * d + rest && (q + 1) * d == q * d + d;
    if k <= q { ProductUp(k, q, d); } else { ProductUp(q + 1, k, d); }
  }

  lemma ProductUp(a: int, b: int, d: nat)
    requires a <= b
    ensures a * d <= b * d
  {
  }

  /** How often n / d doubles until its integer part has 53 bits. */
  function Shift(n: nat, d: nat): nat
    requires n > 0 && d > 0
    decreases if n < d * LEAST then d * LEAST - n else 0
  {
    if n >= d * LEAST then 0 else 1 + Shift(2 * n, d)
  }

  /** The double nearest to n / d, for n / d below 2^53 and not subnormal. */
  function Nearest(n: nat, d: nat): Double
    requires d > 0
  {
    if n == 0 then Double(0, 0) else Double(Rounded(n * Pow2(Shift(n, d)), d), Shift(n, d))
  }

  /** The product of an integer and a float. */
  function Times(n: nat, x: Double): Double {
    Nearest(n * x.significand, Pow2(x.scale))
  }

  /** Comparing an integer with a float is exact. */
  predicate Exceeds(i: nat, x: Double) {
    i * Pow2(x.scale) > x.significand
  }

  lemma ExceedsMore(i: nat, k: nat, x: Double)
    requires i <= k && Exceeds(i, x)
    ensures Exceeds(k, x)
  {
    ProductGrows(i, k, Pow2(x.scale));
  }

  lemma {:induction false} ShiftIs(n: nat, d: nat, e: nat)
    requires n > 0 && d > 0 && n * Pow2(e) >= d * LEAST && (e > 0 ==> n * Pow2(e - 1) < d * LEAST)
    ensures Shift(n, d) == e
    decreases e
  {
    if e > 0 {
      assert n * Pow2(e) == (2 * n) * Pow2(e - 1);
      if e > 1 { assert n * Pow2(e - 1) == (2 * n) * Pow2(e - 2); }
      assert n * Pow2(e - 1) >= n;
      ShiftIs(2 * n, d, e - 1);
    }
  }

  lemma {:induction false} PowersJoin(a: nat, b: nat)
    ensures Pow2(a + b) == Pow2(a) * Pow2(b)
    decreases a
  {
    if a > 0 { PowersJoin(a - 1, b); }
  }

  lemma TwentyFour()
    ensures Pow2(24) == 0x100_0000
  {
    assert Pow2(1) == 2 && Pow2(2) == 4 && Pow2(3) == 8;
    hide Pow2;
    PowersJoin(3, 3);
    PowersJoin(6, 6);
    PowersJoin(12, 12);
  }

  lemma SomePowers()
    ensures Pow2(46) == 0x4000_0000_0000 && Pow2(47) == 0x8000_0000_0000
    ensures Pow2(52) == 0x10_0000_0000_0000 && Pow2(53) == 0x20_0000_0000_0000
  {
    assert Pow2(1) == 2 && Pow2(2) == 4 && Pow2(4) == 16;
    hide Pow2;
    TwentyFour();
    PowersJoin(24, 24);
    PowersJoin(46, 2);
    PowersJoin(46, 1);
    PowersJoin(48, 4);
    PowersJoin(52, 1);
  }

  /** 7 / 10 falls short of seven tenths, */
  lemma SevenTenths()
    ensures Nearest(7, 10) == Double(6305039478318694, 53)
  {
    SomePowers();
    ShiftIs(7, 10, 53);
  }

  /** and 90 times it short of 63. */
  lemma NinetyTimes()
    ensures Times(90, Double(6305039478318694, 53)) == Double(8866461766385663, 47)
  {
    SomePowers();
    ShiftIs(90 * 6305039478318694, Pow2(53), 47);
  }

  // ---- How near a rounded product is ----

  lemma RoundedWithin(n: nat, d: nat)
    requires d > 0
    ensures 0 <= 2 * (Rounded(n, d) * d) - 2 * n + d <= 2 * d
  {
    var q, rest := n / d, n % d;
    assert n == q * d + rest && (q + 1) * d == q * d + d;
  }

  lemma {:induction false} ShiftWithin(n: nat, d: nat)
    requires n > 0 && d > 0
    ensures n * Pow2(Shift(n, d)) >= d * LEAST
    decreases if n < d * LEAST then d * LEAST - n else 0
  {
    if n < d * LEAST {
      ShiftWithin(2 * n, d);
      var p := Pow2(Shift(2 * n, d));
      assert n * (2 * p) == 2 * n * p;
    }
  }

  /** The nearest double is off by at most half a unit of its last place. */
  lemma NearestWithin(n: nat, d: nat)
    requires n > 0 && d > 0
    ensures var x := Nearest(n, d); var p := Pow2(x.scale);
            0 <= 2 * (x.significand * d) - 2 * (n * p) + d <= 2 * d && n * p >= d * LEAST
  {
    hide Shift;
    RoundedWithin(n * Pow2(Shift(n, d)), d);
    ShiftWithin(n, d);
  }

  lemma Bigger(a: int, b: int, k: nat)
    requires a <= b
    ensures a * k <= b * k
  {
  }

  lemma Cancel(a: int, b: int, k: nat)
    requires a * k < b * k + k
    ensures a <= b
  {
    if a >= b + 1 { Bigger(b + 1, a, k); }
  }

  lemma Regrouped(a: int, b: int, c: int)
    ensures a * b * c == b * (a * c)
  {
  }

  /** From m1 / p1 near k / 10 to the product with `length`, over the common denominator. */
  lemma ShareLow(length: nat, k: nat, m1: nat, p1: nat, p2: nat)
    requires 10 * m1 >= k * p1 - 5
    ensures 10 * (length * m1 * p2) >= length * k * (p1 * p2) - 5 * (length * p2)
  {
    var e := length * p2;
    Bigger(k * p1 - 5, 10 * m1, e);
    assert 10 * m1 * e == 10 * (m1 * e) && (k * p1 - 5) * e == k * p1 * e - 5 * e;
    Regrouped(length, m1, p2);
    Regrouped(length, k * p1, p2);
    assert length * (k * p1) * p2 == length * k * (p1 * p2);
  }

  lemma ShareHigh(length: nat, k: nat, m1: nat, p1: nat, p2: nat)
    requires 10 * m1 <= k * p1 + 5
    ensures 10 * (length * m1 * p2) <= length * k * (p1 * p2) + 5 * (length * p2)
  {
    var e := length * p2;
    Bigger(10 * m1, k * p1 + 5, e);
    assert 10 * m1 * e == 10 * (m1 * e) && (k * p1 + 5) * e == k * p1 * e + 5 * e;
    Regrouped(length, m1, p2);
    Regrouped(length, k * p1, p2);
    assert length * (k * p1) * p2 == length * k * (p1 * p2);
  }

  lemma EntryLow(i: nat, part: nat, x: nat)
    requires 10 * i + 1 <= part
    ensures 10 * (i * x) <= part * x - x
  {
    Bigger(10 * i, part - 1, x);
    assert 10 * i * x == 10 * (i * x) && (part - 1) * x == part * x - x;
  }

  lemma EntryHigh(i: nat, part: nat, x: nat)
    requires 10 * i >= part + 1
    ensures 10 * (i * x) >= part * x + x
  {
    Bigger(part + 1, 10 * i, x);
    assert 10 * i * x == 10 * (i * x) && (part + 1) * x == part * x + x;
  }

  lemma Multiple(c: nat, length: nat, p1: nat, p2: nat)
    requires c * length <= p1
    ensures c * (length * p2) <= p1 * p2
  {
    Bigger(c * length, p1, p2);
    assert c * length * p2 == c * (length * p2);
  }

  /** Less than k tenths of `length`: not past the rounded product. Here m1 / p1 is nearest to k / 10, and m2 / p2 to
      the product with it. */
  lemma BelowStays(i: nat, length: nat, k: nat, m1: nat, p1: nat, m2: nat, p2: nat)
    requires 10 * m1 >= k * p1 - 5 && 2 * (m2 * p1) - 2 * (length * m1 * p2) + p1 >= 0
    requires 10 * i + 1 <= length * k && 5 * length <= p1 && p1 > 0
    ensures i * p2 <= m2
  {
    ShareLow(length, k, m1, p1, p2);
    EntryLow(i, length * k, p1 * p2);
    Multiple(5, length, p1, p2);
    assert i * (p1 * p2) == i * p2 * p1;
    Cancel(i * p2, m2, p1);
  }

  lemma Over(i: int, m: int, p1: nat, p2: int)
    requires m * p1 < i * (p1 * p2)
    ensures m < i * p2
  {
    assert i * (p1 * p2) == i * p2 * p1;
    if m >= i * p2 { Bigger(i * p2, m, p1); }
  }

  lemma Least(p1: nat, p2: nat)
    requires p2 > 10
    ensures 11 * p1 <= p1 * p2
  {
    Bigger(11, p2, p1);
  }

  /** More than k tenths: past it. */
  lemma AboveExceeds(i: nat, length: nat, k: nat, m1: nat, p1: nat, m2: nat, p2: nat)
    requires 10 * m1 <= k * p1 + 5 && 2 * (m2 * p1) - 2 * (length * m1 * p2) <= p1
    requires 10 * i >= length * k + 1 && 10 * length <= p1 && p1 > 0 && p2 > 10
    ensures i * p2 > m2
  {
    var rounded, exact, unit, error := m2 * p1, length * m1 * p2, p1 * p2, length * p2;
    assert 10 * exact <= length * k * unit + 5 * error by { ShareHigh(length, k, m1, p1, p2); }
    assert 10 * error <= unit by { Multiple(10, length, p1, p2); }
    assert 11 * p1 <= unit by { Least(p1, p2); }
    assert rounded < i * unit by { AboveShare(i, length * k, rounded, exact, error, unit, p1); }
    Over(i, m2, p1, p2);
  }

  lemma AboveShare(i: nat, part: nat, rounded: nat, exact: nat, error: nat, unit: nat, p1: nat)
    requires 10 * exact <= part * unit + 5 * error && 2 * rounded - 2 * exact <= p1
    requires 10 * i >= part + 1 && 10 * error <= unit && 11 * p1 <= unit && p1 > 0
    ensures rounded < i * unit
  {
    EntryHigh(i, part, unit);
  }

  /** k / 10 is rounded to more than 52 bits behind the point. */
  lemma ShareIs(k: nat)
    requires 0 < k < 10
    ensures var m := Nearest(k, 10).significand; var p := Pow2(Nearest(k, 10).scale);
            k * p - 5 <= 10 * m <= k * p + 5 && p > LEAST && 0 < m <= p
  {
    var p := Pow2(Nearest(k, 10).scale);
    NearestWithin(k, 10);
    hide Nearest;
    hide Pow2;
    Bigger(k, 9, p);
    Bigger(1, k, p);
  }

  lemma NoPart(i: nat, length: nat, k: nat)
    requires length * k == 0
    ensures i > 0 ==> Exceeds(i, Times(length, Nearest(k, 10)))
  {
    assert length == 0 || k == 0;
    assert length * Nearest(k, 10).significand == 0;
    assert Pow2(0) == 1;
  }

  /** The rounded product of a length with k tenths parts the integers where the exact one does; only an integer that is
      exactly k tenths of the length can fall on either side. */
  lemma TenthsPart(i: nat, length: nat, k: nat)
    requires k < 10 && length < 0x1_0000_0000_0000
    ensures 10 * i < length * k ==> !Exceeds(i, Times(length, Nearest(k, 10)))
    ensures 10 * i > length * k ==> Exceeds(i, Times(length, Nearest(k, 10)))
  {
    if k == 0 || length == 0 {
      assert length * k == 0;
      NoPart(i, length, k);
    } else {
      var m1, p1 := Nearest(k, 10).significand, Pow2(Nearest(k, 10).scale);
      ShareIs(k);
      Bigger(1, length, m1);
      var x := Nearest(length * m1, p1);
      NearestWithin(length * m1, p1);
      var m2, p2 := x.significand, Pow2(x.scale);
      hide Nearest;
      hide Pow2;
      if 10 * i < length * k { BelowStays(i, length, k, m1, p1, m2, p2); }
      if 10 * i > length * k {
        ScaleLarge(length, m1, p1, p2);
        AboveExceeds(i, length, k, m1, p1, m2, p2);
      }
    }
  }

  lemma ScaleLarge(length: nat, m1: nat, p1: nat, p2: nat)
    requires 0 < length < 0x1_0000_0000_0000 && 0 < m1 <= p1 && length * m1 * p2 >= p1 * LEAST
    ensures p2 > 10
  {
    Bigger(m1, p1, length * p2);
    assert length * m1 * p2 == m1 * (length * p2);
    assert p1 * (length * p2) == length * p2 * p1 && p1 * LEAST == LEAST * p1;
    Cancel(LEAST, length * p2, p1);
    if p2 <= 10 { Bigger(p2, 10, length); }
  }
}
