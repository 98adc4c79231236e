// int64 arithmetic as types/validator_set.go performs it: wrap-around,
// truncated division, and the clipping helpers built on top of them.
module Arith {

  const MIN64: int := -0x8000_0000_0000_0000
  const MAX64: int := 0x7fff_ffff_ffff_ffff
  const MODULUS: int := 0x1_0000_0000_0000_0000

  type Int64 = x: int | MIN64 <= x <= MAX64 witness 0

  // The int64 congruent to `x` modulo 2^64.
  function Wrap(x: int): Int64 {
    (x - MIN64) % MODULUS + MIN64
  }

  // Go's division: the quotient is rounded toward zero.
  function TruncDiv(a: int, b: int): int
    requires b != 0
  {
    if a >= 0 then a / b else -((-a) / b)
  }

  function Clamp(x: int): Int64 {
    if x < MIN64 then MIN64 else if x > MAX64 then MAX64 else x
  }

  // Each helper returns the result and whether it overflowed.
  function SafeMul(a: Int64, b: Int64): (Int64, bool) {
    if a == 0 || b == 0 then (0, false)
    else if a == 1 then (b, false)
    else if b == 1 then (a, false)
    else if a == MIN64 || b == MIN64 then (-1, true)
    else
      var c := Wrap(a * b);
      (c, TruncDiv(c, b) != a)
  }

  function SafeAdd(a: Int64, b: Int64): (Int64, bool) {
    if b > 0 && a > MAX64 - b then (-1, true)
    else if b < 0 && a < MIN64 - b then (-1, true)
    else (a + b, false)
  }

  function SafeSub(a: Int64, b: Int64): (Int64, bool) {
    if b > 0 && a < MIN64 + b then (-1, true)
    else if b < 0 && a > MAX64 + b then (-1, true)
    else (a - b, false)
  }

  function SafeMulClip(a: Int64, b: Int64): Int64 {
    var (c, overflow) := SafeMul(a, b);
    if !overflow then c
    else if (a < 0 || b < 0) && !(a < 0 && b < 0) then MIN64 else MAX64
  }

  function SafeAddClip(a: Int64, b: Int64): Int64 {
    var (c, overflow) := SafeAdd(a, b);
    if !overflow then c else if b < 0 then MIN64 else MAX64
  }

  function SafeSubClip(a: Int64, b: Int64): Int64 {
    var (c, overflow) := SafeSub(a, b);
    if !overflow then c else if b > 0 then MIN64 else MAX64
  }

  // Two thirds of a total as the code writes it, `total * 2 / 3`.
  function TwoThirds64(total: Int64): Int64 {
    TruncDiv(Wrap(total * 2), 3)
  }

  // ---- Multiplication: the quotient test `c / b != a` is exact. ----

  lemma WrapIsCongruent(x: int) returns (k: int)
    ensures Wrap(x) == x - k * MODULUS
    ensures k == 0 <==> MIN64 <= x <= MAX64
  {
    k := (x - MIN64) / MODULUS;
    assert (x - MIN64) == k * MODULUS + (x - MIN64) % MODULUS;
  }

  // Adding to a wrapped value wraps to the same as adding first.
  lemma WrapAdd(a: int, b: int)
    ensures Wrap(Wrap(a) + b) == Wrap(a + b)
  {
    var i := WrapIsCongruent(a);
    var j := WrapIsCongruent(Wrap(a) + b);
    var k := WrapIsCongruent(a + b);
    assert Wrap(Wrap(a) + b) - Wrap(a + b) == (k - i - j) * MODULUS;
  }

  // A truncated quotient times its divisor misses the dividend by less than the divisor.
  lemma TruncDivRemainder(a: int, b: int)
    requires b != 0
    ensures var r := a - TruncDiv(a, b) * b; -Abs(b) < r < Abs(b)
  {
    var m := if a >= 0 then a else -a;
    assert m == (m / b) * b + m % b;
    assert a < 0 ==> -(m / b) * b == -((m / b) * b);
  }

  function Abs(x: int): int { if x < 0 then -x else x }

  lemma TruncDivExact(a: int, b: int)
    requires b != 0
    ensures TruncDiv(a * b, b) == a
  {
    TruncDivRemainder(a * b, b);
    var q := TruncDiv(a * b, b);
    assert a * b - q * b == (a - q) * b;
    assert (q - a) * b == -((a - q) * b);
    if a - q >= 1 { MulAtLeast(a - q, b); }
    if a - q <= -1 { MulAtLeast(q - a, b); }
  }

  lemma MulAtLeast(n: int, b: int)
    requires n >= 1
    ensures Abs(n * b) >= Abs(b)
  {
    if b >= 0 {
      assert n * b == b + (n - 1) * b;
      assert (n - 1) * b >= 0;
    } else {
      assert n * b == b + (n - 1) * b;
      assert (n - 1) * b <= 0;
    }
  }

  lemma QuotientTest(a: Int64, b: Int64)
    requires b != 0
    ensures TruncDiv(Wrap(a * b), b) == a <==> MIN64 <= a * b <= MAX64
  {
    var k := WrapIsCongruent(a * b);
    var c := Wrap(a * b);
    if k == 0 {
      TruncDivExact(a, b);
    } else {
      TruncDivRemainder(c, b);
      assert c - a * b == -(k * MODULUS);
      assert Abs(k * MODULUS) >= MODULUS;
    }
  }

  lemma ExtremeProduct(a: Int64, b: Int64)
    requires a == MIN64
    requires b != 0 && b != 1
    ensures b < 0 ==> a * b > MAX64
    ensures b > 0 ==> a * b < MIN64
  {
  }

  lemma ProductSign(a: int, b: int)
    requires a != 0 && b != 0
    ensures a * b < 0 <==> (a < 0) != (b < 0)
  {
    if a > 0 && b > 0 { assert a * b > 0; }
    if a < 0 && b < 0 { assert (-a) * (-b) == a * b; assert (-a) * (-b) > 0; }
    if a > 0 && b < 0 { assert a * (-b) > 0; assert a * (-b) == -(a * b); }
    if a < 0 && b > 0 { assert (-a) * b > 0; assert (-a) * b == -(a * b); }
  }

  // Saturating multiplication is the exact product clamped to the int64 range.
  lemma SafeMulClipIsClamp(a: Int64, b: Int64)
    ensures SafeMulClip(a, b) == Clamp(a * b)
  {
    if a == 0 || b == 0 {
      assert a * b == 0;
    } else if a == 1 || b == 1 {
    } else if a == MIN64 {
      ExtremeProduct(a, b);
    } else if b == MIN64 {
      ExtremeProduct(b, a);
      assert a * b == b * a;
    } else {
      QuotientTest(a, b);
      ProductSign(a, b);
      if MIN64 <= a * b <= MAX64 { var k := WrapIsCongruent(a * b); }
    }
  }

  lemma SafeAddClipIsClamp(a: Int64, b: Int64)
    ensures SafeAddClip(a, b) == Clamp(a + b)
  {
  }

  lemma SafeSubClipIsClamp(a: Int64, b: Int64)
    ensures SafeSubClip(a, b) == Clamp(a - b)
  {
  }

  // The two-thirds threshold is the mathematical one exactly while doubling does not wrap.
  lemma TwoThirdsExact(total: Int64)
    requires 0 <= total
    ensures TwoThirds64(total) == total * 2 / 3 <==> total <= MAX64 / 2
    ensures total > MAX64 / 2 ==> TwoThirds64(total) <= 0
  {
    var k := WrapIsCongruent(total * 2);
    if total > MAX64 / 2 {
      assert 0 <= total * 2 - MIN64 - MODULUS < MODULUS;
      assert Wrap(total * 2) == total * 2 - MODULUS;
    }
  }
}
