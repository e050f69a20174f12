/** The few facts about division the rest of the project leans on. */
module Arith {
  type pos = n: nat | n >= 1 witness 1

  lemma {:induction false} Cancel(d: pos, x: int)
    requires d * x < d
    ensures x <= 0
  {
  }

  lemma {:induction false} Less(d: pos, x: int, y: int)
    requires d * x < d * y
    ensures x < y
  {
    assert d * (x - y + 1) == d * x - d * y + d < d;
    Cancel(d, x - y + 1);
  }

  lemma {:induction false} DivMonotone(a: int, b: int, d: pos)
    requires a <= b
    ensures a / d <= b / d
  {
    assert a == d * (a / d) + a % d && b == d * (b / d) + b % d;
    assert d * (a / d - b / d) == d * (a / d) - d * (b / d) < d;
    Cancel(d, a / d - b / d);
  }

  /** The quotient is the only number whose multiple of `d` brackets `a`. */
  lemma {:induction false} DivUnique(a: int, d: pos, q: int)
    requires d * q <= a < d * q + d
    ensures a / d == q
  {
    assert a == d * (a / d) + a % d;
    assert d * (a / d - q) == d * (a / d) - d * q < d;
    assert d * (q - a / d) == d * q - d * (a / d) < d;
    Cancel(d, a / d - q);
    Cancel(d, q - a / d);
  }

  lemma {:induction false} DivBelow(a: int, d: pos, q: int)
    requires a < d * q
    ensures a / d < q
  {
    assert a == d * (a / d) + a % d;
    assert d * (a / d - q + 1) == d * (a / d) - d * q + d < d;
    Cancel(d, a / d - q + 1);
  }

  /** Taking one divisor off the dividend takes one off the quotient. */
  lemma {:induction false} DivStep(a: int, d: pos)
    ensures (a - d) / d == a / d - 1
  {
    assert a == d * (a / d) + a % d;
    assert d * (a / d - 1) == d * (a / d) - d;
    DivUnique(a - d, d, a / d - 1);
  }

  lemma {:induction false} ModAdds(a: nat, b: nat, d: pos)
    ensures (a + b) % d == (a % d + b % d) % d
  {
    var q, r, c := a / d, b / d, a % d + b % d;
    assert a == d * q + a % d && b == d * r + b % d && c == d * (c / d) + c % d;
    assert d * (q + r + c / d) == d * q + d * r + d * (c / d);
    DivUnique(a + b, d, q + r + c / d);
  }

  lemma {:induction false} MulMonotone(a: nat, b: nat, c: nat)
    requires a <= b
    ensures c * a <= c * b
  {
  }

  function Pow2(k: nat): pos { if k == 0 then 1 else 2 * Pow2(k - 1) }

  lemma {:induction false} Pow2Sum(i: nat, j: nat)
    ensures Pow2(i + j) == Pow2(i) * Pow2(j)
  {
    if i > 0 {
      Pow2Sum(i - 1, j);
    }
  }

  lemma Pow2Of16()
    ensures Pow2(16) == 0x1_0000
  {
    assert Pow2(8) == 256;
    Pow2Sum(8, 8);
  }

  lemma Pow2Of32()
    ensures Pow2(32) == 0x1_0000_0000
  {
    Pow2Of16();
    Pow2Sum(16, 16);
  }

  /** The number of values of a 64-bit unsigned integer. */
  const WORD: pos := 0x1_0000_0000_0000_0000
}
