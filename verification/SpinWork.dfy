/**
 Case 06: `spinWork`, the dependency chain that has to be performed. Modulo 2^k a multiplier that
 is 1 modulo 4 and an odd increment make the chain run through every value before one repeats, so
 different iteration counts below 2^64 leave different final states.
*/
module SpinWork {
  import opened Arith

  predicate Divides(m: pos, x: int) { x % m == 0 }

  /** x -> (4q + 1) x + (2h + 1) */
  datatype Chain = Chain(q: nat, h: nat) {
    function Next(x: nat): nat { 4 * (q * x) + x + 2 * h + 1 }

    /** n steps modulo m. */
    function After(m: pos, x: nat, n: nat): nat {
      if n == 0 then x else Next(After(m, x, n - 1)) % m
    }

    /** The same without wrap-around. */
    function Exact(x: nat, n: nat): nat {
      if n == 0 then x else Next(Exact(x, n - 1))
    }

    /** 1 + a + ... + a^(n-1) for the multiplier a = 4q + 1. */
    function Geometric(n: nat): nat {
      if n == 0 then 0 else 4 * (q * Geometric(n - 1)) + Geometric(n - 1) + 1
    }
  }

  // ---- Residues ----

  lemma {:induction false} ModUnique(a: nat, d: pos, q: nat, r: nat)
    requires a == d * q + r && r < d
    ensures a % d == r
  {
    DivUnique(a, d, q);
  }

  lemma {:induction false} Lifted(q: nat, m: nat, x: nat, s: nat, r: nat)
    requires x == m * s + r
    ensures 4 * (q * x) + x == m * (4 * (q * s) + s) + (4 * (q * r) + r)
  {
    var t := q * s;
    assert q * (m * s + r) == m * t + q * r;
    assert m * (4 * t + s) == 4 * (m * t) + m * s;
  }

  lemma {:induction false} ModStep(ch: Chain, m: pos, x: nat)
    ensures ch.Next(x % m) % m == ch.Next(x) % m
  {
    var s, r := x / m, x % m;
    Lifted(ch.q, m, x, s, r);
    var lift := 4 * (ch.q * s) + s;
    assert ch.Next(x) == m * lift + ch.Next(r);
    ModShift(m, lift, ch.Next(r));
  }

  lemma {:induction false} ModShift(m: pos, q: nat, r: nat)
    ensures (m * q + r) % m == r % m
  {
    var s := r / m;
    assert m * q + m * s == m * (q + s);
    ModUnique(m * q + r, m, q + s, r % m);
  }

  lemma {:induction false} SameResidue(m: pos, x: nat, delta: nat)
    requires x < m
    ensures (x + delta) % m == x <==> Divides(m, delta)
  {
    var q, r := delta / m, delta % m;
    if x + r < m {
      ModUnique(x + delta, m, q, x + r);
    } else {
      assert m * (q + 1) == m * q + m;
      ModUnique(x + delta, m, q + 1, x + r - m);
    }
  }

  lemma {:induction false} AfterIsExact(ch: Chain, m: pos, x: nat, n: nat)
    requires x < m
    ensures ch.After(m, x, n) == ch.Exact(x, n) % m
  {
    if n > 0 {
      AfterIsExact(ch, m, x, n - 1);
      ModStep(ch, m, ch.Exact(x, n - 1));
    }
  }

  // ---- Distance travelled without wrap-around ----

  lemma {:induction false} DistanceStep(q: nat, c: nat, x: nat, g: nat)
    ensures var odd := 4 * (q * x) + c;
            4 * (q * (x + g * odd)) + (x + g * odd) + c == x + (4 * (q * g) + g + 1) * odd
  {
    var odd := 4 * (q * x) + c;
    assert q * (x + g * odd) == q * x + (q * g) * odd;
    assert (4 * (q * g) + g + 1) * odd == 4 * ((q * g) * odd) + g * odd + odd;
  }

  /** The n-th state lies the geometric sum times an odd number away from the first. */
  lemma {:induction false} ExactDistance(ch: Chain, x: nat, n: nat)
    ensures ch.Exact(x, n) == x + ch.Geometric(n) * (4 * (ch.q * x) + 2 * ch.h + 1)
  {
    if n > 0 {
      ExactDistance(ch, x, n - 1);
      DistanceStep(ch.q, 2 * ch.h + 1, x, ch.Geometric(n - 1));
    }
  }

  lemma {:induction false} SumStep(q: nat, g: nat, s: nat)
    ensures 4 * (q * (g + s + 4 * (q * (g * s)))) + (g + s + 4 * (q * (g * s))) + 1 ==
            (4 * (q * g) + g + 1) + s + 4 * (q * ((4 * (q * g) + g + 1) * s))
  {
    var t := q * (g * s);
    assert q * (g + s + 4 * t) == q * g + q * s + 4 * (q * t);
    assert (4 * (q * g) + g + 1) * s == 4 * t + g * s + s by {
      assert (q * g) * s == t;
      assert (4 * (q * g) + g + 1) * s == 4 * ((q * g) * s) + g * s + s;
    }
    assert q * (4 * t + g * s + s) == 4 * (q * t) + t + q * s;
  }

  lemma {:induction false} GeometricSum(ch: Chain, m: nat, n: nat)
    ensures ch.Geometric(m + n) ==
            ch.Geometric(m) + ch.Geometric(n) + 4 * (ch.q * (ch.Geometric(m) * ch.Geometric(n)))
  {
    if m > 0 {
      GeometricSum(ch, m - 1, n);
      SumStep(ch.q, ch.Geometric(m - 1), ch.Geometric(n));
      assert m + n - 1 == m - 1 + n;
    }
  }

  // ---- Factors of two ----

  /** x has at least k factors of two. */
  predicate Twos(k: nat, x: nat) {
    k == 0 || (x % 2 == 0 && Twos(k - 1, x / 2))
  }

  lemma {:induction false} GeometricNext(ch: Chain, n: nat) returns (t: nat)
    requires n > 0
    ensures ch.Geometric(n) == 4 * t + ch.Geometric(n - 1) + 1
  {
    t := ch.q * ch.Geometric(n - 1);
  }

  lemma {:induction false} ParityStep(w: nat, t: nat, g: nat, n: nat)
    requires n > 0 && w == 4 * t + g + 1 && g % 2 == (n - 1) % 2
    ensures w % 2 == n % 2
  {
    if g % 2 == 0 {
      ModUnique(w, 2, 2 * t + g / 2, 1);
      ModUnique(n, 2, (n - 1) / 2, 1);
    } else {
      ModUnique(w, 2, 2 * t + g / 2 + 1, 0);
      ModUnique(n, 2, (n - 1) / 2 + 1, 0);
    }
  }

  lemma {:induction false} GeometricParity(ch: Chain, n: nat)
    ensures ch.Geometric(n) % 2 == n % 2
  {
    if n > 0 {
      GeometricParity(ch, n - 1);
      var t := GeometricNext(ch, n);
      ParityStep(ch.Geometric(n), t, ch.Geometric(n - 1), n);
    }
  }

  lemma {:induction false} Expand(x: nat, o: nat)
    ensures x * (2 * o + 1) == 2 * (x * o) + x
  {
  }

  lemma {:induction false} Halve(w: nat, p: nat, x: nat)
    requires w == 2 * p + x
    ensures w % 2 == x % 2
    ensures x % 2 == 0 ==> w / 2 == p + x / 2
  {
  }

  lemma {:induction false} TimesOdd(x: nat, o: nat)
    ensures (x * (2 * o + 1)) % 2 == x % 2
    ensures x % 2 == 0 ==> (x * (2 * o + 1)) / 2 == (x / 2) * (2 * o + 1)
  {
    Expand(x, o);
    Halve(x * (2 * o + 1), x * o, x);
    if x % 2 == 0 {
      var y := x / 2;
      assert x * o == 2 * (y * o) by { assert x == 2 * y; }
      Expand(y, o);
    }
  }

  /** An odd factor adds no factor of two. */
  lemma {:induction false} OddFactor(k: nat, x: nat, o: nat)
    ensures Twos(k, x * (2 * o + 1)) <==> Twos(k, x)
  {
    if k > 0 {
      TimesOdd(x, o);
      if x % 2 == 0 {
        OddFactor(k - 1, x / 2, o);
      }
    }
  }

  /** Twice the terms: twice the sum, times an odd number. */
  lemma {:induction false} GeometricDoubles(ch: Chain, n: nat) returns (o: nat)
    ensures ch.Geometric(2 * n) == 2 * (ch.Geometric(n) * (2 * o + 1))
  {
    GeometricSum(ch, n, n);
    o := ch.q * ch.Geometric(n);
    DoubleStep(ch.q, ch.Geometric(n));
  }

  lemma {:induction false} DoubleStep(q: nat, g: nat)
    ensures g + g + 4 * (q * (g * g)) == 2 * (g * (2 * (q * g) + 1))
  {
    var t := q * g;
    assert q * (g * g) == g * t;
    assert g * (2 * t + 1) == 2 * (g * t) + g;
  }

  /** 1 + a + ... + a^(n-1) has exactly as many factors of two as n. */
  lemma {:induction false} GeometricTwos(ch: Chain, k: nat, n: nat)
    ensures Twos(k, ch.Geometric(n)) <==> Twos(k, n)
  {
    if k > 0 {
      GeometricParity(ch, n);
      if n % 2 == 0 {
        var o := GeometricDoubles(ch, n / 2);
        GeometricTwos(ch, k - 1, n / 2);
        OddFactor(k - 1, ch.Geometric(n / 2), o);
      }
    }
  }

  lemma {:induction false} DoubleMod(m: pos, x: nat)
    ensures (2 * x) % (2 * m) == 2 * (x % m)
  {
    assert (2 * m) * (x / m) == 2 * (m * (x / m));
    ModUnique(2 * x, 2 * m, x / m, 2 * (x % m));
  }

  lemma {:induction false} OddMod(m: pos, x: nat)
    requires x % 2 == 1
    ensures x % (2 * m) != 0
  {
    var q, r := x / (2 * m), x % (2 * m);
    assert x == (2 * m) * q + r == 2 * (m * q) + r;
    assert r % 2 == 1;
  }

  lemma {:induction false} TwosDivide(k: nat, x: nat)
    ensures Twos(k, x) <==> Divides(Pow2(k), x)
  {
    if k > 0 {
      if x % 2 == 0 {
        TwosDivide(k - 1, x / 2);
        DoubleMod(Pow2(k - 1), x / 2);
      } else {
        OddMod(Pow2(k - 1), x);
      }
    }
  }

  // ---- Full period ----

  /** An odd multiple of the geometric sum has as many factors of two as n. */
  lemma {:induction false} OddMultiple(ch: Chain, k: nat, n: nat, o: nat)
    ensures Divides(Pow2(k), ch.Geometric(n) * (2 * o + 1)) <==> Divides(Pow2(k), n)
  {
    OddFactor(k, ch.Geometric(n), o);
    GeometricTwos(ch, k, n);
    TwosDivide(k, n);
    TwosDivide(k, ch.Geometric(n) * (2 * o + 1));
  }

  lemma {:induction false} Travelled(ch: Chain, k: nat, x: nat, n: nat) returns (delta: nat)
    ensures ch.Exact(x, n) == x + delta
    ensures Divides(Pow2(k), delta) <==> Divides(Pow2(k), n)
  {
    var o := 2 * (ch.q * x) + ch.h;
    assert 2 * o + 1 == 4 * (ch.q * x) + 2 * ch.h + 1;
    delta := ch.Geometric(n) * (2 * o + 1);
    ExactDistance(ch, x, n);
    OddMultiple(ch, k, n, o);
  }

  /** A state comes back after exactly the multiples of the modulus. */
  lemma {:induction false} ReturnsAfterPeriod(ch: Chain, k: nat, x: nat, n: nat)
    requires x < Pow2(k)
    ensures ch.After(Pow2(k), x, n) == x <==> Divides(Pow2(k), n)
  {
    var delta := Travelled(ch, k, x, n);
    AfterIsExact(ch, Pow2(k), x, n);
    SameResidue(Pow2(k), x, delta);
  }

  lemma {:induction false} AfterSplits(ch: Chain, m: pos, x: nat, i: nat, d: nat)
    requires x < m
    ensures ch.After(m, x, i + d) == ch.After(m, ch.After(m, x, i), d)
    ensures ch.After(m, x, i) < m
  {
    if d > 0 {
      AfterSplits(ch, m, x, i, d - 1);
    }
  }

  /** Two states of one chain are equal exactly when their positions differ by a multiple of the
      modulus: no state repeats within 2^k steps, and the chain closes after 2^k. */
  lemma {:induction false} FullPeriod(ch: Chain, k: nat, x: nat, i: nat, j: nat)
    requires x < Pow2(k) && i <= j
    ensures ch.After(Pow2(k), x, i) == ch.After(Pow2(k), x, j) <==> Divides(Pow2(k), j - i)
  {
    AfterSplits(ch, Pow2(k), x, i, j - i);
    ReturnsAfterPeriod(ch, k, ch.After(Pow2(k), x, i), j - i);
  }

  // ---- The program's constants and its loop ----

  type uint64 = x: nat | x < WORD

  const MULTIPLIER: nat := 6364136223846793005
  const INCREMENT: nat := 1442695040888963407

  function Spin(): Chain { Chain(1591034055961698251, 721347520444481703) }

  lemma {:induction false} SpinIsTheChain(x: nat)
    ensures Spin().Next(x) == x * MULTIPLIER + INCREMENT
  {
  }

  lemma WordIsPow2()
    ensures Pow2(64) == WORD
  {
    Pow2Of32();
    Pow2Sum(32, 32);
  }

  /** `sink | 1` */
  function Seed(sink: uint64): (seed: uint64)
    ensures seed % 2 == 1 && seed / 2 == sink / 2
  {
    if sink % 2 == 0 then sink + 1 else sink
  }

  method SpinWorkLoop(sink: uint64, iterations: uint64) returns (sink': uint64)
    ensures sink' == Spin().After(WORD, Seed(sink), iterations)
  {
    var state: uint64 := Seed(sink);
    var i := 0;
    while i < iterations
      invariant 0 <= i <= iterations
      invariant state == Spin().After(WORD, Seed(sink), i)
    {
      SpinIsTheChain(state);
      state := (state * MULTIPLIER + INCREMENT) % WORD;
      i := i + 1;
    }
    sink' := state;
  }

  /** The first states of the first call, whose sink is 0. */
  lemma FirstStates()
    ensures Spin().After(WORD, Seed(0), 0) == 1
    ensures Spin().After(WORD, Seed(0), 1) == 7806831264735756412
    ensures Spin().After(WORD, Seed(0), 2) == 9396908728118811419
  {
    var ch := Spin();
    SpinIsTheChain(1);
    SpinIsTheChain(7806831264735756412);
    assert ch.After(WORD, 1, 0) == 1;
    assert ch.After(WORD, 1, 1) == 7806831264735756412;
    assert (7806831264735756412 * MULTIPLIER + INCREMENT) % WORD == 9396908728118811419;
  }

  /** From the same sink, two calls leave the same state exactly when their iteration counts differ
      by a multiple of 2^64, so for 64-bit counts only when they are equal. */
  lemma {:induction false} EveryIterationCounts(sink: uint64, i: uint64, j: uint64)
    requires i <= j
    ensures Spin().After(WORD, Seed(sink), i) == Spin().After(WORD, Seed(sink), j) <==> i == j
  {
    WordIsPow2();
    FullPeriod(Spin(), 64, Seed(sink), i, j);
  }
}
