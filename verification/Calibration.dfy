/**
 Case 06: `calibrate` on a machine that takes a constant time per iteration, read through a clock
 that truncates to nanoseconds. The doubles are modelled as exact reals.
*/
module Calibration {

  const PROBE: int := 20000000

  /** The nanoseconds between two truncated readings, `cost` apart. */
  function ElapsedNs(start: real, cost: real): int {
    (start + cost).Floor - start.Floor
  }

  /** What `calibrate` reports of a section of that cost, in microseconds: nothing when the probe was
      too short for the clock. */
  function Measure(elapsed: int, t1: real, cost: real): int {
    if elapsed <= 0 then 0 else ElapsedNs(t1, cost) / 1000
  }

  datatype Outcome = Outcome(iterations: int, measuredUs: int)

  /** The probe starts at `t0`, the verification at `t1`; one iteration costs `q` nanoseconds. */
  function Calibrate(targetUs: nat, q: real, t0: real, t1: real): Outcome {
    var elapsed := ElapsedNs(t0, PROBE as real * q);
    if elapsed <= 0 then Outcome(PROBE, 0)
    else
      var iterations := Iterations(targetUs, elapsed);
      Outcome(iterations, Measure(elapsed, t1, Section(targetUs, q, elapsed)))
  }

  function Iterations(targetUs: nat, elapsed: int): int
    requires elapsed >= 1
  {
    (PROBE as real / elapsed as real * targetUs as real * 1000.0).Floor
  }

  /** What those iterations cost. */
  function Section(targetUs: nat, q: real, elapsed: int): real
    requires elapsed >= 1
  {
    Iterations(targetUs, elapsed) as real * q
  }

  /** The clock sees a probe that starts at t0. */
  predicate Timed(q: real, t0: real) { ElapsedNs(t0, PROBE as real * q) >= 1 }

  predicate Accepted(targetUs: nat, measuredUs: int) {
    !(measuredUs < targetUs / 2 || measuredUs > targetUs * 2)
  }

  lemma {:induction false} TruncationError(start: real, cost: real)
    ensures cost - 1.0 < ElapsedNs(start, cost) as real < cost + 1.0
  {
  }

  lemma {:induction false} Scale(x: real, y: real, f: real)
    requires x <= y && f >= 0.0
    ensures x * f <= y * f
  {
  }

  /** The section costs what the probe's own rounding makes of the target, less at most one
      iteration. */
  lemma {:induction false} SectionCost(targetUs: nat, q: real, elapsed: int)
    requires q > 0.0 && elapsed >= 1
    ensures var ns, probe := targetUs as real * 1000.0, PROBE as real * q;
            var cost := Section(targetUs, q, elapsed);
            probe / elapsed as real * ns - q <= cost <= probe / elapsed as real * ns
  {
    var ns := targetUs as real * 1000.0;
    var e := elapsed as real;
    var exact := PROBE as real / e * targetUs as real * 1000.0;
    var n := Iterations(targetUs, elapsed) as real;
    assert exact == PROBE as real / e * ns;
    assert exact - 1.0 <= n <= exact;
    Scale(n, exact, q);
    Scale(exact - 1.0, n, q);
    Reorder(PROBE as real, e, ns, q);
  }

  lemma {:induction false} Reorder(p: real, e: real, ns: real, q: real)
    requires e > 0.0
    ensures p / e * ns * q == (p * q) / e * ns
  {
    assert p / e * q == (p * q) / e;
    assert p / e * ns * q == (p / e * q) * ns;
  }

  /** Dividing by a reading that is off by less than one from below at most doubles. */
  lemma {:induction false} RatioBounds(probe: real, elapsed: int)
    requires elapsed >= 1 && elapsed as real - 1.0 < probe < elapsed as real + 1.0
    ensures 1.0 - 1.0 / elapsed as real < probe / elapsed as real < 2.0
  {
    var e := elapsed as real;
    assert probe / e < (e + 1.0) / e by { Quotients(probe, e + 1.0, e); }
    assert probe / e > (e - 1.0) / e by { Quotients(e - 1.0, probe, e); }
    assert (e + 1.0) / e == 1.0 + 1.0 / e && (e - 1.0) / e == 1.0 - 1.0 / e;
    assert 1.0 / e <= 1.0;
  }

  lemma {:induction false} Quotients(x: real, y: real, e: real)
    requires x < y && e >= 1.0
    ensures x / e < y / e
  {
    assert (y - x) / e > 0.0;
    assert (y - x) / e == y / e - x / e;
  }

  lemma {:induction false} Measured(targetUs: nat, q: real, t0: real, t1: real) returns (ns: int)
    requires Timed(q, t0)
    ensures Calibrate(targetUs, q, t0, t1).measuredUs == ns / 1000
    ensures var cost := Section(targetUs, q, ElapsedNs(t0, PROBE as real * q));
            cost - 1.0 < ns as real < cost + 1.0
  {
    var cost := Section(targetUs, q, ElapsedNs(t0, PROBE as real * q));
    TruncationError(t1, cost);
    ns := ElapsedNs(t1, cost);
  }

  lemma {:induction false} CostAtMost(targetUs: nat, q: real, t0: real)
    requires q > 0.0 && Timed(q, t0)
    ensures 0.0 <= Section(targetUs, q, ElapsedNs(t0, PROBE as real * q)) <= 2000.0 * targetUs as real
  {
    var probe := PROBE as real * q;
    var elapsed := ElapsedNs(t0, probe);
    TruncationError(t0, probe);
    RatioBounds(probe, elapsed);
    SectionCost(targetUs, q, elapsed);
    Scale(probe / elapsed as real, 2.0, targetUs as real * 1000.0);
    IterationsNonNegative(targetUs, elapsed);
    Scale(0.0, Iterations(targetUs, elapsed) as real, q);
  }

  /** Whatever the machine and wherever the clock ticks fall, the measured section never exceeds
      twice the target, so the gate's upper bound never rejects. */
  lemma {:induction false} NeverAboveTwice(targetUs: nat, q: real, t0: real, t1: real)
    requires q > 0.0
    ensures 0 <= Calibrate(targetUs, q, t0, t1).measuredUs <= 2 * targetUs
  {
    if Timed(q, t0) {
      var ns := Measured(targetUs, q, t0, t1);
      CostAtMost(targetUs, q, t0);
      assert 0 <= ns <= 2000 * targetUs;
    }
  }

  lemma {:induction false} IterationsNonNegative(targetUs: nat, elapsed: int)
    requires elapsed >= 1
    ensures Iterations(targetUs, elapsed) >= 0
  {
    Scale(0.0, PROBE as real / elapsed as real, targetUs as real);
  }

  /** The calibrated count is the largest whose cost at the probe's rate stays within the target, and
      what is measured is a section of that many iterations. */
  lemma {:induction false} CountIsExact(targetUs: nat, q: real, t0: real, t1: real)
    requires Timed(q, t0)
    ensures var elapsed, o := ElapsedNs(t0, PROBE as real * q), Calibrate(targetUs, q, t0, t1);
            && 0 <= o.iterations
            && o.iterations * elapsed <= PROBE * targetUs * 1000 < (o.iterations + 1) * elapsed
            && o.measuredUs == ElapsedNs(t1, o.iterations as real * q) / 1000
  {
    var elapsed := ElapsedNs(t0, PROBE as real * q);
    IterationsNonNegative(targetUs, elapsed);
    IterationsFit(targetUs, elapsed);
  }

  lemma {:induction false} IterationsFit(targetUs: nat, elapsed: int)
    requires elapsed >= 1
    ensures var n := Iterations(targetUs, elapsed); n * elapsed <= PROBE * targetUs * 1000 < (n + 1) * elapsed
  {
    var n, e := Iterations(targetUs, elapsed), elapsed as real;
    var rate := PROBE as real / e;
    var exact := rate * targetUs as real * 1000.0;
    assert exact * e == (PROBE * targetUs * 1000) as real by {
      assert rate * e == PROBE as real;
      assert exact * e == rate * e * (targetUs as real * 1000.0);
    }
    Scale(n as real, exact, e);
    assert (n as real + 1.0 - exact) * e > 0.0;
    assert (n * elapsed) as real == n as real * e && ((n + 1) * elapsed) as real == (n as real + 1.0) * e;
  }

  lemma {:induction false} CostAtLeast(targetUs: nat, q: real, t0: real)
    requires q > 0.0 && Timed(q, t0)
    ensures var ns, elapsed := targetUs as real * 1000.0, ElapsedNs(t0, PROBE as real * q);
            Section(targetUs, q, elapsed) >= ns - ns / elapsed as real - q
  {
    var probe := PROBE as real * q;
    var elapsed := ElapsedNs(t0, probe);
    var e, ns := elapsed as real, targetUs as real * 1000.0;
    TruncationError(t0, probe);
    RatioBounds(probe, elapsed);
    SectionCost(targetUs, q, elapsed);
    Scale(1.0 - 1.0 / e, probe / e, ns);
    Complement(e, ns);
  }

  lemma {:induction false} Complement(e: real, ns: real)
    requires e >= 1.0
    ensures (1.0 - 1.0 / e) * ns == ns - ns / e
  {
    assert 1.0 / e * ns == ns / e;
  }

  lemma {:induction false} MeasuredTooShort(targetUs: nat, ns: int)
    requires ns / 1000 < targetUs / 2
    ensures ns < 500 * targetUs
  {
  }

  /** The gate rejects a probe that was timed at all only on a machine so slow, or a probe so
      short, that one iteration plus the probe's rounding costs about half the section. */
  lemma {:induction false} RejectedOnlyWhenCoarse(targetUs: nat, q: real, t0: real, t1: real)
    requires q > 0.0
    requires Timed(q, t0)
    requires !Accepted(targetUs, Calibrate(targetUs, q, t0, t1).measuredUs)
    ensures var ns := targetUs as real * 1000.0;
            q + ns / ElapsedNs(t0, PROBE as real * q) as real + 1.0 > ns / 2.0
  {
    NeverAboveTwice(targetUs, q, t0, t1);
    var elapsed := ElapsedNs(t0, PROBE as real * q);
    var measured := Measured(targetUs, q, t0, t1);
    MeasuredTooShort(targetUs, measured);
    CostAtLeast(targetUs, q, t0);
  }

  /** The probe of 20 million iterations is timed wherever the clock's ticks fall exactly if it costs at least a
      nanosecond. */
  lemma {:induction false} AlwaysTimedIff(q: real)
    requires q > 0.0
    ensures (forall t0 :: Timed(q, t0)) <==> 20000000.0 * q >= 1.0
  {
    if 20000000.0 * q < 1.0 {
      assert !Timed(q, 0.0);
    }
  }

  /** A probe too short for the clock leaves the count as it was, reads 0 us and is always rejected. */
  lemma {:induction false} UntimedProbeRejected(targetUs: nat, q: real, t0: real, t1: real, cost: real)
    requires targetUs >= 2
    requires !Timed(q, t0)
    ensures Calibrate(targetUs, q, t0, t1) == Outcome(20000000, 0)
    ensures Measure(ElapsedNs(t0, PROBE as real * q), t1, cost) == 0
    ensures !Accepted(targetUs, Calibrate(targetUs, q, t0, t1).measuredUs)
  {
  }

  /** A machine so slow that one iteration costs more than the whole target is always rejected: the
      calibrated section is empty. */
  lemma {:induction false} SlowMachineRejected(targetUs: nat, q: real, t0: real, t1: real)
    requires targetUs >= 2
    requires q >= targetUs as real * 1000.0 + 1.0
    ensures !Accepted(targetUs, Calibrate(targetUs, q, t0, t1).measuredUs)
  {
    var ns, probe := targetUs as real * 1000.0, PROBE as real * q;
    var elapsed := ElapsedNs(t0, probe);
    var e := elapsed as real;
    TruncationError(t0, probe);
    assert e > PROBE as real * ns;
    Quotients(PROBE as real * ns, e, e);
    assert PROBE as real / e * targetUs as real * 1000.0 == PROBE as real * ns / e;
    assert Iterations(targetUs, elapsed) <= 0;
    IterationsNonNegative(targetUs, elapsed);
    assert Section(targetUs, q, elapsed) == 0.0;
  }
}
