/**
 Case 06: the two programs with their constants. When each verdict is given, exactly, and `main` from
 the calibration gate to the exit code.
*/
module Verdicts {
  import opened Arith
  import opened Scheduler
  import opened Inheritance
  import opened PlainMutex
  import opened Inversion
  import opened Termination
  import opened Program
  import Calibration
  import Requests
  import Throttle
  import Timetable
  import Windows

  const TARGET_US: nat := 5000  // kCriticalSection

  /** Both programs with their constants. */
  function Written(work: nat, us: pos, inherit: bool): Params {
    var rest, pause, burst, idle := 30000 * us, 2000 * us, 10000 * us, 3000 * us;
    Params(work, Span(rest, rest), Span(pause, pause), Span(burst, burst), Span(idle, idle),
           600, 50000 * us, us, inherit)
  }

  predicate AsWritten(p: Params) { p == Written(p.work, p.ticksPerUs, p.inherit) }

  /** The section is at least as long as the hog's sleep. */
  predicate LongEnough(p: Params) { p.work >= 3000 * p.ticksPerUs }

  // ---- Runs of the program and of the core ----

  /** A run of the whole program is a run of the core with the hog as middle band. */
  lemma {:induction false} AsCoreRun(p: Params, ns: seq<nat>) returns (inputs: seq<(Demand, nat)>)
    ensures CoreRun(p, inputs) == Run(p, ns).core
  {
    if ns == [] {
      inputs := [];
    } else {
      var before := AsCoreRun(p, ns[..|ns| - 1]);
      inputs := before + [(DemandOf(Run(p, ns[..|ns| - 1]).hog), ns[|ns| - 1])];
      assert inputs[..|inputs| - 1] == before;
    }
  }

  lemma {:induction false} RecordedHolds(p: Params, ns: seq<nat>)
    ensures Recorded(p, Run(p, ns).core)
  {
    var inputs := AsCoreRun(p, ns);
    CoreInvariant(p, inputs);
  }

  lemma {:induction false} WaitReaches(w: Wait, us: pos, bound: nat)
    requires w.Elapsed() >= bound * us
    ensures w.Micros(us) >= bound
  {
    DivMonotone(bound * us, w.Elapsed(), us);
    DivUnique(bound * us, us, bound);
  }

  // ---- The section decides the verdict ----

  /** With the program's own constants and a section at least as long as the hog's sleep, every run of
      the plain program that completes has a wait above twice the target. */
  lemma {:induction false} InversionVerdictGuaranteed(p: Params, ns: seq<nat>)
    requires AsWritten(p) && !p.inherit && LongEnough(p)
    requires Run(p, ns).core.control.Finished?
    ensures Run(p, ns).core.worst >= 11000 > 2 * TARGET_US
  {
    var us := p.ticksPerUs;
    assert p.cycles * p.pause.lo == 1200000 * us;
    EveryFinishedRunPays(p, ns);
    var c := Run(p, ns).core;
    var w :| w in c.waits && w.Elapsed() >= Price(p);
    WaitReaches(w, us, 11000);
    RecordedHolds(p, ns);
  }

  /** With a shorter section the holder always wakes up within a burst, so no hold overruns. */
  lemma {:induction false} NeverOverruns(p: Params, i: nat)
    requires AsWritten(p) && !p.inherit && !LongEnough(p)
    ensures !Timetable.Overruns(p, Timetable.SlotOf(p, i))
  {
    var us := p.ticksPerUs;
    DivUnique(p.work + 30000 * us, 13000 * us, 2);
    assert Timetable.Drift(p) == p.work + 4000 * us;
    forall k: nat ensures !Timetable.Lands(p, k) { Timetable.LargeDriftMisses(p, k); }
    var m := Timetable.DriftsClear(p, i);
  }

  /** A worst wait is at most the longest wait. */
  lemma {:induction false} WorstAtMost(p: Params, ns: seq<nat>, bound: nat)
    requires forall k :: 0 <= k < |Run(p, ns).core.waits| ==> Run(p, ns).core.waits[k].Elapsed() <= bound
    ensures Run(p, ns).core.worst <= bound / p.ticksPerUs
  {
    RecordedHolds(p, ns);
    DivMonotone(0, bound, p.ticksPerUs);
    var c := Run(p, ns).core;
    if c.worst != 0 {
      var w :| w in c.waits && w.Micros(p.ticksPerUs) == c.worst;
      DivMonotone(w.Elapsed(), bound, p.ticksPerUs);
    }
  }

  lemma {:induction false} ShortMicros(p: Params)
    requires !LongEnough(p)
    ensures p.work / p.ticksPerUs < 3000
  {
    DivBelow(p.work, p.ticksPerUs, 3000);
  }

  /** With a shorter section no wait of any run of the plain program exceeds it. */
  lemma {:induction false} ShortSectionNeverInverts(p: Params, ns: seq<nat>)
    requires AsWritten(p) && !p.inherit && !LongEnough(p)
    ensures forall w :: w in Run(p, ns).core.waits ==> w.Elapsed() <= p.work
    ensures Run(p, ns).core.worst <= p.work / p.ticksPerUs < 3000
  {
    forall i: nat ensures !Timetable.Overruns(p, Timetable.SlotOf(p, i)) { NeverOverruns(p, i); }
    Timetable.NoOverrunNoInversion(p, ns);
    WorstAtMost(p, ns, p.work);
    ShortMicros(p);
  }

  /** When the plain program reports the inversion: exactly when the section is at least as long as the
      hog's sleep. */
  lemma {:induction false} InversionVerdictExact(p: Params, ns: seq<nat>)
    requires AsWritten(p) && !p.inherit
    requires Run(p, ns).core.control.Finished?
    ensures Run(p, ns).core.worst > 2 * TARGET_US <==> LongEnough(p)
  {
    if LongEnough(p) {
      InversionVerdictGuaranteed(p, ns);
    } else {
      ShortSectionNeverInverts(p, ns);
    }
  }

  /** The same hold by hold: either every hold is caught mid-section by a whole burst, or none is. */
  lemma {:induction false} CaughtExactly(p: Params, ns: seq<nat>, h: Hold)
    requires AsWritten(p) && !p.inherit
    requires h in Run(p, ns).holds && Run(p, ns).core.running
    ensures LongEnough(p) ==> h.Length() >= p.work + p.burst.lo
    ensures !LongEnough(p) ==> h.Length() == p.work
  {
    if LongEnough(p) {
      EveryHoldIsCaught(p, ns, h);
    } else {
      forall i: nat ensures !Timetable.Overruns(p, Timetable.SlotOf(p, i)) { NeverOverruns(p, i); }
      Timetable.NoOverrunNoInversion(p, ns);
    }
  }

  // ---- The calibration gate ----

  /** What one section costs. */
  function CostNs(p: Params): real { p.work as real * 1000.0 / p.ticksPerUs as real }

  /** The gate, on the section as the truncating clock shows it from t1 on. */
  predicate Passes(p: Params, elapsed: int, t1: real) {
    Calibration.Accepted(TARGET_US, Calibration.Measure(elapsed, t1, CostNs(p)))
  }

  lemma {:induction false} CostBelow(p: Params, us: nat)
    requires CostNs(p) < us as real * 1000.0
    ensures p.work < us * p.ticksPerUs
  {
    var t := p.ticksPerUs as real;
    assert CostNs(p) * t == p.work as real * 1000.0;
    assert (us as real * 1000.0 - CostNs(p)) * t > 0.0;
    assert (us * p.ticksPerUs) as real == us as real * t;
  }

  lemma {:induction false} CostAtLeast(p: Params, us: nat)
    requires CostNs(p) >= us as real * 1000.0
    ensures p.work >= us * p.ticksPerUs
  {
    var t := p.ticksPerUs as real;
    assert CostNs(p) * t == p.work as real * 1000.0;
    assert (CostNs(p) - us as real * 1000.0) * t >= 0.0;
    assert (us * p.ticksPerUs) as real == us as real * t;
  }

  /** Nor does it let one pass that is much below half the target. */
  lemma {:induction false} PassingIsAtLeast(p: Params, elapsed: int, t1: real)
    requires Passes(p, elapsed, t1)
    ensures p.work >= 2499 * p.ticksPerUs
  {
    if elapsed > 0 {
      Calibration.TruncationError(t1, CostNs(p));
      CostAtLeast(p, 2499);
    }
  }

  /** The clock's truncation lets no section beyond twice the target pass. */
  lemma {:induction false} PassingIsWithinTwice(p: Params, elapsed: int, t1: real)
    requires Passes(p, elapsed, t1)
    ensures WithinTwice(p, TARGET_US)
  {
    if elapsed > 0 {
      Calibration.TruncationError(t1, CostNs(p));
      CostBelow(p, 10001);
      DivBelow(p.work, p.ticksPerUs, 10001);
    }
  }

  lemma {:induction false} CostOf(p: Params, us: nat)
    requires p.work == us * p.ticksPerUs
    ensures CostNs(p) == us as real * 1000.0
  {
    var t := p.ticksPerUs as real;
    assert p.work as real == us as real * t;
    assert CostNs(p) * t == us as real * 1000.0 * t;
    assert (CostNs(p) - us as real * 1000.0) * t == 0.0;
  }

  lemma {:induction false} ReadingOf(elapsed: int, t1: real, us: nat)
    requires elapsed >= 1
    ensures Calibration.Measure(elapsed, t1, us as real * 1000.0) == us
  {
    assert us as real * 1000.0 == (us * 1000) as real;
    Calibration.TruncationError(t1, us as real * 1000.0);
    assert Calibration.ElapsedNs(t1, us as real * 1000.0) == us * 1000;
  }

  /** A section of 2.5 ms passes the gate, and the plain program never reports an inversion. */
  lemma {:induction false} AcceptedButNeverCaught(p: Params, elapsed: int, t1: real, ns: seq<nat>)
    requires AsWritten(p) && !p.inherit && elapsed >= 1 && p.work == 2500 * p.ticksPerUs
    ensures Passes(p, elapsed, t1)
    ensures Run(p, ns).core.worst <= 2500
  {
    CostOf(p, 2500);
    ReadingOf(elapsed, t1, 2500);
    ShortSectionNeverInverts(p, ns);
    DivUnique(p.work, p.ticksPerUs, 2500);
  }

  /** On a machine with a constant cost per iteration, the calibrated section passes the gate and is
      long enough whenever one iteration and the probe's rounding together cost at most 2 ms. */
  lemma {:induction false} FineMachineInverts(p: Params, q: real, t0: real, t1: real)
    requires q > 0.0
    requires var elapsed := Calibration.ElapsedNs(t0, Calibration.PROBE as real * q);
             && elapsed >= 1 && q + 5000000.0 / elapsed as real <= 2000000.0
             && CostNs(p) == Calibration.Calibrate(TARGET_US, q, t0, t1).iterations as real * q
    ensures Passes(p, Calibration.ElapsedNs(t0, Calibration.PROBE as real * q), t1) && LongEnough(p)
  {
    Calibration.CostAtLeast(TARGET_US, q, t0);
    Calibration.NeverAboveTwice(TARGET_US, q, t0, t1);
    CostAtLeast(p, 3000);
    Calibration.TruncationError(t1, CostNs(p));
  }

  // ---- The burst decides the verdict ----

  /** The same program with another hog. */
  function WithBurst(p: Params, burst: nat): Params { p.(burst := Span(burst, burst)) }

  /** A long section: burst and leftover sleep are over before the last of the 600 requests, 599 pauses
      after the first. */
  predicate BelowThreshold(p: Params, burst: nat) {
    var us := p.ticksPerUs;
    burst + (3000 * us - p.work % (3000 * us)) < 599 * (2000 * us)
  }

  /** A short section: section and rest leave a drift against the hog's period, with which the holder gets
      to where the section does not fit within 38 holds. */
  predicate InWindow(p: Params, burst: nat) {
    var us := p.ticksPerUs;
    var drift := (p.work + 30000 * us) % (burst + 3000 * us);
    3000 * us - p.work <= 38 * drift && drift < 3000 * us
  }

  predicate BurstPays(p: Params, burst: nat) {
    if LongEnough(p) then BelowThreshold(p, burst) else InWindow(p, burst)
  }

  lemma {:induction false} LongBurstSettles(p: Params, burst: nat)
    requires AsWritten(p) && !p.inherit && LongEnough(p) && burst >= 50000 * p.ticksPerUs
    ensures var q := WithBurst(p, burst);
            && Requests.Settled(q)
            && (q.burst.lo + Requests.Leftover(q) < (q.cycles - 1) * q.pause.lo <==> BelowThreshold(p, burst))
  {
  }

  lemma {:induction false} ShortBurstEngages(p: Params, burst: nat)
    requires AsWritten(p) && !p.inherit && LongEnough(p) && burst < 50000 * p.ticksPerUs
    ensures Engaged(WithBurst(p, burst)) && BelowThreshold(p, burst)
  {
    assert p.cycles * p.pause.lo == 1200000 * p.ticksPerUs;
  }

  /** For every burst length and a long section: what a completed run of the plain program pays. */
  lemma {:induction false} ThresholdExact(p: Params, burst: nat, ns: seq<nat>)
    requires AsWritten(p) && !p.inherit && LongEnough(p)
    ensures var q, c := WithBurst(p, burst), Run(WithBurst(p, burst), ns).core;
            && (c.control.Finished? ==> (Paid(q, c) <==> BelowThreshold(p, burst)))
            && (!BelowThreshold(p, burst) ==> forall w :: w in c.waits ==> w.Elapsed() <= 0)
  {
    var q := WithBurst(p, burst);
    if burst < 50000 * p.ticksPerUs {
      ShortBurstEngages(p, burst);
      EveryFinishedRunPays(q, ns);
    } else {
      LongBurstSettles(p, burst);
      Requests.BurstDecides(q, ns);
    }
  }

  lemma {:induction false} ShortIsNarrow(p: Params, burst: nat)
    requires AsWritten(p) && !p.inherit && !LongEnough(p)
    requires p.work > 2000 * p.ticksPerUs && burst >= 10000 * p.ticksPerUs
    ensures var q := WithBurst(p, burst);
            && Windows.Narrow(q, 1000 * p.ticksPerUs) && Timetable.Timed(q)
            && (Windows.InWindow(q) <==> InWindow(p, burst))
  {
  }

  /** For bursts from 10 ms on and a section between a pause and the hog's sleep: what a completed run of
      the plain program pays. */
  lemma {:induction false} WindowExact(p: Params, burst: nat, ns: seq<nat>)
    requires AsWritten(p) && !p.inherit && !LongEnough(p)
    requires p.work > 2000 * p.ticksPerUs && burst >= 10000 * p.ticksPerUs
    ensures var q, c := WithBurst(p, burst), Run(WithBurst(p, burst), ns).core;
            && (c.control.Finished? ==> (Paid(q, c) <==> InWindow(p, burst)))
            && (!InWindow(p, burst) ==> forall w :: w in c.waits ==> w.Elapsed() <= p.work)
  {
    ShortIsNarrow(p, burst);
    Windows.WindowDecides(WithBurst(p, burst), 1000 * p.ticksPerUs, ns);
  }

  lemma {:induction false} PaidIsReported(p: Params, burst: nat, ns: seq<nat>)
    requires AsWritten(p) && p.work >= 2001 * p.ticksPerUs && burst >= 10000 * p.ticksPerUs
    requires Paid(WithBurst(p, burst), Run(WithBurst(p, burst), ns).core)
    ensures Run(WithBurst(p, burst), ns).core.worst > 2 * TARGET_US
  {
    var q := WithBurst(p, burst);
    var w :| w in Run(q, ns).core.waits && w.Elapsed() >= Price(q);
    WaitReaches(w, p.ticksPerUs, 10001);
    RecordedHolds(q, ns);
  }

  /** What no wait exceeds when the burst is not paid for. */
  function Harmless(p: Params): nat { if LongEnough(p) then 0 else p.work }

  lemma {:induction false} UnpaidIsHarmless(p: Params, burst: nat, ns: seq<nat>)
    requires forall w :: w in Run(WithBurst(p, burst), ns).core.waits ==> w.Elapsed() <= Harmless(p)
    ensures Run(WithBurst(p, burst), ns).core.worst <= Harmless(p) / p.ticksPerUs < 3000
  {
    WorstAtMost(WithBurst(p, burst), ns, Harmless(p));
    if LongEnough(p) {
      DivUnique(0, p.ticksPerUs, 0);
    } else {
      ShortMicros(p);
    }
  }

  /** Lengthen only the hog's bursts, with any section the gate accepts: when the plain program reports the
      inversion, and that its waits are harmless otherwise. */
  lemma {:induction false} VerdictOfBurst(p: Params, burst: nat, elapsed: int, t1: real, ns: seq<nat>)
    requires AsWritten(p) && !p.inherit && Passes(p, elapsed, t1) && burst >= 10000 * p.ticksPerUs
    ensures var c := Run(WithBurst(p, burst), ns).core;
            && (c.control.Finished? ==> (c.worst > 2 * TARGET_US <==> BurstPays(p, burst)))
            && (!BurstPays(p, burst) ==> c.worst <= Harmless(p) / p.ticksPerUs)
            && (!BurstPays(p, burst) ==> forall w :: w in c.waits ==> w.Elapsed() <= Harmless(p))
  {
    PassingIsAtLeast(p, elapsed, t1);
    if LongEnough(p) {
      ThresholdExact(p, burst, ns);
    } else {
      WindowExact(p, burst, ns);
    }
    if !BurstPays(p, burst) {
      UnpaidIsHarmless(p, burst, ns);
    } else if Run(WithBurst(p, burst), ns).core.control.Finished? {
      PaidIsReported(p, burst, ns);
    }
  }

  /** With a 5 ms section the inversion is reported up to a burst of 1197 ms. */
  lemma {:induction false} LongHogReportsNothing(p: Params)
    requires AsWritten(p) && p.work == 5000 * p.ticksPerUs
    ensures forall burst: nat :: BurstPays(p, burst) <==> burst < 1197000 * p.ticksPerUs
  {
    DivUnique(5000 * p.ticksPerUs, 3000 * p.ticksPerUs, 1);
  }

  lemma {:induction false} DriftIs(p: Params, burst: nat, q: nat, drift: nat)
    requires p.work + 30000 * p.ticksPerUs == q * (burst + 3000 * p.ticksPerUs) + drift
    requires drift < burst + 3000 * p.ticksPerUs
    ensures (p.work + 30000 * p.ticksPerUs) % (burst + 3000 * p.ticksPerUs) == drift
  {
    DivUnique(p.work + 30000 * p.ticksPerUs, burst + 3000 * p.ticksPerUs, q);
  }

  /** With a 2.7 ms section it is not reported at 10 ms, reported at 12 ms, and not reported at 14 ms. */
  lemma {:induction false} ReportsComeAndGo(p: Params)
    requires AsWritten(p) && p.work == 2700 * p.ticksPerUs
    ensures var us := p.ticksPerUs;
            !BurstPays(p, 10000 * us) && BurstPays(p, 12000 * us) && !BurstPays(p, 14000 * us)
  {
    var us := p.ticksPerUs;
    DriftIs(p, 10000 * us, 2, 6700 * us);
    DriftIs(p, 12000 * us, 2, 2700 * us);
    DriftIs(p, 14000 * us, 1, 15700 * us);
  }

  lemma {:induction false} FirstSlotUnlocks(p: Params)
    requires AsWritten(p) && !p.inherit && p.work == 5000 * p.ticksPerUs
    ensures Timetable.Timed(p) && Timetable.SlotOf(p, 0).lock == 10000 * p.ticksPerUs
    ensures Timetable.SlotOf(p, 0).unlock == 25000 * p.ticksPerUs
  {
    var us := p.ticksPerUs;
    DivUnique(0, 13000 * us, 0);
    DivUnique(2000 * us, 3000 * us, 0);
  }

  /** With a 5 ms section the plain program's control loop starts at 50 ms, after one hold from 10 to 25 ms. */
  lemma {:induction false} StartsAtFiftyMs(p: Params, ns: seq<nat>, n: nat)
    requires AsWritten(p) && !p.inherit && p.work == 5000 * p.ticksPerUs
    requires Run(p, ns).core.control.Unborn? && !Run(p, ns + [n]).core.control.Unborn?
    ensures Run(p, ns).core.now == 50000 * p.ticksPerUs
  {
    var us := p.ticksPerUs;
    FirstSlotUnlocks(p);
    DivUnique(40000 * us, 13000 * us, 3);
    Requests.StartsOnTime(p, Requests.Start(1, 50000 * us), ns, n);
  }

  // ---- The hog's sleep ----

  /** The same program with another sleep of the hog. */
  function WithIdle(p: Params, idle: nat): Params { p.(idle := Span(idle, idle)) }

  lemma {:induction false} LongWindowDrift(p: Params)
    requires AsWritten(p) && !p.inherit && p.work == 5500 * p.ticksPerUs
    ensures var q := WithIdle(p, 15000 * p.ticksPerUs);
            Timetable.Timed(q) && Timetable.Drift(q) == 10500 * p.ticksPerUs && Timetable.Hits(q, 1)
  {
    DivUnique(35500 * p.ticksPerUs, 25000 * p.ticksPerUs, 1);
  }

  /** A window of 15 ms does not always let a section of 5.5 ms finish: in every completed run the second
      hold lasts 15.5 ms, a whole burst longer. */
  lemma {:induction false} LongWindowStillCatches(p: Params, ns: seq<nat>)
    requires AsWritten(p) && !p.inherit && p.work == 5500 * p.ticksPerUs
    requires Run(WithIdle(p, 15000 * p.ticksPerUs), ns).core.control.Finished?
    ensures var holds := Run(WithIdle(p, 15000 * p.ticksPerUs), ns).holds;
            |holds| >= 2 && holds[1].Length() == 15500 * p.ticksPerUs
  {
    var q := WithIdle(p, 15000 * p.ticksPerUs);
    LongWindowDrift(p);
    assert !Timetable.Hits(q, 0);
    Timetable.DriftsTo(q, 1, 1);
    Timetable.ShortSlot(q, Timetable.SlotOf(q, 1).wake);
    assert q.cycles * q.pause.lo == 1200000 * p.ticksPerUs;
    Timetable.HoldsByFinish(q, 1, ns);
  }

  /** The phases after up to three holds, when the hog sleeps 50 ms and the section takes 6 ms: 0, 36, 12
      and 48 ms into a period of 60 ms. */
  lemma {:induction false} WideWindowPhases(p: Params)
    requires AsWritten(p) && !p.inherit && p.work == 6000 * p.ticksPerUs
    ensures var q, us := WithIdle(p, 50000 * p.ticksPerUs), p.ticksPerUs;
            && Timetable.Timed(q) && Timetable.Phase(q, 0) == 0 && Timetable.Phase(q, 1) == 36000 * us
            && Timetable.Phase(q, 2) == 12000 * us && Timetable.Phase(q, 3) == 48000 * us
  {
    var q, us := WithIdle(p, 50000 * p.ticksPerUs), p.ticksPerUs;
    DivUnique(36000 * us, 60000 * us, 0);
    DivUnique(72000 * us, 60000 * us, 1);
    DivUnique(108000 * us, 60000 * us, 1);
    Timetable.PhaseZero(q);
    assert Timetable.Drift(q) == 36000 * us;
  }

  lemma {:induction false} WideWindowLands(p: Params)
    requires AsWritten(p) && !p.inherit && p.work == 6000 * p.ticksPerUs
    ensures var q := WithIdle(p, 50000 * p.ticksPerUs);
            && Timetable.Timed(q) && Timetable.Lands(q, 3)
            && forall j: nat :: j < 3 ==> !Timetable.Lands(q, j)
  {
    WideWindowPhases(p);
  }

  lemma {:induction false} WideWindowSlot(p: Params)
    requires AsWritten(p) && !p.inherit && p.work == 6000 * p.ticksPerUs
    ensures var q, us := WithIdle(p, 50000 * p.ticksPerUs), p.ticksPerUs;
            && Timetable.Timed(q) && Timetable.SlotOf(q, 3).lock == 118000 * us
            && Timetable.SlotOf(q, 3).unlock == 134000 * us
  {
    var q := WithIdle(p, 50000 * p.ticksPerUs);
    WideWindowLands(p);
    Timetable.PhasesTo(q, 3, 3);
    Timetable.ShortSlot(q, Timetable.SlotOf(q, 3).wake);
  }

  /** Nor does a window longer than section and burst together: with a sleep of 50 ms a section of 6 ms
      fits three times, and in every completed run the fourth hold lasts 16 ms. */
  lemma {:induction false} WideWindowStillCatches(p: Params, ns: seq<nat>)
    requires AsWritten(p) && !p.inherit && p.work == 6000 * p.ticksPerUs
    requires Run(WithIdle(p, 50000 * p.ticksPerUs), ns).core.control.Finished?
    ensures var holds := Run(WithIdle(p, 50000 * p.ticksPerUs), ns).holds;
            |holds| >= 4 && holds[3].Length() == 16000 * p.ticksPerUs
  {
    var q := WithIdle(p, 50000 * p.ticksPerUs);
    WideWindowSlot(p);
    assert q.cycles * q.pause.lo == 1200000 * p.ticksPerUs;
    Timetable.HoldsByFinish(q, 3, ns);
  }

  // ---- Separation ----

  /** No burst, however long, raises a wait of the plain program beyond what its 600 cycles allow. */
  lemma {:induction false} CyclesCapEveryWait(p: Params, burst: nat, ns: seq<nat>, w: Wait)
    requires AsWritten(p) && !p.inherit
    requires w in Run(WithBurst(p, burst), ns).core.waits
    ensures w.Elapsed() <= p.work + 599 * (2000 * p.ticksPerUs) * CeilDiv(p.work, 3000 * p.ticksPerUs)
  {
    var q, us, cap := WithBurst(p, burst), p.ticksPerUs, 599 * (2000 * p.ticksPerUs);
    var k := CeilDiv(p.work, 3000 * us);
    if burst < cap {
      WaitBounded(q, ns);
      MulMonotone(burst, cap, k);
    } else {
      assert cap * k >= 0;
      if LongEnough(p) {
        ThresholdExact(p, burst, ns);
        assert !BelowThreshold(p, burst);
      } else {
        HugeBurstNeverOverruns(p, burst, ns);
      }
    }
  }

  lemma {:induction false} HugeBurstNeverOverruns(p: Params, burst: nat, ns: seq<nat>)
    requires AsWritten(p) && !p.inherit && !LongEnough(p) && burst >= 599 * (2000 * p.ticksPerUs)
    ensures forall w :: w in Run(WithBurst(p, burst), ns).core.waits ==> w.Elapsed() <= p.work
  {
    var q := WithBurst(p, burst);
    DriftIs(p, burst, 0, p.work + 30000 * p.ticksPerUs);
    forall i: nat ensures !Timetable.Overruns(q, Timetable.SlotOf(q, i)) {
      forall k: nat ensures !Timetable.Lands(q, k) { Timetable.LargeDriftMisses(q, k); }
      var m := Timetable.DriftsClear(q, i);
    }
    Timetable.NoOverrunNoInversion(q, ns);
  }

  /** Separation: for every M the cycles leave room for, some burst length makes every run of the plain
      program that completes, of which there is one, wait at least M, while no run of its inheriting
      twin waits longer than one critical section. */
  lemma {:induction false} Separation(p: Params, M: nat, offer: nat -> nat) returns (plain: Params, inheriting: Params)
    requires Sleepy(p) && p.idle.hi <= p.work
    requires M + 1 + p.rest.hi + 2 * p.pause.hi < p.cycles * p.pause.lo
    ensures exists B :: plain == p.(burst := Span(B, B), inherit := false)
    ensures inheriting == plain.(inherit := true)
    ensures exists ns :: Done(Run(plain, ns))
    ensures forall ns :: Run(plain, ns).core.control.Finished? ==>
              exists w :: w in Run(plain, ns).core.waits && w.Elapsed() >= M
    ensures forall ns, w :: w in Run(inheriting, ns).core.waits ==> w.Elapsed() <= p.work
  {
    var B := M + p.pause.hi + 1;
    plain := p.(burst := Span(B, B), inherit := false);
    inheriting := plain.(inherit := true);
    assert Engaged(plain);
    var ms := EveryRunEnds(plain, [], offer);
    assert Done(Run(plain, [] + ms));
    forall ns | Run(plain, ns).core.control.Finished?
      ensures exists w :: w in Run(plain, ns).core.waits && w.Elapsed() >= M
    {
      EveryFinishedRunPays(plain, ns);
      var w :| w in Run(plain, ns).core.waits && w.Elapsed() >= Price(plain);
      assert w.Elapsed() >= M;
    }
    forall ns, w | w in Run(inheriting, ns).core.waits ensures w.Elapsed() <= p.work {
      var inputs := AsCoreRun(inheriting, ns);
      InheritedWaitIsOwedWork(inheriting, inputs, w);
    }
  }

  /** With a pause at all, enough cycles leave room for every M. */
  lemma {:induction false} EnoughCycles(p: Params, M: nat) returns (cycles: nat)
    requires p.pause.lo >= 1
    ensures forall n :: n >= cycles ==> M + 1 + p.rest.hi + 2 * p.pause.hi < n * p.pause.lo
  {
    cycles := M + 2 + p.rest.hi + 2 * p.pause.hi;
    forall n | n >= cycles ensures M + 1 + p.rest.hi + 2 * p.pause.hi < n * p.pause.lo {
      MulMonotone(1, p.pause.lo, n);
    }
  }

  // ---- The throttle ----

  lemma {:induction false} PassingWork(work: nat, us: pos)
    requires work / us <= 10000
    ensures work <= 11000 * us
  {
    assert work == us * (work / us) + work % us;
    MulMonotone(work / us, 10000, us);
  }

  lemma {:induction false} PassingDutyCycle(p: Params)
    requires AsWritten(p) && WithinTwice(p, TARGET_US)
    ensures Throttle.DutyCycle(p, 1000 * p.ticksPerUs)
  {
    PassingWork(p.work, p.ticksPerUs);
  }

  /** Whatever section the gate accepts, the program's duty cycle keeps every window of a second of
      every run, in both variants, within the kernel's share of 950 ms. */
  lemma {:induction false} AcceptedProgramIsNeverThrottled(p: Params, elapsed: int, t1: real,
                                                           before: seq<nat>, during: seq<nat>)
    requires AsWritten(p) && Passes(p, elapsed, t1)
    requires Run(p, before + during).core.now <= Run(p, before).core.now + 1000000 * p.ticksPerUs
    ensures var u, u' := Run(p, before).core.usage, Run(p, before + during).core.usage;
            (u'.middle - u.middle) + (u'.holder - u.holder) <= 950000 * p.ticksPerUs
  {
    PassingIsWithinTwice(p, elapsed, t1);
    PassingDutyCycle(p);
    Throttle.ThrottleNeverFires(p, 1000 * p.ticksPerUs, before, during);
  }

  // ---- main ----

  /** `main` after the mutex is set up: calibrate, run the three threads, judge. `elapsed` is the probe's
      reading and `t1` the time at which the section is measured. Exit codes are 3 for a failed
      calibration, 2 when not all three priorities were granted, else the verdict. */
  method RunProgram(p: Params, elapsed: int, t1: real, granted: nat, offer: nat -> nat)
    returns (code: int, ghost ns: seq<nat>)
    requires Sleepy(p)
    ensures code == 3 <==> !Passes(p, elapsed, t1)
    ensures code == 2 <==> Passes(p, elapsed, t1) && granted < 3
    ensures code in {0, 1, 2, 3}
    ensures Passes(p, elapsed, t1) ==> Done(Run(p, ns))
    ensures Passes(p, elapsed, t1) && granted >= 3 ==> (code == 1 <==> Run(p, ns).core.worst > 2 * TARGET_US)
    ensures Passes(p, elapsed, t1) && granted >= 3 && p.inherit ==> code == 0
    ensures Passes(p, elapsed, t1) && granted >= 3 && AsWritten(p) && !p.inherit ==> (code == 1 <==> LongEnough(p))
  {
    ns := [];
    var measuredUs := Calibration.Measure(elapsed, t1, CostNs(p));
    if measuredUs < TARGET_US / 2 || measuredUs > TARGET_US * 2 {
      return 3, [];
    }
    var machine := new Machine(p);
    ns := machine.Execute(offer);
    if granted < 3 {
      return 2, ns;
    }
    code := if machine.worst > 2 * TARGET_US then 1 else 0;
    if p.inherit {
      PassingIsWithinTwice(p, elapsed, t1);
      ghost var inputs := AsCoreRun(p, ns);
      BoundedVerdictGuaranteed(p, inputs, TARGET_US);
    } else if AsWritten(p) {
      InversionVerdictExact(p, ns);
    }
  }
}
