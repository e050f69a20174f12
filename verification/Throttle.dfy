/**
 Case 06: real-time utilisation. A debt of idle time runs up while the hog or the holder has the CPU
 and is paid off by idle ticks. It is bounded, so that no window of any run, with or without
 inheritance, can be busy for longer than the kernel's real-time share.
*/
module Throttle {
  import opened Arith
  import opened Scheduler
  import opened Inheritance

  /** The program's duty cycle, `ms` ticks to the millisecond: bursts of at most 10 ms with sleeps
      of at least 3 ms, sections of at most 11 ms with sleeps of at least 30 ms. */
  predicate DutyCycle(p: Params, ms: pos) {
    && p.Valid()
    && p.burst.hi <= 10 * ms && p.idle.lo >= 3 * ms
    && p.work <= 11 * ms && p.rest.lo >= 30 * ms
  }

  function Short(l: nat, full: nat): nat { if l < full then full - l else 0 }

  function Capped(l: nat, full: nat): nat { if l < full then l else full }

  // In units of 1/39 tick. Each tick of work in a section stretches to at most 13/3 ticks of time
  // (169/39) by the bursts around it; while the holder sleeps, each tick of a burst costs 45/13
  // (135/39) and each tick of sleep saves 32/13 (96/39).

  /** What the hog adds while the holder is in its section. */
  function BurstAhead(ms: pos, h: Hog): nat {
    match h
    case Bursting(l) => 39 * l
    case Idling(l) => 130 * Short(l, 3 * ms)
    case Stopped => 0
  }

  /** What the hog adds while the holder sleeps. */
  function BurstAsleep(ms: pos, h: Hog): nat {
    match h
    case Bursting(l) => 135 * l
    case Idling(l) => 450 * Short(l, 3 * ms)
    case Stopped => 0
  }

  /** The time that can still pass before idle ticks must have made up for it. */
  function Debt(ms: pos, s: State): int {
    match s.core.holder
    case Critical(left, _) => 169 * left + BurstAhead(ms, s.hog)
    case Leaving => BurstAhead(ms, s.hog)
    case Resting(left) => 1859 * ms + BurstAsleep(ms, s.hog) - 96 * Capped(left, 30 * ms)
    case Exited => BurstAsleep(ms, s.hog) - 1021 * ms
  }

  predicate Bounded(p: Params, ms: pos, s: State) {
    && (s.hog.Bursting? ==> s.hog.left <= 10 * ms)
    && (s.core.holder.Critical? ==> s.core.holder.left <= 11 * ms)
  }

  /** Debt plus time, less fifteen for every idle tick. */
  function Balance(ms: pos, s: State): int {
    Debt(ms, s) + 39 * s.core.now - 585 * s.core.usage.idle
  }

  lemma {:induction false} TickPays(p: Params, ms: pos, s: State, n: nat)
    requires DutyCycle(p, ms) && Shape(p, s.core)
    requires TimePasses(p, s.core, DemandOf(s.hog))
    ensures Balance(ms, Step(p, s, n)) <= Balance(ms, s)
  {
  }

  lemma {:induction false} HolderActPays(p: Params, ms: pos, s: State, n: nat)
    requires DutyCycle(p, ms) && Shape(p, s.core) && Bounded(p, ms, s)
    requires !TimePasses(p, s.core, DemandOf(s.hog)) && Who(p, s.core, DemandOf(s.hog)).HolderRuns?
    ensures Balance(ms, Step(p, s, n)) <= Balance(ms, s)
  {
    assert Step(p, s, n).hog == s.hog;
  }

  lemma {:induction false} HogActPays(p: Params, ms: pos, s: State, n: nat)
    requires DutyCycle(p, ms)
    requires !TimePasses(p, s.core, DemandOf(s.hog)) && Who(p, s.core, DemandOf(s.hog)).MiddleRuns?
    ensures Balance(ms, Step(p, s, n)) <= Balance(ms, s)
  {
    assert Step(p, s, n).core == s.core;
  }

  lemma {:induction false} BoundedStep(p: Params, ms: pos, s: State, n: nat)
    requires DutyCycle(p, ms) && Bounded(p, ms, s)
    ensures Bounded(p, ms, Step(p, s, n))
  {
  }

  /** No step of any thread, in either variant, lets the balance grow. */
  lemma {:induction false} StepPays(p: Params, ms: pos, s: State, n: nat)
    requires DutyCycle(p, ms) && Shape(p, s.core) && Bounded(p, ms, s)
    ensures Balance(ms, Step(p, s, n)) <= Balance(ms, s)
    ensures Bounded(p, ms, Step(p, s, n)) && Shape(p, Step(p, s, n).core)
  {
    ShapeStep(p, s.core, DemandOf(s.hog), n);
    BoundedStep(p, ms, s, n);
    if TimePasses(p, s.core, DemandOf(s.hog)) {
      TickPays(p, ms, s, n);
    } else if Who(p, s.core, DemandOf(s.hog)).HolderRuns? {
      HolderActPays(p, ms, s, n);
    } else if Who(p, s.core, DemandOf(s.hog)).MiddleRuns? {
      HogActPays(p, ms, s, n);
    }
  }

  lemma {:induction false} StaysBounded(p: Params, ms: pos, ns: seq<nat>)
    requires DutyCycle(p, ms)
    ensures Bounded(p, ms, Run(p, ns)) && Shape(p, Run(p, ns).core)
  {
    if ns != [] {
      StaysBounded(p, ms, ns[..|ns| - 1]);
      StepPays(p, ms, Run(p, ns[..|ns| - 1]), ns[|ns| - 1]);
    }
  }

  lemma {:induction false} BalanceFalls(p: Params, ms: pos, before: seq<nat>, during: seq<nat>)
    requires DutyCycle(p, ms)
    ensures Balance(ms, Run(p, before + during)) <= Balance(ms, Run(p, before))
    decreases |during|
  {
    if during == [] {
      assert before + during == before;
    } else {
      var n, rest := during[|during| - 1], during[..|during| - 1];
      assert (before + during)[..|before + during| - 1] == before + rest;
      BalanceFalls(p, ms, before, rest);
      StaysBounded(p, ms, before + rest);
      StepPays(p, ms, Run(p, before + rest), n);
    }
  }

  lemma {:induction false} DebtBounds(p: Params, ms: pos, s: State)
    requires Bounded(p, ms, s)
    ensures -1021 * ms <= Debt(ms, s) <= 3209 * ms
  {
  }

  /** In every window of every run, in both variants, the CPU is idle for at least a fifteenth of
      all but 109 ms of the window. */
  lemma {:induction false} IdleShare(p: Params, ms: pos, before: seq<nat>, during: seq<nat>)
    requires DutyCycle(p, ms)
    ensures var c, c' := Run(p, before).core, Run(p, before + during).core;
            15 * (c'.usage.idle - c.usage.idle) >= c'.now - c.now - 109 * ms
  {
    BalanceFalls(p, ms, before, during);
    StaysBounded(p, ms, before);
    StaysBounded(p, ms, before + during);
    DebtBounds(p, ms, Run(p, before));
    DebtBounds(p, ms, Run(p, before + during));
  }

  predicate AllUsed(c: Core) { c.now == c.usage.Total() }

  lemma {:induction false} UsageStep(p: Params, c: Core, mid: Demand, n: nat)
    requires AllUsed(c)
    ensures AllUsed(CoreStep(p, c, mid, n))
  {
  }

  lemma {:induction false} AllTimeIsUsed(p: Params, ns: seq<nat>)
    ensures AllUsed(Run(p, ns).core)
  {
    if ns != [] {
      var s := Run(p, ns[..|ns| - 1]);
      AllTimeIsUsed(p, ns[..|ns| - 1]);
      UsageStep(p, s.core, DemandOf(s.hog), ns[|ns| - 1]);
    }
  }

  /** No window of 1000 ms gives the hog and the holder more than the 950 ms the kernel allows. */
  lemma {:induction false} ThrottleNeverFires(p: Params, ms: pos, before: seq<nat>, during: seq<nat>)
    requires DutyCycle(p, ms)
    requires Run(p, before + during).core.now <= Run(p, before).core.now + 1000 * ms
    ensures var u, u' := Run(p, before).core.usage, Run(p, before + during).core.usage;
            (u'.middle - u.middle) + (u'.holder - u.holder) <= 950 * ms
  {
    IdleShare(p, ms, before, during);
    AllTimeIsUsed(p, before);
    AllTimeIsUsed(p, before + during);
  }
}
