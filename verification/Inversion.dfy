/**
 Case 06: the inversion is not an accident of scheduling. When the critical section is at least
 as long as the hog's sleep, every run of the plain program that finishes has paid for a burst.
*/
module Inversion {
  import opened Arith
  import opened Scheduler
  import opened Inheritance
  import opened PlainMutex

  /** The critical section fills the hog's idle window, and one hold outlasts the control loop's
      sleep. */
  predicate Long(p: Params) {
    && p.Valid() && !p.inherit
    && 1 <= p.idle.lo && p.idle.hi <= p.work
    && p.pause.hi < p.work + p.burst.lo
  }

  /** The control loop also lives longer than the holder's sleep plus one burst. */
  predicate Engaged(p: Params) {
    && Long(p)
    && p.rest.hi + p.burst.hi + p.pause.hi < p.cycles * p.pause.lo
  }

  /** What the control loop pays at least once. */
  function Price(p: Params): int { p.work + p.burst.lo - p.pause.hi }

  ghost predicate Paid(p: Params, c: Core) {
    exists w :: w in c.waits && w.Elapsed() >= Price(p)
  }

  function Born(c: Core): nat {
    if c.waits == [] then c.now else c.waits[0].ask.at
  }

  /** An upper bound on the ticks before the holder takes the lock. */
  function Ahead(p: Params, s: State): nat {
    if s.core.holder.Resting? && s.core.holder.left > 0 then s.core.holder.left + p.burst.hi
    else match s.hog
      case Bursting(b) => b
      case Idling(l) => if l == 0 then p.burst.hi else 0
      case Stopped => 0
  }

  /** The control loop has started and the holder has not taken the lock since. */
  predicate Hunting(p: Params, s: State) {
    var c := s.core;
    && c.holder.Resting?
    && c.now + Ahead(p, s) <= Born(c) + p.rest.hi + p.burst.hi
    && (c.waits == [] && c.control.Pausing? ==> c.control.left == 0)
    && match c.control
       case Pausing(l) => l <= p.pause.hi && Born(c) + |c.waits| * p.pause.lo <= c.now + l
       case Granted(ask) => ask.at == c.now && Born(c) + |c.waits| * p.pause.lo <= c.now
       case _ => false
  }

  /** The holder has the lock and the control loop is going to ask for it, or has. */
  predicate Caught(p: Params, c: Core) {
    match c.control
    case Pausing(l) => c.holder.Critical? && c.now - c.holder.since + l <= p.pause.hi && c.cyclesLeft >= 1
    case Blocked(ask) => c.holder.Critical? && ask.at - c.holder.since <= p.pause.hi
    case Granted(ask) => c.now - ask.at >= Price(p)
    case _ => false
  }

  predicate InRange(p: Params, s: State) {
    && (s.core.holder.Resting? ==> s.core.holder.left <= p.rest.hi)
    && (s.hog.Bursting? ==> s.hog.left <= p.burst.hi)
    && (s.core.control.Unborn? ==> s.core.waits == [])
  }

  /** What the steps below start from. */
  predicate Base(p: Params, s: State)
    requires Long(p)
  {
    Shape(p, s.core) && Holding(p, s) && InRange(p, s)
  }

  ghost predicate Pursuit(p: Params, s: State) {
    s.core.control.Unborn? || Paid(p, s.core) || Hunting(p, s) || Caught(p, s.core)
  }

  /** A hold cannot end before a whole burst has passed. */
  lemma {:induction false} ReleaseIsLate(p: Params, s: State)
    requires Long(p) && Base(p, s) && s.core.running
    requires s.core.holder.Critical? && s.core.holder.left == 0
    requires DemandOf(s.hog).Absent?
    ensures s.core.now - s.core.holder.since >= p.work + p.burst.lo
  {
    assert s.hog.Idling? && s.hog.left > 0;
    assert Bursts(0, s.hog.left, p.idle.hi) == 0;
    MulMonotone(1, Bursts(p.work, s.slack.left, p.idle.hi), p.burst.lo);
  }

  lemma {:induction false} HuntingEndsInTime(p: Params, s: State)
    requires Engaged(p) && Base(p, s) && Hunting(p, s) && s.core.control.Pausing?
    ensures s.core.cyclesLeft >= 1
  {
  }

  /** The launcher only gets the CPU while both the holder and the hog sleep. */
  lemma {:induction false} UnbornStep(p: Params, s: State, n: nat)
    requires Engaged(p) && Base(p, s) && s.core.control.Unborn?
    ensures Step(p, s, n).core.control.Unborn? || Hunting(p, Step(p, s, n))
  {
    var mid := DemandOf(s.hog);
    if Who(p, s.core, mid).LauncherRuns? {
      assert s.core.holder.Resting? && s.core.holder.left > 0;
    }
  }

  lemma {:induction false} HuntingRecords(p: Params, s: State, n: nat)
    requires Engaged(p) && Base(p, s) && Hunting(p, s) && s.core.control.Granted?
    ensures Hunting(p, Step(p, s, n))
  {
    var c' := Step(p, s, n).core;
    assert c'.waits == s.core.waits + [Wait(s.core.control.ask, s.core.now, s.core.usage)];
    assert |c'.waits| * p.pause.lo == |s.core.waits| * p.pause.lo + p.pause.lo;
    assert Born(c') == Born(s.core);
  }

  lemma {:induction false} HuntingTicks(p: Params, s: State, n: nat)
    requires Engaged(p) && Base(p, s) && Hunting(p, s)
    requires TimePasses(p, s.core, DemandOf(s.hog))
    ensures Hunting(p, Step(p, s, n))
  {
    HuntingEndsInTime(p, s);
    assert s.core.waits != [];
  }

  lemma {:induction false} HuntingStep(p: Params, s: State, n: nat)
    requires Engaged(p) && Base(p, s) && Hunting(p, s)
    ensures Hunting(p, Step(p, s, n)) || Caught(p, Step(p, s, n).core)
  {
    if s.core.control.Granted? {
      HuntingRecords(p, s, n);
    } else if TimePasses(p, s.core, DemandOf(s.hog)) {
      HuntingTicks(p, s, n);
    } else {
      HuntingEndsInTime(p, s);
      assert Step(p, s, n).core.waits == s.core.waits;
    }
  }

  lemma {:induction false} CaughtStep(p: Params, s: State, n: nat)
    requires Long(p) && Base(p, s) && Caught(p, s.core)
    ensures Paid(p, Step(p, s, n).core) || Caught(p, Step(p, s, n).core)
  {
    var mid := DemandOf(s.hog);
    if s.core.control.Granted? {
      var w := Wait(s.core.control.ask, s.core.now, s.core.usage);
      assert w in Step(p, s, n).core.waits;
    } else if Who(p, s.core, mid).HolderRuns? && s.core.holder.left == 0 {
      ReleaseIsLate(p, s);
    }
  }

  lemma {:induction false} PursuitStep(p: Params, s: State, n: nat)
    requires Engaged(p) && Base(p, s) && Pursuit(p, s)
    ensures Pursuit(p, Step(p, s, n))
  {
    if Paid(p, s.core) {
      var w :| w in s.core.waits && w.Elapsed() >= Price(p);
      assert w in Step(p, s, n).core.waits;
    } else if s.core.control.Unborn? {
      UnbornStep(p, s, n);
    } else if Hunting(p, s) {
      HuntingStep(p, s, n);
    } else {
      CaughtStep(p, s, n);
    }
  }

  lemma {:induction false} InRangeStep(p: Params, s: State, n: nat)
    requires Long(p) && Base(p, s)
    ensures InRange(p, Step(p, s, n))
  {
  }

  /** Every run of the plain program in which the control loop finishes has paid the price: some
      wait covers a whole critical section and a whole burst, less one pause. */
  lemma {:induction false} EveryFinishedRunPays(p: Params, ns: seq<nat>)
    requires Engaged(p)
    ensures InRange(p, Run(p, ns)) && Pursuit(p, Run(p, ns))
    ensures Run(p, ns).core.control.Finished? ==> Paid(p, Run(p, ns).core)
  {
    if ns != [] {
      var s := Run(p, ns[..|ns| - 1]);
      EveryFinishedRunPays(p, ns[..|ns| - 1]);
      HoldInvariant(p, ns[..|ns| - 1]);
      InRangeStep(p, s, ns[|ns| - 1]);
      PursuitStep(p, s, ns[|ns| - 1]);
    }
  }

  // ---- Why the number of cycles matters ----

  /** Bursts so long that the control loop asks for the last time within one. */
  predicate Outlasted(p: Params) {
    && p.Valid() && !p.inherit
    && 1 <= p.idle.lo && p.idle.hi <= p.rest.lo
    && p.startDelay <= p.burst.lo
    && (p.cycles - 1) * p.pause.hi <= p.burst.lo
  }

  /** Ticks until the control loop asks for the last time, when nobody makes it wait. */
  function Remaining(p: Params, c: Core): nat {
    if c.cyclesLeft == 0 then 0
    else (c.cyclesLeft - 1) * p.pause.hi + (if c.control.Pausing? then c.control.left else 0)
  }

  /** The control loop will not ask again. */
  predicate Spent(c: Core) {
    c.cyclesLeft == 0 && (c.control.Pausing? || c.control.Finished?)
  }

  /** The control loop has not started, and the launcher is ready before the holder first leaves. */
  predicate Before(p: Params, s: State) {
    var c := s.core;
    && c.control.Unborn? && c.launcher.Starting? && c.cyclesLeft == p.cycles
    && (c.launcher.left == 0 || (s.hog == Idling(0) && c.launcher.left <= p.burst.lo)
        || (s.hog.Bursting? && c.launcher.left <= s.hog.left))
    && (c.holder == Resting(0)
        || (c.launcher.left == 0 && (c.holder.Critical? || (c.holder.Leaving? && s.hog.Idling? && s.hog.left > 0)))
        || Asleep(p, s))
  }

  predicate Asleep(p: Params, s: State) {
    && s.core.holder.Resting? && s.core.holder.left >= p.rest.lo
    && s.hog.Idling? && 0 < s.hog.left <= p.idle.hi
    && s.core.launcher == Starting(0)
  }

  /** The holder sleeps until the hog's next burst, and that burst outlasts the control loop. */
  predicate Hidden(p: Params, s: State) {
    var c := s.core;
    && (c.control.Pausing? || (c.control.Granted? && c.control.ask.at == c.now))
    && c.holder.Resting?
    && (c.cyclesLeft > 0 ==> Remaining(p, c) <= (p.cycles - 1) * p.pause.hi)
    && match s.hog
       case Idling(l) => l <= c.holder.left
       case Bursting(b) => Remaining(p, c) <= b
       case Stopped => false
  }

  predicate Unharmed(c: Core) {
    c.worst == 0 && forall k :: 0 <= k < |c.waits| ==> c.waits[k].Elapsed() == 0
  }

  predicate Evasion(p: Params, s: State) {
    && Shape(p, s.core) && (s.hog.Stopped? ==> !s.core.running)
    && (s.hog.Idling? ==> s.hog.left <= p.idle.hi)
    && Unharmed(s.core)
    && (Before(p, s) || Hidden(p, s) || Spent(s.core))
  }

  lemma {:induction false} BeforeStep(p: Params, s: State, n: nat)
    requires Outlasted(p) && Evasion(p, s) && Before(p, s)
    ensures Before(p, Step(p, s, n)) || Hidden(p, Step(p, s, n))
    ensures Unharmed(Step(p, s, n).core)
  {
  }

  lemma {:induction false} HiddenRecords(p: Params, s: State, n: nat)
    requires Outlasted(p) && Evasion(p, s) && Hidden(p, s) && s.core.control.Granted?
    ensures Hidden(p, Step(p, s, n)) && Unharmed(Step(p, s, n).core)
  {
    var c' := Step(p, s, n).core;
    var k := s.core.cyclesLeft;
    assert (k - 1) * p.pause.hi == (k - 2) * p.pause.hi + p.pause.hi;
    assert c'.control.left <= p.pause.hi && c'.cyclesLeft == k - 1;
  }

  lemma {:induction false} HiddenTicks(p: Params, s: State, n: nat)
    requires Outlasted(p) && Evasion(p, s) && Hidden(p, s)
    requires TimePasses(p, s.core, DemandOf(s.hog))
    ensures Hidden(p, Step(p, s, n)) && Unharmed(Step(p, s, n).core)
  {
    assert s.core.control.Pausing? && s.core.control.left > 0;
  }

  lemma {:induction false} HiddenActs(p: Params, s: State, n: nat)
    requires Outlasted(p) && Evasion(p, s) && Hidden(p, s) && s.core.control.Pausing?
    requires !TimePasses(p, s.core, DemandOf(s.hog))
    ensures Hidden(p, Step(p, s, n)) || Spent(Step(p, s, n).core)
    ensures Unharmed(Step(p, s, n).core)
  {
    assert Step(p, s, n).core.waits == s.core.waits;
  }

  lemma {:induction false} HiddenStep(p: Params, s: State, n: nat)
    requires Outlasted(p) && Evasion(p, s) && Hidden(p, s)
    ensures Hidden(p, Step(p, s, n)) || Spent(Step(p, s, n).core)
    ensures Unharmed(Step(p, s, n).core)
  {
    if s.core.control.Granted? {
      HiddenRecords(p, s, n);
    } else if TimePasses(p, s.core, DemandOf(s.hog)) {
      HiddenTicks(p, s, n);
    } else {
      HiddenActs(p, s, n);
    }
  }

  lemma {:induction false} EvasionStep(p: Params, s: State, n: nat)
    requires Outlasted(p) && Evasion(p, s)
    ensures Evasion(p, Step(p, s, n))
  {
    ShapeStep(p, s.core, DemandOf(s.hog), n);
    if Before(p, s) {
      BeforeStep(p, s, n);
    } else if Hidden(p, s) {
      HiddenStep(p, s, n);
    }
  }

  /** Longer bursts do not always show as longer waits: once the control loop asks for the last time
      within one burst, however its sleeps vary, no run records any wait. */
  lemma {:induction false} LongBurstsHideTheInversion(p: Params, ns: seq<nat>)
    requires Outlasted(p)
    ensures Evasion(p, Run(p, ns))
    ensures Run(p, ns).core.worst == 0
    ensures forall w :: w in Run(p, ns).core.waits ==> w.Elapsed() == 0
  {
    if ns != [] {
      LongBurstsHideTheInversion(p, ns[..|ns| - 1]);
      EvasionStep(p, Run(p, ns[..|ns| - 1]), ns[|ns| - 1]);
    }
  }
}
