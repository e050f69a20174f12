/**
 Case 06: what every wait for the lock costs, for every behaviour of the middle band.
*/
module Inheritance {
  import opened Arith
  import opened Scheduler

  /** A completed wait: the CPU was never idle, the holder worked off exactly what it owed, and
      under inheritance nothing of middle priority ran. */
  predicate Accounted(p: Params, w: Wait) {
    && w.usage.idle == w.ask.usage.idle
    && w.Elapsed() == w.HolderTicks() + w.MiddleTicks()
    && w.HolderTicks() == w.ask.owed <= p.work
    && 0 <= w.MiddleTicks()
    && (p.inherit ==> w.MiddleTicks() == 0)
  }

  /** The same for a wait in progress, with `left` ticks of the owed work still to do. */
  predicate Waiting(p: Params, c: Core, ask: Ask, left: nat) {
    && ask.at == ask.usage.Total() <= c.now
    && left <= ask.owed <= p.work
    && c.usage.idle == ask.usage.idle
    && c.usage.holder == ask.usage.holder + (ask.owed - left)
    && ask.usage.middle <= c.usage.middle
    && (p.inherit ==> c.usage.middle == ask.usage.middle)
  }

  /** `worst` is the maximum of the recorded waits, in truncated microseconds. */
  ghost predicate IsWorst(p: Params, waits: seq<Wait>, worst: int) {
    && 0 <= worst
    && (forall w :: w in waits ==> w.Micros(p.ticksPerUs) <= worst)
    && (worst == 0 || exists w :: w in waits && w.Micros(p.ticksPerUs) == worst)
  }

  /** How the stages of the four threads exclude each other: the lock has one owner, the control
      loop runs between being started and being joined, g_running falls last. */
  predicate Shape(p: Params, c: Core) {
    && (c.control.Blocked? ==> c.holder.Critical? && c.holder.since <= c.control.ask.at)
    && (c.control.Granted? ==> !c.holder.Critical?)
    && (c.control.Blocked? || c.control.Granted? ==> c.cyclesLeft > 0 && c.control.ask.at <= c.now)
    && (c.control.Unborn? <==> c.launcher.Starting?)
    && (c.launcher.Cleared? ==> c.control.Finished?)
    && (c.running <==> !c.launcher.Cleared?)
    && (c.holder.Exited? ==> !c.running)
    && (c.holder.Critical? ==> c.holder.since <= c.now)
    && (c.control.Finished? ==> c.cyclesLeft == 0)
    && |c.waits| + c.cyclesLeft == p.cycles
  }

  /** Every tick is accounted for, also within the wait in progress. */
  predicate Accounts(p: Params, c: Core) {
    && c.now == c.usage.Total()
    && (c.holder.Critical? ==> c.holder.left <= p.work)
    && (c.control.Blocked? && c.holder.Critical? ==> Waiting(p, c, c.control.ask, c.holder.left))
    && (c.control.Granted? ==> Waiting(p, c, c.control.ask, 0))
  }

  ghost predicate Recorded(p: Params, c: Core) {
    && (forall w :: w in c.waits ==> Accounted(p, w))
    && IsWorst(p, c.waits, c.worst)
  }

  lemma {:induction false} WorstExtends(p: Params, waits: seq<Wait>, worst: int, w: Wait)
    requires IsWorst(p, waits, worst)
    ensures var b := w.Micros(p.ticksPerUs);
            IsWorst(p, waits + [w], if b > worst then b else worst)
  {
    var b := w.Micros(p.ticksPerUs);
    if b > worst {
      assert w in waits + [w];
    } else if worst != 0 {
      var v :| v in waits && v.Micros(p.ticksPerUs) == worst;
      assert v in waits + [w];
    }
  }

  lemma {:induction false} ShapeStep(p: Params, c: Core, mid: Demand, n: nat)
    requires Shape(p, c)
    ensures Shape(p, CoreStep(p, c, mid, n))
  {
  }

  /** Every step of every thread, under every demand of the middle band, keeps the accounts. */
  lemma {:induction false} AccountsStep(p: Params, c: Core, mid: Demand, n: nat)
    requires Shape(p, c) && Accounts(p, c)
    ensures Accounts(p, CoreStep(p, c, mid, n))
  {
    if TimePasses(p, c, mid) {
      AccountsTick(p, c, mid);
    }
  }

  lemma {:induction false} AccountsTick(p: Params, c: Core, mid: Demand)
    requires Shape(p, c) && Accounts(p, c) && TimePasses(p, c, mid)
    ensures Accounts(p, Tick(c, Who(p, c, mid)))
  {
  }

  lemma {:induction false} RecordedStep(p: Params, c: Core, mid: Demand, n: nat)
    requires Shape(p, c) && Accounts(p, c) && Recorded(p, c)
    ensures Recorded(p, CoreStep(p, c, mid, n))
  {
    if Who(p, c, mid).ControlRuns? && c.control.Granted? {
      var w := Wait(c.control.ask, c.now, c.usage);
      WorstExtends(p, c.waits, c.worst, w);
      assert Accounted(p, w);
    }
  }

  lemma {:induction false} CoreInvariant(p: Params, inputs: seq<(Demand, nat)>)
    ensures Shape(p, CoreRun(p, inputs))
    ensures Accounts(p, CoreRun(p, inputs))
    ensures Recorded(p, CoreRun(p, inputs))
  {
    if inputs != [] {
      var c, last := CoreRun(p, inputs[..|inputs| - 1]), inputs[|inputs| - 1];
      CoreInvariant(p, inputs[..|inputs| - 1]);
      ShapeStep(p, c, last.0, last.1);
      AccountsStep(p, c, last.0, last.1);
      RecordedStep(p, c, last.0, last.1);
    }
  }

  // ---- Inheritance: exact waits ----

  /** With inheritance every wait lasts exactly the work the holder still owed when the control
      loop asked, whatever the middle band does, so never more than one critical section. */
  lemma {:induction false} InheritedWaitIsOwedWork(p: Params, inputs: seq<(Demand, nat)>, w: Wait)
    requires p.inherit
    requires w in CoreRun(p, inputs).waits
    ensures w.Elapsed() == w.ask.owed <= p.work
  {
    CoreInvariant(p, inputs);
    assert Accounted(p, w);
  }

  function CoreSteps(p: Params, c: Core, inputs: seq<(Demand, nat)>): Core
    decreases |inputs|
  {
    if inputs == [] then c
    else CoreSteps(p, CoreStep(p, c, inputs[0].0, inputs[0].1), inputs[1..])
  }

  /** While the control loop waits, the boosted holder has the CPU at every step; it works for
      exactly what it owes, hands the lock over, and is back to its own priority. */
  lemma {:induction false} InheritedWaitEnds(p: Params, c: Core, inputs: seq<(Demand, nat)>)
    requires p.inherit && Shape(p, c) && c.control.Blocked?
    requires |inputs| == c.holder.left + 1
    ensures HolderPriority(p, c) == HIGH && Who(p, c, inputs[0].0) == HolderRuns
    ensures var d := CoreSteps(p, c, inputs);
            && d.control == Granted(c.control.ask)
            && d.now == c.now + c.holder.left
            && d.holder == Leaving && HolderPriority(p, d) == LOW
    decreases c.holder.left
  {
    var d := CoreStep(p, c, inputs[0].0, inputs[0].1);
    ShapeStep(p, c, inputs[0].0, inputs[0].1);
    if c.holder.left > 0 {
      InheritedWaitEnds(p, d, inputs[1..]);
    } else {
      assert inputs[1..] == [];
    }
  }

  // ---- Inheritance: what it changes ----

  /** The same program with the plain mutex. */
  function Plain(p: Params): Params { p.(inherit := false) }

  /** The middle band's demand, unless the control loop waits. */
  function Quieted(c: Core, mid: Demand): Demand { if c.control.Blocked? then Absent else mid }

  lemma {:induction false} StepQuietsTheBand(p: Params, c: Core, mid: Demand, n: nat)
    requires p.inherit && Shape(p, c)
    ensures CoreStep(p, c, mid, n) == CoreStep(Plain(p), c, Quieted(c, mid), n)
  {
  }

  /** `quieted` offers what `inputs` does, less the middle band's demands while the control loop waits. */
  predicate Quiets(p: Params, inputs: seq<(Demand, nat)>, quieted: seq<(Demand, nat)>) {
    && |quieted| == |inputs|
    && forall i :: 0 <= i < |inputs| ==>
         quieted[i] == (Quieted(CoreRun(p, inputs[..i]), inputs[i].0), inputs[i].1)
  }

  lemma {:induction false} QuietsExtends(p: Params, inputs: seq<(Demand, nat)>, before: seq<(Demand, nat)>)
    requires inputs != [] && Quiets(p, inputs[..|inputs| - 1], before)
    ensures var last := |inputs| - 1;
            Quiets(p, inputs, before + [(Quieted(CoreRun(p, inputs[..last]), inputs[last].0), inputs[last].1)])
  {
    var last := |inputs| - 1;
    forall i | 0 <= i < last ensures inputs[..last][..i] == inputs[..i] {}
  }

  /** All that inheritance does: its runs are the runs of the plain program in which the middle band asks for
      nothing while the control loop waits, and is unchanged at every other step. */
  lemma {:induction false} InheritanceQuietsTheBand(p: Params, inputs: seq<(Demand, nat)>)
    returns (quieted: seq<(Demand, nat)>)
    requires p.inherit
    ensures Quiets(p, inputs, quieted)
    ensures CoreRun(p, inputs) == CoreRun(Plain(p), quieted)
  {
    if inputs == [] {
      quieted := [];
    } else {
      var before, input := inputs[..|inputs| - 1], inputs[|inputs| - 1];
      var c := CoreRun(p, before);
      var first := InheritanceQuietsTheBand(p, before);
      QuietsExtends(p, inputs, first);
      quieted := first + [(Quieted(c, input.0), input.1)];
      assert quieted[..|quieted| - 1] == first;
      CoreInvariant(p, before);
      StepQuietsTheBand(p, c, input.0, input.1);
    }
  }

  lemma {:induction false} TwinStep(p: Params, s: State, n: nat)
    requires !s.core.control.Blocked?
    ensures Step(Plain(p), s, n) == Step(p, s, n)
  {
    var mid := DemandOf(s.hog);
    assert Who(Plain(p), s.core, mid) == Who(p, s.core, mid);
    assert CoreStep(Plain(p), s.core, mid, n) == CoreStep(p, s.core, mid, n);
    assert HogStep(Plain(p), s, n) == HogStep(p, s, n);
  }

  /** Until the control loop first has to wait, the two programs do the same. */
  lemma {:induction false} TwinsUntilAWait(p: Params, ns: seq<nat>)
    requires forall i :: 0 <= i < |ns| ==> !Run(p, ns[..i]).core.control.Blocked?
    ensures Run(Plain(p), ns) == Run(p, ns)
  {
    if ns != [] {
      var last := |ns| - 1;
      forall i | 0 <= i < last ensures !Run(p, ns[..last][..i]).core.control.Blocked? {
        assert ns[..last][..i] == ns[..i];
      }
      TwinsUntilAWait(p, ns[..last]);
      TwinStep(p, Run(p, ns[..last]), ns[last]);
    }
  }

  function Aged(h: Hog, k: nat): Hog {
    match h
    case Idling(l) => Idling(if l < k then 0 else l - k)
    case Bursting(l) => Bursting(if l < k then 0 else l - k)
    case Stopped => Stopped
  }

  lemma {:induction false} HogAgesStep(p: Params, s: State, n: nat)
    requires p.inherit && s.core.control.Blocked? && s.core.holder.Critical? && s.core.holder.left > 0
    ensures var t := Step(p, s, n);
            && t.core.control == s.core.control && t.core.now == s.core.now + 1
            && t.core.holder == Critical(s.core.holder.left - 1, s.core.holder.since)
            && t.hog == Aged(s.hog, 1)
  {
  }

  /** An inherited wait holds the hog up, but not its clocks: its busy-wait and its sleep run out while the
      boosted holder works, tick by tick. */
  lemma {:induction false} HogAgesThroughTheWait(p: Params, ns: seq<nat>, ms: seq<nat>)
    requires p.inherit && Run(p, ns).core.control.Blocked? && Run(p, ns).core.holder.Critical?
    requires |ms| <= Run(p, ns).core.holder.left
    ensures var s, t := Run(p, ns), Run(p, ns + ms);
            && t.core.control == s.core.control
            && t.core.now == s.core.now + |ms|
            && t.core.holder == Critical(s.core.holder.left - |ms|, s.core.holder.since)
            && t.hog == Aged(s.hog, |ms|)
  {
    if ms == [] {
      assert ns + ms == ns;
    } else {
      var last := |ms| - 1;
      HogAgesThroughTheWait(p, ns, ms[..last]);
      var t := Run(p, ns + ms[..last]);
      HogAgesStep(p, t, ms[last]);
      assert Run(p, ns + ms) == Step(p, t, ms[last]) by {
        assert (ns + ms)[..|ns + ms| - 1] == ns + ms[..last];
      }
    }
  }

  // ---- The two verdicts ----

  /** One critical section costs at most twice the target, in truncated microseconds. */
  predicate WithinTwice(p: Params, targetUs: nat) {
    p.work / p.ticksPerUs <= targetUs * 2
  }

  /** BOUNDED is guaranteed: when the section is within the gate's upper limit, no run of the inheriting
      program, whatever runs at middle priority, records a wait above twice the target. */
  lemma {:induction false} BoundedVerdictGuaranteed(p: Params, inputs: seq<(Demand, nat)>, targetUs: nat)
    requires p.inherit && WithinTwice(p, targetUs)
    ensures var c := CoreRun(p, inputs);
            && c.worst <= 2 * targetUs
            && (c.control.Finished? ==> |c.waits| == p.cycles)
  {
    CoreInvariant(p, inputs);
    var c := CoreRun(p, inputs);
    if c.worst != 0 {
      var w :| w in c.waits && w.Micros(p.ticksPerUs) == c.worst;
      InheritedWaitIsOwedWork(p, inputs, w);
      DivMonotone(w.Elapsed(), p.work, p.ticksPerUs);
    }
  }

  /** The inversion verdict is sound: a worst wait above twice the target belongs to a cycle in
      which middle-priority threads had the CPU for everything beyond the critical section. */
  lemma {:induction false} InversionVerdictSound(p: Params, inputs: seq<(Demand, nat)>, targetUs: nat) returns (w: Wait)
    requires WithinTwice(p, targetUs)
    requires CoreRun(p, inputs).worst > 2 * targetUs
    ensures w in CoreRun(p, inputs).waits
    ensures w.Micros(p.ticksPerUs) == CoreRun(p, inputs).worst
    ensures w.Elapsed() == w.HolderTicks() + w.MiddleTicks()
    ensures w.MiddleTicks() >= w.Elapsed() - p.work > 0
    ensures !p.inherit
  {
    CoreInvariant(p, inputs);
    w :| w in CoreRun(p, inputs).waits && w.Micros(p.ticksPerUs) == CoreRun(p, inputs).worst;
    assert Accounted(p, w);
    if w.Elapsed() <= p.work {
      DivMonotone(w.Elapsed(), p.work, p.ticksPerUs);
      assert false;
    }
  }
}
