/**
 Case 06: every run of either variant terminates, whatever lengths the bursts and sleeps take.
*/
module Termination {
  import opened Descent
  import opened Scheduler
  import opened Inheritance

  /** Sleeps last at least one tick. */
  predicate Sleepy(p: Params) {
    p.Valid() && p.idle.lo >= 1 && p.rest.lo >= 1
  }

  function HogStage(h: Hog): nat {
    if h == Idling(0) then 2 else if h.Bursting? then 1 else 0
  }

  function HogLeft(h: Hog): nat {
    if h.Bursting? then h.left else 0
  }

  /** Zero-time actions the holder and the hog can still take before time must pass. */
  function Pending(s: State): nat {
    (match s.hog
     case Idling(l) => if l == 0 then 2 else 0
     case Bursting(l) => if l == 0 then 1 else 0
     case Stopped => 0)
    +
    (match s.core.holder
     case Resting(l) => if l == 0 then 3 else 0
     case Critical(l, _) => if l == 0 then 2 else 0
     case Leaving => 1
     case Exited => 0)
  }

  /** The time-shared launcher waits for a moment at which the holder and the hog both sleep. The
      holder falling asleep is such a moment: it only gets the CPU while the hog sleeps. */
  function Queueing(p: Params, phase: nat, s: State): Rank {
    if Who(p, s.core, DemandOf(s.hog)).LauncherRuns? then Rank(phase, 0, 0, 0, 0, 0)
    else match s.core.holder
      case Resting(_) => Rank(phase, 0, 3, HogStage(s.hog), HogLeft(s.hog), 0)
      case Critical(l, _) => Rank(phase, 0, 2, l, HogStage(s.hog), HogLeft(s.hog))
      case Leaving => Rank(phase, 0, 1, HogStage(s.hog), HogLeft(s.hog), 0)
      case Exited => Rank(phase, 0, 0, 0, 0, 0)
  }

  function WindingDown(s: State): Rank {
    var hog := match s.hog
               case Bursting(l) => (2, l)
               case Idling(l) => (1, l)
               case Stopped => (0, 0);
    match s.core.holder
    case Critical(l, _) => Rank(0, hog.0, hog.1, 3, l, 0)
    case Leaving => Rank(0, hog.0, hog.1, 2, 0, 0)
    case Resting(l) => Rank(0, hog.0, hog.1, 1, l, 0)
    case Exited => Rank(0, hog.0, hog.1, 0, 0, 0)
  }

  function RankOf(p: Params, s: State): Rank {
    var c := s.core;
    match c.control
    case Unborn =>
      if c.launcher.Starting? && c.launcher.left > 0 then Rank(4, c.launcher.left, Pending(s), 0, 0, 0)
      else Queueing(p, 3, s)
    case Pausing(l) => Rank(2, c.cyclesLeft, 2, l, Pending(s), 0)
    case Blocked(_) => Rank(2, c.cyclesLeft, 1, if c.holder.Critical? then c.holder.left else 0,
                            HogStage(s.hog), HogLeft(s.hog))
    case Granted(_) => Rank(2, c.cyclesLeft, 0, 0, 0, 0)
    case Finished =>
      if c.launcher.Cleared? then WindingDown(s) else Queueing(p, 1, s)
  }

  predicate Alive(p: Params, s: State) {
    Shape(p, s.core) && (s.hog.Stopped? ==> !s.core.running)
  }

  lemma {:induction false} AliveStep(p: Params, s: State, n: nat)
    requires Alive(p, s)
    ensures Alive(p, Step(p, s, n))
  {
    ShapeStep(p, s.core, DemandOf(s.hog), n);
  }

  lemma {:induction false} StartupDescends(p: Params, s: State, n: nat)
    requires Sleepy(p) && Alive(p, s) && s.core.control.Unborn? && s.core.launcher.left > 0
    ensures Below(RankOf(p, Step(p, s, n)), RankOf(p, s))
  {
  }

  predicate Queues(p: Params, s: State) {
    && Sleepy(p) && Alive(p, s) && LauncherReady(s.core) && s.core.running
    && (s.core.control.Unborn? || s.core.control.Finished?)
  }

  lemma {:induction false} QueueingTicks(p: Params, s: State, n: nat)
    requires Queues(p, s) && TimePasses(p, s.core, DemandOf(s.hog))
    ensures Below(RankOf(p, Step(p, s, n)), RankOf(p, s))
  {
  }

  lemma {:induction false} QueueingActs(p: Params, s: State, n: nat)
    requires Queues(p, s) && !TimePasses(p, s.core, DemandOf(s.hog))
    ensures Below(RankOf(p, Step(p, s, n)), RankOf(p, s))
  {
  }

  lemma {:induction false} QueueingDescends(p: Params, s: State, n: nat)
    requires Sleepy(p) && Alive(p, s) && LauncherReady(s.core)
    ensures Below(RankOf(p, Step(p, s, n)), RankOf(p, s))
  {
    if TimePasses(p, s.core, DemandOf(s.hog)) {
      QueueingTicks(p, s, n);
    } else {
      QueueingActs(p, s, n);
    }
  }

  lemma {:induction false} CyclingDescends(p: Params, s: State, n: nat)
    requires Sleepy(p) && Alive(p, s)
    requires s.core.control.Pausing? || s.core.control.Blocked? || s.core.control.Granted?
    ensures Below(RankOf(p, Step(p, s, n)), RankOf(p, s))
  {
  }

  lemma {:induction false} WindingDownDescends(p: Params, s: State, n: nat)
    requires Sleepy(p) && Alive(p, s) && !Done(s)
    requires s.core.control.Finished? && s.core.launcher.Cleared?
    ensures Below(RankOf(p, Step(p, s, n)), RankOf(p, s))
  {
    if TimePasses(p, s.core, DemandOf(s.hog)) {
      WindingDownTicks(p, s, n);
    }
  }

  lemma {:induction false} WindingDownTicks(p: Params, s: State, n: nat)
    requires Sleepy(p) && Alive(p, s) && !Done(s)
    requires s.core.control.Finished? && s.core.launcher.Cleared?
    requires TimePasses(p, s.core, DemandOf(s.hog))
    ensures Below(RankOf(p, Step(p, s, n)), RankOf(p, s))
  {
  }

  /** Every step of an unfinished program descends. */
  lemma {:induction false} Descends(p: Params, s: State, n: nat)
    requires Sleepy(p) && Alive(p, s) && !Done(s)
    ensures Alive(p, Step(p, s, n))
    ensures Below(RankOf(p, Step(p, s, n)), RankOf(p, s))
  {
    AliveStep(p, s, n);
    if s.core.control.Unborn? {
      if s.core.launcher.left > 0 {
        StartupDescends(p, s, n);
      } else {
        QueueingDescends(p, s, n);
      }
    } else if s.core.control.Finished? {
      if s.core.launcher.Cleared? {
        WindingDownDescends(p, s, n);
      } else {
        QueueingDescends(p, s, n);
      }
    } else {
      CyclingDescends(p, s, n);
    }
  }

  lemma {:induction false} AliveHolds(p: Params, ns: seq<nat>)
    ensures Alive(p, Run(p, ns))
  {
    if ns != [] {
      AliveHolds(p, ns[..|ns| - 1]);
      AliveStep(p, Run(p, ns[..|ns| - 1]), ns[|ns| - 1]);
    }
  }

  lemma {:induction false} RunFolds(p: Params, step: (State, nat) -> State, ns: seq<nat>)
    requires forall s, n :: step(s, n) == Step(p, s, n)
    ensures Run(p, ns) == Fold(step, Init(p), ns)
  {
    if ns != [] {
      RunFolds(p, step, ns[..|ns| - 1]);
    }
  }

  /** Every run, in both variants, ends with the control loop through its cycles and all threads
      gone: whatever the environment offers next, only finitely many steps remain. */
  lemma {:induction false} EveryRunEnds(p: Params, ns: seq<nat>, offer: nat -> nat) returns (ms: seq<nat>)
    requires Sleepy(p)
    ensures Done(Run(p, ns + ms))
    ensures forall i :: 0 <= i < |ms| ==> ms[i] == offer(|ns| + i)
  {
    var step := (s: State, n: nat) => Step(p, s, n);
    var live := (s: State) => Alive(p, s);
    var done := (s: State) => Done(s);
    var rank := (s: State) => RankOf(p, s);
    forall s, n | live(s) && !done(s) ensures live(step(s, n)) && Below(rank(step(s, n)), rank(s)) {
      Descends(p, s, n);
    }
    AliveHolds(p, ns);
    RunFolds(p, step, ns);
    ms := Ends(step, live, done, rank, Init(p), ns, offer, rank(Fold(step, Init(p), ns)));
    RunFolds(p, step, ns + ms);
  }
}
