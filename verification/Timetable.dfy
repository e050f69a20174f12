/**
 Case 06 with exact timings: when every hold of the plain mutex begins and ends. The hog sleeps from
 the end of each burst for `idle` ticks, the holder takes the lock at the first such moment at which
 it is awake, and its work goes on only while the hog sleeps. The control loop changes none of this.
*/
module Timetable {
  import opened Arith
  import opened Scheduler
  import opened Inheritance
  import opened PlainMutex

  predicate Timed(p: Params) { p.Exact() && !p.inherit && p.idle.lo >= 1 }

  function Period(p: Params): nat { p.burst.lo + p.idle.lo }

  /** Ticks since the hog last fell asleep; it wakes up when they reach `idle`. */
  function Clock(p: Params, t: nat): (c: nat)
    requires Timed(p) && t >= p.burst.lo
    ensures c < Period(p)
  {
    (t - p.burst.lo) % Period(p)
  }

  /** The first moment from t on at which the hog sleeps. */
  function NextSleep(p: Params, t: nat): (r: nat)
    requires Timed(p)
    ensures r >= t && r >= p.burst.lo
  {
    if t < p.burst.lo then p.burst.lo
    else if Clock(p, t) < p.idle.lo then t
    else t + Period(p) - Clock(p, t)
  }

  /** What is left of the hog's sleep at time t. */
  function SlackAt(p: Params, t: nat): Slack
    requires Timed(p) && t >= p.burst.lo
  {
    if Clock(p, t) < p.idle.lo then Until(p.idle.lo - Clock(p, t)) else Forever
  }

  /** A hold: when the holder wakes up for it, when it takes the lock and when it releases it. */
  datatype Slot = Slot(wake: nat, lock: nat, slack: Slack, unlock: nat)

  function SlotFrom(p: Params, wake: nat): (d: Slot)
    requires Timed(p)
    ensures d.wake == wake && wake <= d.lock && p.burst.lo <= d.lock
  {
    var lock := NextSleep(p, wake);
    Slot(wake, lock, SlackAt(p, lock), lock + HoldTicks(p.work, SlackAt(p, lock), p.burst.lo, p.idle.lo))
  }

  /** The holds in order: the holder sleeps between them. */
  function SlotOf(p: Params, i: nat): (d: Slot)
    requires Timed(p)
    ensures p.burst.lo <= d.lock
  {
    SlotFrom(p, if i == 0 then 0 else SlotOf(p, i - 1).unlock + p.rest.lo)
  }

  function Entry(d: Slot): Hold { Hold(d.lock, d.unlock, d.slack) }

  // ---- The hog's clock ----

  lemma {:induction false} ClockIs(p: Params, t: nat, j: nat, c: nat)
    requires Timed(p) && t == j * Period(p) + p.burst.lo + c && c < Period(p)
    ensures Clock(p, t) == c
  {
    DivUnique(t - p.burst.lo, Period(p), j);
  }

  /** The hog wakes up at every multiple of its period. */
  predicate OnTime(p: Params, now: nat, h: Hog, j: nat) {
    match h
    case Idling(l) => l <= p.idle.lo && now + l == j * Period(p)
    case Bursting(l) => l <= p.burst.lo && now + l == j * Period(p) + p.burst.lo
    case Stopped => false
  }

  /** Ticks until the hog sleeps with nobody else awake. */
  function Delay(p: Params, h: Hog): nat {
    match h
    case Idling(l) => if l == 0 then p.burst.lo else 0
    case Bursting(l) => l
    case Stopped => 0
  }

  lemma {:induction false} AsleepNow(p: Params, now: nat, l: nat, j: nat)
    requires Timed(p) && 0 < l <= p.idle.lo && now + l == j * Period(p)
    ensures now >= p.burst.lo && Clock(p, now) == p.idle.lo - l
  {
    assert j > 0;
    assert j * Period(p) == (j - 1) * Period(p) + Period(p);
    ClockIs(p, now, j - 1, p.idle.lo - l);
  }

  lemma {:induction false} AwakeNow(p: Params, now: nat, l: nat, j: nat)
    requires Timed(p) && l <= p.burst.lo && now + l == j * Period(p) + p.burst.lo
    ensures NextSleep(p, now) == now + l
  {
    if l == 0 {
      ClockIs(p, now, j, 0);
    } else if j > 0 {
      assert j * Period(p) == (j - 1) * Period(p) + Period(p);
      ClockIs(p, now, j - 1, Period(p) - l);
    }
  }

  lemma {:induction false} SleepsNext(p: Params, now: nat, h: Hog, j: nat)
    requires Timed(p) && OnTime(p, now, h, j)
    ensures NextSleep(p, now) == now + Delay(p, h)
  {
    match h
    case Bursting(l) => AwakeNow(p, now, l, j);
    case Idling(l) =>
      if l > 0 {
        AsleepNow(p, now, l, j);
      } else {
        AwakeNow(p, now, p.burst.lo, j);
      }
  }

  lemma {:induction false} SlackAsleep(p: Params, now: nat, h: Hog, j: nat)
    requires Timed(p) && OnTime(p, now, h, j) && h.Idling? && h.left > 0
    ensures now >= p.burst.lo && NextSleep(p, now) == now && SlackAt(p, now) == Until(h.left)
  {
    AsleepNow(p, now, h.left, j);
  }

  // ---- Every run keeps to the timetable ----

  ghost predicate HogOnTime(p: Params, s: State) {
    exists j: nat :: OnTime(p, s.core.now, s.hog, j)
  }

  /** The holder is on its way to the slot, or in it. */
  predicate HolderOnTime(p: Params, s: State, d: Slot) {
    match s.core.holder
    case Resting(l) =>
      if l == 0 then d.wake <= s.core.now && s.core.now + Delay(p, s.hog) == d.lock
      else s.core.now + l == d.wake
    case Critical(_, since) => since == d.lock && s.slack == d.slack
    case Leaving => s.core.now + p.rest.lo == d.wake && s.hog.Idling? && s.hog.left > 0
    case Exited => false
  }

  predicate OnRecord(p: Params, holds: seq<Hold>)
    requires Timed(p)
  {
    forall k :: 0 <= k < |holds| ==> holds[k] == Entry(SlotOf(p, k))
  }

  ghost predicate Punctual(p: Params, s: State)
    requires Timed(p)
  {
    HogOnTime(p, s) && HolderOnTime(p, s, SlotOf(p, |s.holds|)) && OnRecord(p, s.holds)
  }

  lemma {:induction false} RecordExtends(p: Params, holds: seq<Hold>)
    requires Timed(p) && OnRecord(p, holds)
    ensures OnRecord(p, holds + [Entry(SlotOf(p, |holds|))])
  {
  }

  lemma {:induction false} HogTicks(p: Params, s: State, n: nat)
    requires Timed(p) && HogOnTime(p, s) && TimePasses(p, s.core, DemandOf(s.hog))
    ensures HogOnTime(p, Step(p, s, n)) && s.hog.left > 0
  {
    var j: nat :| OnTime(p, s.core.now, s.hog, j);
    assert OnTime(p, s.core.now + 1, HogTick(s.hog), j);
  }

  lemma {:induction false} HogActs(p: Params, s: State, n: nat)
    requires Timed(p) && HogOnTime(p, s) && s.core.running
    requires !TimePasses(p, s.core, DemandOf(s.hog))
    ensures HogOnTime(p, Step(p, s, n))
  {
    var j: nat :| OnTime(p, s.core.now, s.hog, j);
    var t := Step(p, s, n);
    if Who(p, s.core, DemandOf(s.hog)).MiddleRuns? {
      assert (j + 1) * Period(p) == j * Period(p) + Period(p);
      assert OnTime(p, t.core.now, t.hog, if s.hog.Idling? then j else j + 1);
    } else {
      assert OnTime(p, t.core.now, t.hog, j);
    }
  }

  lemma {:induction false} HolderTicks(p: Params, s: State, n: nat, d: Slot)
    requires Timed(p) && HogOnTime(p, s) && HolderOnTime(p, s, d) && d.lock == NextSleep(p, d.wake)
    requires TimePasses(p, s.core, DemandOf(s.hog))
    ensures HolderOnTime(p, Step(p, s, n), d)
  {
    HogTicks(p, s, n);
    var t := Step(p, s, n);
    if s.core.holder == Resting(1) {
      var j: nat :| OnTime(p, t.core.now, t.hog, j);
      SleepsNext(p, t.core.now, t.hog, j);
    }
  }

  lemma {:induction false} HolderLocks(p: Params, s: State, n: nat, d: Slot)
    requires Timed(p) && HogOnTime(p, s) && HolderOnTime(p, s, d) && d.lock >= p.burst.lo
    requires d.slack == SlackAt(p, d.lock) && s.core.running
    requires Who(p, s.core, DemandOf(s.hog)).HolderRuns? && s.core.holder.Resting?
    ensures HolderOnTime(p, Step(p, s, n), d) && Step(p, s, n).holds == s.holds
  {
    var j: nat :| OnTime(p, s.core.now, s.hog, j);
    SlackAsleep(p, s.core.now, s.hog, j);
  }

  lemma {:induction false} HolderUnlocks(p: Params, s: State, n: nat, d: Slot, next: Slot)
    requires p.Valid() && Timed(p) && Holding(p, s) && HolderOnTime(p, s, d) && s.core.running
    requires d.unlock == d.lock + HoldTicks(p.work, d.slack, p.burst.lo, p.idle.lo)
    requires next.wake == d.unlock + p.rest.lo
    requires Who(p, s.core, DemandOf(s.hog)).HolderRuns? && s.core.holder.Critical? && s.core.holder.left == 0
    requires s.hog.Idling?
    ensures HolderOnTime(p, Step(p, s, n), next) && Step(p, s, n).holds == s.holds + [Entry(d)]
  {
  }

  lemma {:induction false} HolderActs(p: Params, s: State, n: nat, d: Slot, next: Slot)
    requires p.Valid() && Timed(p) && Holding(p, s) && s.core.running
    requires HogOnTime(p, s) && HolderOnTime(p, s, d)
    requires d == SlotFrom(p, d.wake) && next.wake == d.unlock + p.rest.lo
    requires !TimePasses(p, s.core, DemandOf(s.hog)) && Who(p, s.core, DemandOf(s.hog)).HolderRuns?
    ensures var t := Step(p, s, n);
            if s.core.holder.Critical? then HolderOnTime(p, t, next) && t.holds == s.holds + [Entry(d)]
            else HolderOnTime(p, t, d) && t.holds == s.holds
  {
    match s.core.holder
    case Resting(_) => HolderLocks(p, s, n, d);
    case Critical(_, _) => HolderUnlocks(p, s, n, d, next);
    case Leaving => HolderSleeps(p, s, n, d);
  }

  lemma {:induction false} HolderSleeps(p: Params, s: State, n: nat, d: Slot)
    requires p.Exact() && HogOnTime(p, s) && HolderOnTime(p, s, d) && s.core.holder.Leaving?
    requires Timed(p) && d.lock == NextSleep(p, d.wake)
    requires Who(p, s.core, DemandOf(s.hog)).HolderRuns?
    ensures HolderOnTime(p, Step(p, s, n), d) && Step(p, s, n).holds == s.holds
  {
    var j: nat :| OnTime(p, s.core.now, s.hog, j);
    SlackAsleep(p, s.core.now, s.hog, j);
  }

  lemma {:induction false} HolderWaits(p: Params, s: State, n: nat, d: Slot)
    requires Timed(p) && HolderOnTime(p, s, d) && s.core.running && !s.hog.Stopped?
    requires !TimePasses(p, s.core, DemandOf(s.hog)) && !Who(p, s.core, DemandOf(s.hog)).HolderRuns?
    ensures HolderOnTime(p, Step(p, s, n), d) && Step(p, s, n).holds == s.holds
  {
  }

  lemma {:induction false} PunctualStep(p: Params, s: State, n: nat)
    requires p.Valid() && Timed(p) && Holding(p, s) && s.core.running && Punctual(p, s)
    ensures Step(p, s, n).core.running ==> Punctual(p, Step(p, s, n))
  {
    var mid, d := DemandOf(s.hog), SlotOf(p, |s.holds|);
    if TimePasses(p, s.core, mid) {
      HogTicks(p, s, n);
      HolderTicks(p, s, n, d);
      assert Step(p, s, n).holds == s.holds;
    } else if Who(p, s.core, mid).HolderRuns? {
      HogActs(p, s, n);
      HolderActs(p, s, n, d, SlotOf(p, |s.holds| + 1));
      RecordExtends(p, s.holds);
    } else {
      HogActs(p, s, n);
      HolderWaits(p, s, n, d);
    }
  }

  /** While the program runs, its holds so far are those of the timetable. */
  lemma {:induction false} HoldsKeepTheTimetable(p: Params, ns: seq<nat>)
    requires p.Valid() && Timed(p)
    ensures Run(p, ns).core.running ==> Punctual(p, Run(p, ns))
  {
    if ns == [] {
      assert OnTime(p, 0, Idling(0), 0);
      SleepsNext(p, 0, Idling(0), 0);
    } else {
      var s, n := Run(p, ns[..|ns| - 1]), ns[|ns| - 1];
      HoldsKeepTheTimetable(p, ns[..|ns| - 1]);
      HoldInvariant(p, ns[..|ns| - 1]);
      RunningBefore(p, s, n);
      if s.core.running {
        PunctualStep(p, s, n);
      }
    }
  }

  lemma {:induction false} RunningBefore(p: Params, s: State, n: nat)
    ensures Step(p, s, n).core.running ==> s.core.running
  {
  }

  // ---- Which holds are caught ----

  /** The hog wakes up before the work of the hold is done. */
  predicate Overruns(p: Params, d: Slot) { d.slack.Until? && d.slack.left <= p.work }

  lemma {:induction false} NextSleepClock(p: Params, t: nat)
    requires Timed(p) && t >= p.burst.lo
    ensures Clock(p, NextSleep(p, t)) == if Clock(p, t) < p.idle.lo then Clock(p, t) else 0
  {
    if Clock(p, t) >= p.idle.lo {
      var q := (t - p.burst.lo) / Period(p);
      assert t - p.burst.lo == Period(p) * q + Clock(p, t);
      DivMonotone(0, t - p.burst.lo, Period(p));
      assert (q + 1) * Period(p) == Period(p) * q + Period(p);
      ClockIs(p, NextSleep(p, t), q + 1, 0);
    }
  }

  lemma {:induction false} LocksAsleep(p: Params, wake: nat)
    requires Timed(p)
    ensures Clock(p, SlotFrom(p, wake).lock) < p.idle.lo
    ensures SlotFrom(p, wake).slack == Until(p.idle.lo - Clock(p, SlotFrom(p, wake).lock))
  {
    if wake < p.burst.lo {
      ClockIs(p, p.burst.lo, 0, 0);
    } else {
      NextSleepClock(p, wake);
    }
  }

  /** A hold lasts exactly its work unless it is caught, and then at least a burst longer. */
  lemma {:induction false} SlotLength(p: Params, wake: nat)
    requires Timed(p)
    ensures var d := SlotFrom(p, wake);
            && d.slack.Until? && 1 <= d.slack.left <= p.idle.lo
            && (if Overruns(p, d) then d.unlock >= d.lock + p.work + p.burst.lo else d.unlock == d.lock + p.work)
  {
    LocksAsleep(p, wake);
    var d := SlotFrom(p, wake);
    if Overruns(p, d) {
      MulMonotone(1, Bursts(p.work, d.slack.left, p.idle.lo), p.burst.lo);
    }
  }

  lemma {:induction false} SlotBounded(p: Params, wake: nat)
    requires Timed(p)
    ensures SlotFrom(p, wake).lock <= wake + Period(p)
  {
  }

  /** A section shorter than the hog's sleep meets at most one burst. */
  lemma {:induction false} ShortSlot(p: Params, wake: nat)
    requires Timed(p) && p.work < p.idle.lo
    ensures var d := SlotFrom(p, wake);
            d.unlock == d.lock + p.work + if Overruns(p, d) then p.burst.lo else 0
  {
    SlotLength(p, wake);
    var d := SlotFrom(p, wake);
    if Overruns(p, d) {
      DivUnique(p.work - d.slack.left, p.idle.lo, 0);
    }
  }

  /** How much further into the hog's sleep the holder locks each time, if nothing stops it. */
  function Drift(p: Params): nat
    requires Timed(p)
  {
    (p.work + p.rest.lo) % Period(p)
  }

  lemma {:induction false} ClockAdds(p: Params, t: nat, delta: nat)
    requires Timed(p) && t >= p.burst.lo
    ensures Clock(p, t + delta) == (Clock(p, t) + delta % Period(p)) % Period(p)
  {
    assert t + delta - p.burst.lo == (t - p.burst.lo) + delta;
    ModAdds(t - p.burst.lo, delta, Period(p));
  }

  /** Where in the hog's period the holder wakes up after k holds that are not caught. */
  function Phase(p: Params, k: nat): (c: nat)
    requires Timed(p)
    ensures c < Period(p)
  {
    (k * Drift(p)) % Period(p)
  }

  /** After k holds, each begun straight after the rest, the section does not fit any more. */
  predicate Lands(p: Params, k: nat)
    requires Timed(p)
  {
    && p.idle.lo - p.work <= Phase(p, k) < p.idle.lo
    && forall j: nat :: j < k ==> Phase(p, j) < p.idle.lo
  }

  lemma {:induction false} PhaseZero(p: Params)
    requires Timed(p)
    ensures Phase(p, 0) == 0
  {
    DivUnique(0, Period(p), 0);
  }

  lemma {:induction false} PhaseAdds(p: Params, k: nat)
    requires Timed(p)
    ensures Phase(p, k + 1) == (Phase(p, k) + Drift(p)) % Period(p)
  {
    ModAdds(k * Drift(p), Drift(p), Period(p));
    DivUnique(Drift(p), Period(p), 0);
    assert (k + 1) * Drift(p) == k * Drift(p) + Drift(p);
  }

  /** After a hold that is not caught the next one begins a drift later in the hog's period, or afresh if
      that is in the burst. */
  lemma {:induction false} NextClock(p: Params, d: Slot, next: Slot)
    requires Timed(p) && d == SlotFrom(p, d.wake) && !Overruns(p, d)
    requires next == SlotFrom(p, d.unlock + p.rest.lo)
    ensures var c := (Clock(p, d.lock) + Drift(p)) % Period(p);
            && Clock(p, next.lock) == (if c < p.idle.lo then c else 0)
            && (c < p.idle.lo ==> next.lock == d.unlock + p.rest.lo)
  {
    SlotLength(p, d.wake);
    ClockAdds(p, d.lock, p.work + p.rest.lo);
    assert next.wake == d.lock + (p.work + p.rest.lo);
    NextSleepClock(p, next.wake);
  }

  /** The clock is at a phase before which none was in the burst, and at which the section fits. */
  predicate At(p: Params, d: Slot, m: nat)
    requires Timed(p) && d.lock >= p.burst.lo
  {
    && Clock(p, d.lock) == Phase(p, m) < p.idle.lo - p.work
    && forall j: nat :: j <= m ==> Phase(p, j) < p.idle.lo
  }

  lemma {:induction false} StaysClear(p: Params, d: Slot, next: Slot, m: nat) returns (m': nat)
    requires Timed(p) && d == SlotFrom(p, d.wake) && next == SlotFrom(p, d.unlock + p.rest.lo)
    requires At(p, d, m) && !Lands(p, 0) && !Lands(p, m + 1)
    ensures At(p, next, m')
  {
    LocksAsleep(p, d.wake);
    NextClock(p, d, next);
    PhaseAdds(p, m);
    PhaseZero(p);
    m' := if Phase(p, m + 1) < p.idle.lo then m + 1 else 0;
  }

  /** Without a landing no hold is caught. */
  lemma {:induction false} DriftsClear(p: Params, i: nat) returns (m: nat)
    requires Timed(p) && forall k: nat :: !Lands(p, k)
    ensures At(p, SlotOf(p, i), m)
    ensures !Overruns(p, SlotOf(p, i))
  {
    if i == 0 {
      m := 0;
      PhaseZero(p);
      assert !Lands(p, 0);
      ClockIs(p, SlotOf(p, 0).lock, 0, 0);
    } else {
      var m' := DriftsClear(p, i - 1);
      m := StaysClear(p, SlotOf(p, i - 1), SlotOf(p, i), m');
    }
    LocksAsleep(p, SlotOf(p, i).wake);
  }

  lemma {:induction false} FirstLock(p: Params)
    requires Timed(p)
    ensures SlotOf(p, 0).lock == p.burst.lo && Clock(p, p.burst.lo) == 0
  {
    ClockIs(p, p.burst.lo, 0, 0);
    if p.burst.lo == 0 { NextSleepClock(p, 0); }
  }

  /** Until the first landing, hold number i begins at phase i, straight after the rest. */
  lemma {:induction false} PhasesTo(p: Params, k: nat, i: nat)
    requires Timed(p) && i <= k && forall j: nat :: j <= k ==> Phase(p, j) < p.idle.lo
    requires forall j: nat :: j < k ==> !Lands(p, j)
    ensures Clock(p, SlotOf(p, i).lock) == Phase(p, i)
    ensures SlotOf(p, i).lock == p.burst.lo + i * (p.work + p.rest.lo)
    ensures Overruns(p, SlotOf(p, i)) <==> Lands(p, i)
  {
    if i == 0 {
      PhaseZero(p);
      FirstLock(p);
    } else {
      PhasesTo(p, k, i - 1);
      PhaseStep(p, SlotOf(p, i - 1), SlotOf(p, i), i - 1);
      assert i * (p.work + p.rest.lo) == (i - 1) * (p.work + p.rest.lo) + (p.work + p.rest.lo);
    }
    LocksAsleep(p, SlotOf(p, i).wake);
  }

  lemma {:induction false} PhaseStep(p: Params, d: Slot, next: Slot, m: nat)
    requires Timed(p) && d == SlotFrom(p, d.wake) && next == SlotFrom(p, d.unlock + p.rest.lo)
    requires !Overruns(p, d) && Clock(p, d.lock) == Phase(p, m) && Phase(p, m + 1) < p.idle.lo
    ensures Clock(p, next.lock) == Phase(p, m + 1)
    ensures next.lock == d.lock + (p.work + p.rest.lo)
  {
    NextClock(p, d, next);
    PhaseAdds(p, m);
    SlotLength(p, d.wake);
  }

  lemma {:induction false} FirstLanding(p: Params, k: nat) returns (first: nat)
    requires Timed(p) && Lands(p, k)
    ensures first <= k && Lands(p, first) && forall j: nat :: j < first ==> !Lands(p, j)
  {
    if j: nat :| j < k && Lands(p, j) {
      first := FirstLanding(p, j);
    } else {
      first := k;
    }
  }

  /** The phases repeat after one period's worth of holds. */
  lemma {:induction false} PhasesRepeat(p: Params, k: nat)
    requires Timed(p)
    ensures Phase(p, k + Period(p)) == Phase(p, k)
  {
    var P, a := Period(p), k * Drift(p);
    assert (k + P) * Drift(p) == a + P * Drift(p);
    var q := a / P;
    assert a == P * q + a % P && P * (q + Drift(p)) == P * q + P * Drift(p);
    DivUnique((k + P) * Drift(p), P, q + Drift(p));
  }

  lemma {:induction false} LandsBefore(p: Params, k: nat)
    requires Timed(p) && Lands(p, k) && k >= Period(p)
    ensures Lands(p, k - Period(p))
  {
    PhasesRepeat(p, k - Period(p));
  }

  lemma {:induction false} LandsWithinPeriod(p: Params, k: nat)
    requires Timed(p) && Lands(p, k) && forall j: nat :: j < k ==> !Lands(p, j)
    ensures k < Period(p)
  {
    if k >= Period(p) {
      LandsBefore(p, k);
    }
  }

  /** Some hold of the timetable is caught exactly when the phases land, which the first period's worth of
      them shows: a window longer than the section is not enough. */
  lemma {:induction false} CaughtIffDriftLands(p: Params)
    requires Timed(p)
    ensures (exists i: nat :: Overruns(p, SlotOf(p, i))) <==> exists k: nat :: k < Period(p) && Lands(p, k)
  {
    if k: nat :| Lands(p, k) {
      var first := FirstLanding(p, k);
      LandsWithinPeriod(p, first);
      PhasesTo(p, first, first);
    } else {
      forall i: nat ensures !Overruns(p, SlotOf(p, i)) {
        var m := DriftsClear(p, i);
      }
    }
  }

  // ---- Small drifts ----

  /** The k-th multiple of the drift falls where the section does not fit any more. */
  predicate Hits(p: Params, k: nat)
    requires Timed(p)
  {
    p.idle.lo - p.work <= k * Drift(p) < p.idle.lo
  }

  lemma {:induction false} PhaseOfSmall(p: Params, k: nat, j: nat)
    requires Timed(p) && j <= k && k * Drift(p) < p.idle.lo
    ensures Phase(p, j) == j * Drift(p) < p.idle.lo
  {
    MulMonotone(j, k, Drift(p));
    DivUnique(j * Drift(p), Period(p), 0);
  }

  lemma {:induction false} HitsLand(p: Params, k: nat, j: nat)
    requires Timed(p) && j <= k && k * Drift(p) < p.idle.lo
    ensures Hits(p, j) <==> Lands(p, j)
  {
    forall i: nat | i <= j ensures Phase(p, i) == i * Drift(p) < p.idle.lo {
      PhaseOfSmall(p, k, i);
    }
  }

  /** Until the first hit, hold number i begins i drifts into the hog's sleep, straight after the rest. */
  lemma {:induction false} DriftsTo(p: Params, k: nat, i: nat)
    requires Timed(p) && i <= k && k * Drift(p) < p.idle.lo
    requires forall j: nat :: j < k ==> !Hits(p, j)
    ensures Clock(p, SlotOf(p, i).lock) == i * Drift(p)
    ensures SlotOf(p, i).lock == p.burst.lo + i * (p.work + p.rest.lo)
    ensures Overruns(p, SlotOf(p, i)) <==> Hits(p, i)
  {
    forall j: nat | j <= k ensures Phase(p, j) == j * Drift(p) < p.idle.lo && (Hits(p, j) <==> Lands(p, j)) {
      PhaseOfSmall(p, k, j);
      HitsLand(p, k, j);
    }
    PhasesTo(p, k, i);
  }

  /** A drift into the burst, or none at all, never lands a section shorter than the hog's sleep. */
  lemma {:induction false} LargeDriftMisses(p: Params, k: nat)
    requires Timed(p) && p.work < p.idle.lo && (Drift(p) == 0 || Drift(p) >= p.idle.lo)
    ensures !Lands(p, k)
  {
    PhaseZero(p);
    if Drift(p) == 0 {
      assert k * Drift(p) == 0;
    } else {
      DivUnique(1 * Drift(p), Period(p), 0);
      assert Phase(p, 1) >= p.idle.lo;
    }
  }

  // ---- What every run shows ----

  predicate WaitsWithin(p: Params, c: Core) {
    && (c.control.Granted? ==> c.now - c.control.ask.at <= p.work)
    && forall k :: 0 <= k < |c.waits| ==> c.waits[k].Elapsed() <= p.work
  }

  lemma {:induction false} WaitsWithinStep(p: Params, s: State, n: nat, d: Slot)
    requires p.Valid() && Timed(p) && Shape(p, s.core) && Holding(p, s) && WaitsWithin(p, s.core)
    requires d == SlotFrom(p, d.wake) && !Overruns(p, d)
    requires s.core.running ==> HolderOnTime(p, s, d) && !s.hog.Stopped?
    ensures WaitsWithin(p, Step(p, s, n).core)
  {
    SlotLength(p, d.wake);
  }

  /** If no hold of the timetable overruns, every hold of every run lasts exactly its work and no wait
      exceeds it. */
  lemma {:induction false} NoOverrunNoInversion(p: Params, ns: seq<nat>)
    requires p.Valid() && Timed(p) && forall i: nat :: !Overruns(p, SlotOf(p, i))
    ensures WaitsWithin(p, Run(p, ns).core)
    ensures Run(p, ns).core.running ==> forall h :: h in Run(p, ns).holds ==> h.Length() == p.work
  {
    HoldInvariant(p, ns);
    HoldsKeepTheTimetable(p, ns);
    if ns != [] {
      var s := Run(p, ns[..|ns| - 1]);
      NoOverrunNoInversion(p, ns[..|ns| - 1]);
      HoldInvariant(p, ns[..|ns| - 1]);
      HoldsKeepTheTimetable(p, ns[..|ns| - 1]);
      WaitsWithinStep(p, s, ns[|ns| - 1], SlotOf(p, |s.holds|));
    }
    if Run(p, ns).core.running {
      AllLast(p, Run(p, ns).holds);
    }
  }

  lemma {:induction false} AllLast(p: Params, holds: seq<Hold>)
    requires Timed(p) && OnRecord(p, holds) && forall i: nat :: !Overruns(p, SlotOf(p, i))
    ensures forall h :: h in holds ==> h.Length() == p.work
  {
    forall h | h in holds ensures h.Length() == p.work {
      var k :| 0 <= k < |holds| && holds[k] == h;
      SlotLength(p, SlotOf(p, k).wake);
      assert !Overruns(p, SlotOf(p, k));
    }
  }

  /** The control loop sleeps a pause after every wait. */
  predicate Paced(p: Params, c: Core) {
    match c.control
    case Unborn => c.waits == []
    case Pausing(l) => |c.waits| * p.pause.lo <= c.now + l
    case Finished => p.cycles * p.pause.lo <= c.now
    case _ => |c.waits| * p.pause.lo <= c.now
  }

  lemma {:induction false} PacedStep(p: Params, c: Core, mid: Demand, n: nat)
    requires p.Valid() && p.Exact() && Shape(p, c) && Paced(p, c)
    ensures Paced(p, CoreStep(p, c, mid, n))
  {
    if c.control.Granted? {
      assert (|c.waits| + 1) * p.pause.lo == |c.waits| * p.pause.lo + p.pause.lo;
    }
  }

  lemma {:induction false} SlotsGrow(p: Params, i: nat, k: nat)
    requires Timed(p) && i <= k
    ensures SlotOf(p, i).unlock <= SlotOf(p, k).unlock
  {
    if i < k {
      SlotsGrow(p, i, k - 1);
      SlotLength(p, SlotOf(p, k).wake);
    }
  }

  lemma {:induction false} NotPast(p: Params, s: State, d: Slot)
    requires p.Valid() && Timed(p) && Holding(p, s) && s.core.running && HolderOnTime(p, s, d)
    requires d == SlotFrom(p, d.wake) && !s.hog.Stopped?
    ensures s.core.now <= d.unlock
  {
    SlotLength(p, d.wake);
  }

  /** The first holds up to number k are those of the timetable. */
  predicate Through(p: Params, holds: seq<Hold>, k: nat)
    requires Timed(p)
  {
    k < |holds| && forall j :: 0 <= j <= k ==> holds[j] == Entry(SlotOf(p, j))
  }

  lemma {:induction false} ThroughByNow(p: Params, s: State, k: nat)
    requires p.Valid() && Timed(p) && Holding(p, s) && s.core.running && Punctual(p, s)
    requires SlotOf(p, k).unlock < s.core.now
    ensures Through(p, s.holds, k)
  {
    var i := |s.holds|;
    if i <= k {
      SlotsGrow(p, i, k);
      NotPast(p, s, SlotOf(p, i));
      assert false;
    }
  }

  lemma {:induction false} FinishesRunning(p: Params, s: State, n: nat)
    requires Shape(p, s.core) && Step(p, s, n).core.control.Finished? && !s.core.control.Finished?
    ensures s.core.running && s.core.now == Step(p, s, n).core.now && Step(p, s, n).holds == s.holds
  {
  }

  lemma {:induction false} HoldsOnlyGrow(p: Params, s: State, n: nat)
    ensures s.holds <= Step(p, s, n).holds
  {
  }

  /** Every run in which the control loop finishes contains all holds of the timetable that fit before
      its pauses are over. */
  lemma {:induction false} HoldsByFinish(p: Params, k: nat, ns: seq<nat>)
    requires p.Valid() && Timed(p) && SlotOf(p, k).unlock < p.cycles * p.pause.lo
    ensures Shape(p, Run(p, ns).core) && Paced(p, Run(p, ns).core)
    ensures Run(p, ns).core.control.Finished? ==> Through(p, Run(p, ns).holds, k)
  {
    HoldInvariant(p, ns);
    if ns != [] {
      var before, n := ns[..|ns| - 1], ns[|ns| - 1];
      var s := Run(p, before);
      HoldsByFinish(p, k, before);
      HoldInvariant(p, before);
      HoldsKeepTheTimetable(p, before);
      PacedStep(p, s.core, DemandOf(s.hog), n);
      if s.core.control.Finished? {
        HoldsOnlyGrow(p, s, n);
      } else if Run(p, ns).core.control.Finished? {
        FinishesRunning(p, s, n);
        ThroughByNow(p, s, k);
      }
    }
  }
}
