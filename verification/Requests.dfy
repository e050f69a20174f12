/**
 Case 06 with exact timings: which holds of the plain mutex the control loop pays for. It starts at the
 first moment at which the holder and the hog both sleep, asks after every pause, and is blocked once
 in every hold during which it still asks; after that it asks one pause after the release.
*/
module Requests {
  import opened Arith
  import opened Scheduler
  import opened Inheritance
  import opened PlainMutex
  import opened Inversion
  import opened Termination
  import opened Timetable

  /** Every hold outlasts a pause, so the control loop cannot miss it. */
  predicate Patient(p: Params) {
    && p.Valid() && Timed(p)
    && (p.pause.lo <= p.work || (p.idle.lo <= p.work && p.pause.lo <= p.work + p.burst.lo))
  }

  lemma {:induction false} HoldOutlastsPause(p: Params, wake: nat)
    requires Patient(p)
    ensures SlotFrom(p, wake).lock + p.pause.lo <= SlotFrom(p, wake).unlock
  {
    SlotLength(p, wake);
  }

  // ---- The start of the control loop ----

  /** The control loop starts after `first` holds, at time `at`. */
  datatype Start = Start(first: nat, at: nat)

  function Max(a: nat, b: nat): nat { if a < b then b else a }

  /** When the launcher can first run after the hold, if the holder does not wake up before. */
  function Candidate(p: Params, d: Slot): nat
    requires Timed(p)
  {
    NextSleep(p, Max(p.startDelay, d.unlock))
  }

  predicate StartsAt(p: Params, st: Start)
    requires Timed(p)
  {
    && st.first >= 1
    && st.at == Candidate(p, SlotOf(p, st.first - 1)) < SlotOf(p, st.first - 1).unlock + p.rest.lo
    && forall i :: 0 <= i < st.first - 1 ==> SlotOf(p, i).unlock + p.rest.lo <= Candidate(p, SlotOf(p, i))
  }

  // ---- What the control loop still asks ----

  /** Requests after the holder takes the lock, when the last is planned for time `plan`. */
  function Due(p: Params, d: Slot, plan: int): nat
    requires Patient(p)
  {
    if plan <= d.lock || p.pause.lo == 0 then 0 else CeilDiv(plan - d.lock, p.pause.lo)
  }

  function NextPlan(p: Params, d: Slot, plan: int): int
    requires Patient(p)
  {
    if Due(p, d, plan) == 0 then plan else d.unlock + (Due(p, d, plan) - 1) * p.pause.lo
  }

  /** When the last request is planned, as hold number i comes up. */
  function PlanOf(p: Params, st: Start, i: nat): int
    requires Patient(p) && i >= st.first
  {
    if i == st.first then st.at + (p.cycles - 1) * p.pause.lo
    else NextPlan(p, SlotOf(p, i - 1), PlanOf(p, st, i - 1))
  }

  function DueOf(p: Params, st: Start, i: nat): nat
    requires Patient(p) && i >= st.first
  {
    Due(p, SlotOf(p, i), PlanOf(p, st, i))
  }

  /** The hog wakes up in hold number i, and the control loop asks during it. */
  predicate Charges(p: Params, st: Start, i: nat)
    requires Patient(p)
  {
    i >= st.first && DueOf(p, st, i) >= 1 && Overruns(p, SlotOf(p, i))
  }

  // ---- The phases of the control loop ----

  /** What a wait may cost when nothing is charged. */
  function Tolerated(p: Params): nat { if p.work < p.idle.lo then p.work else 0 }

  predicate Quiet(p: Params, c: Core) {
    forall k :: 0 <= k < |c.waits| ==> c.waits[k].Elapsed() <= Tolerated(p)
  }

  /** Ticks until the control loop's last request; negative when it is past. */
  function UntilLast(p: Params, c: Core): int {
    (c.cyclesLeft - 1) * p.pause.lo + (if c.control.Pausing? then c.control.left else 0)
  }

  predicate Asking(p: Params, c: Core, plan: int) {
    && !c.holder.Critical? && c.now + UntilLast(p, c) == plan
    && match c.control
       case Pausing(l) => l <= p.pause.lo
       case Granted(ask) => c.now - ask.at <= Tolerated(p)
       case _ => false
  }

  predicate InHold(p: Params, c: Core, d: Slot, k: nat) {
    && c.holder.Critical? && c.cyclesLeft == k >= 1
    && match c.control
       case Pausing(l) => c.now + l <= d.lock + p.pause.lo
       case Blocked(ask) => d.lock <= ask.at <= d.lock + p.pause.lo
       case _ => false
  }

  predicate Collected(p: Params, c: Core) {
    c.control.Granted? && c.now - c.control.ask.at >= Price(p)
  }

  lemma {:induction false} AskingTicks(p: Params, s: State, n: nat, plan: int)
    requires Patient(p) && Asking(p, s.core, plan) && Quiet(p, s.core)
    requires TimePasses(p, s.core, DemandOf(s.hog))
    ensures Asking(p, Step(p, s, n).core, plan) && Quiet(p, Step(p, s, n).core)
  {
  }

  lemma {:induction false} AskingActs(p: Params, s: State, n: nat, plan: int)
    requires Patient(p) && Asking(p, s.core, plan) && Quiet(p, s.core) && s.core.control == Pausing(0)
    ensures var c := Step(p, s, n).core;
            Quiet(p, c) && (Asking(p, c, plan) || (Spent(c) && plan <= s.core.now))
  {
    if s.core.cyclesLeft == 0 {
      assert UntilLast(p, s.core) == 0 - p.pause.lo;
    }
  }

  lemma {:induction false} AskingRecords(p: Params, s: State, n: nat, plan: int)
    requires Patient(p) && Shape(p, s.core) && Asking(p, s.core, plan) && Quiet(p, s.core)
    requires s.core.control.Granted?
    ensures Quiet(p, Step(p, s, n).core) && Asking(p, Step(p, s, n).core, plan)
  {
    var k, c := s.core.cyclesLeft, Step(p, s, n).core;
    assert (k - 1) * p.pause.lo == (k - 2) * p.pause.lo + p.pause.lo;
    assert c.control == Pausing(p.pause.lo) && c.cyclesLeft == k - 1;
    assert UntilLast(p, c) == UntilLast(p, s.core);
  }

  /** The holder takes the lock: the requests still to come, or none. */
  lemma {:induction false} LockTaken(p: Params, s: State, n: nat, d: Slot, plan: int)
    requires Patient(p) && Asking(p, s.core, plan) && Quiet(p, s.core)
    requires s.core.holder == Resting(0) && s.core.running && s.core.now == d.lock
    requires Who(p, s.core, DemandOf(s.hog)).HolderRuns?
    ensures var c := Step(p, s, n).core;
            Quiet(p, c) && if Due(p, d, plan) == 0 then Spent(c) else InHold(p, c, d, Due(p, d, plan))
  {
    var k, l, q := s.core.cyclesLeft, s.core.control.left, p.pause.lo;
    if k == 0 {
      assert UntilLast(p, s.core) + q == l;
    } else {
      assert (k - 1) * q >= 0;
      CeilIs((k - 1) * q + l, q, k);
    }
  }

  lemma {:induction false} CeilIs(a: nat, d: pos, k: nat)
    requires k >= 1 && (k - 1) * d < a <= (k - 1) * d + d
    ensures CeilDiv(a, d) == k
  {
    assert (k - 1) * d + d == k * d;
    DivUnique(a + d - 1, d, k);
  }

  lemma {:induction false} InHoldStep(p: Params, s: State, n: nat, d: Slot, k: nat)
    requires Patient(p) && InHold(p, s.core, d, k) && Quiet(p, s.core) && d.lock <= s.core.now
    requires s.core.holder.left > 0 || !Who(p, s.core, DemandOf(s.hog)).HolderRuns?
    ensures InHold(p, Step(p, s, n).core, d, k) && Quiet(p, Step(p, s, n).core)
  {
  }

  /** The release: a caught hold is charged to the control loop, another costs no more than its work. */
  lemma {:induction false} Released(p: Params, s: State, n: nat, d: Slot, k: nat)
    requires Patient(p) && InHold(p, s.core, d, k) && Quiet(p, s.core)
    requires d == SlotFrom(p, d.wake) && s.core.now == d.unlock
    requires s.core.holder.left == 0 && Who(p, s.core, DemandOf(s.hog)).HolderRuns?
    ensures var c := Step(p, s, n).core;
            if Overruns(p, d) then Collected(p, c)
            else Asking(p, c, d.unlock + (k - 1) * p.pause.lo) && Quiet(p, c)
  {
    HoldOutlastsPause(p, d.wake);
    SlotLength(p, d.wake);
  }

  // ---- Before the control loop starts ----

  lemma {:induction false} SleepIsNext(p: Params, m: nat, t: nat)
    requires Timed(p) && m <= t <= NextSleep(p, m)
    ensures NextSleep(p, t) == NextSleep(p, m)
  {
    if p.burst.lo <= m < t {
      var q := (m - p.burst.lo) / Period(p);
      DivMonotone(0, m - p.burst.lo, Period(p));
      assert m - p.burst.lo == Period(p) * q + Clock(p, m);
      if t < NextSleep(p, m) {
        ClockIs(p, t, q, Clock(p, m) + (t - m));
      } else {
        NextSleepClock(p, m);
      }
    } else if m < p.burst.lo == t {
      ClockIs(p, t, 0, 0);
    }
  }

  predicate Asleep(h: Holder) { h.Leaving? || (h.Resting? && h.left > 0) }

  /** `prev` is the hold just over. */
  predicate Unstarted(p: Params, s: State, i: nat, first: nat, prev: Slot)
    requires Timed(p)
  {
    var c := s.core;
    && c.control.Unborn? && c.cyclesLeft == p.cycles && c.waits == [] && i <= first
    && c.launcher.Starting?
    && (if c.launcher.left > 0 then c.now + c.launcher.left == p.startDelay else c.now >= p.startDelay)
    && (i == first ==> Asleep(c.holder))
    && (Asleep(c.holder) ==> prev.unlock <= c.now <= Candidate(p, prev))
  }

  lemma {:induction false} UnstartedTicks(p: Params, s: State, n: nat, i: nat, first: nat, prev: Slot, d: Slot)
    requires p.Valid() && Timed(p) && Unstarted(p, s, i, first, prev) && HogOnTime(p, s) && HolderOnTime(p, s, d)
    requires d.wake == prev.unlock + p.rest.lo || !Asleep(s.core.holder)
    requires i == first ==> Candidate(p, prev) < d.wake
    requires TimePasses(p, s.core, DemandOf(s.hog))
    ensures Unstarted(p, Step(p, s, n), i, first, prev)
  {
    if Asleep(s.core.holder) {
      var now, m := s.core.now, Max(p.startDelay, prev.unlock);
      var j: nat :| OnTime(p, now, s.hog, j);
      SleepsNext(p, now, s.hog, j);
      if m <= now {
        SleepIsNext(p, m, now);
      }
    }
  }

  lemma {:induction false} UnstartedLaunches(p: Params, s: State, n: nat, i: nat, first: nat, prev: Slot)
    requires Patient(p) && Unstarted(p, s, i, first, prev) && HogOnTime(p, s)
    requires Asleep(s.core.holder) && s.core.running
    requires Who(p, s.core, DemandOf(s.hog)).LauncherRuns?
    ensures s.core.now == Candidate(p, prev)
    ensures var c := Step(p, s, n).core;
            Asking(p, c, s.core.now + (p.cycles - 1) * p.pause.lo) && Quiet(p, c)
  {
    var j: nat :| OnTime(p, s.core.now, s.hog, j);
    SlackAsleep(p, s.core.now, s.hog, j);
    SleepIsNext(p, Max(p.startDelay, prev.unlock), s.core.now);
  }

  lemma {:induction false} UnstartedActs(p: Params, s: State, n: nat, i: nat, first: nat, prev: Slot)
    requires p.Valid() && Timed(p) && Unstarted(p, s, i, first, prev) && s.core.running
    requires !TimePasses(p, s.core, DemandOf(s.hog)) && !Who(p, s.core, DemandOf(s.hog)).LauncherRuns?
    requires !(s.core.holder.Critical? && Who(p, s.core, DemandOf(s.hog)).HolderRuns?)
    requires i == first ==> p.rest.lo > 0
    ensures Unstarted(p, Step(p, s, n), i, first, prev)
  {
  }

  lemma {:induction false} UnstartedUnlocks(p: Params, s: State, n: nat, i: nat, first: nat, prev: Slot, d: Slot)
    requires p.Valid() && Timed(p) && Unstarted(p, s, i, first, prev)
    requires s.core.holder.Critical? && s.core.now == d.unlock
    requires !TimePasses(p, s.core, DemandOf(s.hog)) && Who(p, s.core, DemandOf(s.hog)).HolderRuns?
    ensures Unstarted(p, Step(p, s, n), i + 1, first, d)
  {
  }

  // ---- Every run keeps to the plan ----

  ghost predicate Owed(p: Params, st: Start)
    requires Patient(p)
  {
    exists i: nat :: Charges(p, st, i)
  }

  /** Nothing was charged before hold number i. */
  predicate FreeSoFar(p: Params, st: Start, i: nat)
    requires Patient(p)
  {
    forall k :: 0 <= k < i ==> !Charges(p, st, k)
  }

  predicate Live(p: Params, st: Start, s: State)
    requires Patient(p)
  {
    var i := |s.holds|;
    && i >= st.first && Quiet(p, s.core) && FreeSoFar(p, st, i)
    && (Asking(p, s.core, PlanOf(p, st, i)) || InHold(p, s.core, SlotOf(p, i), DueOf(p, st, i)))
  }

  function Previous(p: Params, i: nat): Slot
    requires Timed(p)
  {
    if i == 0 then SlotOf(p, 0) else SlotOf(p, i - 1)
  }

  ghost predicate OnCourse(p: Params, st: Start, s: State)
    requires Patient(p)
  {
    || Unstarted(p, s, |s.holds|, st.first, Previous(p, |s.holds|))
    || Live(p, st, s)
    || (Owed(p, st) && (Paid(p, s.core) || Collected(p, s.core)))
    || (!Owed(p, st) && Quiet(p, s.core) && Spent(s.core))
  }

  /** What a step starts from. */
  ghost predicate Sound(p: Params, s: State)
    requires Patient(p)
  {
    && Shape(p, s.core) && Holding(p, s) && (s.core.running ==> Punctual(p, s))
  }

  /** Once no request is due any more, none will be. */
  lemma {:induction false} NoneLater(p: Params, st: Start, i: nat, k: nat)
    requires Patient(p) && st.first <= i <= k && DueOf(p, st, i) == 0
    ensures DueOf(p, st, k) == 0
  {
    if i < k {
      NoneLater(p, st, i, k - 1);
      SlotLength(p, SlotOf(p, k - 1).wake);
      assert SlotOf(p, k - 1).lock <= SlotOf(p, k).lock;
      assert PlanOf(p, st, k) == PlanOf(p, st, k - 1);
      assert p.pause.lo == 0 || PlanOf(p, st, k - 1) <= SlotOf(p, k - 1).lock;
    }
  }

  lemma {:induction false} NothingOwed(p: Params, st: Start, i: nat)
    requires Patient(p) && st.first <= i && DueOf(p, st, i) == 0 && FreeSoFar(p, st, i)
    ensures !Owed(p, st)
  {
    forall k: nat ensures !Charges(p, st, k) {
      if i <= k { NoneLater(p, st, i, k); }
    }
  }

  /** The time is never past the hold that is coming up. */
  lemma {:induction false} BeforeLock(p: Params, s: State, d: Slot)
    requires Timed(p) && HolderOnTime(p, s, d) && d.wake <= d.lock && !s.core.holder.Critical?
    ensures s.core.now <= d.lock
  {
  }

  lemma {:induction false} PlanPast(p: Params, st: Start, s: State, plan: int)
    requires Patient(p) && Sound(p, s) && s.core.running && Live(p, st, s) && !s.core.holder.Critical?
    requires plan == PlanOf(p, st, |s.holds|) <= s.core.now
    ensures !Owed(p, st)
  {
    BeforeLock(p, s, SlotOf(p, |s.holds|));
    NothingOwed(p, st, |s.holds|);
  }

  lemma {:induction false} LiveAsks(p: Params, st: Start, s: State, n: nat)
    requires Patient(p) && Sound(p, s) && s.core.running && Live(p, st, s) && !s.core.holder.Critical?
    requires TimePasses(p, s.core, DemandOf(s.hog)) || ControlReady(s.core)
    ensures OnCourse(p, st, Step(p, s, n))
  {
    var plan := PlanOf(p, st, |s.holds|);
    assert Step(p, s, n).holds == s.holds;
    if TimePasses(p, s.core, DemandOf(s.hog)) {
      AskingTicks(p, s, n, plan);
    } else if s.core.control.Granted? {
      AskingRecords(p, s, n, plan);
    } else {
      AskingActs(p, s, n, plan);
      if plan <= s.core.now { PlanPast(p, st, s, plan); }
    }
  }

  lemma {:induction false} LiveLocks(p: Params, st: Start, s: State, n: nat)
    requires Patient(p) && Sound(p, s) && s.core.running && Live(p, st, s) && s.core.holder.Resting?
    requires !TimePasses(p, s.core, DemandOf(s.hog)) && Who(p, s.core, DemandOf(s.hog)).HolderRuns?
    ensures OnCourse(p, st, Step(p, s, n))
  {
    var i, d := |s.holds|, SlotOf(p, |s.holds|);
    assert Step(p, s, n).holds == s.holds;
    assert s.core.now == d.lock by {
      assert HolderOnTime(p, s, d) && Delay(p, s.hog) == 0;
    }
    LockTaken(p, s, n, d, PlanOf(p, st, i));
    if DueOf(p, st, i) == 0 {
      NothingOwed(p, st, i);
    }
  }

  lemma {:induction false} FreeOneMore(p: Params, st: Start, i: nat)
    requires Patient(p) && FreeSoFar(p, st, i) && !Charges(p, st, i)
    ensures FreeSoFar(p, st, i + 1)
  {
  }

  /** After the release: the hold is charged, or the control loop goes on asking. */
  lemma {:induction false} AfterRelease(p: Params, st: Start, t: State, i: nat)
    requires Patient(p) && i >= st.first && |t.holds| == i + 1 && FreeSoFar(p, st, i) && DueOf(p, st, i) >= 1
    requires if Overruns(p, SlotOf(p, i)) then Collected(p, t.core)
             else Quiet(p, t.core) && Asking(p, t.core, SlotOf(p, i).unlock + (DueOf(p, st, i) - 1) * p.pause.lo)
    ensures OnCourse(p, st, t)
  {
    if Overruns(p, SlotOf(p, i)) {
      OwedBy(p, st, i);
    } else {
      FreeOneMore(p, st, i);
      PlanFollows(p, st, i);
      LiveAs(p, st, t, PlanOf(p, st, i + 1));
    }
  }

  lemma {:induction false} LiveUnlocks(p: Params, st: Start, s: State, n: nat)
    requires Patient(p) && Sound(p, s) && s.core.running && Live(p, st, s)
    requires s.core.holder.Critical? && s.core.holder.left == 0
    requires !TimePasses(p, s.core, DemandOf(s.hog)) && Who(p, s.core, DemandOf(s.hog)).HolderRuns?
    ensures OnCourse(p, st, Step(p, s, n))
  {
    var i := |s.holds|;
    UnlocksOnTime(p, s, n, SlotOf(p, i));
    Released(p, s, n, SlotOf(p, i), DueOf(p, st, i));
    AfterRelease(p, st, Step(p, s, n), i);
  }

  lemma {:induction false} OwedBy(p: Params, st: Start, i: nat)
    requires Patient(p) && Charges(p, st, i)
    ensures Owed(p, st)
  {
  }

  lemma {:induction false} PlanFollows(p: Params, st: Start, i: nat)
    requires Patient(p) && i >= st.first && DueOf(p, st, i) >= 1
    ensures PlanOf(p, st, i + 1) == SlotOf(p, i).unlock + (DueOf(p, st, i) - 1) * p.pause.lo
  {
  }

  lemma {:induction false} UnlocksOnTime(p: Params, s: State, n: nat, d: Slot)
    requires Patient(p) && Holding(p, s) && s.core.running && HolderOnTime(p, s, d)
    requires d == SlotFrom(p, d.wake) && s.core.holder.Critical? && s.core.holder.left == 0
    requires !s.hog.Stopped? && Who(p, s.core, DemandOf(s.hog)).HolderRuns?
    ensures s.core.now == d.unlock && |Step(p, s, n).holds| == |s.holds| + 1
  {
  }

  lemma {:induction false} LiveStep(p: Params, st: Start, s: State, n: nat)
    requires Patient(p) && Sound(p, s) && s.core.running && Live(p, st, s)
    ensures OnCourse(p, st, Step(p, s, n))
  {
    var mid, i := DemandOf(s.hog), |s.holds|;
    if s.core.holder.Critical? {
      if s.core.holder.left == 0 && Who(p, s.core, mid).HolderRuns? {
        LiveUnlocks(p, st, s, n);
      } else {
        InHoldStep(p, s, n, SlotOf(p, i), DueOf(p, st, i));
        assert Step(p, s, n).holds == s.holds;
      }
    } else if TimePasses(p, s.core, mid) || ControlReady(s.core) {
      LiveAsks(p, st, s, n);
    } else if Who(p, s.core, mid).HolderRuns? && s.core.holder.Resting? {
      LiveLocks(p, st, s, n);
    } else {
      LiveIdles(p, s, n, PlanOf(p, st, i));
    }
  }

  lemma {:induction false} LiveIdles(p: Params, s: State, n: nat, plan: int)
    requires Patient(p) && s.core.running && Asking(p, s.core, plan) && Quiet(p, s.core)
    requires Shape(p, s.core) && !TimePasses(p, s.core, DemandOf(s.hog)) && !ControlReady(s.core)
    requires !(Who(p, s.core, DemandOf(s.hog)).HolderRuns? && s.core.holder.Resting?)
    ensures Asking(p, Step(p, s, n).core, plan) && Quiet(p, Step(p, s, n).core)
    ensures Step(p, s, n).holds == s.holds
  {
  }

  lemma {:induction false} StartFits(p: Params, st: Start)
    requires Patient(p) && StartsAt(p, st)
    ensures p.rest.lo > 0
  {
  }

  lemma {:induction false} FreeAtStart(p: Params, st: Start)
    requires Patient(p)
    ensures FreeSoFar(p, st, st.first)
  {
  }

  /** The next slot follows the previous one, and the start fits in between if it is due there. */
  predicate Follows(p: Params, s: State, i: nat, first: nat, prev: Slot, d: Slot)
    requires Timed(p)
  {
    && HolderOnTime(p, s, d)
    && (d.wake == prev.unlock + p.rest.lo || !Asleep(s.core.holder))
    && (i == first ==> Candidate(p, prev) < d.wake)
  }

  lemma {:induction false} WakesAfter(p: Params, i: nat)
    requires Timed(p)
    ensures SlotOf(p, i).wake == if i == 0 then 0 else Previous(p, i).unlock + p.rest.lo
  {
  }

  lemma {:induction false} SlotsFollow(p: Params, s: State, i: nat, first: nat, prev: Slot, d: Slot)
    requires Timed(p) && p.rest.lo > 0 && HolderOnTime(p, s, d)
    requires d.wake == if i == 0 then 0 else prev.unlock + p.rest.lo
    requires i == first ==> i > 0 && Candidate(p, prev) < prev.unlock + p.rest.lo
    ensures Follows(p, s, i, first, prev, d)
    ensures i == 0 ==> !Asleep(s.core.holder)
  {
  }

  lemma {:induction false} StartFollows(p: Params, st: Start)
    requires Patient(p) && StartsAt(p, st)
    ensures Candidate(p, Previous(p, st.first)) < Previous(p, st.first).unlock + p.rest.lo
  {
  }

  /** The control loop is started, at the planned moment. */
  lemma {:induction false} LaunchIsTimely(p: Params, s: State, n: nat, i: nat, first: nat, prev: Slot, d: Slot)
    requires Patient(p) && Unstarted(p, s, i, first, prev) && Follows(p, s, i, first, prev, d)
    requires HogOnTime(p, s) && s.core.running
    requires s.core.holder.Resting? && s.core.holder.left > 0 && Who(p, s.core, DemandOf(s.hog)).LauncherRuns?
    ensures s.core.now == Candidate(p, prev) < prev.unlock + p.rest.lo && Step(p, s, n).holds == s.holds
    ensures Quiet(p, Step(p, s, n).core)
    ensures Asking(p, Step(p, s, n).core, s.core.now + (p.cycles - 1) * p.pause.lo)
  {
    UnstartedLaunches(p, s, n, i, first, prev);
  }

  lemma {:induction false} LaunchIsFirst(p: Params, st: Start, i: nat, now: nat)
    requires Patient(p) && StartsAt(p, st) && 1 <= i <= st.first
    requires now == Candidate(p, Previous(p, i)) < Previous(p, i).unlock + p.rest.lo
    ensures i == st.first && now == st.at
  {
  }

  lemma {:induction false} UnstartedLaunch(p: Params, st: Start, s: State, n: nat, prev: Slot, d: Slot)
    requires Patient(p) && StartsAt(p, st) && HogOnTime(p, s) && s.core.running
    requires prev == Previous(p, |s.holds|) && |s.holds| > 0
    requires Unstarted(p, s, |s.holds|, st.first, prev) && Follows(p, s, |s.holds|, st.first, prev, d)
    requires s.core.holder.Resting? && s.core.holder.left > 0 && Who(p, s.core, DemandOf(s.hog)).LauncherRuns?
    ensures Live(p, st, Step(p, s, n))
  {
    LaunchIsTimely(p, s, n, |s.holds|, st.first, prev, d);
    LaunchIsFirst(p, st, |s.holds|, s.core.now);
    FreeAtStart(p, st);
    LiveAs(p, st, Step(p, s, n), st.at + (p.cycles - 1) * p.pause.lo);
  }

  lemma {:induction false} LiveAs(p: Params, st: Start, t: State, plan: int)
    requires Patient(p) && |t.holds| >= st.first && FreeSoFar(p, st, |t.holds|) && Quiet(p, t.core)
    requires plan == PlanOf(p, st, |t.holds|) && Asking(p, t.core, plan)
    ensures Live(p, st, t)
  {
  }

  lemma {:induction false} PreviousOf(p: Params, i: nat)
    requires Timed(p)
    ensures Previous(p, i + 1) == SlotOf(p, i)
  {
  }

  lemma {:induction false} UnstartedRelease(p: Params, first: nat, s: State, n: nat)
    requires Patient(p) && Sound(p, s) && s.core.running
    requires Unstarted(p, s, |s.holds|, first, Previous(p, |s.holds|))
    requires s.core.holder.Critical? && Who(p, s.core, DemandOf(s.hog)).HolderRuns?
    requires !TimePasses(p, s.core, DemandOf(s.hog))
    ensures var t := Step(p, s, n);
            Unstarted(p, t, |t.holds|, first, Previous(p, |t.holds|))
  {
    var i := |s.holds|;
    UnlocksOnTime(p, s, n, SlotOf(p, i));
    UnstartedUnlocks(p, s, n, i, first, Previous(p, i), SlotOf(p, i));
    PreviousOf(p, i);
  }

  lemma {:induction false} UnstartedWaits(p: Params, first: nat, s: State, n: nat)
    requires Patient(p) && p.rest.lo > 0 && Sound(p, s) && s.core.running
    requires Unstarted(p, s, |s.holds|, first, Previous(p, |s.holds|))
    requires Follows(p, s, |s.holds|, first, Previous(p, |s.holds|), SlotOf(p, |s.holds|))
    requires TimePasses(p, s.core, DemandOf(s.hog)) || !Who(p, s.core, DemandOf(s.hog)).LauncherRuns?
    ensures var t := Step(p, s, n);
            Unstarted(p, t, |t.holds|, first, Previous(p, |t.holds|))
  {
    var mid, i := DemandOf(s.hog), |s.holds|;
    if s.core.holder.Critical? && !TimePasses(p, s.core, mid) && Who(p, s.core, mid).HolderRuns? {
      UnstartedRelease(p, first, s, n);
    } else if TimePasses(p, s.core, mid) {
      UnstartedTicks(p, s, n, i, first, Previous(p, i), SlotOf(p, i));
      assert Step(p, s, n).holds == s.holds;
    } else {
      UnstartedActs(p, s, n, i, first, Previous(p, i));
      assert Step(p, s, n).holds == s.holds;
    }
  }

  lemma {:induction false} UnstartedStep(p: Params, st: Start, s: State, n: nat)
    requires Patient(p) && StartsAt(p, st) && Sound(p, s) && s.core.running
    requires Unstarted(p, s, |s.holds|, st.first, Previous(p, |s.holds|))
    ensures OnCourse(p, st, Step(p, s, n))
  {
    var i := |s.holds|;
    StartFits(p, st);
    StartFollows(p, st);
    WakesAfter(p, i);
    SlotsFollow(p, s, i, st.first, Previous(p, i), SlotOf(p, i));
    if !TimePasses(p, s.core, DemandOf(s.hog)) && Who(p, s.core, DemandOf(s.hog)).LauncherRuns? {
      UnstartedLaunch(p, st, s, n, Previous(p, i), SlotOf(p, i));
    } else {
      UnstartedWaits(p, st.first, s, n);
    }
  }

  lemma {:induction false} SettledStep(p: Params, st: Start, s: State, n: nat)
    requires Patient(p) && Shape(p, s.core)
    requires || (Owed(p, st) && (Paid(p, s.core) || Collected(p, s.core)))
             || (!Owed(p, st) && Quiet(p, s.core) && Spent(s.core))
    ensures OnCourse(p, st, Step(p, s, n))
  {
    var c, c' := s.core, Step(p, s, n).core;
    if Owed(p, st) && Paid(p, c) {
      var w :| w in c.waits && w.Elapsed() >= Price(p);
      assert w in c'.waits;
    } else if Owed(p, st) {
      var w := Wait(c.control.ask, c.now, c.usage);
      assert w in c'.waits && w.Elapsed() >= Price(p);
    } else {
      SpentStays(p, s, n);
    }
  }

  lemma {:induction false} SpentStays(p: Params, s: State, n: nat)
    requires Shape(p, s.core) && Spent(s.core)
    ensures Spent(Step(p, s, n).core) && Step(p, s, n).core.waits == s.core.waits
  {
  }

  lemma {:induction false} OnCourseStep(p: Params, st: Start, s: State, n: nat)
    requires Patient(p) && StartsAt(p, st) && Sound(p, s) && OnCourse(p, st, s)
    ensures OnCourse(p, st, Step(p, s, n))
  {
    if Unstarted(p, s, |s.holds|, st.first, Previous(p, |s.holds|)) {
      UnstartedStep(p, st, s, n);
    } else if Live(p, st, s) {
      LiveStep(p, st, s, n);
    } else {
      SettledStep(p, st, s, n);
    }
  }

  lemma {:induction false} OnCourseHolds(p: Params, st: Start, ns: seq<nat>)
    requires Patient(p) && StartsAt(p, st)
    ensures Sound(p, Run(p, ns)) && OnCourse(p, st, Run(p, ns))
  {
    HoldInvariant(p, ns);
    HoldsKeepTheTimetable(p, ns);
    if ns != [] {
      OnCourseHolds(p, st, ns[..|ns| - 1]);
      OnCourseStep(p, st, Run(p, ns[..|ns| - 1]), ns[|ns| - 1]);
    }
  }

  /** Until the control loop starts, every run is on the way to the planned start. */
  lemma {:induction false} UnstartedUntilStart(p: Params, st: Start, ns: seq<nat>)
    requires Patient(p) && StartsAt(p, st) && Run(p, ns).core.control.Unborn?
    ensures var s := Run(p, ns); Unstarted(p, s, |s.holds|, st.first, Previous(p, |s.holds|))
  {
    if ns != [] {
      var s, n := Run(p, ns[..|ns| - 1]), ns[|ns| - 1];
      OnCourseHolds(p, st, ns[..|ns| - 1]);
      BornOnce(p, s, n);
      UnstartedUntilStart(p, st, ns[..|ns| - 1]);
      UnstartedNext(p, st, s, n);
    }
  }

  lemma {:induction false} BornOnce(p: Params, s: State, n: nat)
    requires Shape(p, s.core) && Step(p, s, n).core.control.Unborn?
    ensures s.core.control.Unborn? && s.core.running
  {
  }

  /** The next step of a run that has not started: still on the way, or the start, at the planned moment. */
  lemma {:induction false} UnstartedNext(p: Params, st: Start, s: State, n: nat)
    requires Patient(p) && StartsAt(p, st) && Sound(p, s) && s.core.running
    requires Unstarted(p, s, |s.holds|, st.first, Previous(p, |s.holds|))
    ensures var t := Step(p, s, n);
            if t.core.control.Unborn? then Unstarted(p, t, |t.holds|, st.first, Previous(p, |t.holds|))
            else s.core.now == st.at
  {
    var i := |s.holds|;
    StartFits(p, st);
    StartFollows(p, st);
    WakesAfter(p, i);
    SlotsFollow(p, s, i, st.first, Previous(p, i), SlotOf(p, i));
    if !TimePasses(p, s.core, DemandOf(s.hog)) && Who(p, s.core, DemandOf(s.hog)).LauncherRuns? {
      assert s.core.holder.Resting? && s.core.holder.left > 0;
      LaunchIsTimely(p, s, n, i, st.first, Previous(p, i), SlotOf(p, i));
      LaunchIsFirst(p, st, i, s.core.now);
    } else {
      UnstartedWaits(p, st.first, s, n);
    }
  }

  /** In every run the control loop is started at exactly the planned moment. */
  lemma {:induction false} StartsOnTime(p: Params, st: Start, ns: seq<nat>, n: nat)
    requires Patient(p) && StartsAt(p, st)
    requires Run(p, ns).core.control.Unborn? && !Run(p, ns + [n]).core.control.Unborn?
    ensures Run(p, ns).core.now == st.at
  {
    assert (ns + [n])[..|ns|] == ns;
    OnCourseHolds(p, st, ns);
    UnstartedUntilStart(p, st, ns);
    UnstartedNext(p, st, Run(p, ns), n);
  }

  /** What a run of the plain program pays, exactly: a completed run has a wait of at least a section and
      a burst, less one pause, if and only if the control loop still asks in some hold that overruns the
      hog's sleep; otherwise no wait costs more than a section that fits. */
  lemma {:induction false} RequestsDecide(p: Params, st: Start, ns: seq<nat>)
    requires Patient(p) && StartsAt(p, st) && Price(p) > Tolerated(p)
    ensures Run(p, ns).core.control.Finished? ==> (Paid(p, Run(p, ns).core) <==> Owed(p, st))
    ensures !Owed(p, st) ==> Quiet(p, Run(p, ns).core)
  {
    OnCourseHolds(p, st, ns);
    if Quiet(p, Run(p, ns).core) { QuietIsUnpaid(p, Run(p, ns).core); }
  }

  lemma {:induction false} QuietIsUnpaid(p: Params, c: Core)
    requires Quiet(p, c) && Price(p) > Tolerated(p)
    ensures !Paid(p, c)
  {
    forall w | w in c.waits ensures w.Elapsed() < Price(p) {}
  }

  // ---- The control loop starts ----

  /** After none of the first holds does the launcher get the CPU before the holder wakes up. */
  predicate NoStart(p: Params, first: nat)
    requires Timed(p)
  {
    forall i :: 0 <= i < first ==> SlotOf(p, i).unlock + p.rest.lo <= Candidate(p, SlotOf(p, i))
  }

  lemma {:induction false} NoLaunch(p: Params, s: State, n: nat, i: nat, first: nat, prev: Slot, d: Slot)
    requires Patient(p) && Unstarted(p, s, i, first, prev) && Follows(p, s, i, first, prev, d)
    requires HogOnTime(p, s) && s.core.running && (i == 0 ==> !Asleep(s.core.holder))
    requires i > 0 ==> prev.unlock + p.rest.lo <= Candidate(p, prev)
    ensures TimePasses(p, s.core, DemandOf(s.hog)) || !Who(p, s.core, DemandOf(s.hog)).LauncherRuns?
  {
    if Who(p, s.core, DemandOf(s.hog)).LauncherRuns? {
      assert s.core.holder.Resting? && s.core.holder.left > 0;
      LaunchIsTimely(p, s, n, i, first, prev, d);
    }
  }

  lemma {:induction false} NotAfter(p: Params, first: nat, i: nat)
    requires Timed(p) && NoStart(p, first) && 0 < i <= first
    ensures Previous(p, i).unlock + p.rest.lo <= Candidate(p, Previous(p, i))
  {
  }

  lemma {:induction false} StaysUnstarted(p: Params, s: State, n: nat, first: nat)
    requires Patient(p) && p.rest.lo > 0 && Sound(p, s) && s.core.running && |s.holds| < first && NoStart(p, first)
    requires Unstarted(p, s, |s.holds|, first, Previous(p, |s.holds|))
    ensures var t := Step(p, s, n);
            Unstarted(p, t, |t.holds|, first, Previous(p, |t.holds|))
  {
    var i := |s.holds|;
    WakesAfter(p, i);
    SlotsFollow(p, s, i, first, Previous(p, i), SlotOf(p, i));
    if i > 0 { NotAfter(p, first, i); }
    NoLaunch(p, s, n, i, first, Previous(p, i), SlotOf(p, i));
    UnstartedWaits(p, first, s, n);
  }

  lemma {:induction false} UnstartedHolds(p: Params, first: nat, ns: seq<nat>)
    requires Patient(p) && p.rest.lo > 0 && NoStart(p, first) && |ns| < first
    ensures Sound(p, Run(p, ns)) && |Run(p, ns).holds| <= |ns|
    ensures var s := Run(p, ns);
            Unstarted(p, s, |s.holds|, first, Previous(p, |s.holds|))
  {
    HoldInvariant(p, ns);
    HoldsKeepTheTimetable(p, ns);
    if ns != [] {
      var s := Run(p, ns[..|ns| - 1]);
      UnstartedHolds(p, first, ns[..|ns| - 1]);
      StaysUnstarted(p, s, ns[|ns| - 1], first);
      OneHoldAStep(p, s, ns[|ns| - 1]);
    }
  }

  lemma {:induction false} OneHoldAStep(p: Params, s: State, n: nat)
    ensures |Step(p, s, n).holds| <= |s.holds| + 1
  {
  }

  lemma {:induction false} FirstStart(p: Params, i: nat) returns (st: Start)
    requires Patient(p) && Candidate(p, SlotOf(p, i)) < SlotOf(p, i).unlock + p.rest.lo
    ensures StartsAt(p, st)
  {
    if j: nat :| j < i && Candidate(p, SlotOf(p, j)) < SlotOf(p, j).unlock + p.rest.lo {
      st := FirstStart(p, j);
    } else {
      st := Start(i + 1, Candidate(p, SlotOf(p, i)));
    }
  }

  /** The control loop does start: some hold leaves the launcher time, because every run ends. */
  lemma {:induction false} StartExists(p: Params) returns (st: Start)
    requires Patient(p) && Sleepy(p)
    ensures StartsAt(p, st)
  {
    var ns := EveryRunEnds(p, [], _ => 0);
    assert [] + ns == ns;
    if NoStart(p, |ns| + 1) {
      UnstartedHolds(p, |ns| + 1, ns);
    }
    var i :| 0 <= i < |ns| + 1 && Candidate(p, SlotOf(p, i)) < SlotOf(p, i).unlock + p.rest.lo;
    st := FirstStart(p, i);
  }

  /** So for every program with exact timings and an outlasted pause, what its runs pay is decided before
      they start. */
  lemma {:induction false} PaymentIsDecided(p: Params) returns (st: Start)
    requires Patient(p) && Sleepy(p) && Price(p) > Tolerated(p)
    ensures StartsAt(p, st)
    ensures forall ns :: Run(p, ns).core.control.Finished? ==> (Paid(p, Run(p, ns).core) <==> Owed(p, st))
    ensures !Owed(p, st) ==> forall ns :: Quiet(p, Run(p, ns).core)
  {
    st := StartExists(p);
    forall ns
      ensures Run(p, ns).core.control.Finished? ==> (Paid(p, Run(p, ns).core) <==> Owed(p, st))
      ensures !Owed(p, st) ==> Quiet(p, Run(p, ns).core)
    {
      RequestsDecide(p, st, ns);
    }
  }

  /** While requests are due the last of them is only ever put off. */
  lemma {:induction false} PlanGrows(p: Params, st: Start, i: nat)
    requires Patient(p) && st.first <= i
    ensures PlanOf(p, st, i) >= st.at + (p.cycles - 1) * p.pause.lo
  {
    if i > st.first {
      var d, plan := SlotOf(p, i - 1), PlanOf(p, st, i - 1);
      PlanGrows(p, st, i - 1);
      NextPlanGrows(p, d, plan);
      assert PlanOf(p, st, i) == NextPlan(p, d, plan);
    }
  }

  lemma {:induction false} NextPlanGrows(p: Params, d: Slot, plan: int)
    requires Patient(p) && d == SlotFrom(p, d.wake)
    ensures NextPlan(p, d, plan) >= plan
  {
    HoldOutlastsPause(p, d.wake);
    var k, q := Due(p, d, plan), p.pause.lo;
    if k > 0 {
      assert q * k >= plan - d.lock;
      assert (k - 1) * q == q * k - q;
    }
  }

  // ---- Long sections ----

  /** The launcher is ready before the first burst ends, and the holder sleeps through the rest of
      the hog's sleep and wakes within the next burst. */
  predicate Settled(p: Params) {
    && Long(p) && p.Exact()
    && p.idle.lo <= p.rest.lo <= p.burst.lo
    && p.startDelay <= p.burst.lo
  }

  /** What is left of the hog's sleep when the first section ends. */
  function Leftover(p: Params): nat
    requires Settled(p)
  {
    p.idle.lo - p.work % p.idle.lo
  }

  lemma {:induction false} FirstSlot(p: Params)
    requires Timed(p)
    ensures SlotOf(p, 0).lock == p.burst.lo && Clock(p, p.burst.lo) == 0
    ensures SlotOf(p, 0).slack == Until(p.idle.lo)
    ensures SlotOf(p, 0).unlock == p.burst.lo + p.work + p.burst.lo * Bursts(p.work, p.idle.lo, p.idle.lo)
  {
    ClockIs(p, p.burst.lo, 0, 0);
    LocksAsleep(p, 0);
    if p.burst.lo == 0 { NextSleepClock(p, 0); }
  }

  /** The first section is over a whole number of periods and the remainder of its sleeps later. */
  lemma {:induction false} FirstUnlock(p: Params)
    requires Timed(p) && p.idle.lo <= p.work
    ensures Clock(p, SlotOf(p, 0).unlock) == p.work % p.idle.lo
  {
    var q, x, I, B := p.work / p.idle.lo, p.work % p.idle.lo, p.idle.lo, p.burst.lo;
    FirstSlot(p);
    DivStep(p.work, I);
    assert Bursts(p.work, I, I) == q;
    assert p.work == I * q + x;
    assert q * Period(p) == B * q + I * q;
    ClockIs(p, SlotOf(p, 0).unlock, q, x);
  }

  /** A holder that rests into the burst takes the lock when that is over. */
  lemma {:induction false} LocksAfterBurst(p: Params, unlock: nat)
    requires Settled(p) && unlock >= p.burst.lo && Clock(p, unlock) == p.work % p.idle.lo
    ensures SlotFrom(p, unlock + p.rest.lo).lock == unlock + p.burst.lo + Leftover(p)
  {
    DivUnique(p.rest.lo, Period(p), 0);
    ClockAdds(p, unlock, p.rest.lo);
    DivUnique(Clock(p, unlock) + p.rest.lo, Period(p), 0);
  }

  lemma {:induction false} SecondLock(p: Params)
    requires Settled(p)
    ensures StartsAt(p, Start(1, SlotOf(p, 0).unlock))
    ensures SlotOf(p, 1).lock == SlotOf(p, 0).unlock + p.burst.lo + Leftover(p)
  {
    FirstSlot(p);
    FirstUnlock(p);
    LocksAfterBurst(p, SlotOf(p, 0).unlock);
  }

  lemma {:induction false} OwedIfSecond(p: Params, st: Start)
    requires Patient(p) && p.idle.lo <= p.work && st.first == 1
    ensures Owed(p, st) <==> DueOf(p, st, 1) >= 1
  {
    SlotLength(p, SlotOf(p, 1).wake);
    if DueOf(p, st, 1) >= 1 {
      assert Charges(p, st, 1);
    } else {
      NothingOwed(p, st, 1);
    }
  }

  /** Sections that fill the hog's sleep: a completed run pays for a section and a burst, less one pause,
      exactly if the burst and what was left of the hog's sleep are over before the last request, and
      otherwise no run records any wait. */
  lemma {:induction false} BurstDecides(p: Params, ns: seq<nat>)
    requires Settled(p)
    ensures var pays := p.burst.lo + Leftover(p) < (p.cycles - 1) * p.pause.lo;
            && (Run(p, ns).core.control.Finished? ==> (Paid(p, Run(p, ns).core) <==> pays))
            && (!pays ==> Quiet(p, Run(p, ns).core) && Tolerated(p) == 0)
  {
    var st := Start(1, SlotOf(p, 0).unlock);
    SecondLock(p);
    OwedIfSecond(p, st);
    assert p.pause.lo == 0 ==> (p.cycles - 1) * p.pause.lo == 0;
    SecondDue(p, st);
    RequestsDecide(p, st, ns);
  }

  lemma {:induction false} SecondDue(p: Params, st: Start)
    requires Settled(p) && st == Start(1, SlotOf(p, 0).unlock)
    requires SlotOf(p, 1).lock == st.at + p.burst.lo + Leftover(p)
    ensures DueOf(p, st, 1) >= 1 <==> p.burst.lo + Leftover(p) < (p.cycles - 1) * p.pause.lo
  {
    var plan := st.at + (p.cycles - 1) * p.pause.lo;
    assert PlanOf(p, st, 1) == plan;
    if p.pause.lo == 0 {
      assert (p.cycles - 1) * p.pause.lo == 0;
    }
  }
}
