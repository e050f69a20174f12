/**
 Case 06 with the program's constants, any burst from 10 ms on, and a section shorter than the hog's
 sleep: the bursts for which some run of the plain program still shows the inversion form windows.
*/
module Windows {
  import opened Arith
  import opened Scheduler
  import opened PlainMutex
  import opened Inversion
  import opened Timetable
  import opened Requests

  /** The constants of both programs but for the hog's burst, `ms` ticks to the millisecond; the
      section is longer than a pause and shorter than the hog's sleep. */
  predicate Narrow(p: Params, ms: pos) {
    && !p.inherit
    && p.rest == Span(30 * ms, 30 * ms) && p.pause == Span(2 * ms, 2 * ms)
    && p.idle == Span(3 * ms, 3 * ms) && p.burst.lo == p.burst.hi
    && p.cycles == 600 && p.startDelay == 50 * ms
    && 2 * ms < p.work < 3 * ms && 10 * ms <= p.burst.lo
  }

  /** The window: the holder wakes up within the hog's sleep, and drifts to where the section does not
      fit any more while the control loop still asks, which it does in 38 holds. */
  predicate InWindow(p: Params)
    requires Timed(p)
  {
    p.idle.lo - p.work <= 38 * Drift(p) && Drift(p) < p.idle.lo
  }

  // ---- Hits ----

  /** The first hit, if the drift is small at all. */
  lemma {:induction false} SmallDriftHits(p: Params, ms: pos) returns (k: nat)
    requires Narrow(p, ms) && 0 < Drift(p) < p.idle.lo
    ensures k >= 1 && Hits(p, k) && forall j: nat :: j < k ==> !Hits(p, j)
    ensures (k - 1) * Drift(p) < p.idle.lo - p.work
  {
    var d, gap := Drift(p), p.idle.lo - p.work;
    k := CeilDiv(gap, d);
    assert d * k - d < gap <= d * k;
    if d >= gap && k > 1 { MulMonotone(2, k, d); }
    forall j: nat | j < k ensures !Hits(p, j) {
      MulMonotone(j, k - 1, d);
    }
  }

  lemma {:induction false} WindowByHit(p: Params, k: nat)
    requires Timed(p) && k >= 1 && Hits(p, k) && (k - 1) * Drift(p) < p.idle.lo - p.work
    ensures InWindow(p) <==> k <= 38
  {
    if k <= 38 {
      MulMonotone(k, 38, Drift(p));
    } else {
      MulMonotone(38, k - 1, Drift(p));
    }
    MulMonotone(1, k, Drift(p));
  }

  // ---- Counting the requests on the way to the first hit ----

  function Drop(due: nat): nat { if due > 16 then due - 16 else 0 }

  function Remaining(total: nat, i: nat): nat { if 16 * i < total then total - 16 * i else 0 }

  lemma {:induction false} AfterRest(q: pos, due: nat)
    requires due >= 1
    ensures (due - 1) * q - 15 * q == (due - 16) * q
    ensures if due > 16 then CeilDiv((due - 16) * q, q) == due - 16 else (due - 16) * q <= 0
  {
    if due > 16 {
      assert (due - 16) * q == (due - 17) * q + q;
      CeilIs((due - 16) * q, q, due - 16);
    } else {
      MulMonotone(0, 16 - due, q);
    }
  }

  lemma {:induction false} DueAfterRest(p: Params, ms: pos, d: Slot, unlock: nat, due: nat)
    requires Narrow(p, ms) && Patient(p) && due >= 1 && d.lock == unlock + p.rest.lo
    ensures Due(p, d, unlock + (due - 1) * p.pause.lo) == Drop(due)
  {
    AfterRest(p.pause.lo, due);
    assert p.rest.lo == 15 * p.pause.lo;
    assert unlock + (due - 1) * p.pause.lo - d.lock == (due - 16) * p.pause.lo;
  }

  /** Before the first hit each hold takes sixteen requests further. */
  lemma {:induction false} DueDrops(p: Params, ms: pos, st: Start, k: nat, i: nat)
    requires Narrow(p, ms) && Patient(p) && st.first <= i < k
    requires Hits(p, k) && forall j: nat :: j < k ==> !Hits(p, j)
    ensures DueOf(p, st, i + 1) == Drop(DueOf(p, st, i))
  {
    RestFollows(p, ms, k, i);
    if DueOf(p, st, i) == 0 {
      NoneLater(p, st, i, i + 1);
    } else {
      PlanFollows(p, st, i);
      DueAfterRest(p, ms, SlotOf(p, i + 1), SlotOf(p, i).unlock, DueOf(p, st, i));
    }
  }

  lemma {:induction false} RestFollows(p: Params, ms: pos, k: nat, i: nat)
    requires Narrow(p, ms) && Timed(p) && i < k
    requires Hits(p, k) && forall j: nat :: j < k ==> !Hits(p, j)
    ensures SlotOf(p, i + 1).lock == SlotOf(p, i).unlock + p.rest.lo
  {
    DriftsTo(p, k, i);
    DriftsTo(p, k, i + 1);
    SlotLength(p, SlotOf(p, i).wake);
    assert (i + 1) * (p.work + p.rest.lo) == i * (p.work + p.rest.lo) + (p.work + p.rest.lo);
  }

  lemma {:induction false} RemainingDrops(total: nat, i: nat)
    ensures Drop(Remaining(total, i)) == Remaining(total, i + 1)
  {
  }

  lemma {:induction false} DueStep(p: Params, ms: pos, st: Start, k: nat, i: nat, total: nat)
    requires Narrow(p, ms) && Patient(p) && st.first <= i < k
    requires Hits(p, k) && forall j: nat :: j < k ==> !Hits(p, j)
    requires DueOf(p, st, i) == Remaining(total, i)
    ensures DueOf(p, st, i + 1) == Remaining(total, i + 1)
  {
    DueDrops(p, ms, st, k, i);
    RemainingDrops(total, i);
  }

  lemma {:induction false} DueTo(p: Params, ms: pos, st: Start, k: nat, i: nat, total: nat)
    requires Narrow(p, ms) && Patient(p) && st.first <= i <= k
    requires Hits(p, k) && forall j: nat :: j < k ==> !Hits(p, j)
    requires DueOf(p, st, st.first) == Remaining(total, st.first)
    ensures DueOf(p, st, i) == Remaining(total, i)
  {
    if i > st.first {
      DueTo(p, ms, st, k, i - 1, total);
      DueStep(p, ms, st, k, i - 1, total);
    }
  }

  /** The first hit is charged if requests are still due, and after it none is. */
  lemma {:induction false} OwedAtHit(p: Params, ms: pos, st: Start, k: nat, total: nat)
    requires Narrow(p, ms) && Patient(p) && st.first <= k
    requires Hits(p, k) && forall j: nat :: j < k ==> !Hits(p, j)
    requires DueOf(p, st, st.first) == Remaining(total, st.first)
    ensures Owed(p, st) <==> 16 * k < total
  {
    DueTo(p, ms, st, k, k, total);
    DriftsTo(p, k, k);
    if 16 * k < total {
      OwedBy(p, st, k);
    } else {
      forall i: nat | i < k ensures !Charges(p, st, i) {
        DriftsTo(p, k, i);
      }
      NothingOwed(p, st, k);
    }
  }

  // ---- Where the control loop starts ----

  lemma {:induction false} FirstHold(p: Params, ms: pos)
    requires Narrow(p, ms) && Timed(p)
    ensures SlotOf(p, 0).lock == p.burst.lo && SlotOf(p, 0).unlock == p.burst.lo + p.work
  {
    FirstSlot(p);
  }

  /** Two sleeps and sections in one period: the control loop starts in the hog's second sleep. */
  lemma {:induction false} StartInSecond(p: Params, ms: pos) returns (st: Start)
    requires Narrow(p, ms) && Timed(p) && 0 < Drift(p) < p.idle.lo
    requires p.work + p.rest.lo == Period(p) + Drift(p)
    ensures st == Start(1, Period(p) + p.burst.lo) && StartsAt(p, st)
  {
    st := Start(1, Period(p) + p.burst.lo);
    FirstHold(p, ms);
    ClockIs(p, 50 * ms, 0, 50 * ms - p.burst.lo);
  }

  /** Otherwise it does not start before the second hold. */
  lemma {:induction false} NotAfterFirst(p: Params, ms: pos)
    requires Narrow(p, ms) && Timed(p) && 0 < Drift(p) < p.idle.lo
    requires p.work + p.rest.lo == 2 * Period(p) + Drift(p)
    ensures SlotOf(p, 0).unlock + p.rest.lo <= Candidate(p, SlotOf(p, 0))
  {
    FirstHold(p, ms);
  }

  lemma {:induction false} SecondSlot(p: Params, ms: pos)
    requires Narrow(p, ms) && Timed(p) && 0 < Drift(p) < p.idle.lo
    ensures var d := SlotOf(p, 1);
            && d.lock == p.burst.lo + p.work + p.rest.lo && Clock(p, d.lock) == Drift(p)
            && (Overruns(p, d) <==> Hits(p, 1))
            && d.unlock == d.lock + p.work + if Hits(p, 1) then p.burst.lo else 0
  {
    var d := SlotOf(p, 1);
    assert !Hits(p, 0);
    DriftsTo(p, 1, 1);
    ShortSlot(p, d.wake);
  }

  /** The second hold fits: the control loop starts in the hog's fourth sleep. */
  lemma {:induction false} StartInFourth(p: Params, ms: pos) returns (st: Start)
    requires Narrow(p, ms) && Timed(p) && 0 < Drift(p) < p.idle.lo && !Hits(p, 1)
    requires p.work + p.rest.lo == 2 * Period(p) + Drift(p)
    ensures st == Start(2, 3 * Period(p) + p.burst.lo) && StartsAt(p, st)
  {
    st := Start(2, 3 * Period(p) + p.burst.lo);
    NotAfterFirst(p, ms);
    SecondSlot(p, ms);
    ClockIs(p, 50 * ms, 2, 50 * ms - p.burst.lo - 2 * Period(p));
  }

  /** The second hold overruns: the control loop starts at its end. */
  lemma {:induction false} StartAfterSecond(p: Params, ms: pos) returns (st: Start)
    requires Narrow(p, ms) && Timed(p) && 0 < Drift(p) < p.idle.lo && Hits(p, 1)
    requires p.work + p.rest.lo == 2 * Period(p) + Drift(p)
    ensures st == Start(2, SlotOf(p, 1).unlock) && StartsAt(p, st)
  {
    var d := SlotOf(p, 1);
    st := Start(2, d.unlock);
    NotAfterFirst(p, ms);
    SecondSlot(p, ms);
    ClockIs(p, d.unlock, 3, p.work + Drift(p) - 3 * ms);
  }

  // ---- Which bursts are paid for ----

  lemma {:induction false} DueInSecond(p: Params, ms: pos, st: Start)
    requires Narrow(p, ms) && Patient(p) && 0 < Drift(p) < p.idle.lo
    requires st == Start(1, Period(p) + p.burst.lo) && p.work + p.rest.lo == Period(p) + Drift(p)
    ensures DueOf(p, st, 1) == if Drift(p) < 2 * ms then 599 else 598
  {
    SecondSlot(p, ms);
    CeilIs(599 * (2 * ms) - Drift(p), 2 * ms, if Drift(p) < 2 * ms then 599 else 598);
  }

  lemma {:induction false} OwedInSecond(p: Params, ms: pos, k: nat) returns (st: Start)
    requires Narrow(p, ms) && Patient(p) && 0 < Drift(p) < p.idle.lo
    requires p.work + p.rest.lo == Period(p) + Drift(p)
    requires k >= 1 && Hits(p, k) && forall j: nat :: j < k ==> !Hits(p, j)
    ensures StartsAt(p, st) && (Owed(p, st) <==> k <= 38)
  {
    st := StartInSecond(p, ms);
    DueInSecond(p, ms, st);
    if k == 1 {
      SecondSlot(p, ms);
      OwedBy(p, st, 1);
    } else {
      assert !Hits(p, 1);
      OwedAtHit(p, ms, st, k, 615);
    }
  }

  lemma {:induction false} ThirdLock(p: Params, ms: pos, k: nat)
    requires Narrow(p, ms) && Timed(p) && k >= 2 && Hits(p, k) && forall j: nat :: j < k ==> !Hits(p, j)
    ensures SlotOf(p, 2).lock == p.burst.lo + 2 * (p.work + p.rest.lo)
    ensures Drift(p) < p.idle.lo - p.work
  {
    DriftsTo(p, k, 2);
    MulMonotone(1, k, Drift(p));
    assert !Hits(p, 1);
  }

  lemma {:induction false} DueBefore(p: Params, ms: pos, d: Slot, plan: int, gap: nat)
    requires Narrow(p, ms) && Patient(p) && 16 * ms < gap < 18 * ms && plan == d.lock + 599 * (2 * ms) - gap
    ensures Due(p, d, plan) == 591
  {
    CeilIs(599 * (2 * ms) - gap, 2 * ms, 591);
  }

  lemma {:induction false} DueInFourth(p: Params, ms: pos, st: Start, k: nat)
    requires Narrow(p, ms) && Patient(p) && 0 < Drift(p)
    requires st == Start(2, 3 * Period(p) + p.burst.lo) && p.work + p.rest.lo == 2 * Period(p) + Drift(p)
    requires k >= 2 && Hits(p, k) && forall j: nat :: j < k ==> !Hits(p, j)
    ensures DueOf(p, st, 2) == 591
  {
    ThirdLock(p, ms, k);
    DueBefore(p, ms, SlotOf(p, 2), PlanOf(p, st, 2), Period(p) + 2 * Drift(p));
  }

  lemma {:induction false} OwedInFourth(p: Params, ms: pos, k: nat) returns (st: Start)
    requires Narrow(p, ms) && Patient(p) && 0 < Drift(p) < p.idle.lo
    requires p.work + p.rest.lo == 2 * Period(p) + Drift(p)
    requires k >= 2 && Hits(p, k) && forall j: nat :: j < k ==> !Hits(p, j)
    ensures StartsAt(p, st) && (Owed(p, st) <==> k <= 38)
  {
    assert !Hits(p, 1);
    st := StartInFourth(p, ms);
    DueInFourth(p, ms, st, k);
    OwedAtHit(p, ms, st, k, 623);
  }

  lemma {:induction false} OverrunsNext(p: Params, ms: pos, d: Slot, next: Slot)
    requires Narrow(p, ms) && Timed(p) && Hits(p, 1)
    requires d == SlotFrom(p, d.wake) && !Overruns(p, d) && next == SlotFrom(p, d.unlock + p.rest.lo)
    ensures Overruns(p, next) || Clock(p, next.lock) == 0
    ensures Clock(p, d.lock) == 0 ==> Overruns(p, next)
  {
    LocksAsleep(p, d.wake);
    LocksAsleep(p, next.wake);
    NextClock(p, d, next);
    DivUnique(Clock(p, d.lock) + Drift(p), Period(p), 0);
  }

  /** When the first drift is a hit, one of any three holds in a row overruns. */
  lemma {:induction false} OverrunsSoon(p: Params, ms: pos, d: Slot, e: Slot, f: Slot)
    requires Narrow(p, ms) && Timed(p) && Hits(p, 1)
    requires Follow(p, d, e) && Follow(p, e, f)
    ensures Overruns(p, d) || Overruns(p, e) || Overruns(p, f)
  {
    if !Overruns(p, d) && !Overruns(p, e) {
      OverrunsNext(p, ms, d, e);
      OverrunsNext(p, ms, e, f);
    }
  }

  predicate Follow(p: Params, d: Slot, e: Slot)
    requires Timed(p)
  {
    d == SlotFrom(p, d.wake) && e == SlotFrom(p, d.unlock + p.rest.lo)
  }

  lemma {:induction false} Successive(p: Params, i: nat)
    requires Timed(p)
    ensures Follow(p, SlotOf(p, i), SlotOf(p, i + 1))
  {
  }

  lemma {:induction false} SlotsBounded(p: Params, ms: pos, i: nat)
    requires Narrow(p, ms) && Timed(p)
    ensures SlotOf(p, i + 1).unlock <= SlotOf(p, i).unlock + p.rest.lo + Period(p) + p.work + p.burst.lo
  {
    var d := SlotOf(p, i + 1);
    SlotBounded(p, d.wake);
    ShortSlot(p, d.wake);
  }

  lemma {:induction false} SoonAfterSecond(p: Params, ms: pos, k: nat)
    requires Narrow(p, ms) && Timed(p) && 2 <= k <= 4 && p.burst.lo <= 14 * ms
    ensures SlotOf(p, k).lock <= SlotOf(p, 1).unlock + 300 * ms
  {
    SlotsBounded(p, ms, 1);
    SlotsBounded(p, ms, 2);
    SlotsBounded(p, ms, 3);
    SlotsGrow(p, k, 4);
    SlotLength(p, SlotOf(p, k).wake);
  }

  lemma {:induction false} DueSoon(p: Params, ms: pos, st: Start, k: nat)
    requires Narrow(p, ms) && Patient(p) && st.first <= k && SlotOf(p, k).lock <= st.at + 300 * ms
    ensures DueOf(p, st, k) >= 1
  {
    PlanGrows(p, st, k);
  }

  lemma {:induction false} OwedSoon(p: Params, ms: pos, st: Start, k: nat)
    requires Narrow(p, ms) && Patient(p) && 2 <= k <= 4 && p.burst.lo <= 14 * ms
    requires st == Start(2, SlotOf(p, 1).unlock) && Overruns(p, SlotOf(p, k))
    ensures Owed(p, st)
  {
    SoonAfterSecond(p, ms, k);
    DueSoon(p, ms, st, k);
    OwedBy(p, st, k);
  }

  lemma {:induction false} OwedAfterSecond(p: Params, ms: pos) returns (st: Start)
    requires Narrow(p, ms) && Patient(p) && 0 < Drift(p) < p.idle.lo && Hits(p, 1)
    requires p.work + p.rest.lo == 2 * Period(p) + Drift(p)
    ensures StartsAt(p, st) && Owed(p, st)
  {
    st := StartAfterSecond(p, ms);
    Successive(p, 2);
    Successive(p, 3);
    OverrunsSoon(p, ms, SlotOf(p, 2), SlotOf(p, 3), SlotOf(p, 4));
    OwedSoon(p, ms, st, if Overruns(p, SlotOf(p, 2)) then 2 else if Overruns(p, SlotOf(p, 3)) then 3 else 4);
  }

  /** The holder's sleep and section span one or two of the hog's periods, and the drift. */
  lemma {:induction false} Spanned(p: Params, ms: pos)
    requires Narrow(p, ms) && Timed(p) && Drift(p) < p.idle.lo
    ensures || p.work + p.rest.lo == Period(p) + Drift(p)
            || p.work + p.rest.lo == 2 * Period(p) + Drift(p)
  {
    var a, P := p.work + p.rest.lo, Period(p);
    var q := a / P;
    assert a == P * q + Drift(p);
    Less(P, 0, q);
    Less(P, q, 3);
  }

  /** For a short section, which runs pay: a completed run of the plain program has a wait of at least a
      section and a burst, less one pause, exactly if the burst is in the window; otherwise no wait of any
      run exceeds the section. */
  lemma {:induction false} WindowDecides(p: Params, ms: pos, ns: seq<nat>)
    requires Narrow(p, ms) && Timed(p)
    ensures Run(p, ns).core.control.Finished? ==> (Paid(p, Run(p, ns).core) <==> InWindow(p))
    ensures !InWindow(p) ==> Quiet(p, Run(p, ns).core) && Tolerated(p) == p.work
  {
    if 0 < Drift(p) < p.idle.lo {
      var k := SmallDriftHits(p, ms);
      WindowByHit(p, k);
      Spanned(p, ms);
      var st: Start;
      if p.work + p.rest.lo == Period(p) + Drift(p) {
        st := OwedInSecond(p, ms, k);
      } else if k >= 2 {
        st := OwedInFourth(p, ms, k);
      } else {
        st := OwedAfterSecond(p, ms);
      }
      RequestsDecide(p, st, ns);
    } else {
      forall i: nat ensures !Overruns(p, SlotOf(p, i)) {
        forall k: nat ensures !Lands(p, k) { LargeDriftMisses(p, k); }
        var m := DriftsClear(p, i);
      }
      NoOverrunNoInversion(p, ns);
      QuietIsUnpaid(p, Run(p, ns).core);
    }
  }
}
