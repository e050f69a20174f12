/**
 Case 06 with timings that vary: when every hold of the plain mutex is caught mid-section. The latest
 timings are exact ones, and their timetable shows what the first hold can look like.
*/
module Spans {
  import opened Scheduler
  import opened Inheritance
  import opened PlainMutex
  import opened Termination
  import opened Timetable

  function Longest(s: Span): Span { Span(s.hi, s.hi) }

  /** Every sleep and burst as long as it can be. */
  function Latest(p: Params): Params {
    p.(rest := Longest(p.rest), pause := Longest(p.pause), burst := Longest(p.burst), idle := Longest(p.idle))
  }

  predicate Late(p: Params, n: nat) {
    p.rest.hi <= n && p.pause.hi <= n && p.burst.hi <= n && p.idle.hi <= n
  }

  lemma {:induction false} LateStep(p: Params, s: State, n: nat)
    requires p.Valid() && Late(p, n)
    ensures Step(p, s, n) == Step(Latest(p), s, n)
  {
  }

  /** A run to which the environment always offers the longest time. */
  lemma {:induction false} LateRun(p: Params, ns: seq<nat>)
    requires p.Valid() && forall k :: 0 <= k < |ns| ==> Late(p, ns[k])
    ensures Run(p, ns) == Run(Latest(p), ns)
  {
    if ns != [] {
      LateRun(p, ns[..|ns| - 1]);
      LateStep(p, Run(p, ns[..|ns| - 1]), ns[|ns| - 1]);
    }
  }

  /** The control loop cannot start before the first hold is over. */
  predicate HeldBeforeStart(s: State) {
    s.holds != [] || (s.core.control.Unborn? && (s.core.holder == Resting(0) || s.core.holder.Critical?))
  }

  lemma {:induction false} HeldBeforeStartStep(p: Params, s: State, n: nat)
    requires Shape(p, s.core) && HeldBeforeStart(s)
    ensures HeldBeforeStart(Step(p, s, n))
  {
  }

  /** A run in which the control loop has started has an earlier moment at which the first hold is over
      and the program still runs. */
  lemma {:induction false} FirstHoldOver(p: Params, ns: seq<nat>) returns (early: seq<nat>)
    requires p.Valid() && Timed(p)
    ensures Shape(p, Run(p, ns).core) && HeldBeforeStart(Run(p, ns))
    ensures early <= ns
    ensures Run(p, ns).holds != [] ==> Run(p, early).core.running && Run(p, early).holds != []
  {
    HoldInvariant(p, ns);
    early := ns;
    if ns != [] {
      var before := ns[..|ns| - 1];
      var s := Run(p, before);
      var e := FirstHoldOver(p, before);
      HeldBeforeStartStep(p, s, ns[|ns| - 1]);
      if s.holds != [] {
        early := e;
      } else {
        StillRunning(p, s, ns[|ns| - 1]);
      }
    }
  }

  lemma {:induction false} StillRunning(p: Params, s: State, n: nat)
    requires Shape(p, s.core) && HeldBeforeStart(s) && s.holds == []
    ensures Step(p, s, n).holds != [] ==> Step(p, s, n).core.running
  {
  }

  /** The latest timings run to their end, and pass through such a moment. */
  lemma {:induction false} EarlyMoment(q: Params, n: nat) returns (ns: seq<nat>)
    requires Sleepy(q) && Timed(q)
    ensures Run(q, ns).core.running && Run(q, ns).holds != []
    ensures forall k :: 0 <= k < |ns| ==> ns[k] == n
  {
    var all := EveryRunEnds(q, [], _ => n);
    assert [] + all == all;
    ns := FirstHoldOver(q, all);
    assert Run(q, all).holds != [] by {
      assert HeldBeforeStart(Run(q, all)) && Done(Run(q, all));
    }
    assert forall k :: 0 <= k < |ns| ==> ns[k] == all[k];
  }

  lemma {:induction false} FirstHoldFits(q: Params, ns: seq<nat>)
    requires q.Valid() && Timed(q) && q.work < q.idle.lo && Run(q, ns).core.running && Run(q, ns).holds != []
    ensures Run(q, ns).holds[0].Length() == q.work
  {
    HoldsKeepTheTimetable(q, ns);
    FirstSlotFits(q);
    assert Run(q, ns).holds[0] == Entry(SlotOf(q, 0));
  }

  /** When the hog can sleep longer than the section lasts, some run lets the first hold finish. */
  lemma {:induction false} SomeHoldEscapes(p: Params) returns (ns: seq<nat>, h: Hold)
    requires Sleepy(p) && !p.inherit && p.work < p.idle.hi
    ensures Run(p, ns).core.running && h in Run(p, ns).holds && h.Length() == p.work
  {
    var q := Latest(p);
    ns := EarlyMoment(q, p.rest.hi + p.pause.hi + p.burst.hi + p.idle.hi);
    FirstHoldFits(q, ns);
    LateRun(p, ns);
    h := Run(q, ns).holds[0];
  }

  lemma {:induction false} FirstSlotFits(p: Params)
    requires Timed(p) && p.work < p.idle.lo
    ensures Entry(SlotOf(p, 0)).Length() == p.work
  {
    ShortSlot(p, 0);
    LocksAsleep(p, 0);
    ClockIs(p, p.burst.lo, 0, 0);
    if p.burst.lo == 0 { NextSleepClock(p, 0); }
  }

  /** Every hold of every run is caught by a whole burst exactly if the section is at least as long as the
      hog's longest sleep. */
  lemma {:induction false} EveryHoldCaughtIff(p: Params)
    requires Sleepy(p) && !p.inherit && p.burst.lo >= 1
    ensures (forall ns, h :: Run(p, ns).core.running && h in Run(p, ns).holds ==> h.Length() >= p.work + p.burst.lo)
            <==> p.idle.hi <= p.work
  {
    if p.idle.hi <= p.work {
      forall ns, h | Run(p, ns).core.running && h in Run(p, ns).holds
        ensures h.Length() >= p.work + p.burst.lo
      {
        EveryHoldIsCaught(p, ns, h);
      }
    } else {
      var ns, h := SomeHoldEscapes(p);
    }
  }
}
