/**
 Case 06 without inheritance: how long the lock is held, and why the control loop always pays
 for whole bursts of a thread that never touches the lock.
*/
module PlainMutex {
  import opened Arith
  import opened Scheduler
  import opened Inheritance

  /** Bursts that fall into a hold that starts with `left` ticks of work and `slack` idle ticks
      before the hog wakes, when every later idle window has `idle` ticks. A hog that wakes at
      the very tick the work ends still gets in before the unlock. */
  function Bursts(left: nat, slack: nat, idle: pos): (k: nat)
    ensures k == 0 <==> left < slack
  {
    if left < slack then 0
    else
      assert (left - slack) / idle >= 0 by { DivMonotone(0, left - slack, idle); }
      (left - slack) / idle + 1
  }

  function HoldTicks(work: nat, slack: Slack, burst: nat, idle: pos): nat {
    match slack
    case Forever => work
    case Until(l) => work + burst * Bursts(work, l, idle)
  }

  /** What a hold in progress still needs. */
  function StillNeeded(left: nat, h: Hog, burst: nat, idle: pos): nat {
    match h
    case Idling(l) => left + burst * Bursts(left, l, idle)
    case Bursting(b) => b + left + burst * Bursts(left, idle, idle)
    case Stopped => left
  }

  lemma {:induction false} BurstsAfterWake(left: nat, idle: pos)
    ensures Bursts(left, 0, idle) == Bursts(left, idle, idle) + 1
  {
    if left < idle {
      DivUnique(left, idle, 0);
    } else {
      DivStep(left, idle);
    }
  }

  lemma {:induction false} BurstsAntitone(left: nat, slack: nat, slack': nat, idle: pos)
    requires slack <= slack'
    ensures Bursts(left, slack', idle) <= Bursts(left, slack, idle)
  {
    if slack' <= left {
      DivMonotone(left - slack', left - slack, idle);
    }
  }

  /** The longest a hold can last: it can only start while the hog still sleeps. */
  function CeilDiv(a: nat, d: pos): (q: nat)
    ensures d * q - d < a <= d * q
  {
    var q := (a + d - 1) / d;
    assert a + d - 1 == d * q + (a + d - 1) % d;
    assert q >= 0 by { DivMonotone(0, a + d - 1, d); }
    q
  }

  lemma {:induction false} BurstsAtMost(work: nat, slack: nat, idle: pos)
    requires slack >= 1
    ensures Bursts(work, slack, idle) <= CeilDiv(work, idle)
  {
    BurstsAntitone(work, 1, slack, idle);
    if work >= 1 {
      var q := CeilDiv(work, idle);
      assert idle * (q - 1) == idle * q - idle;
      DivUnique(work - 1, idle, q - 1);
    }
  }

  // ---- Every hold, in every run ----

  /** `spent` ticks of a hold have passed and `left` ticks of work remain: what is spent plus what
      is still needed stays between the two extremes the slack allows. */
  predicate Bracketed(p: Params, spent: int, left: nat, hog: Hog, slack: Slack, running: bool)
    requires p.Valid() && p.idle.lo >= 1
  {
    && spent + StillNeeded(left, hog, p.burst.hi, p.idle.lo) <= HoldTicks(p.work, slack, p.burst.hi, p.idle.lo)
    && (running ==>
          HoldTicks(p.work, slack, p.burst.lo, p.idle.hi) <= spent + StillNeeded(left, hog, p.burst.lo, p.idle.hi))
  }

  predicate HoldBelow(p: Params, h: Hold)
    requires p.Valid() && p.idle.lo >= 1
  {
    && h.Length() <= HoldTicks(p.work, h.slack, p.burst.hi, p.idle.lo)
    && (h.slack.Until? ==> 1 <= h.slack.left <= p.idle.hi)
  }

  predicate HoldAbove(p: Params, h: Hold)
    requires p.Valid() && p.idle.lo >= 1
  {
    h.slack.Until? && HoldTicks(p.work, h.slack, p.burst.lo, p.idle.hi) <= h.Length()
  }

  /** The hold in progress. */
  predicate Holding(p: Params, s: State)
    requires p.Valid() && p.idle.lo >= 1
  {
    && (s.hog.Stopped? ==> !s.core.running)
    && (s.hog.Idling? ==> s.hog.left <= p.idle.hi)
    && (s.slack.Until? ==> 1 <= s.slack.left <= p.idle.hi)
    && (s.core.holder.Critical? ==>
          && (s.core.running ==> s.slack.Until?)
          && Bracketed(p, s.core.now - s.core.holder.since, s.core.holder.left, s.hog, s.slack, s.core.running))
  }

  /** The holds that are over. */
  ghost predicate Held(p: Params, s: State)
    requires p.Valid() && p.idle.lo >= 1
  {
    forall h :: h in s.holds ==> HoldBelow(p, h) && (s.core.running ==> HoldAbove(p, h))
  }

  lemma {:induction false} HogActNeeds(p: Params, left: nat, h: Hog, running: bool, n: nat)
    requires p.Valid() && p.idle.lo >= 1
    requires h == Idling(0) || h == Bursting(0)
    ensures var h' := HogAct(p, h, running, n);
            && StillNeeded(left, h', p.burst.hi, p.idle.lo) <= StillNeeded(left, h, p.burst.hi, p.idle.lo)
            && (running ==>
                  StillNeeded(left, h, p.burst.lo, p.idle.hi) <= StillNeeded(left, h', p.burst.lo, p.idle.hi))
  {
    var h' := HogAct(p, h, running, n);
    if h.Idling? {
      BurstsAfterWake(left, p.idle.lo);
      BurstsAfterWake(left, p.idle.hi);
      var k := Bursts(left, p.idle.lo, p.idle.lo);
      var k' := Bursts(left, p.idle.hi, p.idle.hi);
      assert p.burst.hi * (k + 1) == p.burst.hi * k + p.burst.hi;
      assert p.burst.lo * (k' + 1) == p.burst.lo * k' + p.burst.lo;
    } else {
      var l := h'.left;
      BurstsAntitone(left, p.idle.lo, l, p.idle.lo);
      BurstsAntitone(left, l, p.idle.hi, p.idle.hi);
      MulMonotone(Bursts(left, l, p.idle.lo), Bursts(left, p.idle.lo, p.idle.lo), p.burst.hi);
      MulMonotone(Bursts(left, p.idle.hi, p.idle.hi), Bursts(left, l, p.idle.hi), p.burst.lo);
    }
  }

  /** A tick takes one off what is still needed, whether the hog or the holder has the CPU. */
  lemma {:induction false} TickNeeds(left: nat, h: Hog, burst: nat, idle: pos)
    requires (h.Idling? && h.left > 0) || h.Stopped? ==> left > 0
    requires h != Idling(0) && h != Bursting(0)
    ensures var left' := if h.Bursting? then left else left - 1;
            StillNeeded(left', HogTick(h), burst, idle) == StillNeeded(left, h, burst, idle) - 1
  {
  }

  lemma {:induction false} HoldingTick(p: Params, s: State, n: nat)
    requires p.Valid() && p.idle.lo >= 1 && !p.inherit
    requires Shape(p, s.core) && Holding(p, s) && s.core.holder.Critical?
    requires TimePasses(p, s.core, DemandOf(s.hog))
    ensures Holding(p, Step(p, s, n))
  {
    TickNeeds(s.core.holder.left, s.hog, p.burst.hi, p.idle.lo);
    TickNeeds(s.core.holder.left, s.hog, p.burst.lo, p.idle.hi);
  }

  lemma {:induction false} HoldingStep(p: Params, s: State, n: nat)
    requires p.Valid() && p.idle.lo >= 1 && !p.inherit
    requires Shape(p, s.core) && Holding(p, s)
    ensures Holding(p, Step(p, s, n))
  {
    var mid := DemandOf(s.hog);
    if s.core.holder.Critical? {
      var left := s.core.holder.left;
      if TimePasses(p, s.core, mid) {
        HoldingTick(p, s, n);
      } else if Who(p, s.core, mid).MiddleRuns? {
        HogActNeeds(p, left, s.hog, s.core.running, n);
      }
    }
  }

  /** What a hold has taken when the holder gets the CPU to unlock. */
  lemma {:induction false} Release(p: Params, s: State)
    requires p.Valid() && p.idle.lo >= 1 && Holding(p, s)
    requires s.core.holder.Critical? && s.core.holder.left == 0 && DemandOf(s.hog).Absent?
    ensures var h := Hold(s.core.holder.since, s.core.now, s.slack);
            HoldBelow(p, h) && (s.core.running ==> HoldAbove(p, h))
  {
  }

  lemma {:induction false} HeldStep(p: Params, s: State, n: nat)
    requires p.Valid() && p.idle.lo >= 1 && !p.inherit
    requires Shape(p, s.core) && Holding(p, s) && Held(p, s)
    ensures Held(p, Step(p, s, n))
  {
    if s.core.holder.Critical? && s.core.holder.left == 0 && DemandOf(s.hog).Absent? {
      Release(p, s);
    }
  }

  lemma {:induction false} HoldInvariant(p: Params, ns: seq<nat>)
    requires p.Valid() && p.idle.lo >= 1 && !p.inherit
    ensures Shape(p, Run(p, ns).core) && Holding(p, Run(p, ns)) && Held(p, Run(p, ns))
  {
    if ns != [] {
      var s, n := Run(p, ns[..|ns| - 1]), ns[|ns| - 1];
      HoldInvariant(p, ns[..|ns| - 1]);
      ShapeStep(p, s.core, DemandOf(s.hog), n);
      HoldingStep(p, s, n);
      HeldStep(p, s, n);
    }
  }

  function HoldBound(p: Params): nat
    requires p.idle.lo >= 1
  {
    p.work + p.burst.hi * CeilDiv(p.work, p.idle.lo)
  }

  lemma {:induction false} SlackBounds(p: Params, slack: Slack)
    requires p.Valid() && p.idle.lo >= 1
    requires slack.Until? ==> 1 <= slack.left <= p.idle.hi
    ensures HoldTicks(p.work, slack, p.burst.hi, p.idle.lo) <= HoldBound(p)
  {
    if slack.Until? {
      BurstsAtMost(p.work, slack.left, p.idle.lo);
      MulMonotone(Bursts(p.work, slack.left, p.idle.lo), CeilDiv(p.work, p.idle.lo), p.burst.hi);
    }
  }

  /** Every hold of every run: between the shortest and the longest the slack at its start
      allows, so at most C + ceil(C/I) * B, and exact when the hog's timings are. */
  lemma {:induction false} HoldLength(p: Params, ns: seq<nat>, h: Hold)
    requires p.Valid() && p.idle.lo >= 1 && !p.inherit
    requires h in Run(p, ns).holds
    ensures h.Length() <= HoldTicks(p.work, h.slack, p.burst.hi, p.idle.lo) <= HoldBound(p)
    ensures Run(p, ns).core.running ==>
              && h.slack.Until?
              && HoldTicks(p.work, h.slack, p.burst.lo, p.idle.hi) <= h.Length()
  {
    HoldInvariant(p, ns);
    assert HoldBelow(p, h);
    SlackBounds(p, h.slack);
  }

  /** A hold is free of bursts exactly when more idle time than work was left at its start;
      otherwise at least one whole burst falls inside it. */
  lemma {:induction false} HoldFreeOfBursts(p: Params, ns: seq<nat>, h: Hold)
    requires p.Valid() && p.idle.lo >= 1 && p.burst.lo >= 1 && !p.inherit
    requires h in Run(p, ns).holds && Run(p, ns).core.running
    ensures h.slack.Until?
    ensures h.Length() == p.work <==> p.work < h.slack.left
    ensures h.Length() != p.work ==> h.Length() >= p.work + p.burst.lo
  {
    HoldLength(p, ns, h);
    if h.slack.left <= p.work {
      MulMonotone(1, Bursts(p.work, h.slack.left, p.idle.hi), p.burst.lo);
    }
  }

  /** A critical section at least as long as the hog's longest sleep is caught mid-section every time:
      each hold contains a whole burst. */
  lemma {:induction false} EveryHoldIsCaught(p: Params, ns: seq<nat>, h: Hold)
    requires p.Valid() && 1 <= p.idle.lo && p.idle.hi <= p.work && p.burst.lo >= 1 && !p.inherit
    requires h in Run(p, ns).holds && Run(p, ns).core.running
    ensures h.Length() >= p.work + p.burst.lo
  {
    HoldInvariant(p, ns);
    assert HoldBelow(p, h);
    HoldFreeOfBursts(p, ns, h);
  }

  /** Without inheritance the holder only ever takes the lock while the hog sleeps. */
  lemma {:induction false} AcquiresOnlyWhileHogSleeps(p: Params, ns: seq<nat>, n: nat)
    requires !p.inherit
    requires !Run(p, ns).core.holder.Critical?
    requires Run(p, ns + [n]).core.holder.Critical?
    ensures Run(p, ns).hog.Stopped? || (Run(p, ns).hog.Idling? && Run(p, ns).hog.left >= 1)
  {
    assert (ns + [n])[..|ns|] == ns;
    assert Run(p, ns + [n]) == Step(p, Run(p, ns), n);
  }

  ghost predicate WaitsFit(p: Params, c: Core)
    requires p.idle.lo >= 1
  {
    && (c.control.Granted? ==> c.now - c.control.ask.at <= HoldBound(p))
    && (forall w :: w in c.waits ==> w.Elapsed() <= HoldBound(p))
  }

  lemma {:induction false} WaitsFitStep(p: Params, s: State, n: nat)
    requires p.Valid() && p.idle.lo >= 1 && !p.inherit
    requires Shape(p, s.core) && Holding(p, s) && WaitsFit(p, s.core)
    ensures WaitsFit(p, Step(p, s, n).core)
  {
    if s.core.holder.Critical? && s.core.holder.left == 0 && DemandOf(s.hog).Absent? {
      Release(p, s);
      SlackBounds(p, s.slack);
    }
  }

  /** Every wait of every run fits into one hold. */
  lemma {:induction false} WaitBounded(p: Params, ns: seq<nat>)
    requires p.Valid() && p.idle.lo >= 1 && !p.inherit
    ensures WaitsFit(p, Run(p, ns).core)
  {
    if ns != [] {
      WaitBounded(p, ns[..|ns| - 1]);
      HoldInvariant(p, ns[..|ns| - 1]);
      WaitsFitStep(p, Run(p, ns[..|ns| - 1]), ns[|ns| - 1]);
    }
  }
}
