/**
 Case 06: the machine both programs run on. It carries the shared variables and the four threads'
 positions and updates them in place, one action at a time.
*/
module Program {
  import opened Scheduler
  import opened Termination

  class Machine {
    const p: Params
    var now: nat
    var running: bool        // g_running
    var worst: int           // g_worst_block_us
    var cyclesLeft: nat
    var holder: Holder
    var control: Control
    var launcher: Launcher
    var hog: Hog
    var usage: Usage
    var waits: seq<Wait>
    ghost var slack: Slack
    ghost var holds: seq<Hold>

    ghost function CoreNow(): Core
      reads this
    {
      Core(now, holder, control, launcher, running, cyclesLeft, worst, usage, waits)
    }

    ghost function Now(): State
      reads this
    {
      State(CoreNow(), hog, slack, holds)
    }

    constructor (p: Params)
      ensures this.p == p && Now() == Init(p)
    {
      this.p := p;
      now, running, worst, cyclesLeft := 0, true, 0, p.cycles;
      holder, control, launcher, hog := Resting(0), Unborn, Starting(p.startDelay), Idling(0);
      usage, waits := Usage(0, 0, 0), [];
      slack, holds := Forever, [];
    }

    /** Which thread has the CPU. */
    method Schedule(mid: Demand) returns (who: Runner)
      ensures who == Who(p, CoreNow(), mid)
    {
      var boosted := p.inherit && control.Blocked?;
      if control.Granted? || control == Pausing(0) {
        who := ControlRuns;
      } else if (holder.Critical? || holder.Leaving? || holder == Resting(0)) && (mid.Absent? || boosted) {
        who := HolderRuns;
      } else if !mid.Absent? {
        who := MiddleRuns;
      } else if launcher == Starting(0) || (launcher.Joining? && control.Finished?) {
        who := LauncherRuns;
      } else {
        who := NobodyRuns;
      }
    }

    method PassTick(who: Runner)
      modifies this
      ensures CoreNow() == Tick(old(CoreNow()), who)
      ensures hog == HogTick(old(hog)) && slack == old(slack) && holds == old(holds)
    {
      AgeSleepers();
      now := now + 1;
      usage := match who
               case HolderRuns => usage.(holder := usage.holder + 1)
               case MiddleRuns => usage.(middle := usage.middle + 1)
               case _ => usage.(idle := usage.idle + 1);
      if holder.Critical? && who.HolderRuns? {
        holder := Critical(Dec(holder.left), holder.since);
      }
    }

    /** Sleeps and the busy-wait run on wall-clock time. */
    method AgeSleepers()
      modifies this`holder, this`control, this`launcher, this`hog
      ensures holder == if old(holder).Resting? then Resting(Dec(old(holder).left)) else old(holder)
      ensures control == if old(control).Pausing? then Pausing(Dec(old(control).left)) else old(control)
      ensures launcher == if old(launcher).Starting? then Starting(Dec(old(launcher).left)) else old(launcher)
      ensures hog == HogTick(old(hog))
    {
      if holder.Resting? { holder := Resting(Dec(holder.left)); }
      if control.Pausing? { control := Pausing(Dec(control.left)); }
      if launcher.Starting? { launcher := Starting(Dec(launcher.left)); }
      hog := HogTick(hog);
    }

    /** One action of highPriorityControl. */
    method Control(n: nat)
      requires control.Granted? || control.Pausing?
      modifies this`control, this`cyclesLeft, this`worst, this`waits
      ensures CoreNow() == ControlAct(p, old(CoreNow()), n)
    {
      match control {
        case Pausing(_) =>
          if cyclesLeft == 0 {
            control := Finished;
          } else if holder.Critical? {
            control := Blocked(Ask(now, holder.left, usage));
          } else {
            control := Granted(Ask(now, 0, usage));
          }
        case Granted(ask) =>
          var blocked := (now - ask.at) / p.ticksPerUs;
          if blocked > worst { worst := blocked; }
          waits := waits + [Wait(ask, now, usage)];
          cyclesLeft := Dec(cyclesLeft);
          control := Pausing(p.pause.Pick(n));
      }
    }

    /** One action of lowPriorityDiagnostics. */
    method Diagnostics(n: nat)
      modifies this`holder, this`control, this`slack, this`holds
      ensures CoreNow() == HolderAct(p, old(CoreNow()), n)
      ensures slack == if holder.Critical? && !old(holder).Critical? then SlackOf(hog) else old(slack)
      ensures holds == if old(holder).Critical? && !holder.Critical?
                       then old(holds) + [Hold(old(holder).since, now, old(slack))] else old(holds)
    {
      match holder {
        case Resting(_) =>
          if running {
            holder := Critical(p.work, now);
            slack := SlackOf(hog);
          } else {
            holder := Exited;
          }
        case Critical(_, since) =>
          holder := Leaving;
          holds := holds + [Hold(since, now, slack)];
          if control.Blocked? { control := Granted(control.ask); }
        case Leaving => holder := Resting(p.rest.Pick(n));
        case Exited =>
      }
    }

    method Launch()
      modifies this`launcher, this`control, this`running
      ensures CoreNow() == LauncherAct(old(CoreNow()))
    {
      match launcher {
        case Starting(_) => launcher, control := Joining, Pausing(0);
        case Joining => launcher, running := Cleared, false;
        case Cleared =>
      }
    }

    /** One step of the machine: the scheduled thread acts, or a tick passes. */
    method Advance(n: nat)
      modifies this
      ensures Now() == Step(p, old(Now()), n)
    {
      var mid := DemandOf(hog);
      var who := Schedule(mid);
      if who.NobodyRuns? || (who.MiddleRuns? && mid.Busy?) ||
         (who.HolderRuns? && holder.Critical? && holder.left > 0) {
        PassTick(who);
      } else {
        match who {
          case ControlRuns => Control(n);
          case HolderRuns => Diagnostics(n);
          case LauncherRuns => Launch();
          case MiddleRuns => hog := HogAct(p, hog, running, n);
          case NobodyRuns =>
        }
      }
    }

    /** Runs the machine until every thread has gone. */
    method Execute(offer: nat -> nat) returns (ghost ns: seq<nat>)
      requires Sleepy(p) && Now() == Init(p)
      modifies this
      ensures Now() == Run(p, ns) && Done(Now())
    {
      ns := [];
      var i := 0;
      ghost var r := RankOf(p, Now());
      while !(launcher.Cleared? && control.Finished? && holder.Exited? && hog.Stopped?)
        invariant Now() == Run(p, ns) && Alive(p, Now()) && r == RankOf(p, Now())
        decreases r.phase, r.a, r.b, r.c, r.d, r.e
      {
        var n := offer(i);
        Descends(p, Now(), n);
        RunExtends(p, ns, n);
        Advance(n);
        ns, i := ns + [n], i + 1;
        r := RankOf(p, Now());
      }
    }
  }

  lemma {:induction false} RunExtends(p: Params, ns: seq<nat>, n: nat)
    ensures Run(p, ns + [n]) == Step(p, Run(p, ns), n)
  {
    assert (ns + [n])[..|ns|] == ns;
  }
}
