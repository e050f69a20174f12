/**
 Case 06: three fixed-priority threads and the launching thread on one CPU, with one mutex.

 A step is one action of the thread that has the CPU. Locking, unlocking, reading a clock and
 going to sleep take no time; only work, busy-waiting and idling let a tick pass. The scheduler
 is SCHED_FIFO (POSIX.1-2017 System Interfaces, section 2.8.4): the ready thread of highest
 priority runs. `inherit` switches on PTHREAD_PRIO_INHERIT.

 `Core` holds everything but the middle priority band, which a core step receives as an input.
 Whatever is proved for all inputs holds for any number of middle threads of any behaviour.
 `State` closes the band with the one hog of the program.
*/
module Scheduler {

  import opened Arith

  /** The lengths a sleep or a burst may take; the environment picks one each time. */
  datatype Span = Span(lo: nat, hi: nat) {
    predicate Valid() { lo <= hi }

    function Pick(n: nat): (r: nat)
      ensures Valid() ==> lo <= r <= hi
      ensures lo <= n <= hi ==> r == n
    {
      if n < lo then lo else if n > hi then hi else n
    }
  }

  datatype Params = Params(
    work: nat,        // CPU ticks of work the holder does under the lock
    rest: Span,       // the holder's sleep
    pause: Span,      // the control loop's sleep
    burst: Span,      // the hog's busy-wait, in wall-clock ticks
    idle: Span,       // the hog's sleep
    cycles: nat,      // iterations of the control loop
    startDelay: nat,  // the launcher's sleep before it starts the control loop
    ticksPerUs: pos,
    inherit: bool)
  {
    predicate Valid() {
      rest.Valid() && pause.Valid() && burst.Valid() && idle.Valid()
    }

    /** Every sleep and every burst takes exactly its time. */
    predicate Exact() {
      rest.lo == rest.hi && pause.lo == pause.hi && burst.lo == burst.hi && idle.lo == idle.hi
    }
  }

  const LOW: nat := 10
  const MIDDLE: nat := 50
  const HIGH: nat := 90

  /** CPU ticks handed out so far. */
  datatype Usage = Usage(holder: nat, middle: nat, idle: nat) {
    function Total(): nat { holder + middle + idle }
  }

  /** The moment the control loop asks for the lock, and the holder's work left at that moment. */
  datatype Ask = Ask(at: nat, owed: nat, usage: Usage)

  /** A completed lock acquisition of the control loop. */
  datatype Wait = Wait(ask: Ask, end: nat, usage: Usage) {
    function Elapsed(): int { end - ask.at }
    function HolderTicks(): int { usage.holder - ask.usage.holder }
    function MiddleTicks(): int { usage.middle - ask.usage.middle }
    function Micros(ticksPerUs: pos): int { Elapsed() / ticksPerUs }
  }

  // A thread with 0 ticks of sleep left is ready.
  datatype Holder = Resting(left: nat) | Critical(left: nat, since: nat) | Leaving | Exited
  datatype Control = Unborn | Pausing(left: nat) | Blocked(ask: Ask) | Granted(ask: Ask) | Finished
  datatype Launcher = Starting(left: nat) | Joining | Cleared

  datatype Core = Core(
    now: nat,
    holder: Holder,
    control: Control,
    launcher: Launcher,
    running: bool,      // g_running
    cyclesLeft: nat,
    worst: int,         // g_worst_block_us
    usage: Usage,
    waits: seq<Wait>)

  /** What the middle band would do with the CPU: nothing, a zero-time action, or burn a tick. */
  datatype Demand = Absent | Instant | Busy

  datatype Runner = ControlRuns | HolderRuns | MiddleRuns | LauncherRuns | NobodyRuns

  function HolderPriority(p: Params, c: Core): nat {
    if p.inherit && c.control.Blocked? then HIGH else LOW
  }

  predicate ControlReady(c: Core) {
    c.control.Granted? || c.control == Pausing(0)
  }

  predicate HolderReady(c: Core) {
    c.holder.Critical? || c.holder.Leaving? || c.holder == Resting(0)
  }

  predicate LauncherReady(c: Core) {
    c.launcher == Starting(0) || (c.launcher.Joining? && c.control.Finished?)
  }

  function Who(p: Params, c: Core, mid: Demand): Runner {
    if ControlReady(c) then ControlRuns
    else if HolderReady(c) && (mid.Absent? || HolderPriority(p, c) > MIDDLE) then HolderRuns
    else if !mid.Absent? then MiddleRuns
    else if LauncherReady(c) then LauncherRuns
    else NobodyRuns
  }

  predicate TimePasses(p: Params, c: Core, mid: Demand) {
    match Who(p, c, mid)
    case NobodyRuns => true
    case MiddleRuns => mid.Busy?
    case HolderRuns => c.holder.Critical? && c.holder.left > 0
    case _ => false
  }

  function Dec(n: nat): nat { if n == 0 then 0 else n - 1 }

  /** One tick: every sleep shortens; the holder's work shortens only if it has the CPU. */
  function Tick(c: Core, who: Runner): Core {
    c.(now := c.now + 1,
       holder := match c.holder
                 case Resting(l) => Resting(Dec(l))
                 case Critical(l, t) => Critical(if who.HolderRuns? then Dec(l) else l, t)
                 case h => h,
       control := if c.control.Pausing? then Pausing(Dec(c.control.left)) else c.control,
       launcher := if c.launcher.Starting? then Starting(Dec(c.launcher.left)) else c.launcher,
       usage := match who
                case HolderRuns => c.usage.(holder := c.usage.holder + 1)
                case MiddleRuns => c.usage.(middle := c.usage.middle + 1)
                case _ => c.usage.(idle := c.usage.idle + 1))
  }

  /** The control loop: ask for the lock; once it has it, record the wait, release, sleep. */
  function ControlAct(p: Params, c: Core, n: nat): Core {
    match c.control
    case Pausing(_) =>
      if c.cyclesLeft == 0 then
        c.(control := Finished)
      else if c.holder.Critical? then
        c.(control := Blocked(Ask(c.now, c.holder.left, c.usage)))
      else
        c.(control := Granted(Ask(c.now, 0, c.usage)))
    case Granted(ask) =>
      var w := Wait(ask, c.now, c.usage);
      var blocked := w.Micros(p.ticksPerUs);
      c.(control := Pausing(p.pause.Pick(n)),
         cyclesLeft := Dec(c.cyclesLeft),
         worst := if blocked > c.worst then blocked else c.worst,
         waits := c.waits + [w])
    case _ => c
  }

  /** The diagnostics thread: test g_running, lock, work, unlock (handing over to a waiter), sleep. */
  function HolderAct(p: Params, c: Core, n: nat): Core {
    match c.holder
    case Resting(_) =>
      c.(holder := if c.running then Critical(p.work, c.now) else Exited)
    case Critical(_, _) =>
      c.(holder := Leaving,
         control := if c.control.Blocked? then Granted(c.control.ask) else c.control)
    case Leaving =>
      c.(holder := Resting(p.rest.Pick(n)))
    case Exited => c
  }

  /** The launcher: start the control loop; after joining it, clear g_running. */
  function LauncherAct(c: Core): Core {
    match c.launcher
    case Starting(_) => c.(launcher := Joining, control := Pausing(0))
    case Joining => c.(launcher := Cleared, running := false)
    case Cleared => c
  }

  function CoreStep(p: Params, c: Core, mid: Demand, n: nat): Core {
    var who := Who(p, c, mid);
    if TimePasses(p, c, mid) then Tick(c, who)
    else match who
      case ControlRuns => ControlAct(p, c, n)
      case HolderRuns => HolderAct(p, c, n)
      case LauncherRuns => LauncherAct(c)
      case _ => c
  }

  function CoreInit(p: Params): Core {
    Core(0, Resting(0), Unborn, Starting(p.startDelay), true, p.cycles, 0, Usage(0, 0, 0), [])
  }

  /** A run of the core under any sequence of middle-band demands and sleep lengths. */
  function CoreRun(p: Params, inputs: seq<(Demand, nat)>): Core {
    if inputs == [] then CoreInit(p)
    else
      var last := inputs[|inputs| - 1];
      CoreStep(p, CoreRun(p, inputs[..|inputs| - 1]), last.0, last.1)
  }

  // ---- The hog closes the middle band ----

  datatype Hog = Idling(left: nat) | Bursting(left: nat) | Stopped

  /** Idle ticks the hog had left when the holder took the lock. */
  datatype Slack = Until(left: nat) | Forever

  datatype Hold = Hold(since: nat, end: nat, slack: Slack) {
    function Length(): int { end - since }
  }

  datatype State = State(core: Core, hog: Hog, slack: Slack, holds: seq<Hold>)

  function DemandOf(h: Hog): Demand {
    match h
    case Stopped => Absent
    case Idling(l) => if l == 0 then Instant else Absent
    case Bursting(l) => if l == 0 then Instant else Busy
  }

  /** The hog's zero-time actions: test g_running and read the clock, or notice the deadline. */
  function HogAct(p: Params, h: Hog, running: bool, n: nat): Hog {
    match h
    case Idling(_) => if running then Bursting(p.burst.Pick(n)) else Stopped
    case Bursting(_) => Idling(p.idle.Pick(n))
    case Stopped => Stopped
  }

  /** Both the sleep and the busy-wait run on wall-clock time, whoever has the CPU. */
  function HogTick(h: Hog): Hog {
    match h
    case Idling(l) => Idling(Dec(l))
    case Bursting(l) => Bursting(Dec(l))
    case Stopped => Stopped
  }

  function SlackOf(h: Hog): Slack {
    if h.Idling? then Until(h.left) else Forever
  }

  function HogStep(p: Params, s: State, n: nat): Hog {
    var mid := DemandOf(s.hog);
    if TimePasses(p, s.core, mid) then HogTick(s.hog)
    else if Who(p, s.core, mid).MiddleRuns? then HogAct(p, s.hog, s.core.running, n)
    else s.hog
  }

  function Step(p: Params, s: State, n: nat): State {
    var c := CoreStep(p, s.core, DemandOf(s.hog), n);
    State(c,
          HogStep(p, s, n),
          if c.holder.Critical? && !s.core.holder.Critical? then SlackOf(s.hog) else s.slack,
          if s.core.holder.Critical? && !c.holder.Critical?
          then s.holds + [Hold(s.core.holder.since, s.core.now, s.slack)] else s.holds)
  }

  function Init(p: Params): State {
    State(CoreInit(p), Idling(0), Forever, [])
  }

  /** A run of the whole program: `ns[i]` is the length the environment offers to step i. */
  function Run(p: Params, ns: seq<nat>): State {
    if ns == [] then Init(p)
    else Step(p, Run(p, ns[..|ns| - 1]), ns[|ns| - 1])
  }

  predicate Done(s: State) {
    s.core.launcher.Cleared? && s.core.control.Finished? && s.core.holder.Exited? && s.hog.Stopped?
  }

  // ---- The scheduler respects priorities ----

  predicate Ready(c: Core, mid: Demand, r: Runner) {
    match r
    case ControlRuns => ControlReady(c)
    case HolderRuns => HolderReady(c)
    case MiddleRuns => !mid.Absent?
    case LauncherRuns => LauncherReady(c)
    case NobodyRuns => true
  }

  function Priority(p: Params, c: Core, r: Runner): int {
    match r
    case ControlRuns => HIGH
    case HolderRuns => HolderPriority(p, c)
    case MiddleRuns => MIDDLE
    case LauncherRuns => 0
    case NobodyRuns => -1
  }

  /** The thread that runs is ready and no ready thread has a higher effective priority. */
  lemma {:induction false} RunsHighestPriority(p: Params, c: Core, mid: Demand, r: Runner)
    requires Ready(c, mid, r)
    ensures Ready(c, mid, Who(p, c, mid))
    ensures Priority(p, c, r) <= Priority(p, c, Who(p, c, mid))
  {
    assert c.control.Blocked? ==> !ControlReady(c);
  }

  /** Only a waiting control loop, and only with inheritance, lifts the holder over the middle band. */
  lemma {:induction false} MiddleOutranksHolder(p: Params, c: Core, mid: Demand)
    requires !ControlReady(c) && !mid.Absent?
    ensures Who(p, c, mid) == (if p.inherit && c.control.Blocked? && HolderReady(c) then HolderRuns else MiddleRuns)
  {
  }
}
