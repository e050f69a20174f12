# Verified models of six concurrency and undefined-behaviour cases

The repository collects small C++ programs, each in a broken and a fixed variant, with the evidence
that the defect happens and that the fix removes it. This project models five of the six cases as
step systems or exact arithmetic and proves what the programs' comments, verdicts and documentation
claim, over every run and every input, for any number of threads where the code allows it.

| module | what it models |
|---|---|
| `Scheduler` | case 06: three fixed-priority threads, the time-shared launcher and one mutex on one CPU, with priority inheritance as a flag |
| `Inheritance` | case 06: the account of every wait, for any behaviour of the middle priority band |
| `PlainMutex`, `Inversion` | case 06 without inheritance: how long holds last, what every run pays, and when it pays nothing, with timings that vary |
| `Spans` | the same with timings that vary: when every hold is caught |
| `Timetable`, `Requests` | the same with exact timings: when every hold begins and ends, and which holds the control loop pays for |
| `Windows` | for a section shorter than the hog's sleep, the bursts that are paid for |
| `Throttle` | case 06: how busy the CPU can be in any window of time |
| `Descent`, `Termination` | case 06: every run ends |
| `Program` | case 06: the machine that updates the shared variables in place |
| `Verdicts` | case 06: the program's constants, when each verdict is given, and `main` from gate to exit code |
| `SpinWork`, `Calibration` | case 06: the 64-bit recurrence and the calibration arithmetic |
| `Watchdog` | case 02, broken: the traced locks and the watchdog's four loads |
| `BackOff` | case 02, fixed: transfers under `scoped_lock` |
| `LockHierarchy` | case 02, the documented alternative: locks acquired in rank order |
| `RacyCounter` | case 01, both variants |
| `Coherence`, `FalseSharing` | case 05: caches with invalidation on write, and the two counter layouts |
| `Machine32`, `BoundsCheck` | case 04: the two versions of `fits` and the two committed listings of one |
| `Arith` | division, products and powers of two |

## How to read the models

**Steps and schedules.** A concurrent program is a state, a deterministic `Step` and a `Run` over a
sequence of choices: which thread moves next (cases 01, 02 and 05), or how long the next sleep or
burst lasts (case 06, where the scheduler itself decides who moves). A statement about all such
sequences is a statement about all runs. Steps interleave on one memory.

**Case 06.** Scheduling follows SCHED_FIFO (POSIX.1-2017 System Interfaces, section 2.8.4);
inheritance follows the `pthread_mutexattr_setprotocol` page of the same standard. Holding the lock
costs *work* (`Critical(left)` shrinks only while its thread has the CPU); the hog's burst is
*wall-clock* (`Bursting(left)` shrinks on every tick). `CoreRun` takes the demands of the middle
band as an input at every step, so that what is proved of it holds for any number of middle threads
that never lock; `Run` closes the band with the one hog of the program. Lengths are ticks, with any
number of ticks to the microsecond.

**Imperative form.** `Program.Machine`, `Watchdog.Transfers`, `BackOff.Bank` and
`RacyCounter.Metrics` hold the shared state in fields and arrays that their methods update; each
method is proved to do what the step function says, and the properties are proved of the step
function. `SpinWork.SpinWorkLoop`, `FalseSharing.RunWith` and `BoundsCheck.Execute` are the loops of
the sources (and of the processor).

**Proofs.** Dafny's automatic induction is switched off throughout: every induction is written out as
a recursive call.

## Where the code and its comments disagree

The model follows the code; each point below is a lemma.

- `cases/06-priority-inversion/broken.cpp:111-112` says that the chosen idle window and critical
  section make sure the holder is caught mid-section. The gate, however, lets sections down to 2.5 ms
  pass. With the program's constants a section of at least 3 ms is caught in every hold and a shorter
  one in none (`Verdicts.CaughtExactly`), and the plain program reports the inversion if and only if
  the section is that long (`Verdicts.InversionVerdictExact`). A section of 2.5 ms passes the gate and
  is never caught (`Verdicts.AcceptedButNeverCaught`).
- `cases/06-priority-inversion/broken.cpp:107-109` says that a window long enough for the section always
  lets the holder finish before the hog returns. A window of 15 ms does not let a section of 5.5 ms do so:
  in every completed run the second hold lasts 15.5 ms (`Verdicts.LongWindowStillCatches`). A window longer
  than section and burst together does not either: with 50 ms and a section of 6 ms the fourth hold of
  every completed run lasts 16 ms (`Verdicts.WideWindowStillCatches`). With exact timings the condition is
  where the holder wakes up. Let phase k be k * (section + rest) mod (burst + idle), counted from the hog
  falling asleep. A hold is caught if and only if, for some k below the length of the period, phase k is
  in the last `section` ticks of the window and no earlier phase is in the burst
  (`Timetable.CaughtIffDriftLands`, for every section, rest, burst and window).
- `cases/06-priority-inversion/broken.cpp:187-192` says that a longer hog makes the wait longer.
  `Verdicts.VerdictOfBurst` gives, for every section the gate accepts and every burst from 10 ms on, when
  the plain program reports the inversion; when it does not, no wait exceeds the section.
  - Sections from 3 ms on: if and only if burst + (3 ms - section mod 3 ms) < 599 * 2 ms, that is, if the
    hog falls asleep again before the last of the 600 requests. With 5 ms this is so exactly for bursts
    below 1197 ms (`Verdicts.LongHogReportsNothing`). From there on no wait is recorded at all.
  - Shorter sections: if and only if drift < 3 ms and 3 ms - section <= 38 * drift, with drift = (section +
    30 ms) mod (burst + 3 ms); the control loop asks during 38 holds. With 2.7 ms the inversion is not
    reported at 10 ms of burst, reported at 12 ms and not reported at 14 ms
    (`Verdicts.ReportsComeAndGo`).

  So no burst raises a wait beyond a fixed cap (`Verdicts.CyclesCapEveryWait`).
- `cases/02-lock-order-inversion/broken.cpp:93` promises a report if a cycle is still standing. The
  four loads are not a snapshot: they can report two transfers that are making progress
  (`Watchdog.LoadsCanReportProgress`). A report is right exactly when the first thread is still
  waiting when looked at again (`Watchdog.ReportRightIffStillWaiting`).
- `cases/02-lock-order-inversion/README.md:73-75` describes the back-off of `scoped_lock`. It cannot
  deadlock and completion stays reachable, but it can back off for ever. Back-offs are all that delays a
  run: it completes exactly when the threads have moved eight times each and three times more for every
  back-off (`BackOff.OnlyBackOffsDelay`). Two transfers can be kept backing off without end if and only if
  they are opposite (`BackOff.LivelockIffOpposed`), as the two of the program are; any other two back off
  once at most (`BackOff.OneBackOffAtMost`). Three in the same direction can be (`BackOff.AlikeCanLivelock`);
  any number of transfers each with an account of its own cannot (`BackOff.OwnAccountsComplete`).

## Model

| member | source | states |
|---|---|---|
| Scheduler.RunsHighestPriority | cases/06-priority-inversion/broken.cpp:171-217 | the thread given the CPU is ready, and no ready thread has a higher effective priority (10, 50, 90, or 90 for a holder the control loop waits for) |
| Scheduler.MiddleOutranksHolder | cases/06-priority-inversion/fixed.cpp:5-9 | in both variants, whenever the middle band asks for the CPU and the control loop does not, the middle band gets it, unless inheritance is on and the control loop is waiting for the holder: nothing else lifts the holder above 50 |
| Inheritance.CoreInvariant | cases/06-priority-inversion/fixed.cpp:157-192 | in every run, under any middle-band behaviour: one lock owner, every tick accounted for, every recorded wait equals holder ticks plus middle ticks with the holder's part exactly the work owed when asked, and `worst` is the maximum of all truncated waits |
| Inheritance.AccountsStep | cases/06-priority-inversion/fixed.cpp:141-192 | each step of each thread keeps the account of the wait in progress |
| Inheritance.InheritedWaitIsOwedWork | cases/06-priority-inversion/fixed.cpp:274-284 | with inheritance every wait equals the holder's remaining work at the moment of asking, so it is never longer than one critical section |
| Inheritance.InheritedWaitEnds | cases/06-priority-inversion/fixed.cpp:3-9 | while the control loop waits the holder runs at 90 at every step; after exactly its remaining work it hands over and is back at 10 |
| Inheritance.InheritanceQuietsTheBand | cases/06-priority-inversion/fixed.cpp:3-9 | the inheriting program refines the plain one: each of its runs is, state for state, the plain run in which the middle band asks for nothing while the control loop waits and is unchanged at all other steps |
| Inheritance.TwinsUntilAWait | cases/06-priority-inversion/fixed.cpp:22-24 | the two programs do exactly the same until the control loop first has to wait |
| Inheritance.HogAgesThroughTheWait | cases/06-priority-inversion/broken.cpp:95-100 | the hog's busy-wait and sleep are wall-clock: through an inherited wait, in which it never runs, they run out tick by tick |
| Inheritance.BoundedVerdictGuaranteed | cases/06-priority-inversion/fixed.cpp:232-284 | whenever the section costs at most twice the target in truncated microseconds, no run of the inheriting program has a worst wait above that, so the verdict is BOUNDED |
| Inheritance.InversionVerdictSound | cases/06-priority-inversion/broken.cpp:297-304 | with a section of at most twice the target, a worst wait above that belongs to a wait in which middle-priority threads ran for at least everything beyond one critical section, and the mutex was the plain one |
| PlainMutex.HoldInvariant | cases/06-priority-inversion/broken.cpp:171-199 | at every moment of every run the time a hold has taken plus what it still needs lies between the two extremes fixed by the slack at its start |
| PlainMutex.HoldLength | cases/06-priority-inversion/broken.cpp:105-112 | every hold lasts its work plus between (bursts at shortest) and (bursts at longest) as many whole bursts as its slack admits, at most C + ceil(C/I) * B |
| PlainMutex.HoldFreeOfBursts | cases/06-priority-inversion/broken.cpp:105-112 | a hold lasts exactly its work if and only if the idle time left at its start exceeds the work; otherwise it contains a whole burst |
| Spans.EveryHoldCaughtIff | cases/06-priority-inversion/broken.cpp:105-112 | for any timings within their spans, every hold of every run contains a whole burst if and only if the section is no shorter than the hog's longest sleep |
| Spans.SomeHoldEscapes | cases/06-priority-inversion/broken.cpp:107-109 | when the hog can sleep longer than the section lasts, some run has a hold that lasts exactly its work |
| PlainMutex.AcquiresOnlyWhileHogSleeps | cases/06-priority-inversion/broken.cpp:105-107 | without inheritance the holder takes the lock only while the hog sleeps or has exited |
| PlainMutex.WaitBounded | cases/06-priority-inversion/broken.cpp:202-217 | every wait of every plain run is at most C + ceil(C/I) * B |
| Inversion.EveryFinishedRunPays | cases/06-priority-inversion/broken.cpp:185-192 | when timings vary within their spans, a condition under which every run whose control loop finishes has a wait of at least C + B less one pause: C is at least the idle window, one hold outlasts a pause, and the loop outlives sleep, burst and pause |
| Inversion.LongBurstsHideTheInversion | cases/06-priority-inversion/broken.cpp:185-217 | when timings vary within their spans, a condition under which every run records only waits of 0: the shortest burst covers the start-up delay and all pauses up to the last request |
| Timetable.HoldsKeepTheTimetable | cases/06-priority-inversion/broken.cpp:171-199 | with exact timings the holds of every run of the plain program, for any section, rest, burst and sleep, begin and end exactly when a recurrence over the hog's period says, whatever the control loop does |
| Timetable.CaughtIffDriftLands | cases/06-priority-inversion/broken.cpp:105-112 | for every section, rest, burst and sleep: some hold of the timetable is caught if and only if, for some k below the length of the hog's period, k * (section + rest) mod (burst + idle) is in the part of the sleep that the section does not fit into and no smaller multiple is in the burst |
| Timetable.NoOverrunNoInversion | cases/06-priority-inversion/broken.cpp:107-109 | if no hold of the timetable is caught, every hold of every run lasts exactly its work and no wait exceeds it |
| Timetable.HoldsByFinish | cases/06-priority-inversion/broken.cpp:171-217 | every run in which the control loop finishes contains all holds of the timetable that end before its pauses are over |
| Requests.PaymentIsDecided | cases/06-priority-inversion/broken.cpp:185-217 | with exact timings, for sections shorter or longer than the hog's sleep, when every hold outlasts a pause and sleeps take time: the control loop starts after some hold, at a computable moment, and from there it is decided before the run what it pays: a completed run has a wait of at least a section and a burst, less one pause, if and only if the control loop still asks in some hold that the hog interrupts; otherwise no wait of any run exceeds a section that fits |
| Requests.RequestsDecide | cases/06-priority-inversion/broken.cpp:185-217 | the same for a given start of the control loop |
| Requests.StartExists | cases/06-priority-inversion/broken.cpp:271-272 | there is such a start: some hold leaves the launcher time before the holder wakes up |
| Requests.StartsOnTime | cases/06-priority-inversion/broken.cpp:271-272 | and every run starts its control loop at exactly that moment |
| Requests.OnCourseStep | cases/06-priority-inversion/broken.cpp:171-217 | every step of the four threads keeps the start of the control loop, its requests and its waits to the plan |
| Requests.BurstDecides | cases/06-priority-inversion/broken.cpp:185-192 | sections that fill the hog's sleep: it pays if and only if B + (I - C mod I) is less than the time from the first request to the last, and otherwise no wait of any run takes time |
| Windows.WindowDecides | cases/06-priority-inversion/broken.cpp:185-192 | with the program's constants, any burst from 10 ms on and a section between the pause and the hog's sleep: it pays if and only if drift < 3 ms and 3 ms - C <= 38 * drift; otherwise no wait of any run exceeds the section |
| Throttle.StepPays | cases/06-priority-inversion/broken.cpp:102-126 | no step of any thread lets elapsed time outrun the idle time that pays for it, beyond a bounded debt |
| Throttle.IdleShare | cases/06-priority-inversion/broken.cpp:114-126 | in every window of every run, both variants, the CPU is idle for at least a fifteenth of all but 109 ms of it |
| Throttle.ThrottleNeverFires | cases/06-priority-inversion/broken.cpp:114-122 | hog and holder together use at most 950 ms of CPU in any window of at most 1000 ms, with bursts up to 10 ms, sleeps from 3 and 30 ms, and sections up to 11 ms |
| Termination.Descends | cases/06-priority-inversion/broken.cpp:269-277 | every step of an unfinished program lowers a lexicographic rank, in both variants |
| Termination.EveryRunEnds | cases/06-priority-inversion/broken.cpp:269-277 | from every reachable state, whatever lengths the environment offers, finitely many steps finish the 600 cycles, clear `g_running` and end all threads |
| Program.Machine.constructor | cases/06-priority-inversion/broken.cpp:230-272 | the machine starts in the initial state |
| Program.Machine.Schedule | cases/06-priority-inversion/broken.cpp:171-217 | the choice made on the fields is the scheduler's |
| Program.Machine.PassTick | cases/06-priority-inversion/broken.cpp:67-100 | a tick shortens every sleep and the busy-wait, and the work only if the holder has the CPU |
| Program.Machine.Control | cases/06-priority-inversion/broken.cpp:202-217 | asking, recording the truncated wait and its maximum, releasing and sleeping, on the shared fields |
| Program.Machine.Diagnostics | cases/06-priority-inversion/broken.cpp:171-183 | testing `g_running`, locking, unlocking with hand-over, sleeping, and the record of each hold |
| Program.Machine.Launch | cases/06-priority-inversion/broken.cpp:271-275 | starting the control loop, then clearing `g_running` after it is joined |
| Program.Machine.Advance | cases/06-priority-inversion/broken.cpp:171-217 | one step of the machine is one step of the model, whole state |
| Program.Machine.Execute | cases/06-priority-inversion/broken.cpp:269-277 | the loop ends, in the state of a run that is done |
| Verdicts.InversionVerdictExact | cases/06-priority-inversion/broken.cpp:105-112 | with the program's constants a completed plain run has a worst wait above twice the target if and only if the section is at least 3 ms |
| Verdicts.InversionVerdictGuaranteed | cases/06-priority-inversion/broken.cpp:302-311 | in that case the worst wait is at least 11000 us |
| Verdicts.ShortSectionNeverInverts | cases/06-priority-inversion/broken.cpp:105-112 | otherwise no wait of any run exceeds the section |
| Verdicts.CaughtExactly | cases/06-priority-inversion/broken.cpp:111-112 | with the program's constants every hold contains a whole burst if the section is at least 3 ms, and no hold contains any if it is shorter |
| Verdicts.AcceptedButNeverCaught | cases/06-priority-inversion/broken.cpp:261-267 | a section of 2.5 ms passes the gate wherever the clock ticks fall, and no run of the plain program has a wait beyond it |
| Verdicts.LongWindowStillCatches | cases/06-priority-inversion/broken.cpp:107-109 | with the hog's sleep at 15 ms and a section of 5.5 ms, the second hold of every completed run lasts 15.5 ms |
| Verdicts.WideWindowStillCatches | cases/06-priority-inversion/broken.cpp:107-109 | with the hog's sleep at 50 ms and a section of 6 ms, the fourth hold of every completed run lasts 16 ms |
| Verdicts.ThresholdExact | cases/06-priority-inversion/broken.cpp:185-192 | for every burst length and sections from 3 ms on: a completed run pays if and only if burst + (3 ms - C mod 3 ms) < 599 * 2 ms, and no wait takes time otherwise |
| Verdicts.WindowExact | cases/06-priority-inversion/broken.cpp:185-192 | for bursts from 10 ms on and sections between 2 and 3 ms: a completed run pays if and only if the burst is in the window of the drift, and no wait exceeds the section otherwise |
| Verdicts.VerdictOfBurst | cases/06-priority-inversion/broken.cpp:261-311 | for every section the gate accepts and every burst from 10 ms on: when the plain program reports the inversion, if and only if, and that the waits and the worst wait are harmless otherwise |
| Verdicts.LongHogReportsNothing | cases/06-priority-inversion/broken.cpp:185-192 | with a 5 ms section the condition holds exactly for bursts below 1197 ms |
| Verdicts.ReportsComeAndGo | cases/06-priority-inversion/broken.cpp:185-192 | with a 2.7 ms section, which the gate accepts, the condition fails at a burst of 10 ms, holds at 12 ms and fails at 14 ms |
| Verdicts.StartsAtFiftyMs | cases/06-priority-inversion/broken.cpp:269-272 | with a 5 ms section every run of the plain program starts the control loop at 50 ms exactly |
| Verdicts.CyclesCapEveryWait | cases/06-priority-inversion/broken.cpp:202-217 | with the program's other constants no burst, however long, makes a wait longer than C + ceil(C / 3 ms) * 599 * 2 ms |
| Verdicts.Separation | cases/06-priority-inversion/fixed.cpp:274-284 | with the cycles fixed: for every M they leave room for, some burst length makes every completed plain run, of which there is one, wait at least M, while its inheriting twin never waits longer than C |
| Verdicts.EnoughCycles | cases/06-priority-inversion/fixed.cpp:274-284 | and for every M some number of cycles, and every larger one, leaves that room |
| Verdicts.PassingIsWithinTwice | cases/06-priority-inversion/fixed.cpp:232-238 | no section whose measured cost passes the gate costs more than twice the target in truncated microseconds, whatever the truncating clock hides |
| Verdicts.PassingIsAtLeast | cases/06-priority-inversion/fixed.cpp:232-238 | nor less than 2499 us |
| Verdicts.FineMachineInverts | cases/06-priority-inversion/broken.cpp:143-168 | on a machine with a constant cost per iteration, the calibrated section passes the gate and is at least 3 ms long whenever one iteration and the probe's rounding cost at most 2 ms |
| Verdicts.AcceptedProgramIsNeverThrottled | cases/06-priority-inversion/broken.cpp:114-126 | with the program's constants and any section that passes the gate, no second of any run of either variant exceeds the kernel's 950 ms |
| Verdicts.RunProgram | cases/06-priority-inversion/fixed.cpp:224-289 | from the truncated readings to the exit code: 3 iff the gate rejects, 2 iff it accepts and a priority was refused, otherwise 1 iff the worst wait of the run exceeds twice the target; always 0 with inheritance, and with the plain mutex and the program's constants 1 iff the section is at least 3 ms |
| SpinWork.GeometricTwos | cases/06-priority-inversion/broken.cpp:89-93 | for a multiplier 1 mod 4, 1 + a + ... + a^(n-1) has exactly as many factors of two as n |
| SpinWork.ReturnsAfterPeriod | cases/06-priority-inversion/broken.cpp:89-93 | a state modulo 2^k comes back after n steps iff 2^k divides n |
| SpinWork.FullPeriod | cases/06-priority-inversion/broken.cpp:89-93 | two positions of one chain hold the same state iff they differ by a multiple of 2^k: full period |
| SpinWork.Seed | cases/06-priority-inversion/broken.cpp:89 | the loop starts from an odd number that has all other bits of the sink |
| SpinWork.FirstStates | cases/06-priority-inversion/broken.cpp:89-93 | the first states of the first call, as numbers |
| SpinWork.SpinWorkLoop | cases/06-priority-inversion/broken.cpp:77-94 | the loop leaves the state `iterations` steps along the chain from `sink` with its lowest bit set |
| SpinWork.EveryIterationCounts | cases/06-priority-inversion/broken.cpp:77-94 | different 64-bit iteration counts always leave different states, so no iteration can be dropped |
| Calibration.NeverAboveTwice | cases/06-priority-inversion/broken.cpp:143-168 | for every cost per iteration and every phase of the clock the measured section is at most twice the target |
| Calibration.CountIsExact | cases/06-priority-inversion/broken.cpp:157-167 | when the probe was timed, the count `calibrate` returns is the largest n with n * elapsed <= probe * target, and the microseconds it returns are the truncated reading of a section of n iterations |
| Calibration.RejectedOnlyWhenCoarse | cases/06-priority-inversion/broken.cpp:254-267 | a probe that was timed is rejected only if one iteration plus the probe's rounding costs about half the section |
| Calibration.AlwaysTimedIff | cases/06-priority-inversion/broken.cpp:143-155 | the probe of 20 million iterations is timed wherever the clock's ticks fall iff it costs at least a nanosecond |
| Calibration.UntimedProbeRejected | cases/06-priority-inversion/broken.cpp:153-155 | a probe the clock does not see returns its own count and 0 us, and is always rejected |
| Calibration.SlowMachineRejected | cases/06-priority-inversion/broken.cpp:159-160 | a machine on which one iteration costs more than the target is always rejected, because the calibrated section is empty |
| Watchdog.InvStep | cases/02-lock-order-inversion/broken.cpp:53-91 | each store, compare-exchange, lock, unlock and balance update keeps published fields, lock owners and balances in step with the workers' positions |
| Watchdog.WatchdogExactOnSnapshot | cases/02-lock-order-inversion/broken.cpp:97-112 | in every reachable state all four fields are set iff the workers are deadlocked, they then name the printed cycle and both labels are set, and a completed run has both balances at 1000 |
| Watchdog.PublishedIsTrue | cases/02-lock-order-inversion/broken.cpp:53-91 | in every reachable state `holding` names the source account and the worker has its lock, it does so as long as the worker has the second lock, a blocked worker's `waiting` names a lock the other worker has, and a step that changes a balance is made under both locks |
| Watchdog.OneTransferAlone | cases/02-lock-order-inversion/broken.cpp:131-140 | the first transfer alone leaves alice with 990 and bob with 1010, the second alone the reverse |
| Watchdog.DeadlockStays | cases/02-lock-order-inversion/broken.cpp:107-120 | a deadlock changes under no schedule |
| Watchdog.LoadsReportStandingDeadlock | cases/02-lock-order-inversion/broken.cpp:97-105 | four separate loads begun in a deadlock always report it |
| Watchdog.ReportRightIffStillWaiting | cases/02-lock-order-inversion/broken.cpp:97-105 | at the last load and at any later moment, a report by four separate loads is right iff the first worker is still waiting |
| Watchdog.LoadsCanReportProgress | cases/02-lock-order-inversion/broken.cpp:97-105 | a run in which the loads report a cycle although one worker is through and the other can move |
| Watchdog.DeadlockHappens | cases/02-lock-order-inversion/broken.cpp:83-91 | a schedule that deadlocks the two transfers |
| Watchdog.ThreadState.CompareExchange | cases/02-lock-order-inversion/broken.cpp:62-69 | the field becomes the desired value iff it held the expected one |
| Watchdog.Transfers.constructor | cases/02-lock-order-inversion/broken.cpp:39-49 | fresh shared objects in the initial state |
| Watchdog.Transfers.StepWorker | cases/02-lock-order-inversion/broken.cpp:53-91 | the next instruction of a worker, done on the shared objects, is the model's step, whole state |
| Watchdog.Transfers.Let | cases/02-lock-order-inversion/broken.cpp:131-143 | running a schedule on the objects is the model's run |
| Watchdog.Transfers.Watch | cases/02-lock-order-inversion/broken.cpp:94-105 | the watchdog's answer on the running objects: it is what four spread loads see, it covers every standing deadlock, and it is right iff the first worker still waits |
| BackOff.LocksStep | cases/02-lock-order-inversion/fixed.cpp:28-34 | every step keeps each lock owned by exactly the thread whose position holds it |
| BackOff.RegistersStep | cases/02-lock-order-inversion/fixed.cpp:32-33 | a balance loaded under both locks is still in memory when the sum is stored |
| BackOff.TotalConserved | cases/02-lock-order-inversion/fixed.cpp:28-47 | the sum of all balances is the opening sum at every moment at which no thread is between its two stores |
| BackOff.CompleteRunsAreSerial | cases/02-lock-order-inversion/fixed.cpp:28-47 | every completed run of any multiset of transfers ends with the balances of applying them one by one in any order |
| BackOff.NeverStuck | cases/02-lock-order-inversion/README.md:73-75 | in every reachable state no blocked thread holds a lock, and an unfinished state has a thread that can move |
| BackOff.CompletionReachable | cases/02-lock-order-inversion/README.md:73-75 | from every reachable state, for any number of threads and accounts, some schedule completes all transfers |
| BackOff.OnlyBackOffsDelay | cases/02-lock-order-inversion/README.md:73-75 | for any number of threads, a run has at most eight moves a thread and three for every back-off, and exactly that many if and only if all transfers are complete |
| BackOff.LivelockIffOpposed | cases/02-lock-order-inversion/README.md:73-75 | between any accounts, two transfers can be made to back off any number of times if and only if they are opposite |
| BackOff.OneBackOffAtMost | cases/02-lock-order-inversion/README.md:73-75 | two transfers that are not opposite back off at most once under every schedule and move at most nineteen times |
| BackOff.LivelockPossible | cases/02-lock-order-inversion/README.md:73-75 | among any number of threads, two that are about to take the same two free locks in opposite orders have schedules of any length, with four back-offs to every twelve steps, after which everything is as before |
| BackOff.OwnAccountsComplete | cases/02-lock-order-inversion/README.md:73-75 | any number of transfers, each of which has an account on one side that no other uses: at most one back-off a thread and eleven moves a thread under every schedule |
| BackOff.AlikeCanLivelock | cases/02-lock-order-inversion/README.md:73-75 | three transfers in the same direction between two accounts, no two of them opposite, can be made to back off any number of times |
| BackOff.Bank.constructor | cases/02-lock-order-inversion/fixed.cpp:20-26 | any accounts and transfers, every lock free and no thread started |
| BackOff.Bank.StepLocks | cases/02-lock-order-inversion/README.md:73-75 | blocking on one lock, trying the other and backing off, on the arrays, is the model's step |
| BackOff.Bank.StepBody | cases/02-lock-order-inversion/fixed.cpp:31-34 | each load, store and unlock on the arrays is the model's step |
| BackOff.Bank.StepThread | cases/02-lock-order-inversion/fixed.cpp:28-34 | whatever thread i does next on the arrays is the model's step, whole state |
| BackOff.Bank.Let | cases/02-lock-order-inversion/fixed.cpp:42-46 | running a schedule on the arrays is the model's run |
| BackOff.Bank.Complete | cases/02-lock-order-inversion/fixed.cpp:38-48 | the program completes iff the run finishes all threads, and then the array of balances is that of the transfers made one by one |
| LockHierarchy.NeverACycle | cases/02-lock-order-inversion/README.md:77-81 | under the rank rule no path of waits, of any length, in any reachable state, returns to its start |
| LockHierarchy.AlwaysProgress | cases/02-lock-order-inversion/README.md:77-81 | a reachable state has a thread that can step iff it is unfinished |
| LockHierarchy.EveryRunEnds | cases/02-lock-order-inversion/README.md:77-81 | a run has at most as many steps as the programs together, exactly that many iff all threads have finished, and then every lock is free |
| LockHierarchy.DisciplinedIffInOrder | cases/02-lock-order-inversion/broken.cpp:80-91 | taking two locks in argument order keeps the rule iff the arguments come in rank order |
| LockHierarchy.DeadlockIffCycle | cases/02-lock-order-inversion/broken.cpp:80-91 | any number of transfers that take their locks in argument order can deadlock if and only if their accounts, as edges from source to destination, form a cycle |
| LockHierarchy.OrderedTransfersComplete | cases/02-lock-order-inversion/fixed.cpp:6-11 | any transfers that compare their accounts first: every run has at most four steps a transfer and can be continued until it has exactly that many |
| LockHierarchy.TransfersLockTheirOwn | cases/02-lock-order-inversion/README.md:60-62 | whether accounts are compared or not, each transfer locks exactly its own two accounts, the lower one first if they are compared and the source first if not: at every point of every run it holds nothing, its first or both, and one that gets through has held both at once |
| LockHierarchy.OppositeTransfersDeadlock | cases/02-lock-order-inversion/README.md:60-62 | without the comparison two opposite transfers reach an unfinished state with a cycle of waits and no step |
| RacyCounter.AtomicIsExact | cases/01-dropped-counters/fixed.cpp:29-53 | every complete run of the atomic program ends at n * k modulo 2^64, so at n * k iff that is a 64-bit value |
| RacyCounter.AtomicCompletes | cases/01-dropped-counters/fixed.cpp:29-46 | from any point of any run the atomic program can be completed, in as many steps as there are increments left |
| RacyCounter.CountedRange | cases/01-dropped-counters/broken.cpp:28-53 | every complete racy run counts between 2 and n * k, so `expected - counted` never wraps |
| RacyCounter.ReachHigh | cases/01-dropped-counters/broken.cpp:28-32 | a schedule for every count from k to n * k |
| RacyCounter.ReachLow | cases/01-dropped-counters/broken.cpp:28-32 | a schedule for every count from 2 to k + 1 |
| RacyCounter.ReachableCounts | cases/01-dropped-counters/broken.cpp:28-55 | with at least two workers and two increments each, a final count v happens in some run iff 2 <= v <= n * k |
| RacyCounter.Metrics.Increment | cases/01-dropped-counters/broken.cpp:28-32 | the load or the store of one increment on the shared field is the model's step |
| RacyCounter.Metrics.FetchAdd | cases/01-dropped-counters/fixed.cpp:29-33 | the atomic add on the shared field is the model's step |
| RacyCounter.CountRacy | cases/01-dropped-counters/broken.cpp:36-55 | counted and lost add up to the expected value, and at most all but two increments are lost |
| RacyCounter.CountAtomic | cases/01-dropped-counters/fixed.cpp:37-53 | the program counts n * k modulo 2^64 and always finds that exact; it is the true product iff that fits in 64 bits |
| Coherence.AgreesStep | cases/05-false-sharing/broken.cpp:22-27 | every access of every core returns what flat memory holds and keeps copies current, modified copies unique and memory current where nobody has modified |
| Coherence.CachingIsInvisible | cases/05-false-sharing/broken.cpp:22-38 | in every run the i-th access returns the value flat memory has at that point |
| Coherence.FlatAccess | cases/05-false-sharing/broken.cpp:34-43 | a load changes nothing, a store leaves its value, a fetch_add adds modulo 2^64, and no other word changes |
| Coherence.CopiesExactly | cases/05-false-sharing/broken.cpp:24-27 | a core has a copy of a line iff since some access of its own no other core has written to the line, and owns it iff since some write of its own no other core has touched it |
| Coherence.MissesExactly | cases/05-false-sharing/broken.cpp:24-27 | from empty caches an access misses iff its core has not kept the copy it needs in this sense |
| FalseSharing.PaddedLines | cases/05-false-sharing/fixed.cpp:29-36 | padded counters share a line iff they are the same counter, wherever they start |
| FalseSharing.WholeLineIff | cases/05-false-sharing/fixed.cpp:29-34 | what `alignas` adds: the 64 bytes of a padded counter are one line, which nothing else can share, iff the counters start on a line |
| FalseSharing.AdjacentShare | cases/05-false-sharing/broken.cpp:28-32 | wherever four adjacent counters start, two of them share a line |
| FalseSharing.Strides | cases/05-false-sharing/broken.cpp:62-64 | neighbouring counters are 8 bytes apart in one layout and 64 in the other |
| FalseSharing.AdjacentPairs | cases/05-false-sharing/broken.cpp:22-32 | wherever four adjacent counters start, two of them share a line iff no line begins between them |
| FalseSharing.OneLineIff | cases/05-false-sharing/broken.cpp:22-32 | all four share one line iff they start in its first five words |
| FalseSharing.OneLineMisses | cases/05-false-sharing/broken.cpp:22-27 | and then, under every schedule, the misses are exactly the changes of worker |
| FalseSharing.MissesAreSwitches | cases/05-false-sharing/broken.cpp:22-38 | in either layout and under every schedule the workers miss exactly as often as a worker was not the last on its line |
| FalseSharing.PaddedMissesOncePerWorker | cases/05-false-sharing/fixed.cpp:29-42 | with one line per counter the misses equal the number of workers that ran, at most n, for any number of increments |
| FalseSharing.AdjacentCanAlwaysMiss | cases/05-false-sharing/broken.cpp:22-38 | with adjacent counters there are two workers and, for every k, a schedule of 2k increments that all miss |
| FalseSharing.ResetPrepares | cases/05-false-sharing/broken.cpp:41-43 | from any coherent state, resetting all counters, of which there may be more than workers, leaves no worker's core owning a worker's line |
| FalseSharing.RunWithIsExact | cases/05-false-sharing/fixed.cpp:44-56 | a whole `runWith` with no more workers than counters, in either layout: each counter ends at its number of increments, none beyond the workers', as any core reads it, and the workers miss as often as they switch |
| FalseSharing.RunWith | cases/05-false-sharing/broken.cpp:40-52 | with up to four threads the array of four ends with each counter at its number of increments |
| Machine32.SignedConditions | evidence/04-broken-disassembly.txt:10-26 | after a comparison the signed jump and set conditions read the signed order, whether or not the subtraction overflowed |
| Machine32.OrSign | evidence/04-broken-disassembly.txt:34-35 | the sign of a bitwise or is the or of the signs, so one test covers both arguments |
| Machine32.BitByBit | evidence/04-broken-disassembly.txt:33-34 | every bit of an or and of an exclusive or is that of the operands' bits |
| Machine32.AddLeaves | evidence/04-broken-disassembly.txt:36 | an addition leaves the sum modulo 2^32, and the flags give zero and the true sign also when it does not fit |
| Machine32.BitwiseLeaves | evidence/04-broken-disassembly.txt:33-34 | the bitwise instructions write their destination and leave its sign and zero, without overflow |
| Machine32.CmpLeaves | evidence/04-broken-disassembly.txt:10-12 | a comparison of any two operands changes the flags alone, and they give the signed order |
| Machine32.PutGet | evidence/04-broken-disassembly.txt:8-21 | a written register or stack slot reads back, and no other changes |
| Machine32.PushPop | evidence/04-broken-disassembly.txt:6-28 | popping the frame pointer restores what was pushed, and the stack pointer, whatever the frame pointer was in between |
| BoundsCheck.SubtractingIsExact | cases/04-overflow-removes-check/fixed.cpp:36-46 | the subtracting check is defined on all 32-bit inputs and answers 0 <= offset, 0 <= length, offset + length <= 1024 over the integers |
| BoundsCheck.AddingIsPartial | cases/04-overflow-removes-check/broken.cpp:34-43 | the adding check is undefined on exactly the non-negative pairs whose sum leaves the type, and right on all others |
| BoundsCheck.O0Decides | evidence/04-broken-disassembly.txt:4-28 | called in any machine state, the -O0 listing returns the integer answer for all 32-bit inputs and restores stack and frame pointer |
| BoundsCheck.O2Decides | evidence/04-broken-disassembly.txt:31-39 | called in any machine state, the -O2 listing returns whether the wrapped sum of two non-negative arguments is at most 1024 |
| BoundsCheck.O2WrongExactlyOnOverflow | evidence/04-broken-disassembly.txt:30-39 | the -O2 answer agrees with the source wherever the source is defined, and is wrong (an acceptance) iff both arguments are non-negative and their sum exceeds 2^31 - 1 |
| BoundsCheck.Execute | evidence/04-broken-disassembly.txt:4-39 | running either listing instruction by instruction ends, with the answer above in `al` |

## Left out

- Inversion.EveryFinishedRunPays: sufficient, for timings that vary within spans; nothing is stated between its condition and that of `Inversion.LongBurstsHideTheInversion`. With exact timings, as in the program, `Requests.PaymentIsDecided` leaves no gap.
- Inversion.LongBurstsHideTheInversion: sufficient in the same sense.
- Verdicts.Separation: M is limited by the number of cycles; that it has to be is `Verdicts.CyclesCapEveryWait`.
- Verdicts.WindowExact: sections up to one pause (2 ms) are left out, because the gate accepts none, and so are bursts below the program's 10 ms.
- BackOff.OwnAccountsComplete: sufficient; for three and more transfers the exact condition for backing off without end is not stated.
- Calibration.RejectedOnlyWhenCoarse: a necessary condition; `Calibration.SlowMachineRejected` gives a sufficient one. The doubles of `calibrate` are exact reals, so rounding of the quotient and the product is not covered.
- FalseSharing.RunWith: computes on one array of words; the cost of the layouts is proved on the cached memory of `Coherence`, not on the array.
- Case 03: its one mechanism is the reallocation of a library vector, which is not part of this model.
- Other start-up phases: the hog acts before the holder at the first tick, and both are awake.
- Time taken by locking, unlocking, reading a clock, starting a thread or going to sleep, and anything that happens before the three threads have their priorities: such actions take no tick.
- Threads outside the program: the CPU is taken by the three threads, the launcher and (in `CoreRun`) the middle band alone.
- `setPriority`, affinity, `getrlimit`, printing and real clocks: foreign calls. Granted priorities enter `RunProgram` as a number, the calibration's clock readings as numbers, sleeps and bursts as lengths the environment picks. Runs without real-time priorities are covered only by their exit code 2.
- The order of events in one tick: a hog that wakes at the very tick at which the holder's work ends is taken to run before the unlock, as its priority demands.
- Data races as undefined behaviour (case 01) and relaxed or weak memory (cases 01, 02, 05): steps interleave on one memory, as the documentation describes the symptom.
- 64-bit limits of balances, of microsecond counts and of the cycle counter: integers there are unbounded; the counters of cases 01 and 05 and the recurrence of case 06 wrap at 2^64.
- A transfer from an account to itself: it would lock one mutex twice, which C++ leaves undefined.
- `scoped_lock` and the inheriting mutex: their documented behaviour, not their implementation. A try that fails although the lock is free is not modelled; releases follow the order of the arguments.
- The sleeps inside `transfer`: any interleaving is allowed instead.
- Case 04: the instructions, flags and operand kinds that occur in the two listings. 64-bit pushed values live apart from 32-bit stack slots, which do not overlap them in these listings; the return address and the rest of memory are not modelled.
- Caches: invalidation on write without evictions or capacity; each worker stays on its own core.
- Throughput and scaling verdicts of case 05, the scripts and the rest of the captured evidence: they describe a machine, not the code.
