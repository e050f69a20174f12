/**
 Case 02, broken variant: two transfers in opposite directions, each store, compare-exchange, lock
 and unlock a step of its own, and the watchdog that reads the published wait-for graph.
*/
module Watchdog {

  datatype Name = Alice | Bob

  datatype Option<T> = None | Some(value: T)

  /** The steps of `transfer` under two traced locks. A destructor clears `holding` by a
      compare-exchange before its member unlocks, and `second` is destroyed before `first`. */
  datatype Instr =
    | SetLabel
    | Announce(name: Name)    // waiting.store(name)
    | Acquire(name: Name)     // lock_.lock()
    | Unannounce              // waiting.store(nullptr)
    | Record(name: Name)      // holding: nullptr -> name, if it was nullptr
    | Debit(name: Name)
    | Credit(name: Name)
    | Unrecord(name: Name)    // holding: name -> nullptr, if it was name
    | Release(name: Name)

  const STEPS: nat := 15
  const AMOUNT: int := 10

  /** Worker 0 runs transfer(alice, bob), worker 1 transfer(bob, alice). */
  function From(i: nat): Name { if i == 0 then Alice else Bob }
  function To(i: nat): Name { if i == 0 then Bob else Alice }

  function Script(i: nat, pc: nat): Instr
    requires pc < STEPS
  {
    var from, to := From(i), To(i);
    match pc
    case 0 => SetLabel
    case 1 => Announce(from)
    case 2 => Acquire(from)
    case 3 => Unannounce
    case 4 => Record(from)
    case 5 => Announce(to)
    case 6 => Acquire(to)
    case 7 => Unannounce
    case 8 => Record(to)
    case 9 => Debit(from)
    case 10 => Credit(to)
    case 11 => Unrecord(to)
    case 12 => Release(to)
    case 13 => Unrecord(from)
    case _ => Release(from)
  }

  datatype Thread = Thread(pc: nat, labelled: bool, holding: Option<Name>, waiting: Option<Name>)

  datatype Account = Account(owner: Option<nat>, balance: int)

  datatype State = State(alice: Account, bob: Account, t0: Thread, t1: Thread) {
    function Of(name: Name): Account { if name.Alice? then alice else bob }

    function With(name: Name, a: Account): State {
      if name.Alice? then this.(alice := a) else this.(bob := a)
    }

    function At(i: nat): Thread { if i == 0 then t0 else t1 }

    function Moved(i: nat, t: Thread): State {
      if i == 0 then this.(t0 := t) else this.(t1 := t)
    }
  }

  const INIT := State(Account(None, 1000), Account(None, 1000),
                      Thread(0, false, None, None), Thread(0, false, None, None))

  predicate Enabled(s: State, i: nat) {
    var pc := s.At(i).pc;
    pc < STEPS && (Script(i, pc).Acquire? ==> s.Of(Script(i, pc).name).owner.None?)
  }

  /** Worker i executes its next instruction; a worker that is blocked or through does not move. */
  function Step(s: State, i: nat): State {
    if !Enabled(s, i) then s
    else
      var t := s.At(i);
      var u := t.(pc := t.pc + 1);
      match Script(i, t.pc)
      case SetLabel => s.Moved(i, u.(labelled := true))
      case Announce(n) => s.Moved(i, u.(waiting := Some(n)))
      case Acquire(n) => s.Moved(i, u).With(n, s.Of(n).(owner := Some(i)))
      case Unannounce => s.Moved(i, u.(waiting := None))
      case Record(n) => s.Moved(i, if t.holding.None? then u.(holding := Some(n)) else u)
      case Debit(n) => s.Moved(i, u).With(n, s.Of(n).(balance := s.Of(n).balance - AMOUNT))
      case Credit(n) => s.Moved(i, u).With(n, s.Of(n).(balance := s.Of(n).balance + AMOUNT))
      case Unrecord(n) => s.Moved(i, if t.holding == Some(n) then u.(holding := None) else u)
      case Release(n) => s.Moved(i, u).With(n, s.Of(n).(owner := None))
  }

  /** A schedule names the worker that moves next. */
  predicate TwoWorkers(schedule: seq<nat>) {
    forall k :: 0 <= k < |schedule| ==> schedule[k] < 2
  }

  function Run(s: State, schedule: seq<nat>): State {
    if schedule == [] then s
    else Step(Run(s, schedule[..|schedule| - 1]), schedule[|schedule| - 1])
  }

  predicate Done(s: State) { s.t0.pc == STEPS && s.t1.pc == STEPS }

  predicate Deadlocked(s: State) { !Done(s) && !Enabled(s, 0) && !Enabled(s, 1) }

  // ---- What a worker's position says ----

  predicate Owns(i: nat, pc: nat, name: Name) {
    (name == From(i) && 3 <= pc <= 14) || (name == To(i) && 7 <= pc <= 12)
  }

  /** What is published follows the position: `holding` names the first lock between its recording
      and its destructor, `waiting` the lock being acquired. */
  predicate Published(i: nat, t: Thread) {
    && t.pc <= STEPS
    && t.labelled == (t.pc >= 1)
    && t.holding == (if 5 <= t.pc <= 13 then Some(From(i)) else None)
    && t.waiting == (if t.pc == 2 || t.pc == 3 then Some(From(i))
                     else if t.pc == 6 || t.pc == 7 then Some(To(i)) else None)
  }

  predicate OwnerIs(s: State, name: Name) {
    s.Of(name).owner == (if Owns(0, s.t0.pc, name) then Some(0)
                         else if Owns(1, s.t1.pc, name) then Some(1) else None)
  }

  predicate Owners(s: State) {
    && OwnerIs(s, Alice) && OwnerIs(s, Bob)
    && !(Owns(0, s.t0.pc, Alice) && Owns(1, s.t1.pc, Alice))
    && !(Owns(0, s.t0.pc, Bob) && Owns(1, s.t1.pc, Bob))
  }

  /** What account `name` has seen: the debit of the worker it is the source of, the credit of the
      other. */
  function Booked(i: nat, pc: nat, name: Name): int {
    if name == From(i) then (if pc >= 10 then -AMOUNT else 0) else (if pc >= 11 then AMOUNT else 0)
  }

  predicate Balanced(s: State) {
    && s.alice.balance == 1000 + Booked(0, s.t0.pc, Alice) + Booked(1, s.t1.pc, Alice)
    && s.bob.balance == 1000 + Booked(0, s.t0.pc, Bob) + Booked(1, s.t1.pc, Bob)
  }

  predicate Inv(s: State) {
    Published(0, s.t0) && Published(1, s.t1) && Owners(s) && Balanced(s)
  }

  lemma {:induction false} PublishedStep(s: State, i: nat)
    requires i < 2 && Published(0, s.t0) && Published(1, s.t1)
    ensures Published(0, Step(s, i).t0) && Published(1, Step(s, i).t1)
  {
    PcStep(s, i);
    MoverPublished(s, i);
  }

  lemma {:induction false} MoverPublished(s: State, i: nat)
    requires i < 2 && Published(i, s.At(i))
    ensures Published(i, Step(s, i).At(i))
  {
  }

  lemma {:induction false} OwnersStep(s: State, i: nat)
    requires i < 2 && Owners(s)
    ensures Owners(Step(s, i))
  {
  }

  lemma {:induction false} BalancedStep(s: State, i: nat)
    requires i < 2 && Balanced(s)
    ensures Balanced(Step(s, i))
  {
  }

  lemma {:induction false} InvStep(s: State, i: nat)
    requires Inv(s) && i < 2
    ensures Inv(Step(s, i))
    ensures s.t0.pc <= Step(s, i).t0.pc && s.t1.pc <= Step(s, i).t1.pc
  {
    PublishedStep(s, i);
    OwnersStep(s, i);
    BalancedStep(s, i);
    PcStep(s, i);
  }

  lemma {:induction false} PcStep(s: State, i: nat)
    requires i < 2
    ensures Step(s, i).At(i).pc == s.At(i).pc + (if Enabled(s, i) then 1 else 0)
    ensures Step(s, i).At(1 - i) == s.At(1 - i)
  {
  }

  /** Along every schedule positions only grow. */
  lemma {:induction false} RunKeeps(s: State, schedule: seq<nat>)
    requires Inv(s) && TwoWorkers(schedule)
    ensures Inv(Run(s, schedule))
    ensures s.t0.pc <= Run(s, schedule).t0.pc && s.t1.pc <= Run(s, schedule).t1.pc
  {
    if schedule != [] {
      RunKeeps(s, schedule[..|schedule| - 1]);
      InvStep(Run(s, schedule[..|schedule| - 1]), schedule[|schedule| - 1]);
    }
  }

  // ---- One snapshot ----

  predicate AllFour(s: State) {
    s.t0.holding.Some? && s.t0.waiting.Some? && s.t1.holding.Some? && s.t1.waiting.Some?
  }

  lemma {:induction false} SnapshotExact(s: State)
    requires Inv(s)
    ensures AllFour(s) <==> Deadlocked(s)
    ensures AllFour(s) ==>
              && s.t0.holding == Some(Alice) == s.t1.waiting
              && s.t1.holding == Some(Bob) == s.t0.waiting
  {
  }

  /** In every reachable state an atomic snapshot has all four fields set exactly when the two
      workers are deadlocked, and then they spell the printed cycle. */
  lemma {:induction false} WatchdogExactOnSnapshot(schedule: seq<nat>)
    requires TwoWorkers(schedule)
    ensures var s := Run(INIT, schedule);
            && (AllFour(s) <==> Deadlocked(s))
            && (AllFour(s) ==> s.t0.holding == Some(Alice) == s.t1.waiting && s.t1.holding == Some(Bob) == s.t0.waiting)
            && (AllFour(s) ==> s.t0.labelled && s.t1.labelled)
            && (Done(s) ==> s.alice.balance == 1000 && s.bob.balance == 1000)
  {
    RunKeeps(INIT, schedule);
    SnapshotExact(Run(INIT, schedule));
  }

  predicate HasBoth(s: State, i: nat) { s.alice.owner == Some(i) && s.bob.owner == Some(i) }

  /** What worker i publishes: `holding` names its source, whose lock it has, and does so as long as it has its
      second lock; when it is blocked, `waiting` names a lock the other worker has. */
  predicate Truthful(s: State, i: nat)
    requires i < 2
  {
    var t := s.At(i);
    && (t.holding.Some? ==> t.holding == Some(From(i)) && s.Of(From(i)).owner == Some(i))
    && (s.Of(To(i)).owner == Some(i) ==> t.holding == Some(From(i)))
    && (!Enabled(s, i) && t.pc < STEPS ==> t.waiting.Some? && s.Of(t.waiting.value).owner == Some(1 - i))
  }

  /** What is published is true in every reachable state, and balances change only under both locks. */
  lemma {:induction false} PublishedIsTrue(schedule: seq<nat>, i: nat)
    requires TwoWorkers(schedule) && i < 2
    ensures var s := Run(INIT, schedule);
            && Truthful(s, i)
            && (Step(s, i).alice.balance != s.alice.balance || Step(s, i).bob.balance != s.bob.balance
                ==> HasBoth(s, i))
  {
    RunKeeps(INIT, schedule);
    TruthAt(Run(INIT, schedule), i);
    var s := Run(INIT, schedule);
    if Step(s, i).alice.balance != s.alice.balance || Step(s, i).bob.balance != s.bob.balance {
      MoneyUnderLocks(s, i);
    }
  }

  lemma {:induction false} TruthAt(s: State, i: nat)
    requires Inv(s) && i < 2
    ensures Truthful(s, i)
  {
  }

  lemma {:induction false} MoneyUnderLocks(s: State, i: nat)
    requires Inv(s) && i < 2
    requires Step(s, i).alice.balance != s.alice.balance || Step(s, i).bob.balance != s.bob.balance
    ensures HasBoth(s, i)
  {
  }

  /** A transfer alone moves 10 from its source to its destination, whichever of the two it is. */
  lemma {:induction false} OneTransferAlone(schedule: seq<nat>)
    requires TwoWorkers(schedule)
    ensures var s := Run(INIT, schedule);
            && (s.t0.pc == STEPS && s.t1.pc == 0 ==> s.alice.balance == 990 && s.bob.balance == 1010)
            && (s.t1.pc == STEPS && s.t0.pc == 0 ==> s.alice.balance == 1010 && s.bob.balance == 990)
  {
    RunKeeps(INIT, schedule);
  }

  lemma {:induction false} Blocked(s: State, i: nat)
    requires !Enabled(s, i)
    ensures Step(s, i) == s
  {
  }

  lemma {:induction false} DeadlockStays(s: State, schedule: seq<nat>)
    requires Deadlocked(s) && TwoWorkers(schedule)
    ensures Run(s, schedule) == s
  {
    if schedule != [] {
      DeadlockStays(s, schedule[..|schedule| - 1]);
      Blocked(s, schedule[|schedule| - 1]);
    }
  }

  // ---- Four separate loads ----

  /** The watchdog's four loads with the workers moving in between: `gaps[k]` runs before load k. */
  datatype Gaps = Gaps(g0: seq<nat>, g1: seq<nat>, g2: seq<nat>, g3: seq<nat>) {
    predicate Valid() { TwoWorkers(g0) && TwoWorkers(g1) && TwoWorkers(g2) && TwoWorkers(g3) }

    function S0(): State { Run(INIT, g0) }
    function S1(): State { Run(S0(), g1) }
    function S2(): State { Run(S1(), g2) }
    function S3(): State { Run(S2(), g3) }

    predicate Reports() {
      S0().t0.holding.Some? && S1().t0.waiting.Some? && S2().t1.holding.Some? && S3().t1.waiting.Some?
    }
  }

  /** Complete: a deadlock that stands when the loads begin is always reported. */
  lemma {:induction false} LoadsReportStandingDeadlock(g: Gaps)
    requires g.Valid() && Deadlocked(g.S0())
    ensures g.Reports() && g.S3() == g.S0()
  {
    RunKeeps(INIT, g.g0);
    SnapshotExact(g.S0());
    DeadlockStays(g.S0(), g.g1);
    DeadlockStays(g.S1(), g.g2);
    DeadlockStays(g.S2(), g.g3);
  }

  /** What a report says about the positions of the workers. */
  lemma {:induction false} ReportPositions(g: Gaps)
    requires g.Valid() && g.Reports()
    ensures Inv(g.S3()) && 6 <= g.S3().t0.pc && 5 <= g.S3().t1.pc && g.S3().t1.waiting.Some?
  {
    RunKeeps(INIT, g.g0);
    RunKeeps(g.S0(), g.g1);
    RunKeeps(g.S1(), g.g2);
    RunKeeps(g.S2(), g.g3);
  }

  /** A fifth load would make the watchdog exact: at any later moment, a report is right exactly when
      worker 0 is still waiting. */
  lemma {:induction false} ReportRightIffStillWaiting(g: Gaps, later: seq<nat>)
    requires g.Valid() && TwoWorkers(later) && g.Reports()
    ensures Run(g.S3(), later).t0.labelled && Run(g.S3(), later).t1.labelled
    ensures Deadlocked(Run(g.S3(), later)) <==> Run(g.S3(), later).t0.waiting.Some?
  {
    ReportPositions(g);
    RunKeeps(g.S3(), later);
    SnapshotExact(Run(g.S3(), later));
    if Run(g.S3(), later).t0.waiting.Some? {
      StillThere(g.S3(), Run(g.S3(), later));
      DeadlockStays(g.S3(), later);
    }
  }

  /** Worker 1 waits for its second lock, and worker 0 has got no further than waiting for its own. */
  lemma {:induction false} StillThere(s: State, t: State)
    requires Inv(s) && Inv(t) && 6 <= s.t0.pc <= t.t0.pc && 5 <= s.t1.pc
    requires s.t1.waiting.Some? && t.t0.waiting.Some?
    ensures Deadlocked(s)
  {
    SnapshotExact(s);
  }

  function Times(i: nat, n: nat): (r: seq<nat>)
    ensures |r| == n && forall k :: 0 <= k < n ==> r[k] == i
  {
    seq(n, _ => i)
  }

  /** Nothing obstructs the next n steps of worker i: the other has not begun, is through, or waits
      for its second lock and worker i stays in front of its own. */
  predicate Clear(s: State, i: nat, n: nat)
    requires i < 2
  {
    var other := s.At(1 - i).pc;
    other == 0 || other == STEPS || (other == 6 && s.At(i).pc + n <= 6)
  }

  /** n steps of worker i alone lead from s to t. */
  predicate Advanced(s: State, t: State, i: nat, n: nat)
    requires i < 2
  {
    Inv(t) && t.At(i).pc == s.At(i).pc + n && t.At(1 - i) == s.At(1 - i)
  }

  lemma {:induction false} AloneStep(s: State, t: State, i: nat, n: nat)
    requires i < 2 && s.At(i).pc + n < STEPS && Clear(s, i, n + 1)
    requires Advanced(s, t, i, n)
    ensures Advanced(s, Step(t, i), i, n + 1)
  {
    InvStep(t, i);
    PcStep(t, i);
  }

  lemma {:induction false} ClearLess(s: State, i: nat, n: nat)
    requires i < 2 && n > 0 && Clear(s, i, n)
    ensures Clear(s, i, n - 1)
  {
  }

  lemma {:induction false} TimesStep(s: State, i: nat, n: nat)
    ensures Run(s, Times(i, n + 1)) == Step(Run(s, Times(i, n)), i)
  {
    assert Times(i, n + 1)[..n] == Times(i, n);
  }

  lemma {:induction false} AloneStart(s: State, i: nat)
    requires Inv(s) && i < 2
    ensures Advanced(s, Run(s, Times(i, 0)), i, 0)
  {
  }

  lemma {:induction false} AloneNext(s: State, i: nat, n: nat)
    requires i < 2 && s.At(i).pc + n < STEPS && Clear(s, i, n + 1)
    requires Advanced(s, Run(s, Times(i, n)), i, n)
    ensures Advanced(s, Run(s, Times(i, n + 1)), i, n + 1)
  {
    var t := Run(s, Times(i, n));
    AloneStep(s, t, i, n);
    TimesStep(s, i, n);
    var u := Step(t, i);
    assert Run(s, Times(i, n + 1)) == u;
  }

  /** Worker i alone, unobstructed, from one position to a later one. */
  lemma {:induction false} Alone(s: State, i: nat, n: nat)
    requires Inv(s) && i < 2 && s.At(i).pc + n <= STEPS && Clear(s, i, n)
    ensures Advanced(s, Run(s, Times(i, n)), i, n)
    decreases n
  {
    if n == 0 {
      AloneStart(s, i);
    } else {
      ClearLess(s, i, n);
      Alone(s, i, n - 1);
      AloneNext(s, i, n - 1);
    }
  }

  /** Worker 0 in the middle of its transfer, then done, then worker 1 in the middle of its own. */
  lemma Midway()
    ensures Advanced(INIT, Run(INIT, Times(0, 6)), 0, 6)
  {
    Alone(INIT, 0, 6);
  }

  lemma {:induction false} ThenDone(s: State)
    requires Advanced(INIT, s, 0, 6)
    ensures Advanced(INIT, Run(s, Times(0, 9)), 0, 15)
  {
    Alone(s, 0, 9);
  }

  lemma {:induction false} ThenOther(s: State)
    requires Advanced(INIT, s, 0, 15)
    ensures Advanced(s, Run(s, Times(1, 6)), 1, 6)
  {
    Alone(s, 1, 6);
  }

  lemma {:induction false} OtherMoves(s: State, t: State)
    requires Advanced(INIT, s, 0, 15) && Advanced(s, t, 1, 6)
    ensures t.t1.holding.Some? && t.t1.waiting.Some? && t.t0.pc == STEPS && Enabled(t, 1) && !Deadlocked(t)
  {
  }

  /** Unsound as written: worker 0 is read in the middle of its transfer and finishes, then worker 1
      is read in the middle of its own. The watchdog reports although nobody is blocked. */
  lemma LoadsCanReportProgress() returns (g: Gaps)
    ensures g.Valid() && g.Reports()
    ensures !Deadlocked(g.S3()) && g.S3().t0.pc == STEPS && Enabled(g.S3(), 1)
  {
    var s := Run(INIT, Times(0, 6));
    Midway();
    ThenDone(s);
    var t := Run(s, Times(0, 9));
    ThenOther(t);
    OtherMoves(t, Run(t, Times(1, 6)));
    g := Gaps(Times(0, 6), [], Times(0, 9) + Times(1, 6), []);
    RunAppend(s, Times(0, 9), Times(1, 6));
  }

  lemma {:induction false} OtherHalf(s: State)
    requires Advanced(INIT, s, 0, 6)
    ensures Advanced(s, Run(s, Times(1, 6)), 1, 6)
  {
    Alone(s, 1, 6);
  }

  lemma {:induction false} HalvesDeadlock(s: State, t: State)
    requires Advanced(INIT, s, 0, 6) && Advanced(s, t, 1, 6)
    ensures Deadlocked(t)
  {
  }

  /** And the deadlock does happen: each worker takes its first lock. */
  lemma DeadlockHappens() returns (schedule: seq<nat>)
    ensures TwoWorkers(schedule) && Deadlocked(Run(INIT, schedule))
  {
    schedule := Times(0, 6) + Times(1, 6);
    var s := Run(INIT, Times(0, 6));
    Midway();
    OtherHalf(s);
    HalvesDeadlock(s, Run(s, Times(1, 6)));
    RunAppend(INIT, Times(0, 6), Times(1, 6));
  }

  lemma {:induction false} RunAppend(s: State, a: seq<nat>, b: seq<nat>)
    ensures Run(s, a + b) == Run(Run(s, a), b)
    decreases |b|
  {
    if b == [] {
      assert a + b == a;
    } else {
      assert (a + b)[..|a + b| - 1] == a + b[..|b| - 1];
      RunAppend(s, a, b[..|b| - 1]);
    }
  }

  // ---- The program ----

  class SharedAccount {
    var owner: Option<nat>   // who holds `lock`
    var balance: int

    constructor ()
      ensures owner == None && balance == 1000
    {
      owner, balance := None, 1000;
    }
  }

  class ThreadState {
    var pc: nat
    var labelled: bool
    var holding: Option<Name>
    var waiting: Option<Name>

    constructor ()
      ensures pc == 0 && !labelled && holding == None && waiting == None
    {
      pc, labelled, holding, waiting := 0, false, None, None;
    }

    /** compare_exchange_strong on `holding`. */
    method CompareExchange(expected: Option<Name>, desired: Option<Name>)
      modifies this`holding
      ensures holding == if old(holding) == expected then desired else old(holding)
    {
      if holding == expected { holding := desired; }
    }
  }

  class Transfers {
    const alice: SharedAccount
    const bob: SharedAccount
    const threads0: ThreadState
    const threads1: ThreadState

    ghost predicate Valid() { alice != bob && threads0 != threads1 }

    ghost function Now(): State
      reads alice, bob, threads0, threads1
    {
      State(Account(alice.owner, alice.balance), Account(bob.owner, bob.balance),
            Thread(threads0.pc, threads0.labelled, threads0.holding, threads0.waiting),
            Thread(threads1.pc, threads1.labelled, threads1.holding, threads1.waiting))
    }

    constructor ()
      ensures Valid() && Now() == INIT
      ensures fresh(alice) && fresh(bob) && fresh(threads0) && fresh(threads1)
    {
      alice := new SharedAccount();
      bob := new SharedAccount();
      threads0 := new ThreadState();
      threads1 := new ThreadState();
    }

    /** The next instruction of worker i, on the shared objects. */
    method StepWorker(i: nat)
      requires Valid() && i < 2
      modifies alice, bob, threads0, threads1
      ensures Now() == Step(old(Now()), i)
    {
      var state := if i == 0 then threads0 else threads1;
      if state.pc < STEPS {
        var instr := Script(i, state.pc);
        if instr.SetLabel? {
          state.labelled := true;
        } else if instr.Announce? {
          state.waiting := Some(instr.name);
        } else if instr.Unannounce? {
          state.waiting := None;
        } else if instr.Record? {
          state.CompareExchange(None, Some(instr.name));
        } else if instr.Unrecord? {
          state.CompareExchange(Some(instr.name), None);
        } else {
          var account := if instr.name.Alice? then alice else bob;
          var proceeds := Touch(instr, account, i);
          if !proceeds { return; }
        }
        state.pc := state.pc + 1;
      }
    }

    /** The instructions on an account; false when its lock is taken. */
    method Touch(instr: Instr, account: SharedAccount, i: nat) returns (proceeds: bool)
      requires instr.Acquire? || instr.Release? || instr.Debit? || instr.Credit?
      modifies account
      ensures proceeds <==> (instr.Acquire? ==> old(account.owner).None?)
      ensures account.owner == if instr.Acquire? && proceeds then Some(i)
                               else if instr.Release? then None else old(account.owner)
      ensures account.balance == old(account.balance) + (if instr.Debit? then -AMOUNT
                                                         else if instr.Credit? then AMOUNT else 0)
    {
      proceeds := true;
      match instr {
        case Acquire(_) =>
          if account.owner.None? { account.owner := Some(i); } else { proceeds := false; }
        case Release(_) => account.owner := None;
        case Debit(_) => account.balance := account.balance - AMOUNT;
        case Credit(_) => account.balance := account.balance + AMOUNT;
      }
    }

    method Let(schedule: seq<nat>)
      requires Valid() && TwoWorkers(schedule)
      modifies alice, bob, threads0, threads1
      ensures Now() == Run(old(Now()), schedule)
    {
      for k := 0 to |schedule|
        invariant Now() == Run(old(Now()), schedule[..k])
      {
        assert schedule[..k + 1][..k] == schedule[..k];
        StepWorker(schedule[k]);
      }
      assert schedule[..|schedule|] == schedule;
    }

    /** The watchdog: four loads, the workers moving in between. */
    method Watch(g: Gaps) returns (reports: bool)
      requires Valid() && Now() == INIT && g.Valid()
      modifies alice, bob, threads0, threads1
      ensures Now() == g.S3()
      ensures reports <==> g.Reports()
      ensures Deadlocked(g.S0()) ==> reports
      ensures reports ==> (Deadlocked(Now()) <==> threads0.waiting.Some?)
      ensures reports ==> threads0.labelled && threads1.labelled
    {
      Let(g.g0);
      var aHolds := threads0.holding;
      Let(g.g1);
      var aWants := threads0.waiting;
      Let(g.g2);
      var bHolds := threads1.holding;
      Let(g.g3);
      var bWants := threads1.waiting;
      reports := aHolds.Some? && aWants.Some? && bHolds.Some? && bWants.Some?;
      if Deadlocked(g.S0()) { LoadsReportStandingDeadlock(g); }
      if reports { ReportRightIffStillWaiting(g, []); }
    }
  }
}
