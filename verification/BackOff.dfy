/**
 Case 02, fixed variant: any number of transfers between any accounts, each under std::scoped_lock,
 whose acquisition blocks on one lock, tries the other, and on failure releases and starts over with
 the other lock first (C++20 [thread.lock.algorithm]). Every lock, unlock, load and store is a step.
*/
module BackOff {

  datatype Transfer = Transfer(from: nat, to: nat, amount: int)

  datatype Pos =
    | Start(swapped: bool)     // about to block on the first lock
    | Trying(swapped: bool)    // holds the first lock, about to try the second
    | Backing(swapped: bool)   // the try failed, about to release the first
    | LoadFrom
    | StoreFrom(reg: int)
    | LoadTo
    | StoreTo(reg: int)
    | UnlockFrom
    | UnlockTo
    | Done

  datatype Thread = Thread(job: Transfer, pos: Pos) {
    function First(): nat
      requires pos.Start? || pos.Trying? || pos.Backing?
    {
      if pos.swapped then job.to else job.from
    }

    function Second(): nat
      requires pos.Start? || pos.Trying? || pos.Backing?
    {
      if pos.swapped then job.from else job.to
    }

    /** The locks the thread holds. */
    predicate Holds(a: nat) {
      match pos
      case Start(_) => false
      case Done => false
      case Trying(_) => a == First()
      case Backing(_) => a == First()
      case UnlockTo => a == job.to
      case _ => a == job.from || a == job.to
    }

    predicate HoldsNothing() { pos.Start? || pos.Done? }

    predicate Paid() { pos.LoadTo? || pos.StoreTo? || pos.UnlockFrom? || pos.UnlockTo? || pos.Done? }
    predicate Received() { pos.UnlockFrom? || pos.UnlockTo? || pos.Done? }

    /** What the thread has added to account a so far. */
    function Effect(a: nat): int {
      (if Paid() && a == job.from then -job.amount else 0) + (if Received() && a == job.to then job.amount else 0)
    }

    function InFlight(): int { if Paid() && !Received() then job.amount else 0 }
  }

  datatype Owner = Free | By(thread: nat)

  datatype State = State(threads: seq<Thread>, owners: seq<Owner>, balances: seq<int>) {
    predicate Shape() {
      && |owners| == |balances|
      && forall i :: 0 <= i < |threads| ==>
           && threads[i].job.from < |balances| && threads[i].job.to < |balances|
           && threads[i].job.from != threads[i].job.to
    }
  }

  function Moved(s: State, i: nat, pos: Pos): State
    requires i < |s.threads|
  {
    s.(threads := s.threads[i := s.threads[i].(pos := pos)])
  }

  function Locked(s: State, a: nat, o: Owner): State
    requires a < |s.owners|
  {
    s.(owners := s.owners[a := o])
  }

  /** A thread is blocked only where it waits for its first lock. */
  predicate Enabled(s: State, i: nat)
    requires s.Shape() && i < |s.threads|
  {
    var t := s.threads[i];
    !t.pos.Done? && (t.pos.Start? ==> s.owners[t.First()].Free?)
  }

  function Step(s: State, i: nat): (s': State)
    requires s.Shape()
    ensures s'.Shape() && |s'.threads| == |s.threads| && |s'.balances| == |s.balances|
  {
    if i >= |s.threads| || !Enabled(s, i) then s
    else
      var t := s.threads[i];
      var from, to, amount := t.job.from, t.job.to, t.job.amount;
      match t.pos
      case Start(w) => Locked(Moved(s, i, Trying(w)), t.First(), By(i))
      case Trying(w) =>
        if s.owners[t.Second()].Free? then Locked(Moved(s, i, LoadFrom), t.Second(), By(i))
        else Moved(s, i, Backing(w))
      case Backing(w) => Locked(Moved(s, i, Start(!w)), t.First(), Free)
      case LoadFrom => Moved(s, i, StoreFrom(s.balances[from]))
      case StoreFrom(v) => Moved(s, i, LoadTo).(balances := s.balances[from := v - amount])
      case LoadTo => Moved(s, i, StoreTo(s.balances[to]))
      case StoreTo(v) => Moved(s, i, UnlockFrom).(balances := s.balances[to := v + amount])
      case UnlockFrom => Locked(Moved(s, i, UnlockTo), from, Free)
      case UnlockTo => Locked(Moved(s, i, Done), to, Free)
  }

  function Run(s: State, schedule: seq<nat>): (t: State)
    requires s.Shape()
    ensures t.Shape() && |t.threads| == |s.threads| && |t.balances| == |s.balances|
  {
    if schedule == [] then s else Step(Run(s, schedule[..|schedule| - 1]), schedule[|schedule| - 1])
  }

  predicate Finished(s: State) {
    forall i :: 0 <= i < |s.threads| ==> s.threads[i].pos.Done?
  }

  /** Before the threads run: nobody holds anything. */
  predicate Initial(s: State) {
    && s.Shape()
    && (forall i :: 0 <= i < |s.threads| ==> s.threads[i].pos == Start(false))
    && (forall a :: 0 <= a < |s.owners| ==> s.owners[a].Free?)
  }

  // ---- Mutual exclusion ----

  /** A lock's owner is the one thread whose position holds it. */
  predicate OwnerFits(s: State, i: nat, a: nat)
    requires i < |s.threads| && a < |s.owners|
  {
    s.owners[a] == By(i) <==> s.threads[i].Holds(a)
  }

  ghost predicate Locks(s: State)
    requires s.Shape()
  {
    && (forall i, a :: 0 <= i < |s.threads| && 0 <= a < |s.owners| ==> OwnerFits(s, i, a))
    && (forall a :: 0 <= a < |s.owners| && s.owners[a].By? ==> s.owners[a].thread < |s.threads|)
  }

  lemma {:induction false} OwnerFitsStep(s: State, i: nat, j: nat, a: nat)
    requires s.Shape() && i < |s.threads| && j < |s.threads| && a < |s.owners|
    requires OwnerFits(s, i, a) && OwnerFits(s, j, a)
    ensures OwnerFits(Step(s, i), j, a)
  {
  }

  lemma {:induction false} LocksStep(s: State, i: nat)
    requires s.Shape() && Locks(s)
    ensures Locks(Step(s, i))
  {
    if i < |s.threads| {
      var s' := Step(s, i);
      forall j, a | 0 <= j < |s'.threads| && 0 <= a < |s'.owners|
        ensures OwnerFits(s', j, a)
      {
        assert OwnerFits(s, i, a) && OwnerFits(s, j, a);
        OwnerFitsStep(s, i, j, a);
      }
    }
  }

  /** What a thread has loaded is still in memory: nobody else writes under its locks. */
  predicate RegisterFits(s: State, t: Thread)
    requires s.Shape() && t.job.from < |s.balances| && t.job.to < |s.balances|
  {
    && (t.pos.StoreFrom? ==> t.pos.reg == s.balances[t.job.from])
    && (t.pos.StoreTo? ==> t.pos.reg == s.balances[t.job.to])
  }

  ghost predicate Registers(s: State)
    requires s.Shape()
  {
    forall i :: 0 <= i < |s.threads| ==> RegisterFits(s, s.threads[i])
  }

  lemma {:induction false} RegistersStep(s: State, i: nat)
    requires s.Shape() && Locks(s) && Registers(s)
    ensures Registers(Step(s, i))
  {
    var s' := Step(s, i);
    forall j | 0 <= j < |s'.threads| ensures RegisterFits(s', s'.threads[j]) {
      assert RegisterFits(s, s.threads[j]);
      if i < |s.threads| {
        var from, to := s.threads[i].job.from, s.threads[i].job.to;
        assert OwnerFits(s, i, from) && OwnerFits(s, j, from);
        assert OwnerFits(s, i, to) && OwnerFits(s, j, to);
      }
    }
  }

  // ---- Balances ----

  function Effects(ts: seq<Thread>, a: nat): int {
    if ts == [] then 0 else Effects(ts[..|ts| - 1], a) + ts[|ts| - 1].Effect(a)
  }

  function InFlight(ts: seq<Thread>): int {
    if ts == [] then 0 else InFlight(ts[..|ts| - 1]) + ts[|ts| - 1].InFlight()
  }

  lemma {:induction false} SumsUpdate(ts: seq<Thread>, i: nat, t: Thread, a: nat)
    requires i < |ts|
    ensures Effects(ts[i := t], a) == Effects(ts, a) - ts[i].Effect(a) + t.Effect(a)
    ensures InFlight(ts[i := t]) == InFlight(ts) - ts[i].InFlight() + t.InFlight()
  {
    var last := |ts| - 1;
    if i < last {
      assert ts[i := t][..last] == ts[..last][i := t];
      SumsUpdate(ts[..last], i, t, a);
    } else {
      assert ts[i := t][..last] == ts[..last];
    }
  }

  function Total(balances: seq<int>): int {
    if balances == [] then 0 else Total(balances[..|balances| - 1]) + balances[|balances| - 1]
  }

  lemma {:induction false} TotalUpdate(balances: seq<int>, a: nat, b: int)
    requires a < |balances|
    ensures Total(balances[a := b]) == Total(balances) - balances[a] + b
  {
    var last := |balances| - 1;
    if a < last {
      assert balances[a := b][..last] == balances[..last][a := b];
      TotalUpdate(balances[..last], a, b);
    } else {
      assert balances[a := b][..last] == balances[..last];
    }
  }

  /** A step changes an account exactly by what it adds to its thread's effect. */
  lemma {:induction false} EffectStep(s: State, i: nat, a: nat)
    requires s.Shape() && i < |s.threads| && RegisterFits(s, s.threads[i]) && a < |s.balances|
    ensures var s' := Step(s, i);
            && s'.threads == s.threads[i := s'.threads[i]]
            && s'.balances[a] - s.balances[a] == s'.threads[i].Effect(a) - s.threads[i].Effect(a)
  {
  }

  /** No load or store is lost: every account shows its opening balance and the effects so far. */
  lemma {:induction false} BalanceStep(s: State, i: nat, a: nat)
    requires s.Shape() && Registers(s) && a < |s.balances|
    ensures Step(s, i).balances[a] - Effects(Step(s, i).threads, a) == s.balances[a] - Effects(s.threads, a)
  {
    if i < |s.threads| {
      EffectStep(s, i, a);
      SumsUpdate(s.threads, i, Step(s, i).threads[i], a);
    }
  }

  lemma {:induction false} InFlightStep(s: State, i: nat)
    requires s.Shape() && i < |s.threads| && RegisterFits(s, s.threads[i])
    ensures var s' := Step(s, i);
            && s'.threads == s.threads[i := s'.threads[i]]
            && Total(s'.balances) - Total(s.balances) == s.threads[i].InFlight() - s'.threads[i].InFlight()
  {
    var t := s.threads[i];
    match t.pos
    case StoreFrom(v) => TotalUpdate(s.balances, t.job.from, v - t.job.amount);
    case StoreTo(v) => TotalUpdate(s.balances, t.job.to, v + t.job.amount);
    case _ =>
  }

  /** Money is only ever in an account or in flight. */
  lemma {:induction false} TotalStep(s: State, i: nat)
    requires s.Shape() && Registers(s)
    ensures Total(Step(s, i).balances) + InFlight(Step(s, i).threads) == Total(s.balances) + InFlight(s.threads)
  {
    if i < |s.threads| {
      InFlightStep(s, i);
      SumsUpdate(s.threads, i, Step(s, i).threads[i], 0);
    }
  }

  ghost predicate Inv(s: State) {
    s.Shape() && Locks(s) && Registers(s)
  }

  predicate SameJobs(s: State, t: State) {
    |s.threads| == |t.threads| && forall i :: 0 <= i < |s.threads| ==> t.threads[i].job == s.threads[i].job
  }

  lemma {:induction false} InvStep(s: State, i: nat)
    requires Inv(s)
    ensures Inv(Step(s, i)) && SameJobs(s, Step(s, i))
  {
    LocksStep(s, i);
    RegistersStep(s, i);
  }

  lemma {:induction false} RunKeeps(s: State, schedule: seq<nat>)
    requires Inv(s)
    ensures Inv(Run(s, schedule)) && SameJobs(s, Run(s, schedule))
  {
    if schedule != [] {
      RunKeeps(s, schedule[..|schedule| - 1]);
      InvStep(Run(s, schedule[..|schedule| - 1]), schedule[|schedule| - 1]);
    }
  }

  lemma {:induction false} RunBalances(s: State, schedule: seq<nat>, a: nat)
    requires Inv(s) && a < |s.balances|
    ensures Run(s, schedule).balances[a] - Effects(Run(s, schedule).threads, a)
            == s.balances[a] - Effects(s.threads, a)
  {
    if schedule != [] {
      RunBalances(s, schedule[..|schedule| - 1], a);
      RunKeeps(s, schedule[..|schedule| - 1]);
      BalanceStep(Run(s, schedule[..|schedule| - 1]), schedule[|schedule| - 1], a);
    }
  }

  lemma {:induction false} RunTotal(s: State, schedule: seq<nat>)
    requires Inv(s)
    ensures Total(Run(s, schedule).balances) + InFlight(Run(s, schedule).threads)
            == Total(s.balances) + InFlight(s.threads)
  {
    if schedule != [] {
      RunTotal(s, schedule[..|schedule| - 1]);
      RunKeeps(s, schedule[..|schedule| - 1]);
      TotalStep(Run(s, schedule[..|schedule| - 1]), schedule[|schedule| - 1]);
    }
  }

  lemma {:induction false} NoEffectsYet(ts: seq<Thread>, a: nat)
    requires forall i :: 0 <= i < |ts| ==> ts[i].pos.Start?
    ensures Effects(ts, a) == 0 && InFlight(ts) == 0
  {
    if ts != [] {
      NoEffectsYet(ts[..|ts| - 1], a);
    }
  }

  lemma {:induction false} InitialInv(s: State)
    requires Initial(s)
    ensures Inv(s)
  {
    forall i, a | 0 <= i < |s.threads| && 0 <= a < |s.owners| ensures OwnerFits(s, i, a) {}
    forall i | 0 <= i < |s.threads| ensures RegisterFits(s, s.threads[i]) {}
  }

  /** The total is conserved at every moment at which no thread is between its two stores. */
  lemma {:induction false} TotalConserved(s: State, schedule: seq<nat>)
    requires Initial(s)
    requires forall i :: 0 <= i < |s.threads| ==> Run(s, schedule).threads[i].InFlight() == 0
    ensures Total(Run(s, schedule).balances) == Total(s.balances)
  {
    InitialInv(s);
    RunTotal(s, schedule);
    NoEffectsYet(s.threads, 0);
    NothingInFlight(Run(s, schedule).threads);
  }

  lemma {:induction false} NothingInFlight(ts: seq<Thread>)
    requires forall i :: 0 <= i < |ts| ==> ts[i].InFlight() == 0
    ensures InFlight(ts) == 0
  {
    if ts != [] {
      NothingInFlight(ts[..|ts| - 1]);
    }
  }

  // ---- Serial execution ----

  /** The transfers applied one by one. */
  function Serial(balances: seq<int>, jobs: seq<Transfer>): (r: seq<int>)
    requires forall k :: 0 <= k < |jobs| ==> jobs[k].from < |balances| && jobs[k].to < |balances|
    ensures |r| == |balances|
  {
    if jobs == [] then balances
    else
      var before, job := Serial(balances, jobs[..|jobs| - 1]), jobs[|jobs| - 1];
      var debited := before[job.from := before[job.from] - job.amount];
      debited[job.to := debited[job.to] + job.amount]
  }

  function Net(job: Transfer, a: nat): int {
    (if a == job.from then -job.amount else 0) + (if a == job.to then job.amount else 0)
  }

  function NetSum(jobs: seq<Transfer>, a: nat): int {
    if jobs == [] then 0 else NetSum(jobs[..|jobs| - 1], a) + Net(jobs[|jobs| - 1], a)
  }

  lemma {:induction false} SerialIsNet(balances: seq<int>, jobs: seq<Transfer>, a: nat)
    requires forall k :: 0 <= k < |jobs| ==> jobs[k].from < |balances| && jobs[k].to < |balances|
    requires a < |balances|
    ensures Serial(balances, jobs)[a] == balances[a] + NetSum(jobs, a)
  {
    if jobs != [] {
      SerialIsNet(balances, jobs[..|jobs| - 1], a);
    }
  }

  lemma {:induction false} NetSumRemove(jobs: seq<Transfer>, k: nat, a: nat)
    requires k < |jobs|
    ensures NetSum(jobs, a) == NetSum(jobs[..k] + jobs[k + 1..], a) + Net(jobs[k], a)
    decreases |jobs|
  {
    var last := |jobs| - 1;
    var rest := jobs[..k] + jobs[k + 1..];
    if k < last {
      NetSumRemove(jobs[..last], k, a);
      assert rest[..last - 1] == jobs[..last][..k] + jobs[..last][k + 1..];
    } else {
      assert rest == jobs[..last];
    }
  }

  /** Where the last of the jobs stands in another order of them. */
  lemma {:induction false} FindLast(jobs: seq<Transfer>, order: seq<Transfer>) returns (k: nat)
    requires multiset(jobs) == multiset(order) && jobs != []
    ensures k < |order| && order[k] == jobs[|jobs| - 1]
    ensures multiset(order[..k] + order[k + 1..]) == multiset(jobs[..|jobs| - 1])
  {
    var last := |jobs| - 1;
    assert jobs[last] in multiset(order);
    k :| 0 <= k < |order| && order[k] == jobs[last];
    assert order == order[..k] + [order[k]] + order[k + 1..];
    assert jobs == jobs[..last] + [jobs[last]];
    var rest := order[..k] + order[k + 1..];
    assert multiset(order) == multiset(rest) + multiset{order[k]};
    assert multiset(jobs) == multiset(jobs[..last]) + multiset{jobs[last]};
    assert multiset(rest) == multiset(order) - multiset{order[k]};
  }

  lemma {:induction false} NetSumOrder(jobs: seq<Transfer>, order: seq<Transfer>, a: nat)
    requires multiset(jobs) == multiset(order)
    ensures NetSum(jobs, a) == NetSum(order, a)
    decreases |jobs|
  {
    if jobs == [] {
      assert |multiset(order)| == 0;
    } else {
      var k := FindLast(jobs, order);
      NetSumOrder(jobs[..|jobs| - 1], order[..k] + order[k + 1..], a);
      NetSumRemove(order, k, a);
    }
  }

  function Jobs(ts: seq<Thread>): (jobs: seq<Transfer>)
    ensures |jobs| == |ts| && forall i :: 0 <= i < |ts| ==> jobs[i] == ts[i].job
  {
    if ts == [] then [] else Jobs(ts[..|ts| - 1]) + [ts[|ts| - 1].job]
  }

  lemma {:induction false} EffectsWhenDone(ts: seq<Thread>, a: nat)
    requires forall i :: 0 <= i < |ts| ==> ts[i].pos.Done?
    ensures Effects(ts, a) == NetSum(Jobs(ts), a)
  {
    if ts != [] {
      var last := |ts| - 1;
      EffectsWhenDone(ts[..last], a);
      assert Jobs(ts)[..last] == Jobs(ts[..last]);
    }
  }

  /** Serializability: every complete run of any multiset of transfers ends with the balances of
      applying them one by one, in any order. */
  lemma {:induction false} CompleteRunsAreSerial(s: State, schedule: seq<nat>, order: seq<Transfer>)
    requires Initial(s) && Finished(Run(s, schedule))
    requires multiset(order) == multiset(Jobs(s.threads))
    requires forall k :: 0 <= k < |order| ==> order[k].from < |s.balances| && order[k].to < |s.balances|
    ensures Run(s, schedule).balances == Serial(s.balances, order)
  {
    InitialInv(s);
    RunKeeps(s, schedule);
    var t := Run(s, schedule);
    assert Jobs(t.threads) == Jobs(s.threads);
    forall a | 0 <= a < |s.balances| ensures t.balances[a] == Serial(s.balances, order)[a] {
      RunBalances(s, schedule, a);
      NoEffectsYet(s.threads, a);
      EffectsWhenDone(t.threads, a);
      NetSumOrder(Jobs(s.threads), order, a);
      SerialIsNet(s.balances, order, a);
    }
  }

  // ---- No deadlock ----

  /** In every reachable state no thread is blocked while it holds a lock, and unless all are through
      some thread can move. */
  lemma {:induction false} NeverStuck(start: State, schedule: seq<nat>)
    requires Initial(start)
    ensures var s := Run(start, schedule);
            && (forall i, a :: 0 <= i < |s.threads| && !s.threads[i].pos.Done? && !Enabled(s, i) ==>
                  !s.threads[i].Holds(a))
            && (Finished(s) || exists i :: 0 <= i < |s.threads| && Enabled(s, i))
  {
    InitialInv(start);
    RunKeeps(start, schedule);
    var s := Run(start, schedule);
    if !Finished(s) {
      var i :| 0 <= i < |s.threads| && !s.threads[i].pos.Done?;
      if !Enabled(s, i) {
        var a := s.threads[i].First();
        var j := s.owners[a].thread;
        assert OwnerFits(s, j, a);
        assert Enabled(s, j);
      }
    }
  }

  // ---- Completion stays reachable ----

  lemma {:induction false} RunAppend(s: State, x: seq<nat>, y: seq<nat>)
    requires s.Shape()
    ensures Run(s, x + y) == Run(Run(s, x), y)
    decreases |y|
  {
    if y == [] {
      assert x + y == x;
    } else {
      assert (x + y)[..|x + y| - 1] == x + y[..|y| - 1];
      RunAppend(s, x, y[..|y| - 1]);
    }
  }

  lemma {:induction false} RunOne(s: State, i: nat)
    requires s.Shape()
    ensures Run(s, [i]) == Step(s, i)
  {
    assert [i][..0] == [];
  }

  /** Steps until a thread holds nothing, run alone; fewer still if it has both locks. */
  function Rest(pos: Pos): nat {
    match pos
    case Start(_) => 0
    case Done => 0
    case Trying(_) => 7
    case Backing(_) => 1
    case LoadFrom => 6
    case StoreFrom(_) => 5
    case LoadTo => 4
    case StoreTo(_) => 3
    case UnlockFrom => 2
    case UnlockTo => 1
  }

  /** Only thread i moves. */
  predicate OthersStay(s: State, t: State, i: nat) {
    |s.threads| == |t.threads| && forall j :: 0 <= j < |s.threads| && j != i ==> t.threads[j] == s.threads[j]
  }

  predicate BothLocks(t: Thread) {
    !t.pos.Start? && !t.pos.Trying? && !t.pos.Backing?
  }

  lemma {:induction false} LetGoStep(s: State, i: nat)
    requires s.Shape() && i < |s.threads| && !s.threads[i].HoldsNothing()
    ensures var t := Step(s, i);
            && OthersStay(s, t, i) && Rest(t.threads[i].pos) < Rest(s.threads[i].pos)
            && (BothLocks(s.threads[i]) ==> BothLocks(t.threads[i]))
  {
  }

  /** A thread that holds a lock gets rid of its locks by running alone, and is through if it had
      both. */
  lemma {:induction false} LetGo(s: State, i: nat) returns (schedule: seq<nat>)
    requires Inv(s) && i < |s.threads|
    ensures var t := Run(s, schedule);
            && Inv(t) && OthersStay(s, t, i) && t.threads[i].HoldsNothing()
            && (BothLocks(s.threads[i]) ==> t.threads[i].pos.Done?)
    decreases Rest(s.threads[i].pos)
  {
    if s.threads[i].HoldsNothing() {
      schedule := [];
    } else {
      InvStep(s, i);
      LetGoStep(s, i);
      RunOne(s, i);
      var rest := LetGo(Step(s, i), i);
      schedule := [i] + rest;
      RunAppend(s, [i], rest);
    }
  }

  predicate Quiet(s: State, n: nat) {
    forall i :: 0 <= i < |s.threads| && i < n ==> s.threads[i].HoldsNothing()
  }

  lemma {:induction false} MakeQuiet(s: State, n: nat) returns (schedule: seq<nat>)
    requires Inv(s) && n <= |s.threads|
    ensures Inv(Run(s, schedule)) && Quiet(Run(s, schedule), n)
    ensures forall i :: 0 <= i < |s.threads| && s.threads[i].pos.Done? ==> Run(s, schedule).threads[i].pos.Done?
  {
    if n == 0 {
      schedule := [];
    } else {
      var before := MakeQuiet(s, n - 1);
      var rest := LetGo(Run(s, before), n - 1);
      schedule := before + rest;
      RunAppend(s, before, rest);
    }
  }

  lemma {:induction false} QuietIsFree(s: State, a: nat)
    requires Inv(s) && Quiet(s, |s.threads|) && a < |s.owners|
    ensures s.owners[a].Free?
  {
    forall j | 0 <= j < |s.threads| ensures s.owners[a] != By(j) {
      assert OwnerFits(s, j, a);
    }
  }

  lemma {:induction false} TakeBoth(s: State, i: nat)
    requires s.Shape() && i < |s.threads| && s.threads[i].pos.Start?
    requires s.owners[s.threads[i].First()].Free? && s.owners[s.threads[i].Second()].Free?
    ensures var t := Step(Step(s, i), i);
            OthersStay(s, t, i) && t.threads[i].pos.LoadFrom?
  {
  }

  /** With nobody holding a lock, one waiting thread completes by running alone. */
  lemma {:induction false} CompleteOne(s: State, i: nat) returns (schedule: seq<nat>)
    requires Inv(s) && Quiet(s, |s.threads|) && i < |s.threads| && !s.threads[i].pos.Done?
    ensures var t := Run(s, schedule);
            Inv(t) && Quiet(t, |t.threads|) && OthersStay(s, t, i) && t.threads[i].pos.Done?
  {
    QuietIsFree(s, s.threads[i].First());
    QuietIsFree(s, s.threads[i].Second());
    TakeBoth(s, i);
    InvStep(s, i);
    InvStep(Step(s, i), i);
    var t := Step(Step(s, i), i);
    var rest := LetGo(t, i);
    RunOne(s, i);
    RunOne(Step(s, i), i);
    RunAppend(s, [i], [i]);
    schedule := ([i] + [i]) + rest;
    RunAppend(s, [i] + [i], rest);
  }

  function Unfinished(ts: seq<Thread>): nat {
    if ts == [] then 0
    else Unfinished(ts[..|ts| - 1]) + (if ts[|ts| - 1].pos.Done? then 0 else 1)
  }

  lemma {:induction false} OneFewer(ts: seq<Thread>, us: seq<Thread>, i: nat)
    requires |ts| == |us| && i < |ts| && !ts[i].pos.Done? && us[i].pos.Done?
    requires forall j :: 0 <= j < |ts| && j != i ==> us[j] == ts[j]
    ensures Unfinished(us) == Unfinished(ts) - 1
  {
    var last := |ts| - 1;
    if i < last {
      OneFewer(ts[..last], us[..last], i);
    } else {
      assert us[..last] == ts[..last];
    }
  }

  lemma {:induction false} CompleteQuiet(s: State) returns (schedule: seq<nat>)
    requires Inv(s) && Quiet(s, |s.threads|)
    ensures Finished(Run(s, schedule))
    decreases Unfinished(s.threads)
  {
    if Finished(s) {
      schedule := [];
    } else {
      var i :| 0 <= i < |s.threads| && !s.threads[i].pos.Done?;
      var one := CompleteOne(s, i);
      OneFewer(s.threads, Run(s, one).threads, i);
      var rest := CompleteQuiet(Run(s, one));
      schedule := one + rest;
      RunAppend(s, one, rest);
    }
  }

  /** Back-off cannot paint itself into a corner: from every reachable state of any number of threads
      and accounts some schedule completes all transfers. */
  lemma {:induction false} CompletionReachable(s: State, before: seq<nat>) returns (after: seq<nat>)
    requires Initial(s)
    ensures Finished(Run(s, before + after))
  {
    InitialInv(s);
    RunKeeps(s, before);
    var t := Run(s, before);
    var quiet := MakeQuiet(t, |t.threads|);
    var rest := CompleteQuiet(Run(t, quiet));
    after := quiet + rest;
    RunAppend(t, quiet, rest);
    RunAppend(s, before, after);
  }

  // ---- What keeps a run from completing ----

  /** How far a thread has got, not counting the times it has backed off. */
  function Stage(pos: Pos): nat {
    match pos
    case Start(_) => 0
    case Trying(_) => 1
    case Backing(_) => 2
    case LoadFrom => 2
    case StoreFrom(_) => 3
    case LoadTo => 4
    case StoreTo(_) => 5
    case UnlockFrom => 6
    case UnlockTo => 7
    case Done => 8
  }

  function Stages(ts: seq<Thread>): nat {
    if ts == [] then 0 else Stages(ts[..|ts| - 1]) + Stage(ts[|ts| - 1].pos)
  }

  predicate Moves(s: State, i: nat)
    requires s.Shape()
  {
    i < |s.threads| && Enabled(s, i)
  }

  predicate BacksOff(s: State, i: nat)
    requires s.Shape()
  {
    Moves(s, i) && s.threads[i].pos.Backing?
  }

  /** The steps of a run in which the scheduled thread could move, and those that end a back-off. */
  function MoveCount(s: State, schedule: seq<nat>): nat
    requires s.Shape()
  {
    if schedule == [] then 0
    else
      var before, i := schedule[..|schedule| - 1], schedule[|schedule| - 1];
      MoveCount(s, before) + if Moves(Run(s, before), i) then 1 else 0
  }

  function BackOffs(s: State, schedule: seq<nat>): nat
    requires s.Shape()
  {
    if schedule == [] then 0
    else
      var before, i := schedule[..|schedule| - 1], schedule[|schedule| - 1];
      BackOffs(s, before) + if BacksOff(Run(s, before), i) then 1 else 0
  }

  lemma {:induction false} StagesUpdate(ts: seq<Thread>, i: nat, t: Thread)
    requires i < |ts|
    ensures Stages(ts[i := t]) == Stages(ts) - Stage(ts[i].pos) + Stage(t.pos)
  {
    var last := |ts| - 1;
    if i < last {
      assert ts[i := t][..last] == ts[..last][i := t];
      StagesUpdate(ts[..last], i, t);
    } else {
      assert ts[i := t][..last] == ts[..last];
    }
  }

  lemma {:induction false} StageStep(s: State, i: nat)
    requires s.Shape() && Moves(s, i)
    ensures var t, t' := s.threads[i], Step(s, i).threads[i];
            && Step(s, i).threads == s.threads[i := t']
            && Stage(t'.pos) + (if t.pos.Backing? then 3 else 0) == Stage(t.pos) + 1
  {
  }

  lemma {:induction false} StagesStep(s: State, i: nat)
    requires s.Shape()
    ensures Stages(Step(s, i).threads) + (if BacksOff(s, i) then 3 else 0)
            == Stages(s.threads) + (if Moves(s, i) then 1 else 0)
  {
    if Moves(s, i) {
      StageStep(s, i);
      StagesUpdate(s.threads, i, Step(s, i).threads[i]);
    }
  }

  /** Every move brings a thread one stage further, and every back-off costs three. */
  lemma {:induction false} MovesAreStages(s: State, schedule: seq<nat>)
    requires s.Shape()
    ensures Stages(Run(s, schedule).threads) + 3 * BackOffs(s, schedule)
            == Stages(s.threads) + MoveCount(s, schedule)
  {
    if schedule != [] {
      var before, i := schedule[..|schedule| - 1], schedule[|schedule| - 1];
      MovesAreStages(s, before);
      StagesStep(Run(s, before), i);
    }
  }

  lemma {:induction false} StagesBound(ts: seq<Thread>)
    ensures Stages(ts) <= 8 * |ts|
    ensures Stages(ts) == 8 * |ts| <==> forall i :: 0 <= i < |ts| ==> ts[i].pos.Done?
  {
    if ts != [] {
      var last := |ts| - 1;
      StagesBound(ts[..last]);
      assert (forall i :: 0 <= i < |ts| ==> ts[i].pos.Done?) <==>
             ts[last].pos.Done? && forall i :: 0 <= i < last ==> ts[..last][i].pos.Done?;
    }
  }

  lemma {:induction false} NoStagesYet(ts: seq<Thread>)
    requires forall i :: 0 <= i < |ts| ==> ts[i].pos.Start?
    ensures Stages(ts) == 0
  {
    if ts != [] {
      NoStagesYet(ts[..|ts| - 1]);
    }
  }

  /** When a run completes: any number of threads move at most eight times each and three times more for
      every back-off, and exactly that often if and only if all are through. So a schedule that keeps
      moving threads completes all transfers unless it makes them back off without end. */
  lemma {:induction false} OnlyBackOffsDelay(s: State, schedule: seq<nat>)
    requires Initial(s)
    ensures MoveCount(s, schedule) <= 8 * |s.threads| + 3 * BackOffs(s, schedule)
    ensures MoveCount(s, schedule) == 8 * |s.threads| + 3 * BackOffs(s, schedule) <==> Finished(Run(s, schedule))
  {
    MovesAreStages(s, schedule);
    NoStagesYet(s.threads);
    StagesBound(Run(s, schedule).threads);
  }

  // ---- Two transfers ----

  predicate Opposed(x: Transfer, y: Transfer) { x.from == y.to && x.to == y.from }

  /** Two transfers between any accounts, before they start. */
  predicate Pair(s: State, x: Transfer, y: Transfer) {
    Initial(s) && |s.threads| == 2 && s.threads[0].job == x && s.threads[1].job == y
  }

  /** The thread has failed on its second lock. */
  predicate Failed(t: Thread) {
    match t.pos
    case Start(w) => w
    case Trying(w) => w
    case Backing(_) => true
    case _ => false
  }

  predicate HasBoth(t: Thread) {
    t.pos.LoadFrom? || t.pos.StoreFrom? || t.pos.LoadTo? || t.pos.StoreTo? || t.pos.UnlockFrom?
  }

  /** Thread t failed once, on a lock that is u's first, or that u had with its other one: then u does not
      fail, and t, which now starts with that lock, does not fail again. */
  predicate FailedOnce(t: Thread, u: Thread) {
    && (t.pos.Backing? ==> !t.pos.swapped)
    && (t.pos.Start? || t.pos.Trying? ==> t.pos.swapped)
    && !Failed(u)
    && (t.job.to == u.job.from
        || (t.job.to == u.job.to && (HasBoth(u) || u.pos.UnlockTo? || u.pos.Done?)))
  }

  /** Backing off happens at most once: `count` back-offs have ended. */
  predicate AtMostOnce(t: Thread, u: Thread, count: nat) {
    || (count == 0 && !Failed(t) && !Failed(u))
    || (count == 0 && t.pos.Backing? && FailedOnce(t, u))
    || (count == 0 && u.pos.Backing? && FailedOnce(u, t))
    || (count == 1 && !t.pos.Backing? && FailedOnce(t, u))
    || (count == 1 && !u.pos.Backing? && FailedOnce(u, t))
  }

  /** The two threads' jobs, and the locks between them. */
  predicate Peers(s: State, i: nat) {
    && s.Shape() && |s.threads| == 2 && i < 2
    && !Opposed(s.threads[i].job, s.threads[1 - i].job)
    && (forall j, a :: 0 <= j < 2 && 0 <= a < |s.owners| ==> OwnerFits(s, j, a))
    && (forall a :: 0 <= a < |s.owners| && s.owners[a].By? ==> s.owners[a].thread < 2)
  }

  /** The thread's second lock is taken by the other one. */
  lemma {:induction false} TakenByPeer(s: State, i: nat)
    requires Peers(s, i) && s.threads[i].pos.Trying? && s.owners[s.threads[i].Second()].By?
    ensures s.threads[1 - i].Holds(s.threads[i].Second()) && !s.threads[1 - i].Holds(s.threads[i].First())
  {
    var t := s.threads[i];
    assert OwnerFits(s, i, t.First()) && OwnerFits(s, i, t.Second());
    assert OwnerFits(s, 1 - i, t.First()) && OwnerFits(s, 1 - i, t.Second());
  }

  /** A thread that fails does so for the first time, and the other has not failed. */
  lemma {:induction false} FirstFailure(t: Thread, u: Thread, count: nat)
    requires AtMostOnce(t, u, count) && !Opposed(t.job, u.job)
    requires t.pos.Trying? && t.job.from != t.job.to && u.job.from != u.job.to
    requires u.Holds(t.Second()) && !u.Holds(t.First())
    ensures count == 0 && !Failed(u) && !t.pos.swapped
    ensures FailedOnce(t.(pos := Backing(false)), u)
  {
  }

  lemma {:induction false} TryStep(s: State, i: nat, count: nat)
    requires Peers(s, i) && AtMostOnce(s.threads[i], s.threads[1 - i], count) && s.threads[i].pos.Trying?
    ensures var s' := Step(s, i);
            AtMostOnce(s'.threads[i], s'.threads[1 - i], count)
  {
    var t := s.threads[i];
    if s.owners[t.Second()].By? {
      TakenByPeer(s, i);
      FirstFailure(t, s.threads[1 - i], count);
    }
  }

  lemma {:induction false} OtherStep(s: State, i: nat, count: nat)
    requires Peers(s, i) && AtMostOnce(s.threads[i], s.threads[1 - i], count) && !s.threads[i].pos.Trying?
    ensures var s' := Step(s, i);
            AtMostOnce(s'.threads[i], s'.threads[1 - i], count + if BacksOff(s, i) then 1 else 0)
  {
    assert Step(s, i).threads[1 - i] == s.threads[1 - i];
  }

  lemma {:induction false} AtMostOnceStep(s: State, i: nat, count: nat)
    requires Peers(s, i) && AtMostOnce(s.threads[i], s.threads[1 - i], count)
    ensures var s' := Step(s, i);
            AtMostOnce(s'.threads[i], s'.threads[1 - i], count + if BacksOff(s, i) then 1 else 0)
  {
    if s.threads[i].pos.Trying? {
      TryStep(s, i, count);
    } else {
      OtherStep(s, i, count);
    }
  }

  lemma {:induction false} PairRun(s: State, x: Transfer, y: Transfer, schedule: seq<nat>)
    requires Pair(s, x, y) && !Opposed(x, y)
    ensures Inv(Run(s, schedule)) && SameJobs(s, Run(s, schedule))
    ensures var t := Run(s, schedule);
            AtMostOnce(t.threads[0], t.threads[1], BackOffs(s, schedule))
  {
    InitialInv(s);
    RunKeeps(s, schedule);
    if schedule != [] {
      var before, i := schedule[..|schedule| - 1], schedule[|schedule| - 1];
      PairRun(s, x, y, before);
      PairStep(Run(s, before), i, BackOffs(s, before));
    }
  }

  lemma {:induction false} PairStep(s: State, i: nat, count: nat)
    requires Inv(s) && |s.threads| == 2 && !Opposed(s.threads[0].job, s.threads[1].job)
    requires AtMostOnce(s.threads[0], s.threads[1], count)
    ensures var s' := Step(s, i);
            AtMostOnce(s'.threads[0], s'.threads[1], count + if BacksOff(s, i) then 1 else 0)
  {
    if i < 2 {
      AtMostOnceStep(s, i, count);
    }
  }

  /** Two transfers that are not opposite back off once at most, whatever the schedule, so the threads move
      nineteen times at most. */
  lemma {:induction false} OneBackOffAtMost(s: State, x: Transfer, y: Transfer, schedule: seq<nat>)
    requires Pair(s, x, y) && !Opposed(x, y)
    ensures BackOffs(s, schedule) <= 1 && MoveCount(s, schedule) <= 19
  {
    PairRun(s, x, y, schedule);
    OnlyBackOffsDelay(s, schedule);
  }

  // ---- Opposite orders ----

  function FirstOf(job: Transfer, w: bool): nat { if w then job.to else job.from }

  /** Two threads at their start, about to take the same two locks in opposite orders, both free. */
  predicate Rivals(s: State, i: nat, j: nat, w: bool, w': bool) {
    && s.Shape() && i < |s.threads| && j < |s.threads| && i != j
    && s.threads[i].pos == Start(w) && s.threads[j].pos == Start(w')
    && var t, u := s.threads[i].job, s.threads[j].job;
       && FirstOf(t, w) == FirstOf(u, !w') && FirstOf(t, !w) == FirstOf(u, w')
       && s.owners[t.from].Free? && s.owners[t.to].Free?
  }

  /** Threads i and j at the given places, the two locks owned as given, everything else as in s. */
  function Facing(s: State, i: nat, j: nat, pos: Pos, pos': Pos, a: nat, b: nat, o: Owner, o': Owner): State
    requires i < |s.threads| && j < |s.threads| && a < |s.owners| && b < |s.owners|
  {
    s.(threads := s.threads[i := s.threads[i].(pos := pos)][j := s.threads[j].(pos := pos')],
       owners := s.owners[a := o][b := o'])
  }

  /** Each takes its first lock, fails on its second, and lets go, to try the other order. */
  lemma {:induction false} BothTakeOne(s: State, i: nat, j: nat, w: bool, w': bool, a: nat, b: nat)
    requires Rivals(s, i, j, w, w') && a == FirstOf(s.threads[i].job, w) && b == FirstOf(s.threads[j].job, w')
    ensures Step(Step(s, i), j) == Facing(s, i, j, Trying(w), Trying(w'), a, b, By(i), By(j))
  {
  }

  lemma {:induction false} BothFail(s: State, i: nat, j: nat, w: bool, w': bool, a: nat, b: nat)
    requires Rivals(s, i, j, w, w') && a == FirstOf(s.threads[i].job, w) && b == FirstOf(s.threads[j].job, w')
    ensures var f := Facing(s, i, j, Trying(w), Trying(w'), a, b, By(i), By(j));
            f.Shape() && Step(Step(f, i), j) == Facing(s, i, j, Backing(w), Backing(w'), a, b, By(i), By(j))
  {
  }

  lemma {:induction false} BothLetGo(s: State, i: nat, j: nat, w: bool, w': bool, a: nat, b: nat)
    requires Rivals(s, i, j, w, w') && a == FirstOf(s.threads[i].job, w) && b == FirstOf(s.threads[j].job, w')
    ensures var f := Facing(s, i, j, Backing(w), Backing(w'), a, b, By(i), By(j));
            && f.Shape() && BacksOff(f, i) && BacksOff(Step(f, i), j)
            && Step(Step(f, i), j) == Facing(s, i, j, Start(!w), Start(!w'), a, b, Free, Free)
  {
  }

  lemma {:induction false} TwoSteps(s: State, i: nat, j: nat)
    requires s.Shape()
    ensures Run(s, [i, j]) == Step(Step(s, i), j)
    ensures BackOffs(s, [i, j]) == (if BacksOff(s, i) then 1 else 0) + (if BacksOff(Step(s, i), j) then 1 else 0)
  {
    RunOne(s, i);
    assert [i, j][..1] == [i] && [i][..0] == [];
    assert BackOffs(s, [i]) == BackOffs(s, []) + if BacksOff(s, i) then 1 else 0;
    assert Run(s, [i, j]) == Step(Run(s, [i]), j);
  }

  lemma {:induction false} BackOffsAppend(s: State, x: seq<nat>, y: seq<nat>)
    requires s.Shape()
    ensures BackOffs(s, x + y) == BackOffs(s, x) + BackOffs(Run(s, x), y)
    decreases |y|
  {
    if y == [] {
      assert x + y == x;
    } else {
      assert (x + y)[..|x + y| - 1] == x + y[..|y| - 1];
      BackOffsAppend(s, x, y[..|y| - 1]);
      RunAppend(s, x, y[..|y| - 1]);
    }
  }

  function Turned(s: State, i: nat, j: nat, w: bool, w': bool): State
    requires i < |s.threads| && j < |s.threads|
  {
    s.(threads := s.threads[i := s.threads[i].(pos := Start(w))][j := s.threads[j].(pos := Start(w'))])
  }

  lemma {:induction false} ThreePairs(s: State, i: nat, j: nat, f: State, g: State, h: State)
    requires s.Shape() && Step(Step(s, i), j) == f && Step(Step(f, i), j) == g && Step(Step(g, i), j) == h
    requires BacksOff(g, i) && BacksOff(Step(g, i), j)
    ensures Run(s, [i, j] + [i, j] + [i, j]) == h && BackOffs(s, [i, j] + [i, j] + [i, j]) >= 2
  {
    TwoSteps(s, i, j);
    TwoSteps(f, i, j);
    TwoSteps(g, i, j);
    RunAppend(s, [i, j], [i, j]);
    RunAppend(s, [i, j] + [i, j], [i, j]);
    BackOffsAppend(s, [i, j] + [i, j], [i, j]);
  }

  lemma {:induction false} BackToFree(s: State, i: nat, j: nat, w: bool, w': bool, a: nat, b: nat)
    requires Rivals(s, i, j, w, w') && a == FirstOf(s.threads[i].job, w) && b == FirstOf(s.threads[j].job, w')
    ensures Facing(s, i, j, Start(!w), Start(!w'), a, b, Free, Free) == Turned(s, i, j, !w, !w')
    ensures Rivals(Turned(s, i, j, !w, !w'), i, j, !w, !w')
  {
    assert s.owners[a := Free][b := Free] == s.owners;
  }

  lemma {:induction false} HalfRound(s: State, i: nat, j: nat, w: bool, w': bool)
    requires Rivals(s, i, j, w, w')
    ensures Run(s, [i, j] + [i, j] + [i, j]) == Turned(s, i, j, !w, !w')
    ensures Rivals(Turned(s, i, j, !w, !w'), i, j, !w, !w')
    ensures BackOffs(s, [i, j] + [i, j] + [i, j]) >= 2
  {
    var a, b := FirstOf(s.threads[i].job, w), FirstOf(s.threads[j].job, w');
    BothTakeOne(s, i, j, w, w', a, b);
    BothFail(s, i, j, w, w', a, b);
    BothLetGo(s, i, j, w, w', a, b);
    BackToFree(s, i, j, w, w', a, b);
    ThreePairs(s, i, j, Facing(s, i, j, Trying(w), Trying(w'), a, b, By(i), By(j)),
               Facing(s, i, j, Backing(w), Backing(w'), a, b, By(i), By(j)), Turned(s, i, j, !w, !w'));
  }

  function Half(i: nat, j: nat): seq<nat> { [i, j] + [i, j] + [i, j] }

  lemma {:induction false} TurnedBack(s: State, i: nat, j: nat, w: bool, w': bool)
    requires Rivals(s, i, j, w, w')
    ensures Turned(Turned(s, i, j, !w, !w'), i, j, w, w') == s
  {
    assert Turned(Turned(s, i, j, !w, !w'), i, j, w, w').threads == s.threads;
  }

  lemma {:induction false} Round(s: State, i: nat, j: nat, w: bool, w': bool)
    requires Rivals(s, i, j, w, w')
    ensures Run(s, Half(i, j) + Half(i, j)) == s && BackOffs(s, Half(i, j) + Half(i, j)) >= 4
  {
    HalfRound(s, i, j, w, w');
    HalfRound(Turned(s, i, j, !w, !w'), i, j, !w, !w');
    TurnedBack(s, i, j, w, w');
    RunAppend(s, Half(i, j), Half(i, j));
    BackOffsAppend(s, Half(i, j), Half(i, j));
  }

  /** Among any number of threads, two that are about to take the same locks in opposite orders can be kept
      backing off for ever: there are schedules of any length after which everything is as before. */
  lemma {:induction false} LivelockPossible(s: State, i: nat, j: nat, w: bool, w': bool, rounds: nat)
    returns (schedule: seq<nat>)
    requires Rivals(s, i, j, w, w')
    ensures |schedule| == 12 * rounds && Run(s, schedule) == s && BackOffs(s, schedule) >= 4 * rounds
  {
    if rounds == 0 {
      schedule := [];
    } else {
      var before := LivelockPossible(s, i, j, w, w', rounds - 1);
      Round(s, i, j, w, w');
      RunAppend(s, before, Half(i, j) + Half(i, j));
      BackOffsAppend(s, before, Half(i, j) + Half(i, j));
      schedule := before + (Half(i, j) + Half(i, j));
    }
  }

  ghost predicate CanBackOff(s: State, n: nat)
    requires s.Shape()
  {
    exists schedule :: BackOffs(s, schedule) >= n
  }

  /** Two transfers can be kept backing off without end exactly if they are opposite. */
  lemma {:induction false} LivelockIffOpposed(s: State, x: Transfer, y: Transfer)
    requires Pair(s, x, y)
    ensures (forall n: nat :: CanBackOff(s, n)) <==> Opposed(x, y)
  {
    if Opposed(x, y) {
      forall n: nat ensures CanBackOff(s, n) {
        assert Run(s, []) == s;
        RivalsCanBackOff(s, [], 0, 1, false, false, n);
      }
    } else {
      forall schedule ensures BackOffs(s, schedule) < 2 {
        OneBackOffAtMost(s, x, y, schedule);
      }
      assert !CanBackOff(s, 2);
    }
  }

  // ---- Any number of transfers ----

  /** No other transfer uses the account. */
  predicate Private(s: State, i: nat, a: nat) {
    forall j :: 0 <= j < |s.threads| && j != i ==> s.threads[j].job.from != a && s.threads[j].job.to != a
  }

  /** Every transfer has an account of its own on one side. */
  predicate OwnAccounts(s: State) {
    forall i :: 0 <= i < |s.threads| ==> Private(s, i, s.threads[i].job.from) || Private(s, i, s.threads[i].job.to)
  }

  /** Only a thread whose source is its own ever fails, and not in the other order. */
  predicate FailsOnce(s: State, i: nat)
    requires i < |s.threads|
  {
    var t := s.threads[i];
    && (t.pos.Backing? ==> !t.pos.swapped)
    && (Failed(t) ==> Private(s, i, t.job.from))
  }

  ghost predicate AllFailOnce(s: State) {
    forall i :: 0 <= i < |s.threads| ==> FailsOnce(s, i)
  }

  /** Back-offs a thread may still end. */
  function Chance(t: Thread): nat {
    if (t.pos.Start? || t.pos.Trying? || t.pos.Backing?) && !t.pos.swapped then 1 else 0
  }

  function Chances(ts: seq<Thread>): nat {
    if ts == [] then 0 else Chances(ts[..|ts| - 1]) + Chance(ts[|ts| - 1])
  }

  lemma {:induction false} ChancesUpdate(ts: seq<Thread>, i: nat, t: Thread)
    requires i < |ts|
    ensures Chances(ts[i := t]) == Chances(ts) - Chance(ts[i]) + Chance(t)
  {
    var last := |ts| - 1;
    if i < last {
      assert ts[i := t][..last] == ts[..last][i := t];
      ChancesUpdate(ts[..last], i, t);
    } else {
      assert ts[i := t][..last] == ts[..last];
    }
  }

  lemma {:induction false} ChancesBound(ts: seq<Thread>)
    ensures Chances(ts) <= |ts|
  {
    if ts != [] {
      ChancesBound(ts[..|ts| - 1]);
    }
  }

  /** A lock no other thread uses is free for a thread that does not hold it. */
  lemma {:induction false} PrivateIsFree(s: State, i: nat, a: nat)
    requires s.Shape() && Locks(s) && i < |s.threads| && a < |s.owners|
    requires Private(s, i, a) && !s.threads[i].Holds(a)
    ensures s.owners[a].Free?
  {
    forall j | 0 <= j < |s.threads| ensures s.owners[a] != By(j) {
      assert OwnerFits(s, j, a);
    }
  }

  lemma {:induction false} MoverFailsOnce(s: State, i: nat)
    requires s.Shape() && Locks(s) && OwnAccounts(s) && i < |s.threads| && FailsOnce(s, i)
    ensures FailsOnce(Step(s, i), i)
    ensures Chance(Step(s, i).threads[i]) + (if BacksOff(s, i) then 1 else 0) <= Chance(s.threads[i])
  {
    var t := s.threads[i];
    if t.pos.Trying? {
      assert Private(s, i, t.job.from) || Private(s, i, t.job.to);
      if Private(s, i, t.Second()) { PrivateIsFree(s, i, t.Second()); }
    }
    JobsStay(s, i);
    if Private(s, i, t.job.from) { PrivateStays(s, i, i, t.job.from); }
  }

  lemma {:induction false} JobsStay(s: State, i: nat)
    requires s.Shape()
    ensures SameJobs(s, Step(s, i))
  {
  }

  lemma {:induction false} PrivateStays(s: State, i: nat, j: nat, a: nat)
    requires s.Shape() && Private(s, j, a)
    ensures Private(Step(s, i), j, a)
  {
    JobsStay(s, i);
  }

  lemma {:induction false} OthersStayPut(s: State, i: nat)
    requires s.Shape() && i < |s.threads|
    ensures Step(s, i).threads == s.threads[i := Step(s, i).threads[i]]
  {
  }

  lemma {:induction false} FailOnceStep(s: State, i: nat)
    requires s.Shape() && Locks(s) && OwnAccounts(s) && AllFailOnce(s)
    ensures OwnAccounts(Step(s, i)) && AllFailOnce(Step(s, i))
    ensures Chances(Step(s, i).threads) + (if BacksOff(s, i) then 1 else 0) <= Chances(s.threads)
  {
    var s' := Step(s, i);
    JobsStay(s, i);
    forall j | 0 <= j < |s'.threads|
      ensures Private(s', j, s'.threads[j].job.from) || Private(s', j, s'.threads[j].job.to)
    {
      if Private(s, j, s.threads[j].job.from) {
        PrivateStays(s, i, j, s.threads[j].job.from);
      } else {
        PrivateStays(s, i, j, s.threads[j].job.to);
      }
    }
    if i < |s.threads| {
      OthersStayPut(s, i);
      MoverFailsOnce(s, i);
      ChancesUpdate(s.threads, i, s'.threads[i]);
      forall j | 0 <= j < |s'.threads| && j != i ensures FailsOnce(s', j) {
        assert FailsOnce(s, j);
        if Private(s, j, s.threads[j].job.from) { PrivateStays(s, i, j, s.threads[j].job.from); }
      }
    }
  }

  lemma {:induction false} FailOnceRun(s: State, schedule: seq<nat>)
    requires Initial(s) && OwnAccounts(s)
    ensures Inv(Run(s, schedule)) && OwnAccounts(Run(s, schedule)) && AllFailOnce(Run(s, schedule))
    ensures BackOffs(s, schedule) + Chances(Run(s, schedule).threads) <= Chances(s.threads)
  {
    InitialInv(s);
    RunKeeps(s, schedule);
    if schedule != [] {
      FailOnceRun(s, schedule[..|schedule| - 1]);
      FailOnceStep(Run(s, schedule[..|schedule| - 1]), schedule[|schedule| - 1]);
    }
  }

  /** Any number of transfers, each of which has an account of its own: every one backs off once at most,
      so the threads move eleven times each at most, whatever the schedule. */
  lemma {:induction false} OwnAccountsComplete(s: State, schedule: seq<nat>)
    requires Initial(s) && OwnAccounts(s)
    ensures BackOffs(s, schedule) <= |s.threads| && MoveCount(s, schedule) <= 11 * |s.threads|
  {
    FailOnceRun(s, schedule);
    ChancesBound(s.threads);
    OnlyBackOffsDelay(s, schedule);
  }

  /** Three transfers in one direction between two accounts: no two of them are opposite. The third has
      not moved. */
  function Alike(x: Pos, y: Pos, o: Owner, o': Owner, a: int, b: int): State {
    State([Thread(Transfer(0, 1, 10), x), Thread(Transfer(0, 1, 10), y), Thread(Transfer(0, 1, 10), Start(false))],
          [o, o'], [a, b])
  }

  const ALIKE := Alike(Start(false), Start(false), Free, Free, 1000, 1000)

  lemma {:induction false} Next(s: State, schedule: seq<nat>, t: State, i: nat, u: State)
    requires s.Shape() && Run(s, schedule) == t && Step(t, i) == u
    ensures Run(s, schedule + [i]) == u
  {
    RunAppend(s, schedule, [i]);
    RunOne(t, i);
  }

  /** The first thread takes both locks and pays. */
  lemma FirstLocks() returns (schedule: seq<nat>)
    ensures ALIKE.Shape() && Run(ALIKE, schedule) == Alike(LoadFrom, Start(false), By(0), By(0), 1000, 1000)
  {
    var t := Alike(Trying(false), Start(false), By(0), Free, 1000, 1000);
    Next(ALIKE, [], ALIKE, 0, t);
    Next(ALIKE, [] + [0], t, 0, Alike(LoadFrom, Start(false), By(0), By(0), 1000, 1000));
    schedule := [] + [0] + [0];
  }

  lemma FirstPays() returns (schedule: seq<nat>)
    ensures ALIKE.Shape() && Run(ALIKE, schedule) == Alike(LoadTo, Start(false), By(0), By(0), 990, 1000)
  {
    var before := FirstLocks();
    var s := Alike(LoadFrom, Start(false), By(0), By(0), 1000, 1000);
    var t := Alike(StoreFrom(1000), Start(false), By(0), By(0), 1000, 1000);
    Next(ALIKE, before, s, 0, t);
    Next(ALIKE, before + [0], t, 0, Alike(LoadTo, Start(false), By(0), By(0), 990, 1000));
    schedule := before + [0] + [0];
  }

  lemma FirstCredits() returns (schedule: seq<nat>)
    ensures ALIKE.Shape() && Run(ALIKE, schedule) == Alike(UnlockFrom, Start(false), By(0), By(0), 990, 1010)
  {
    var before := FirstPays();
    var s := Alike(LoadTo, Start(false), By(0), By(0), 990, 1000);
    var t := Alike(StoreTo(1000), Start(false), By(0), By(0), 990, 1000);
    Next(ALIKE, before, s, 0, t);
    Next(ALIKE, before + [0], t, 0, Alike(UnlockFrom, Start(false), By(0), By(0), 990, 1010));
    schedule := before + [0] + [0];
  }

  /** It lets go of one lock, and the second takes it, fails on the other and turns round. */
  lemma SecondTries() returns (schedule: seq<nat>)
    ensures ALIKE.Shape() && Run(ALIKE, schedule) == Alike(UnlockTo, Trying(false), By(1), By(0), 990, 1010)
  {
    var before := FirstCredits();
    var s := Alike(UnlockFrom, Start(false), By(0), By(0), 990, 1010);
    var t := Alike(UnlockTo, Start(false), Free, By(0), 990, 1010);
    Next(ALIKE, before, s, 0, t);
    Next(ALIKE, before + [0], t, 1, Alike(UnlockTo, Trying(false), By(1), By(0), 990, 1010));
    schedule := before + [0] + [1];
  }

  lemma SecondTurns() returns (schedule: seq<nat>)
    ensures ALIKE.Shape() && Run(ALIKE, schedule) == Alike(UnlockTo, Start(true), Free, By(0), 990, 1010)
  {
    var before := SecondTries();
    var s := Alike(UnlockTo, Trying(false), By(1), By(0), 990, 1010);
    var t := Alike(UnlockTo, Backing(false), By(1), By(0), 990, 1010);
    Next(ALIKE, before, s, 1, t);
    Next(ALIKE, before + [1], t, 1, Alike(UnlockTo, Start(true), Free, By(0), 990, 1010));
    schedule := before + [1] + [1];
  }

  /** Then the second and the third are opposite after all. */
  lemma FirstLeaves() returns (schedule: seq<nat>)
    ensures ALIKE.Shape() && Rivals(Run(ALIKE, schedule), 1, 2, true, false)
  {
    var before := SecondTurns();
    var s := Alike(UnlockTo, Start(true), Free, By(0), 990, 1010);
    var t := Alike(Done, Start(true), Free, Free, 990, 1010);
    Next(ALIKE, before, s, 0, t);
    schedule := before + [0];
    assert Rivals(t, 1, 2, true, false);
  }

  /** Once a run reaches two such rivals, it can be continued with any number of back-offs. */
  lemma {:induction false} RivalsCanBackOff(s: State, before: seq<nat>, i: nat, j: nat, w: bool, w': bool, n: nat)
    requires s.Shape() && Rivals(Run(s, before), i, j, w, w')
    ensures CanBackOff(s, n)
  {
    var more := LivelockPossible(Run(s, before), i, j, w, w', n);
    BackOffsAppend(s, before, more);
    assert BackOffs(s, before + more) >= n;
  }

  lemma AlikeIsInitial()
    ensures Initial(ALIKE)
    ensures forall i, j :: 0 <= i < 3 && 0 <= j < 3 ==> !Opposed(ALIKE.threads[i].job, ALIKE.threads[j].job)
  {
  }

  /** With three threads opposition is not needed: three transfers in the same direction can be kept backing
      off without end. */
  lemma {:induction false} AlikeCanLivelock(n: nat)
    ensures Initial(ALIKE) && CanBackOff(ALIKE, n)
    ensures forall i, j :: 0 <= i < 3 && 0 <= j < 3 ==> !Opposed(ALIKE.threads[i].job, ALIKE.threads[j].job)
  {
    AlikeIsInitial();
    var before := FirstLeaves();
    RivalsCanBackOff(ALIKE, before, 1, 2, true, false, n);
  }

  // ---- The program ----

  class Bank {
    const threads: array<Thread>
    const owners: array<Owner>
    const balances: array<int>

    ghost predicate Valid()
      reads threads, owners, balances
    {
      Now().Shape()
    }

    ghost function Now(): State
      reads threads, owners, balances
    {
      State(threads[..], owners[..], balances[..])
    }

    /** Accounts with these balances and one thread per transfer, none of which has started. */
    constructor (opening: seq<int>, jobs: seq<Transfer>)
      requires forall k :: 0 <= k < |jobs| ==>
                 jobs[k].from < |opening| && jobs[k].to < |opening| && jobs[k].from != jobs[k].to
      ensures Valid() && Initial(Now()) && balances[..] == opening && Jobs(threads[..]) == jobs
      ensures fresh(threads) && fresh(owners) && fresh(balances)
    {
      threads := new Thread[|jobs|](k requires 0 <= k < |jobs| => Thread(jobs[k], Start(false)));
      owners := new Owner[|opening|](_ => Free);
      balances := new int[|opening|](a requires 0 <= a < |opening| => opening[a]);
    }

    /** Taking the locks: block on one, try the other, back off. */
    method StepLocks(i: nat)
      requires Valid() && i < threads.Length
      requires threads[i].pos.Start? || threads[i].pos.Trying? || threads[i].pos.Backing?
      modifies threads, owners
      ensures Now() == Step(old(Now()), i)
    {
      var t := threads[i];
      assert t == Now().threads[i];
      match t.pos {
        case Start(w) =>
          if owners[t.First()].Free? {
            owners[t.First()] := By(i);
            threads[i] := t.(pos := Trying(w));
          }
        case Trying(w) =>
          if owners[t.Second()].Free? {
            owners[t.Second()] := By(i);
            threads[i] := t.(pos := LoadFrom);
          } else {
            threads[i] := t.(pos := Backing(w));
          }
        case Backing(w) =>
          owners[t.First()] := Free;
          threads[i] := t.(pos := Start(!w));
      }
    }

    /** Under the locks: load, store, and release. */
    method StepBody(i: nat)
      requires Valid() && i < threads.Length
      requires !threads[i].pos.Start? && !threads[i].pos.Trying? && !threads[i].pos.Backing?
      modifies threads, owners, balances
      ensures Now() == Step(old(Now()), i)
    {
      var t := threads[i];
      assert t == Now().threads[i];
      var from, to, amount, pos := t.job.from, t.job.to, t.job.amount, t.pos;
      match t.pos {
        case LoadFrom =>
          pos := StoreFrom(balances[from]);
        case StoreFrom(v) =>
          balances[from] := v - amount;
          pos := LoadTo;
        case LoadTo =>
          pos := StoreTo(balances[to]);
        case StoreTo(v) =>
          balances[to] := v + amount;
          pos := UnlockFrom;
        case UnlockFrom =>
          owners[from] := Free;
          pos := UnlockTo;
        case UnlockTo =>
          owners[to] := Free;
          pos := Done;
        case Done =>
      }
      threads[i] := t.(pos := pos);
    }

    /** What thread i does next, on the shared accounts. */
    method StepThread(i: nat)
      requires Valid() && i < threads.Length
      modifies threads, owners, balances
      ensures Valid() && Now() == Step(old(Now()), i)
    {
      if threads[i].pos.Start? || threads[i].pos.Trying? || threads[i].pos.Backing? {
        StepLocks(i);
      } else {
        StepBody(i);
      }
    }

    /** Lets the threads run in the order given. */
    method Let(schedule: seq<nat>)
      requires Valid()
      modifies threads, owners, balances
      ensures Valid() && Now() == Run(old(Now()), schedule)
    {
      ghost var start := Now();
      for k := 0 to |schedule|
        invariant Valid() && Now() == Run(start, schedule[..k])
      {
        assert schedule[..k + 1][..k] == schedule[..k];
        if schedule[k] < threads.Length { StepThread(schedule[k]); }
      }
      assert schedule[..|schedule|] == schedule;
    }

    /** Joins: whether every thread is through. */
    method AllThrough() returns (through: bool)
      ensures through <==> Finished(Now())
    {
      through := true;
      for i := 0 to threads.Length
        invariant through <==> forall j :: 0 <= j < i ==> threads[j].pos.Done?
      {
        through := through && threads[i].pos.Done?;
      }
    }

    /** The whole program: if the threads all get through, the balances are those of the transfers made
        one by one. */
    method Complete(schedule: seq<nat>) returns (completed: bool)
      requires Valid() && Initial(Now())
      modifies threads, owners, balances
      ensures completed <==> Finished(Run(old(Now()), schedule))
      ensures completed ==> balances[..] == Serial(old(balances[..]), Jobs(old(threads[..])))
    {
      ghost var start := Now();
      Let(schedule);
      completed := AllThrough();
      if completed { CompleteRunsAreSerial(start, schedule, Jobs(start.threads)); }
    }
  }
}
