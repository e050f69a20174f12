/**
 Case 01: n workers increment one 64-bit counter k times each. The racy increment is a load and a
 store that any schedule may separate; the atomic one is a single step. Steps interleave on one
 sequentially consistent memory.
*/
module RacyCounter {
  import opened Arith

  datatype Register = Empty | Loaded(value: nat)

  /** `left` increments are still to be stored; the register holds a value between load and store. */
  datatype Worker = Worker(left: nat, reg: Register)

  datatype State = State(counter: nat, workers: seq<Worker>)

  function Init(n: nat, k: nat): State {
    State(0, seq(n, i => Worker(k, Empty)))
  }

  /** One half of `++requests_handled` by worker i; a worker that is through does nothing. */
  function Step(s: State, i: nat): State {
    if i >= |s.workers| || s.workers[i].left == 0 then s
    else
      var w := s.workers[i];
      match w.reg
      case Empty => s.(workers := s.workers[i := Worker(w.left, Loaded(s.counter))])
      case Loaded(v) => State((v + 1) % WORD, s.workers[i := Worker(w.left - 1, Empty)])
  }

  /** `fetch_add(1)` by worker i. */
  function AtomicStep(s: State, i: nat): State {
    if i >= |s.workers| || s.workers[i].left == 0 then s
    else State((s.counter + 1) % WORD, s.workers[i := s.workers[i].(left := s.workers[i].left - 1)])
  }

  function Run(s: State, schedule: seq<nat>): State {
    if schedule == [] then s
    else Step(Run(s, schedule[..|schedule| - 1]), schedule[|schedule| - 1])
  }

  function AtomicRun(s: State, schedule: seq<nat>): State {
    if schedule == [] then s
    else AtomicStep(AtomicRun(s, schedule[..|schedule| - 1]), schedule[|schedule| - 1])
  }

  /** Increments still to come from workers lo, lo + 1, ... */
  function Left(ws: seq<Worker>, lo: nat): nat
    requires lo <= |ws|
    decreases |ws| - lo
  {
    if lo == |ws| then 0 else ws[lo].left + Left(ws, lo + 1)
  }

  predicate Finished(s: State) {
    forall i :: 0 <= i < |s.workers| ==> s.workers[i].left == 0
  }

  lemma {:induction false} LeftUpdate(ws: seq<Worker>, lo: nat, i: nat, w: Worker)
    requires lo <= |ws| && i < |ws|
    ensures Left(ws[i := w], lo) == if i < lo then Left(ws, lo) else Left(ws, lo) - ws[i].left + w.left
    decreases |ws| - lo
  {
    if lo < |ws| {
      LeftUpdate(ws, lo + 1, i, w);
    }
  }

  lemma {:induction false} LeftZero(ws: seq<Worker>, lo: nat)
    requires lo <= |ws|
    ensures Left(ws, lo) == 0 <==> forall i :: lo <= i < |ws| ==> ws[i].left == 0
    decreases |ws| - lo
  {
    if lo < |ws| {
      LeftZero(ws, lo + 1);
    }
  }

  lemma {:induction false} LeftInit(n: nat, k: nat, lo: nat)
    requires lo <= n
    ensures Left(Init(n, k).workers, lo) == (n - lo) * k
    decreases n - lo
  {
    if lo < n {
      LeftInit(n, k, lo + 1);
      assert (n - lo) * k == (n - lo - 1) * k + k;
    }
  }

  // ---- The fixed program ----

  lemma {:induction false} AtomicCounts(n: nat, k: nat, total: nat, schedule: seq<nat>)
    requires total == n * k
    ensures var s := AtomicRun(Init(n, k), schedule);
            && |s.workers| == n
            && Left(s.workers, 0) <= total
            && s.counter == (total - Left(s.workers, 0)) % WORD
  {
    if schedule == [] {
      LeftInit(n, k, 0);
    } else {
      var before, i := schedule[..|schedule| - 1], schedule[|schedule| - 1];
      AtomicCounts(n, k, total, before);
      AtomicCountsStep(AtomicRun(Init(n, k), before), total, i);
    }
  }

  lemma {:induction false} AtomicCountsStep(s: State, total: nat, i: nat)
    requires Left(s.workers, 0) <= total && s.counter == (total - Left(s.workers, 0)) % WORD
    ensures var s' := AtomicStep(s, i);
            && |s'.workers| == |s.workers|
            && Left(s'.workers, 0) <= total
            && s'.counter == (total - Left(s'.workers, 0)) % WORD
  {
    if i < |s.workers| && s.workers[i].left > 0 {
      LeftUpdate(s.workers, 0, i, s.workers[i].(left := s.workers[i].left - 1));
      LeftZero(s.workers, 0);
    }
  }

  /** Every complete run of the atomic program counts every increment; the count is exact precisely
      when the expected value is a 64-bit value. */
  lemma {:induction false} AtomicIsExact(n: nat, k: nat, schedule: seq<nat>)
    requires Finished(AtomicRun(Init(n, k), schedule))
    ensures AtomicRun(Init(n, k), schedule).counter == (n * k) % WORD
    ensures AtomicRun(Init(n, k), schedule).counter == n * k <==> n * k < WORD
  {
    AtomicCounts(n, k, n * k, schedule);
    LeftZero(AtomicRun(Init(n, k), schedule).workers, 0);
  }

  lemma {:induction false} Unfinished(s: State) returns (i: nat)
    requires !Finished(s)
    ensures i < |s.workers| && s.workers[i].left > 0
  {
    i :| i < |s.workers| && s.workers[i].left != 0;
  }

  /** From any point some continuation completes the atomic program, with one step for each increment left
      and never with fewer. */
  lemma {:induction false} AtomicCompletes(s: State, before: seq<nat>) returns (after: seq<nat>)
    ensures Finished(AtomicRun(s, before + after))
    ensures |after| == Left(AtomicRun(s, before).workers, 0)
    decreases Left(AtomicRun(s, before).workers, 0)
  {
    var t := AtomicRun(s, before);
    LeftZero(t.workers, 0);
    if Finished(t) {
      after := [];
      assert before + after == before;
    } else {
      var i := Unfinished(t);
      assert (before + [i])[..|before|] == before;
      LeftUpdate(t.workers, 0, i, t.workers[i].(left := t.workers[i].left - 1));
      var rest := AtomicCompletes(s, before + [i]);
      after := [i] + rest;
      assert before + after == before + [i] + rest;
    }
  }

  // ---- The racy program: bounds ----

  predicate WorkerInv(w: Worker, k: nat, counter: nat, stored: int) {
    && w.left <= k
    && (w.reg.Loaded? ==> w.left > 0 && w.reg.value <= stored)
    && (w.left < k ==> counter >= 1 && (w.reg.Loaded? ==> w.reg.value >= 1))
  }

  /** No value in memory or in a register exceeds the increments stored so far; what a worker sees
      after its own first store is at least 1; and as long as the counter is below 2 somebody still
      has an increment to store. */
  ghost predicate Inv(k: nat, total: nat, s: State) {
    var stored := total - Left(s.workers, 0);
    && s.counter <= stored
    && (forall i :: 0 <= i < |s.workers| ==> WorkerInv(s.workers[i], k, s.counter, stored))
    && (s.workers != [] && k >= 2 ==>
          s.counter >= 2 || exists i :: 0 <= i < |s.workers| && s.workers[i].left > 0)
  }

  lemma {:induction false} InvStep(k: nat, total: nat, s: State, i: nat)
    requires total < WORD && Inv(k, total, s)
    ensures |Step(s, i).workers| == |s.workers| && Inv(k, total, Step(s, i))
  {
    if i < |s.workers| && s.workers[i].left > 0 {
      var s' := Step(s, i);
      var stored := total - Left(s.workers, 0);
      LeftUpdate(s.workers, 0, i, s'.workers[i]);
      assert WorkerInv(s.workers[i], k, s.counter, stored);
      assert s.workers[i].reg.Empty? || s.workers[i].left == k >= 2 ==> s'.workers[i].left > 0;
      forall j | 0 <= j < |s.workers|
        ensures WorkerInv(s'.workers[j], k, s'.counter, total - Left(s'.workers, 0))
      {
        assert WorkerInv(s.workers[j], k, s.counter, stored);
      }
    }
  }

  lemma {:induction false} InvHolds(n: nat, k: nat, total: nat, schedule: seq<nat>)
    requires total == n * k < WORD
    ensures |Run(Init(n, k), schedule).workers| == n
    ensures Inv(k, total, Run(Init(n, k), schedule))
  {
    if schedule == [] {
      LeftInit(n, k, 0);
      if n >= 1 && k >= 2 {
        assert Init(n, k).workers[0].left > 0;
      }
    } else {
      InvHolds(n, k, total, schedule[..|schedule| - 1]);
      InvStep(k, total, Run(Init(n, k), schedule[..|schedule| - 1]), schedule[|schedule| - 1]);
    }
  }

  /** Every complete run of the racy program counts at least 2 and at most everything, so
      `expected - counted` never wraps and at most all but two increments are lost. */
  lemma {:induction false} CountedRange(n: nat, k: nat, schedule: seq<nat>)
    requires n >= 1 && k >= 2 && n * k < WORD
    requires Finished(Run(Init(n, k), schedule))
    ensures 2 <= Run(Init(n, k), schedule).counter <= n * k
  {
    InvHolds(n, k, n * k, schedule);
    LeftZero(Run(Init(n, k), schedule).workers, 0);
  }

  // ---- The racy program: every count in the range happens ----

  lemma {:induction false} RunAppend(s: State, a: seq<nat>, b: seq<nat>)
    ensures Run(s, a + b) == Run(Run(s, a), b)
    decreases |b|
  {
    if b == [] {
      assert a + b == a;
    } else {
      assert (a + b)[..|a + b| - 1] == a + b[..|b| - 1];
      RunAppend(s, a, b[..|b| - 1]);
    }
  }

  lemma {:induction false} RunOne(s: State, i: nat)
    ensures Run(s, [i]) == Step(s, i)
  {
    assert [i][..0] == [];
  }

  /** Worker i alone performs m increments. */
  lemma {:induction false} Solo(s: State, i: nat, m: nat) returns (schedule: seq<nat>)
    requires i < |s.workers| && s.workers[i].reg.Empty? && m <= s.workers[i].left
    requires s.counter + m < WORD
    ensures Run(s, schedule) ==
            State(s.counter + m, s.workers[i := Worker(s.workers[i].left - m, Empty)])
  {
    if m == 0 {
      schedule := [];
    } else {
      var before := Solo(s, i, m - 1);
      var loaded := Step(Run(s, before), i);
      schedule := before + [i, i];
      RunAppend(s, before, [i, i]);
      RunOne(Run(s, before), i);
      RunOne(loaded, i);
      RunAppend(Run(s, before), [i], [i]);
      assert [i] + [i] == [i, i];
    }
  }

  predicate Idle(ws: seq<Worker>, lo: nat) {
    forall i :: lo <= i < |ws| ==> ws[i].reg.Empty?
  }

  /** Workers lo, lo + 1, ... perform m increments between them, one after the other. */
  lemma {:induction false} Drain(s: State, lo: nat, m: nat) returns (schedule: seq<nat>)
    requires lo <= |s.workers| && Idle(s.workers, lo) && m <= Left(s.workers, lo)
    requires s.counter + m < WORD
    ensures var t := Run(s, schedule);
            && t.counter == s.counter + m
            && |t.workers| == |s.workers| && t.workers[..lo] == s.workers[..lo]
            && Idle(t.workers, lo)
            && Left(t.workers, lo) == Left(s.workers, lo) - m
    decreases |s.workers| - lo
  {
    if lo == |s.workers| {
      schedule := [];
    } else {
      var own := if m <= s.workers[lo].left then m else s.workers[lo].left;
      var first := Solo(s, lo, own);
      var t := Run(s, first);
      LeftUpdate(s.workers, lo + 1, lo, t.workers[lo]);
      var rest := Drain(t, lo + 1, m - own);
      schedule := first + rest;
      RunAppend(s, first, rest);
      var u := Run(t, rest);
      assert u.workers[lo] == u.workers[..lo + 1][lo] == t.workers[lo];
      assert u.workers[..lo] == u.workers[..lo + 1][..lo] == t.workers[..lo + 1][..lo];
    }
  }

  /** Worker 0 loads 0 and holds on to it while the others store `lost` increments. */
  lemma {:induction false} Overwrite(n: nat, k: nat, lost: nat) returns (schedule: seq<nat>)
    requires n >= 1 && k >= 1 && n * k < WORD && lost <= (n - 1) * k
    ensures var s := Run(Init(n, k), schedule);
            && s.counter == 1 && |s.workers| == n
            && s.workers[0] == Worker(k - 1, Empty) && Idle(s.workers, 1)
            && Left(s.workers, 1) == (n - 1) * k - lost
  {
    var s0 := Init(n, k);
    var s1 := Step(s0, 0);
    RunOne(s0, 0);
    LeftInit(n, k, 1);
    LeftUpdate(s0.workers, 1, 0, s1.workers[0]);
    assert (n - 1) * k <= n * k;
    var drain := Drain(s1, 1, lost);
    var s2 := Run(s1, drain);
    assert s2.workers[0] == s2.workers[..1][0] == s1.workers[0];
    var s3 := Step(s2, 0);
    LeftUpdate(s2.workers, 1, 0, s3.workers[0]);
    schedule := [0] + drain + [0];
    RunAppend(s0, [0] + drain, [0]);
    RunAppend(s0, [0], drain);
    RunOne(s2, 0);
  }

  /** Losing up to everything the others do: every count from k to n * k. */
  lemma {:induction false} ReachHigh(n: nat, k: nat, v: nat) returns (schedule: seq<nat>)
    requires n >= 1 && k >= 1 && n * k < WORD && k <= v <= n * k
    ensures Finished(Run(Init(n, k), schedule)) && Run(Init(n, k), schedule).counter == v
  {
    assert n * k == (n - 1) * k + k;
    var a := Overwrite(n, k, n * k - v);
    var s := Run(Init(n, k), a);
    assert Left(s.workers, 0) == v - 1;
    var b := Drain(s, 0, v - 1);
    schedule := a + b;
    RunAppend(Init(n, k), a, b);
    LeftZero(Run(s, b).workers, 0);
  }

  lemma {:induction false} FindLast(ws: seq<Worker>, lo: nat) returns (w: nat)
    requires lo <= |ws| && Left(ws, lo) == 1
    ensures lo <= w < |ws| && ws[w].left == 1
    ensures forall j :: lo <= j < |ws| && j != w ==> ws[j].left == 0
    decreases |ws| - lo
  {
    if ws[lo].left == 1 {
      w := lo;
      LeftZero(ws, lo + 1);
    } else {
      w := FindLast(ws, lo + 1);
    }
  }

  /** One more stale value: the last of the others loads 1 + j, worker 0 finishes, and the last
      store writes 2 + j. Every count from 2 to k + 1. */
  lemma {:induction false} ReachLow(n: nat, k: nat, j: nat) returns (schedule: seq<nat>)
    requires n >= 2 && k >= 2 && n * k < WORD && j < k
    ensures Finished(Run(Init(n, k), schedule)) && Run(Init(n, k), schedule).counter == 2 + j
  {
    assert n * k == (n - 1) * k + k && (n - 1) * k >= k;
    var a := Overwrite(n, k, (n - 1) * k - 1);
    var s1 := Run(Init(n, k), a);
    var w := FindLast(s1.workers, 1);
    var b := Solo(s1, 0, j);
    var s2 := Run(s1, b);
    var s3 := Step(s2, w);
    var c := Solo(s3, 0, k - 1 - j);
    var s4 := Run(s3, c);
    schedule := a + b + [w] + c + [w];
    RunAppend(Init(n, k), a + b + [w] + c, [w]);
    RunAppend(Init(n, k), a + b + [w], c);
    RunAppend(Init(n, k), a + b, [w]);
    RunAppend(Init(n, k), a, b);
    RunOne(s2, w);
    RunOne(s4, w);
  }

  /** The racy program with at least two workers and two increments each can end with v exactly
      when 2 <= v <= n * k. */
  lemma {:induction false} ReachableCounts(n: nat, k: nat, v: nat)
    requires n >= 2 && k >= 2 && n * k < WORD
    ensures (exists schedule :: Finished(Run(Init(n, k), schedule)) && Run(Init(n, k), schedule).counter == v)
            <==> 2 <= v <= n * k
  {
    if 2 <= v < k {
      var schedule := ReachLow(n, k, v - 2);
      assert Finished(Run(Init(n, k), schedule));
    } else if k <= v <= n * k {
      var schedule := ReachHigh(n, k, v);
      assert Finished(Run(Init(n, k), schedule));
    }
    forall schedule | Finished(Run(Init(n, k), schedule))
      ensures 2 <= Run(Init(n, k), schedule).counter <= n * k
    {
      CountedRange(n, k, schedule);
    }
  }

  // ---- The programs ----

  /** The shared counter and, per worker thread, its loop position and register. */
  class Metrics {
    var requestsHandled: nat
    const workers: array<Worker>

    ghost function Now(): State
      reads this, workers
    {
      State(requestsHandled, workers[..])
    }

    constructor (n: nat, k: nat)
      ensures Now() == Init(n, k) && fresh(workers)
    {
      requestsHandled := 0;
      workers := new Worker[n](_ => Worker(k, Empty));
    }

    /** The next half of worker i's `++requests_handled`: the load, or the store. */
    method Increment(i: nat)
      modifies this`requestsHandled, workers
      ensures Now() == Step(old(Now()), i)
    {
      if i < workers.Length && workers[i].left > 0 {
        match workers[i].reg {
          case Empty =>
            workers[i] := Worker(workers[i].left, Loaded(requestsHandled));
          case Loaded(v) =>
            requestsHandled := (v + 1) % WORD;
            workers[i] := Worker(workers[i].left - 1, Empty);
        }
      }
    }

    method FetchAdd(i: nat)
      modifies this`requestsHandled, workers
      ensures Now() == AtomicStep(old(Now()), i)
    {
      if i < workers.Length && workers[i].left > 0 {
        requestsHandled := (requestsHandled + 1) % WORD;
        workers[i] := workers[i].(left := workers[i].left - 1);
      }
    }
  }

  /** The racy `main` under a schedule that lets every worker finish: what it prints as lost. */
  method CountRacy(n: nat, k: nat, schedule: seq<nat>) returns (counted: nat, lost: nat)
    requires n >= 1 && k >= 2 && n * k < WORD
    requires Finished(Run(Init(n, k), schedule))
    ensures counted == Run(Init(n, k), schedule).counter
    ensures counted + lost == n * k && lost <= n * k - 2
  {
    var metrics := new Metrics(n, k);
    for t := 0 to |schedule|
      invariant metrics.Now() == Run(Init(n, k), schedule[..t])
      invariant fresh(metrics) && fresh(metrics.workers)
    {
      assert schedule[..t + 1][..t] == schedule[..t];
      metrics.Increment(schedule[t]);
    }
    assert schedule[..|schedule|] == schedule;
    CountedRange(n, k, schedule);
    counted := metrics.requestsHandled;
    lost := (n * k - counted) % WORD;
  }

  /** The atomic `main`. Its expected value is itself computed in 64 bits, so it always reports an
      exact count; the count is the true product when that fits. */
  method CountAtomic(n: nat, k: nat, schedule: seq<nat>) returns (counted: nat, exact: bool)
    requires Finished(AtomicRun(Init(n, k), schedule))
    ensures exact && counted == (n * k) % WORD
    ensures counted == n * k <==> n * k < WORD
  {
    var metrics := new Metrics(n, k);
    for t := 0 to |schedule|
      invariant metrics.Now() == AtomicRun(Init(n, k), schedule[..t])
      invariant fresh(metrics) && fresh(metrics.workers)
    {
      assert schedule[..t + 1][..t] == schedule[..t];
      metrics.FetchAdd(schedule[t]);
    }
    assert schedule[..|schedule|] == schedule;
    AtomicIsExact(n, k, schedule);
    counted := metrics.requestsHandled;
    exact := counted == (n * k) % WORD;
  }
}
