/**
 Case 02, the alternative fix: every lock has a rank (here its number), and a thread only ever acquires
 a lock ranked above all it holds. Any number of threads, each with a program of any length that
 acquires and releases as it likes within that rule.
*/
module LockHierarchy {

  datatype Op = Acquire(lock: nat) | Release(lock: nat)

  /** What a thread has left to do, and the locks it holds. */
  datatype Thread = Thread(rest: seq<Op>, held: set<nat>)

  type State = seq<Thread>

  /** The rule, checked along a program: acquire above everything held, release what is held, and end
      holding nothing. */
  predicate Disciplined(rest: seq<Op>, held: set<nat>) {
    if rest == [] then held == {}
    else
      match rest[0]
      case Acquire(l) => (forall h :: h in held ==> h < l) && Disciplined(rest[1..], held + {l})
      case Release(l) => l in held && Disciplined(rest[1..], held - {l})
  }

  /** Mutual exclusion, and every thread on its way through a disciplined program. */
  ghost predicate Inv(s: State) {
    && (forall i :: 0 <= i < |s| ==> Disciplined(s[i].rest, s[i].held))
    && (forall i, j :: 0 <= i < j < |s| ==> s[i].held !! s[j].held)
  }

  ghost predicate Initial(s: State) {
    forall i :: 0 <= i < |s| ==> s[i].held == {} && Disciplined(s[i].rest, {})
  }

  predicate Finished(s: State) {
    forall i :: 0 <= i < |s| ==> s[i].rest == []
  }

  /** Thread i is about to acquire a lock that thread j holds. */
  predicate Waits(s: State, i: nat, j: nat) {
    && i < |s| && j < |s|
    && s[i].rest != [] && s[i].rest[0].Acquire?
    && s[i].rest[0].lock in s[j].held
  }

  predicate Enabled(s: State, i: nat) {
    i < |s| && s[i].rest != [] && forall j :: 0 <= j < |s| ==> !Waits(s, i, j)
  }

  function Step(s: State, i: nat): (s': State)
    requires Enabled(s, i)
    ensures |s'| == |s|
  {
    var t := s[i];
    match t.rest[0]
    case Acquire(l) => s[i := Thread(t.rest[1..], t.held + {l})]
    case Release(l) => s[i := Thread(t.rest[1..], t.held - {l})]
  }

  /** The schedule names an enabled thread at every step. */
  ghost predicate Feasible(s: State, schedule: seq<nat>)
    decreases |schedule|
  {
    schedule == [] || (Enabled(s, schedule[0]) && Feasible(Step(s, schedule[0]), schedule[1..]))
  }

  ghost function Run(s: State, schedule: seq<nat>): (t: State)
    requires Feasible(s, schedule)
    ensures |t| == |s|
    decreases |schedule|
  {
    if schedule == [] then s else Run(Step(s, schedule[0]), schedule[1..])
  }

  lemma {:induction false} InvStep(s: State, i: nat)
    requires Inv(s) && Enabled(s, i)
    ensures Inv(Step(s, i))
  {
    var s' := Step(s, i);
    forall j, k | 0 <= j < k < |s'| ensures s'[j].held !! s'[k].held {
      assert s[j].held !! s[k].held;
      assert !Waits(s, i, j) && !Waits(s, i, k);
    }
  }

  lemma {:induction false} InvRun(s: State, schedule: seq<nat>)
    requires Inv(s) && Feasible(s, schedule)
    ensures Inv(Run(s, schedule))
    decreases |schedule|
  {
    if schedule != [] {
      InvStep(s, schedule[0]);
      InvRun(Step(s, schedule[0]), schedule[1..]);
    }
  }

  // ---- No cycle ----

  ghost predicate Path(s: State, path: seq<nat>) {
    forall k :: 0 <= k < |path| - 1 ==> Waits(s, path[k], path[k + 1])
  }

  /** The lock a waiting thread is about to acquire. */
  function Wanted(s: State, i: nat): nat {
    if i < |s| && s[i].rest != [] then s[i].rest[0].lock else 0
  }

  /** A waiting thread that is waited for wants a higher lock than its waiter. */
  lemma {:induction false} WantsClimb(s: State, i: nat, j: nat, k: nat)
    requires Inv(s) && Waits(s, i, j) && Waits(s, j, k)
    ensures Wanted(s, i) < Wanted(s, j)
  {
    assert Disciplined(s[j].rest, s[j].held);
  }

  lemma {:induction false} PathClimbs(s: State, path: seq<nat>, next: nat)
    requires Inv(s) && Path(s, path) && |path| >= 2
    requires Waits(s, path[|path| - 1], next)
    ensures Wanted(s, path[0]) < Wanted(s, path[|path| - 1])
  {
    assert Waits(s, path[0], path[0 + 1]);
    if |path| == 2 {
      WantsClimb(s, path[0], path[1], next);
    } else {
      var tail := path[1..];
      forall k | 0 <= k < |tail| - 1 ensures Waits(s, tail[k], tail[k + 1]) {
        assert Waits(s, path[k + 1], path[k + 1 + 1]);
      }
      PathClimbs(s, tail, next);
      assert Waits(s, tail[0], tail[0 + 1]);
      WantsClimb(s, path[0], path[1], path[2]);
    }
  }

  /** In every reachable state the wait-for graph is acyclic: no path of waits, however long, comes back
      to where it started. */
  lemma {:induction false} NeverACycle(s: State, schedule: seq<nat>, path: seq<nat>)
    requires Initial(s) && Feasible(s, schedule)
    requires |path| >= 2 && Path(Run(s, schedule), path)
    ensures path[0] != path[|path| - 1]
  {
    var t := Run(s, schedule);
    InvRun(s, schedule);
    assert Waits(t, path[0], path[0 + 1]);
    if path[0] == path[|path| - 1] {
      PathClimbs(t, path, path[1]);
    }
  }

  // ---- Progress ----

  /** The locks a program still acquires are below the bound. */
  predicate OpsBelow(rest: seq<Op>, bound: nat) {
    forall k :: 0 <= k < |rest| ==> rest[k].lock < bound
  }

  lemma {:induction false} OpsBounded(rest: seq<Op>) returns (bound: nat)
    ensures OpsBelow(rest, bound)
  {
    if rest == [] {
      bound := 0;
    } else {
      var b := OpsBounded(rest[1..]);
      bound := if rest[0].lock < b then b else rest[0].lock + 1;
      forall k | 0 <= k < |rest| ensures rest[k].lock < bound {
        assert k > 0 ==> rest[k] == rest[1..][k - 1];
      }
    }
  }

  lemma {:induction false} Bounded(s: State) returns (bound: nat)
    ensures forall i :: 0 <= i < |s| ==> OpsBelow(s[i].rest, bound)
  {
    if s == [] {
      bound := 0;
    } else {
      var b := Bounded(s[1..]);
      var c := OpsBounded(s[0].rest);
      bound := if b < c then c else b;
      forall i | 0 <= i < |s| ensures OpsBelow(s[i].rest, bound) {
        assert i > 0 ==> s[i] == s[1..][i - 1];
      }
    }
  }

  /** From an unfinished thread, following who waits for whom leads to one that can step. */
  lemma {:induction false} Leads(s: State, i: nat, bound: nat) returns (j: nat)
    requires Inv(s) && i < |s| && s[i].rest != []
    requires forall k :: 0 <= k < |s| ==> OpsBelow(s[k].rest, bound)
    ensures Enabled(s, j)
    decreases if s[i].rest[0].Acquire? then bound - s[i].rest[0].lock else 0
  {
    if Enabled(s, i) {
      j := i;
    } else {
      var k :| 0 <= k < |s| && Waits(s, i, k);
      assert Disciplined(s[k].rest, s[k].held);
      assert OpsBelow(s[i].rest, bound) && OpsBelow(s[k].rest, bound);
      j := Leads(s, k, bound);
    }
  }

  /** Every reachable state is either finished or has a thread that can step. */
  lemma {:induction false} AlwaysProgress(s: State, schedule: seq<nat>)
    requires Initial(s) && Feasible(s, schedule)
    ensures !Finished(Run(s, schedule)) <==> exists j :: Enabled(Run(s, schedule), j)
  {
    var t := Run(s, schedule);
    InvRun(s, schedule);
    if !Finished(t) {
      var i :| 0 <= i < |t| && t[i].rest != [];
      var bound := Bounded(t);
      var j := Leads(t, i, bound);
    }
  }

  // ---- Every run ends ----

  function Work(s: State): nat {
    if s == [] then 0 else |s[0].rest| + Work(s[1..])
  }

  lemma {:induction false} WorkUpdate(s: State, i: nat, t: Thread)
    requires i < |s|
    ensures Work(s[i := t]) == Work(s) - |s[i].rest| + |t.rest|
  {
    if i == 0 {
      assert s[i := t][1..] == s[1..];
    } else {
      assert s[i := t][1..] == s[1..][i - 1 := t];
      WorkUpdate(s[1..], i - 1, t);
    }
  }

  lemma {:induction false} NoWorkLeft(s: State)
    ensures Work(s) == 0 <==> Finished(s)
  {
    if s != [] {
      NoWorkLeft(s[1..]);
      assert Finished(s) <==> s[0].rest == [] && Finished(s[1..]) by {
        assert forall i :: 1 <= i < |s| ==> s[i] == s[1..][i - 1];
        assert forall i :: 0 <= i < |s[1..]| ==> s[1..][i] == s[i + 1];
      }
    }
  }

  lemma {:induction false} RunSpendsWork(s: State, schedule: seq<nat>)
    requires Feasible(s, schedule)
    ensures |schedule| + Work(Run(s, schedule)) == Work(s)
    decreases |schedule|
  {
    if schedule != [] {
      var i := schedule[0];
      WorkUpdate(s, i, Step(s, i)[i]);
      assert Step(s, i) == s[i := Step(s, i)[i]];
      RunSpendsWork(Step(s, i), schedule[1..]);
    }
  }

  /** Every run ends, whatever the scheduler does: it is never longer than the programs together, it is
      that long exactly when all threads have finished, and then every lock is free. */
  lemma {:induction false} EveryRunEnds(s: State, schedule: seq<nat>)
    requires Initial(s) && Feasible(s, schedule)
    ensures |schedule| <= Work(s)
    ensures |schedule| == Work(s) <==> Finished(Run(s, schedule))
    ensures |schedule| == Work(s) ==> forall i :: 0 <= i < |s| ==> Run(s, schedule)[i].held == {}
  {
    RunSpendsWork(s, schedule);
    NoWorkLeft(Run(s, schedule));
    InvRun(s, schedule);
  }

  // ---- The transfers ----

  /** The body of transfer: two locks in the order given, released in the reverse order. */
  function TakeBoth(first: nat, second: nat): seq<Op> {
    [Acquire(first), Acquire(second), Release(second), Release(first)]
  }

  /** Locking the arguments as they come keeps the rule just when they happen to come in rank order. */
  lemma {:induction false} DisciplinedIffInOrder(first: nat, second: nat)
    ensures Disciplined(TakeBoth(first, second), {}) <==> first < second
  {
    var ops := TakeBoth(first, second);
    assert ops[1..] == [Acquire(second), Release(second), Release(first)];
    assert ops[1..][1..] == [Release(second), Release(first)];
    assert ops[1..][1..][1..] == [Release(first)];
    assert ops[1..][1..][1..][1..] == [];
    var one: set<nat> := {} + {first};
    if first < second {
      assert one + {second} - {second} == one && one - {first} == {};
      assert Disciplined([], {}) && Disciplined([Release(first)], one);
      assert Disciplined([Release(second), Release(first)], one + {second});
      assert Disciplined(ops[1..], one);
    } else {
      assert first in one;
    }
  }

  /** Comparing the two accounts first always keeps it, so any transfers so ordered all complete. */
  lemma {:induction false} OrderedTransfersComplete(pairs: seq<(nat, nat)>, schedule: seq<nat>)
    requires forall i :: 0 <= i < |pairs| ==> pairs[i].0 != pairs[i].1
    requires Feasible(Ordered(pairs), schedule)
    ensures |schedule| <= 4 * |pairs|
    ensures |schedule| < 4 * |pairs| <==> exists j :: Enabled(Run(Ordered(pairs), schedule), j)
  {
    var s := Ordered(pairs);
    forall i | 0 <= i < |s| ensures s[i].held == {} && Disciplined(s[i].rest, {}) {
      var (from, to) := pairs[i];
      DisciplinedIffInOrder(if from < to then from else to, if from < to then to else from);
    }
    OrderedWork(pairs);
    EveryRunEnds(s, schedule);
    AlwaysProgress(s, schedule);
  }

  function Ordered(pairs: seq<(nat, nat)>): (s: State) {
    seq(|pairs|, i requires 0 <= i < |pairs| =>
      var (from, to) := pairs[i];
      Thread(if from < to then TakeBoth(from, to) else TakeBoth(to, from), {}))
  }

  /** The locks a program acquires. */
  function Acquired(rest: seq<Op>): set<nat> {
    if rest == [] then {}
    else if rest[0].Acquire? then {rest[0].lock} + Acquired(rest[1..]) else Acquired(rest[1..])
  }

  lemma {:induction false} TakesBoth(first: nat, second: nat)
    ensures Acquired(TakeBoth(first, second)) == {first, second}
  {
    var ops := TakeBoth(first, second);
    assert ops[1..] == [Acquire(second), Release(second), Release(first)];
    assert ops[1..][1..] == [Release(second), Release(first)];
    assert ops[1..][1..][1..] == [Release(first)];
    assert ops[1..][1..][1..][1..] == [];
    assert Acquired([]) == {} && Acquired([Release(first)]) == {};
    assert Acquired([Release(second), Release(first)]) == {};
  }

  lemma {:induction false} OrderedWork(pairs: seq<(nat, nat)>)
    ensures Work(Ordered(pairs)) == 4 * |pairs|
  {
    if pairs != [] {
      assert Ordered(pairs)[1..] == Ordered(pairs[1..]);
      OrderedWork(pairs[1..]);
    }
  }

  /** Without it, two opposite transfers can each take one lock, and then each waits for the other. */
  lemma OppositeTransfersDeadlock()
    ensures var s := [Thread(TakeBoth(0, 1), {}), Thread(TakeBoth(1, 0), {})];
            && Feasible(s, [0, 1])
            && !Finished(Run(s, [0, 1]))
            && Path(Run(s, [0, 1]), [0, 1, 0])
            && !exists j :: Enabled(Run(s, [0, 1]), j)
  {
    var s := [Thread(TakeBoth(0, 1), {}), Thread(TakeBoth(1, 0), {})];
    assert Enabled(s, 0);
    var t := Step(s, 0);
    assert Enabled(t, 1);
    var u := Step(t, 1);
    assert [0, 1][1..] == [1] && [1][1..] == [];
    assert Feasible(u, []) && Feasible(t, [1]) && Run(t, [1]) == u && Run(s, [0, 1]) == u;
    assert Waits(u, 0, 1) && Waits(u, 1, 0);
  }

  // ---- Argument order ----

  predicate Distinct(pairs: seq<(nat, nat)>) {
    forall i :: 0 <= i < |pairs| ==> pairs[i].0 != pairs[i].1
  }

  /** Transfers that take their locks as the arguments come; those in `taken` have their first lock. */
  function InOrder(pairs: seq<(nat, nat)>, taken: set<nat>): (s: State) {
    seq(|pairs|, i requires 0 <= i < |pairs| =>
      var (from, to) := pairs[i];
      if i in taken then Thread([Acquire(to), Release(to), Release(from)], {from}) else Thread(TakeBoth(from, to), {}))
  }

  /** Transfers each of which begins where the one before ends, round to the first. */
  predicate Cycle(pairs: seq<(nat, nat)>, c: seq<nat>) {
    && c != [] && (forall k :: 0 <= k < |c| ==> c[k] < |pairs|)
    && (forall k :: 0 <= k < |c| - 1 ==> Joined(pairs, c[k], c[k + 1]))
    && Joined(pairs, c[|c| - 1], c[0])
  }

  predicate Joined(pairs: seq<(nat, nat)>, i: nat, j: nat) {
    i < |pairs| && j < |pairs| && pairs[i].1 == pairs[j].0
  }

  predicate Simple(pairs: seq<(nat, nat)>, c: seq<nat>)
    requires forall k :: 0 <= k < |c| ==> c[k] < |pairs|
  {
    forall j, k :: 0 <= j < k < |c| ==> pairs[c[j]].0 != pairs[c[k]].0
  }

  lemma {:induction false} Shorten(pairs: seq<(nat, nat)>, c: seq<nat>) returns (d: seq<nat>)
    requires Cycle(pairs, c)
    ensures Cycle(pairs, d) && Simple(pairs, d)
    decreases |c|
  {
    if Simple(pairs, c) {
      d := c;
    } else {
      var j, k :| 0 <= j < k < |c| && pairs[c[j]].0 == pairs[c[k]].0;
      var e := c[j..k];
      assert Joined(pairs, c[k - 1], c[k - 1 + 1]);
      forall m | 0 <= m < |e| - 1 ensures Joined(pairs, e[m], e[m + 1]) {
        assert Joined(pairs, c[j + m], c[j + m + 1]);
      }
      d := Shorten(pairs, e);
    }
  }

  function Members(c: seq<nat>): set<nat> {
    if c == [] then {} else {c[0]} + Members(c[1..])
  }

  lemma {:induction false} IsMember(c: seq<nat>, k: nat)
    requires k < |c|
    ensures c[k] in Members(c)
  {
    if k > 0 {
      IsMember(c[1..], k - 1);
    }
  }

  /** Each transfer of a simple cycle can take its first lock. */
  lemma {:induction false} TakeFirsts(pairs: seq<(nat, nat)>, c: seq<nat>, taken: set<nat>)
    requires (forall k :: 0 <= k < |c| ==> c[k] < |pairs|) && Simple(pairs, c)
    requires forall i, k :: i in taken && i < |pairs| && 0 <= k < |c| ==> pairs[i].0 != pairs[c[k]].0
    ensures Feasible(InOrder(pairs, taken), c)
    ensures Run(InOrder(pairs, taken), c) == InOrder(pairs, taken + Members(c))
    decreases |c|
  {
    if c == [] {
      assert taken + Members(c) == taken;
    } else {
      TakeFirst(pairs, c[0], taken);
      TakeFirsts(pairs, c[1..], taken + {c[0]});
      assert taken + {c[0]} + Members(c[1..]) == taken + Members(c);
    }
  }

  lemma {:induction false} TakeFirst(pairs: seq<(nat, nat)>, i: nat, taken: set<nat>)
    requires i < |pairs|
    requires forall j :: j in taken && j < |pairs| ==> pairs[j].0 != pairs[i].0
    ensures Enabled(InOrder(pairs, taken), i)
    ensures Step(InOrder(pairs, taken), i) == InOrder(pairs, taken + {i})
  {
    var (from, to) := pairs[i];
    assert TakeBoth(from, to)[1..] == [Acquire(to), Release(to), Release(from)];
    assert {} + {from} == {from};
  }

  lemma {:induction false} CycleDeadlocks(pairs: seq<(nat, nat)>, c: seq<nat>) returns (d: seq<nat>)
    requires Cycle(pairs, c)
    ensures Feasible(InOrder(pairs, {}), d) && d != []
    ensures Path(Run(InOrder(pairs, {}), d), d + [d[0]])
  {
    d := Shorten(pairs, c);
    TakeFirsts(pairs, d, {});
    var t, path := Run(InOrder(pairs, {}), d), d + [d[0]];
    forall k | 0 <= k < |path| - 1 ensures Waits(t, path[k], path[k + 1]) {
      assert path[k] == d[k] && path[k + 1] == if k < |d| - 1 then d[k + 1] else d[0];
      IsMember(d, k);
      IsMember(d, if k < |d| - 1 then k + 1 else 0);
      assert k < |d| - 1 ==> Joined(pairs, d[k], d[k + 1]);
    }
  }

  /** Where the program of one transfer can be. */
  predicate Within(t: Thread, pair: (nat, nat)) {
    var (from, to) := pair;
    || t == Thread(TakeBoth(from, to), {})
    || t == Thread([Acquire(to), Release(to), Release(from)], {from})
    || t == Thread([Release(to), Release(from)], {from, to})
    || t == Thread([Release(from)], {from})
    || t == Thread([], {})
  }

  predicate AllWithin(s: State, pairs: seq<(nat, nat)>) {
    |s| == |pairs| && forall i :: 0 <= i < |s| ==> Within(s[i], pairs[i])
  }

  lemma {:induction false} WithinStep(t: Thread, pair: (nat, nat))
    requires Within(t, pair) && pair.0 != pair.1 && t.rest != []
    ensures var held := if t.rest[0].Acquire? then t.held + {t.rest[0].lock} else t.held - {t.rest[0].lock};
            Within(Thread(t.rest[1..], held), pair)
  {
    var (from, to) := pair;
    assert TakeBoth(from, to)[1..] == [Acquire(to), Release(to), Release(from)];
    assert [Acquire(to), Release(to), Release(from)][1..] == [Release(to), Release(from)];
    assert [Release(to), Release(from)][1..] == [Release(from)];
    assert [Release(from)][1..] == [];
    assert {} + {from} == {from} && {from} + {to} == {from, to};
    assert {from, to} - {to} == {from} && {from} - {from} == {};
  }

  lemma {:induction false} StaysWithin(s: State, pairs: seq<(nat, nat)>, schedule: seq<nat>)
    requires AllWithin(s, pairs) && Distinct(pairs) && Feasible(s, schedule)
    ensures AllWithin(Run(s, schedule), pairs)
    decreases |schedule|
  {
    if schedule != [] {
      var i := schedule[0];
      WithinStep(s[i], pairs[i]);
      StaysWithin(Step(s, i), pairs, schedule[1..]);
    }
  }

  // ---- The locks of a transfer ----

  /** Not yet past its second acquisition. */
  predicate Early(t: Thread, pair: (nat, nat)) {
    var (from, to) := pair;
    t == Thread(TakeBoth(from, to), {}) || t == Thread([Acquire(to), Release(to), Release(from)], {from})
  }

  /** At some point of the run thread i holds exactly these locks. */
  ghost predicate Held(s: State, schedule: seq<nat>, i: nat, locks: set<nat>)
    requires i < |s|
  {
    exists k :: 0 <= k <= |schedule| && Feasible(s, schedule[..k]) && Run(s, schedule[..k])[i].held == locks
  }

  lemma {:induction false} HeldLater(s: State, schedule: seq<nat>, i: nat, locks: set<nat>)
    requires i < |s| && schedule != [] && Enabled(s, schedule[0])
    requires Held(Step(s, schedule[0]), schedule[1..], i, locks)
    ensures Held(s, schedule, i, locks)
  {
    var t, rest := Step(s, schedule[0]), schedule[1..];
    var k :| 0 <= k <= |rest| && Feasible(t, rest[..k]) && Run(t, rest[..k])[i].held == locks;
    assert schedule[..k + 1][1..] == rest[..k];
    assert Run(s, schedule[..k + 1]) == Run(t, rest[..k]);
  }

  /** A thread that gets through has held both of its locks at once on the way. */
  lemma {:induction false} ThroughMeansBoth(s: State, pairs: seq<(nat, nat)>, schedule: seq<nat>, i: nat)
    requires AllWithin(s, pairs) && Distinct(pairs) && Feasible(s, schedule)
    requires i < |s| && Early(s[i], pairs[i]) && Run(s, schedule)[i].rest == []
    ensures Held(s, schedule, i, {pairs[i].0, pairs[i].1})
    decreases |schedule|
  {
    var j := schedule[0];
    var t := Step(s, j);
    WithinStep(s[j], pairs[j]);
    WithinStep(s[i], pairs[i]);
    if Early(t[i], pairs[i]) {
      ThroughMeansBoth(t, pairs, schedule[1..], i);
    } else {
      assert t[i].held == {pairs[i].0, pairs[i].1};
      assert schedule[1..][..0] == [];
      assert Run(t, schedule[1..][..0]) == t;
    }
    HeldLater(s, schedule, i, {pairs[i].0, pairs[i].1});
  }

  /** The two accounts of each transfer, lower rank first. */
  function Ranked(pairs: seq<(nat, nat)>): (r: seq<(nat, nat)>)
    ensures |r| == |pairs|
    ensures forall i :: 0 <= i < |r| ==> r[i].0 <= r[i].1 && {r[i].0, r[i].1} == {pairs[i].0, pairs[i].1}
  {
    seq(|pairs|, i requires 0 <= i < |pairs| =>
      var (from, to) := pairs[i];
      if from < to then (from, to) else (to, from))
  }

  /** What a transfer locks, in either version: its own two accounts and no other, both at once before it is
      through, and the second only while it has the first. */
  lemma {:induction false} TransfersLockTheirOwn(pairs: seq<(nat, nat)>, ordered: bool, schedule: seq<nat>, i: nat)
    requires Distinct(pairs) && i < |pairs|
    requires Feasible(if ordered then Ordered(pairs) else InOrder(pairs, {}), schedule)
    ensures var s := if ordered then Ordered(pairs) else InOrder(pairs, {});
            var (from, to) := pairs[i];
            && |s| == |pairs|
            && Acquired(s[i].rest) == {from, to}
            && s[i].rest[0] == Acquire(if ordered && to < from then to else from)
            && Run(s, schedule)[i].held in {{}, {if ordered && to < from then to else from}, {from, to}}
            && (Run(s, schedule)[i].rest == [] ==>
                  Run(s, schedule)[i].held == {} && Held(s, schedule, i, {from, to}))
  {
    var s := if ordered then Ordered(pairs) else InOrder(pairs, {});
    var qs := if ordered then Ranked(pairs) else pairs;
    assert AllWithin(s, qs) && Early(s[i], qs[i]);
    TakesBoth(qs[i].0, qs[i].1);
    StaysWithin(s, qs, schedule);
    assert Within(Run(s, schedule)[i], qs[i]);
    if Run(s, schedule)[i].rest == [] {
      ThroughMeansBoth(s, qs, schedule, i);
    }
  }

  /** A transfer that others wait for and that waits itself holds its first lock and wants its second. */
  lemma {:induction false} WaitsJoin(s: State, pairs: seq<(nat, nat)>, i: nat, j: nat, k: nat)
    requires AllWithin(s, pairs) && Waits(s, i, j) && Waits(s, j, k) && s[i].held != {}
    ensures Joined(pairs, i, j)
  {
    assert Within(s[i], pairs[i]) && Within(s[j], pairs[j]);
  }

  lemma {:induction false} DeadlockIsCycle(s: State, pairs: seq<(nat, nat)>, path: seq<nat>)
    requires AllWithin(s, pairs) && |path| >= 2 && Path(s, path) && path[0] == path[|path| - 1]
    ensures Cycle(pairs, path[1..])
  {
    var c, n := path[1..], |path| - 1;
    forall k | 0 <= k < n ensures Joined(pairs, path[k], path[k + 1]) {
      var before, after := if k == 0 then n - 1 else k - 1, if k + 1 == n then 0 else k + 1;
      assert Waits(s, path[before], path[before + 1]) && Waits(s, path[k], path[k + 1]);
      assert Waits(s, path[after], path[after + 1]);
      assert path[before + 1] == path[k] && path[after] == path[k + 1];
      WaitsJoin(s, pairs, path[k], path[k + 1], path[after + 1]);
    }
    forall k | 0 <= k < |c| ensures c[k] < |pairs| {
      assert Joined(pairs, path[k], path[k + 1]);
    }
    forall k | 0 <= k < |c| - 1 ensures Joined(pairs, c[k], c[k + 1]) {
      assert Joined(pairs, path[k + 1], path[k + 1 + 1]);
    }
    assert Joined(pairs, path[0], path[0 + 1]);
  }

  ghost predicate CanDeadlock(pairs: seq<(nat, nat)>) {
    exists schedule, path :: Feasible(InOrder(pairs, {}), schedule) && Closed(Run(InOrder(pairs, {}), schedule), path)
  }

  ghost predicate Closed(s: State, path: seq<nat>) {
    |path| >= 2 && Path(s, path) && path[0] == path[|path| - 1]
  }

  /** Transfers that take their locks in argument order can deadlock exactly if their accounts, read as
      edges from source to destination, form a cycle. */
  lemma {:induction false} DeadlockIffCycle(pairs: seq<(nat, nat)>)
    requires Distinct(pairs)
    ensures CanDeadlock(pairs) <==> exists c :: Cycle(pairs, c)
  {
    var s := InOrder(pairs, {});
    if CanDeadlock(pairs) {
      var schedule, path :| Feasible(s, schedule) && Closed(Run(s, schedule), path);
      assert AllWithin(s, pairs);
      StaysWithin(s, pairs, schedule);
      DeadlockIsCycle(Run(s, schedule), pairs, path);
    }
    if c :| Cycle(pairs, c) {
      var d := CycleDeadlocks(pairs, c);
      assert Closed(Run(s, d), d + [d[0]]);
    }
  }
}
