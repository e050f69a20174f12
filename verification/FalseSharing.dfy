/**
 Case 05: the two counter layouts on coherent caches. Worker i runs on core i; the thread that
 resets and reads the counters runs on the core after the workers'.
*/
module FalseSharing {
  import opened Arith
  import opened Coherence

  /** Four 8-byte counters in a row, or one per 64-byte line; `base` in 8-byte words. */
  datatype Layout = Adjacent(base: nat) | Padded(base: nat) {
    function Place(i: nat): Addr {
      if Adjacent? then Addr(base + i) else Addr(base + LINE_WORDS * i)
    }

    /** Word k of padded counter i, the counter itself at 0. */
    function Padding(i: nat, k: nat): Addr { Addr(Place(i).w + k) }
  }

  lemma {:induction false} PaddedLines(layout: Layout, i: nat, j: nat)
    requires layout.Padded?
    ensures layout.Place(i).Line() == layout.Place(j).Line() <==> i == j
  {
    assert layout.Place(i).Line() == layout.base / LINE_WORDS + i;
    assert layout.Place(j).Line() == layout.base / LINE_WORDS + j;
  }

  /** What `alignas(64)` adds to the padding: a padded counter's 64 bytes are one line, so that nothing else can
      share it, exactly if the counters start on a line. */
  lemma {:induction false} WholeLineIff(layout: Layout, i: nat)
    requires layout.Padded?
    ensures (forall k :: 0 <= k < 8 ==> layout.Padding(i, k).Line() == layout.Place(i).Line())
            <==> layout.base % 8 == 0
  {
    var q, r := layout.base / 8, layout.base % 8;
    forall k | 0 <= k < 8 ensures layout.Padding(i, k).Line() == q + i + (if r + k < 8 then 0 else 1) {
      assert layout.Padding(i, k).w == 8 * (q + i) + (r + k);
    }
    assert layout.Padding(i, 0) == layout.Place(i);
    assert layout.Padding(i, 7).Line() == q + i + (if r == 0 then 0 else 1);
  }

  /** Wherever four adjacent counters start, two neighbours share a line. */
  lemma {:induction false} AdjacentShare(layout: Layout) returns (a: nat, b: nat)
    requires layout.Adjacent?
    ensures a < b < 4 && layout.Place(a).Line() == layout.Place(b).Line()
  {
    if layout.base % LINE_WORDS == LINE_WORDS - 1 {
      a, b := 1, 2;
    } else {
      a, b := 0, 1;
    }
  }

  /** Neighbours are 8 bytes apart, or 64. */
  lemma {:induction false} Strides(layout: Layout, i: nat)
    ensures layout.Place(0) == Addr(layout.base)
    ensures 8 * (layout.Place(i + 1).w - layout.Place(i).w) == if layout.Adjacent? then 8 else 64
  {
  }

  /** Which of the adjacent counters share a line, wherever they start: those between which no line
      begins. */
  lemma {:induction false} AdjacentPairs(layout: Layout, i: nat, j: nat)
    requires layout.Adjacent? && i < j < 4
    ensures layout.Place(i).Line() == layout.Place(j).Line()
            <==> !(layout.base % 8 + i < 8 <= layout.base % 8 + j)
  {
    var q, r := layout.base / 8, layout.base % 8;
    assert layout.base + i == 8 * q + (r + i) && layout.base + j == 8 * q + (r + j);
  }

  predicate OneLine(layout: Layout) {
    forall i, j :: 0 <= i < 4 && 0 <= j < 4 ==> layout.Place(i).Line() == layout.Place(j).Line()
  }

  /** All four adjacent counters share one line exactly when they start in its first five words. */
  lemma {:induction false} OneLineIff(layout: Layout)
    requires layout.Adjacent?
    ensures OneLine(layout) <==> layout.base % 8 <= 4
  {
    AdjacentPairs(layout, 0, 3);
    if layout.base % 8 <= 4 {
      forall i, j | 0 <= i < 4 && 0 <= j < 4 ensures layout.Place(i).Line() == layout.Place(j).Line() {
        if i < j { AdjacentPairs(layout, i, j); }
        if j < i { AdjacentPairs(layout, j, i); }
      }
    }
  }

  lemma {:induction false} PlacesDiffer(layout: Layout, i: nat, j: nat)
    requires i != j
    ensures layout.Place(i) != layout.Place(j)
    ensures layout.Place(i).Line() != layout.Place(j).Line() || layout.Place(i).Offset() != layout.Place(j).Offset()
  {
  }

  function Increment(layout: Layout, i: nat): Access { Access(i, layout.Place(i), FetchAdd(1)) }

  /** The accesses of a schedule: the worker at each step does one fetch_add on its own counter. */
  function Increments(layout: Layout, schedule: seq<nat>): (xs: seq<Access>)
    ensures |xs| == |schedule|
    ensures forall t :: 0 <= t < |xs| ==> xs[t] == Increment(layout, schedule[t])
  {
    if schedule == [] then []
    else Increments(layout, schedule[..|schedule| - 1]) + [Increment(layout, schedule[|schedule| - 1])]
  }

  predicate Workers(n: nat, schedule: seq<nat>) {
    forall t :: 0 <= t < |schedule| ==> schedule[t] < n
  }

  lemma {:induction false} Split(layout: Layout, schedule: seq<nat>)
    requires schedule != []
    ensures var last := |schedule| - 1;
            Increments(layout, schedule)[..last] == Increments(layout, schedule[..last])
  {
  }

  // ---- Misses are switches ----

  datatype Last = Nobody | By(worker: nat)

  /** Who last touched line l. */
  function LastOn(layout: Layout, schedule: seq<nat>, l: nat): Last {
    if schedule == [] then Nobody
    else
      var i := schedule[|schedule| - 1];
      if layout.Place(i).Line() == l then By(i) else LastOn(layout, schedule[..|schedule| - 1], l)
  }

  /** How often a worker finds that it was not the last on its line. */
  function Switches(layout: Layout, schedule: seq<nat>): nat {
    if schedule == [] then 0
    else
      var before, i := schedule[..|schedule| - 1], schedule[|schedule| - 1];
      Switches(layout, before) + (if LastOn(layout, before, layout.Place(i).Line()) == By(i) then 0 else 1)
  }

  /** No worker's core owns a line of the workers' counters, as after the reset. */
  ghost predicate Cold(layout: Layout, s: State, n: nat) {
    n <= |s.caches| &&
    forall c, i :: 0 <= c < n && 0 <= i < n ==> !Owns(s.caches[c], layout.Place(i).Line())
  }

  lemma {:induction false} OwnershipStep(s: State, x: Access, c: nat, l: nat)
    requires x.core < |s.caches| && c < |s.caches| && x.op.Writes() && Exclusive(s.caches)
    ensures Owns(Step(s, x).caches[c], l) <==>
            if l == x.addr.Line() then c == x.core else Owns(s.caches[c], l)
  {
    assert c != x.core ==> Apart(s.caches[x.core], s.caches[c], l);
  }

  lemma {:induction false} OwnerIsLast(layout: Layout, s: State, n: nat, schedule: seq<nat>, c: nat, k: nat)
    requires Cold(layout, s, n) && Workers(n, schedule) && Exclusive(s.caches) && c < n && k < n
    ensures Exclusive(Run(s, Increments(layout, schedule)).caches)
    ensures var l := layout.Place(k).Line();
            Owns(Run(s, Increments(layout, schedule)).caches[c], l) <==> LastOn(layout, schedule, l) == By(c)
  {
    if schedule != [] {
      var before, i := schedule[..|schedule| - 1], schedule[|schedule| - 1];
      OwnerIsLast(layout, s, n, before, c, k);
      Split(layout, schedule);
      var t := Run(s, Increments(layout, before));
      ExclusiveStep(t, Increment(layout, i));
      OwnershipStep(t, Increment(layout, i), c, layout.Place(k).Line());
    }
  }

  /** In either layout and under every schedule the workers together miss exactly as often as a
      worker was not the last on its line. */
  lemma {:induction false} MissesAreSwitches(layout: Layout, s: State, n: nat, schedule: seq<nat>)
    requires Cold(layout, s, n) && Workers(n, schedule) && Exclusive(s.caches)
    ensures Run(s, Increments(layout, schedule)).misses == s.misses + Switches(layout, schedule)
  {
    if schedule != [] {
      var before, i := schedule[..|schedule| - 1], schedule[|schedule| - 1];
      MissesAreSwitches(layout, s, n, before);
      Split(layout, schedule);
      OwnerIsLast(layout, s, n, before, i, i);
    }
  }

  // ---- Padded: one miss per worker ----

  function Seen(schedule: seq<nat>): set<nat> { set t | 0 <= t < |schedule| :: schedule[t] }

  lemma {:induction false} PaddedLast(layout: Layout, schedule: seq<nat>, i: nat)
    requires layout.Padded?
    ensures LastOn(layout, schedule, layout.Place(i).Line()) == if i in Seen(schedule) then By(i) else Nobody
  {
    if schedule != [] {
      var before, j := schedule[..|schedule| - 1], schedule[|schedule| - 1];
      PaddedLast(layout, before, i);
      PaddedLines(layout, i, j);
      SeenExtends(schedule);
    }
  }

  lemma {:induction false} SeenExtends(schedule: seq<nat>)
    requires schedule != []
    ensures Seen(schedule) == Seen(schedule[..|schedule| - 1]) + {schedule[|schedule| - 1]}
  {
    var last := |schedule| - 1;
    forall i | i in Seen(schedule) ensures i in Seen(schedule[..last]) + {schedule[last]} {
      var t :| 0 <= t < |schedule| && schedule[t] == i;
      assert t < last ==> schedule[..last][t] == i;
    }
    forall i | i in Seen(schedule[..last]) + {schedule[last]} ensures i in Seen(schedule) {
      if i in Seen(schedule[..last]) {
        var t :| 0 <= t < last && schedule[..last][t] == i;
        assert schedule[t] == i;
      }
    }
  }

  lemma {:induction false} PaddedSwitches(layout: Layout, schedule: seq<nat>)
    requires layout.Padded?
    ensures Switches(layout, schedule) == |Seen(schedule)|
  {
    if schedule != [] {
      PaddedSwitches(layout, schedule[..|schedule| - 1]);
      PaddedLast(layout, schedule[..|schedule| - 1], schedule[|schedule| - 1]);
      SeenExtends(schedule);
    }
  }

  lemma {:induction false} SubsetOfRange(s: set<nat>, n: nat)
    requires forall i :: i in s ==> i < n
    ensures |s| <= n
  {
    if n == 0 {
      assert s == {};
    } else {
      SubsetOfRange(s - {n - 1}, n - 1);
      assert s <= (s - {n - 1}) + {n - 1};
      if n - 1 in s {
        assert |s - {n - 1}| == |s| - 1;
      } else {
        assert s - {n - 1} == s;
      }
    }
  }

  /** With one line per counter the workers miss exactly once each, however many increments they do
      and however they interleave. */
  lemma {:induction false} PaddedMissesOncePerWorker(layout: Layout, s: State, n: nat, schedule: seq<nat>)
    requires layout.Padded?
    requires Cold(layout, s, n) && Workers(n, schedule) && Exclusive(s.caches)
    ensures Run(s, Increments(layout, schedule)).misses - s.misses == |Seen(schedule)| <= n
  {
    MissesAreSwitches(layout, s, n, schedule);
    PaddedSwitches(layout, schedule);
    SubsetOfRange(Seen(schedule), n);
  }

  // ---- Adjacent: every increment can miss ----

  function Alternate(a: nat, b: nat, k: nat): (r: seq<nat>)
    ensures |r| == 2 * k
    ensures k > 0 ==> r[2 * k - 1] == b
    ensures forall t :: 0 <= t < |r| ==> r[t] == a || r[t] == b
  {
    if k == 0 then [] else Alternate(a, b, k - 1) + [a, b]
  }

  lemma {:induction false} AlternateSwitches(layout: Layout, a: nat, b: nat, k: nat)
    requires a != b && layout.Place(a).Line() == layout.Place(b).Line()
    ensures Switches(layout, Alternate(a, b, k)) == 2 * k
  {
    if k > 0 {
      AlternateSwitches(layout, a, b, k - 1);
      var before := Alternate(a, b, k - 1);
      var full := Alternate(a, b, k);
      assert full[..|full| - 1] == before + [a];
      assert (before + [a])[..|before|] == before;
    }
  }

  /** Wherever adjacent counters lie there are two workers and, for every k, a schedule of k
      increments each in which all 2k increments miss. */
  lemma {:induction false} AdjacentCanAlwaysMiss(layout: Layout, s: State, n: nat, k: nat) returns (schedule: seq<nat>)
    requires layout.Adjacent? && n >= 4 && Cold(layout, s, n) && Exclusive(s.caches)
    ensures Workers(n, schedule) && |schedule| == 2 * k
    ensures Run(s, Increments(layout, schedule)).misses - s.misses == |schedule|
  {
    var a, b := AdjacentShare(layout);
    schedule := Alternate(a, b, k);
    AlternateSwitches(layout, a, b, k);
    MissesAreSwitches(layout, s, n, schedule);
  }

  /** How often another worker than before increments, the first time included. */
  function Changes(schedule: seq<nat>): nat {
    if schedule == [] then 0
    else
      var last := |schedule| - 1;
      Changes(schedule[..last]) + (if last > 0 && schedule[last - 1] == schedule[last] then 0 else 1)
  }

  lemma {:induction false} OneLineSwitches(layout: Layout, schedule: seq<nat>)
    requires OneLine(layout) && Workers(4, schedule)
    ensures Switches(layout, schedule) == Changes(schedule)
  {
    if schedule != [] {
      OneLineSwitches(layout, schedule[..|schedule| - 1]);
    }
  }

  /** Where all four adjacent counters share a line, every change of worker misses, and nothing else. */
  lemma {:induction false} OneLineMisses(layout: Layout, s: State, schedule: seq<nat>)
    requires layout.Adjacent? && layout.base % 8 <= 4
    requires Cold(layout, s, 4) && Workers(4, schedule) && Exclusive(s.caches)
    ensures Run(s, Increments(layout, schedule)).misses - s.misses == Changes(schedule)
  {
    OneLineIff(layout);
    OneLineSwitches(layout, schedule);
    MissesAreSwitches(layout, s, 4, schedule);
  }

  // ---- Both layouts count correctly ----

  function Count(schedule: seq<nat>, i: nat): nat {
    if schedule == [] then 0
    else Count(schedule[..|schedule| - 1], i) + (if schedule[|schedule| - 1] == i then 1 else 0)
  }

  lemma {:induction false} ReadAfterStep(m: Memory, x: Access, a: Addr)
    ensures Read(FlatStep(m, x), a) == if x.addr == a then x.op.NewValue(Read(m, a)) else Read(m, a)
  {
    if x.addr != a {
      assert x.addr.Line() != a.Line() || x.addr.Offset() != a.Offset();
    }
  }

  /** How many of the accesses go to address a. */
  function Hits(xs: seq<Access>, a: Addr): nat {
    if xs == [] then 0
    else Hits(xs[..|xs| - 1], a) + (if xs[|xs| - 1].addr == a then 1 else 0)
  }

  lemma {:induction false} FlatHitsStep(m: Memory, x: Access, a: Addr, c: nat)
    requires x.op == FetchAdd(1) && Read(m, a) == c % WORD
    ensures Read(FlatStep(m, x), a) == (if x.addr == a then c + 1 else c) % WORD
  {
    ReadAfterStep(m, x, a);
    OneMore(c);
  }

  lemma {:induction false} FlatHits(m: Memory, xs: seq<Access>, a: Addr)
    requires Read(m, a) == 0
    requires forall t :: 0 <= t < |xs| ==> xs[t].op == FetchAdd(1)
    ensures Read(FlatRun(m, xs), a) == Hits(xs, a) % WORD
  {
    if xs != [] {
      FlatHits(m, xs[..|xs| - 1], a);
      FlatHitsStep(FlatRun(m, xs[..|xs| - 1]), xs[|xs| - 1], a, Hits(xs[..|xs| - 1], a));
    }
  }

  lemma {:induction false} HitsAreCounts(layout: Layout, schedule: seq<nat>, i: nat)
    ensures Hits(Increments(layout, schedule), layout.Place(i)) == Count(schedule, i)
  {
    if schedule != [] {
      HitsAreCounts(layout, schedule[..|schedule| - 1], i);
      Split(layout, schedule);
      if schedule[|schedule| - 1] != i {
        PlacesDiffer(layout, i, schedule[|schedule| - 1]);
      }
    }
  }

  lemma {:induction false} OneMore(c: nat)
    ensures (c % WORD + 1) % WORD == (c + 1) % WORD
  {
  }

  /** The reset loop of runWith, by the given core. */
  function Resets(layout: Layout, core: nat, n: nat): (xs: seq<Access>)
    ensures |xs| == n && OnCores(core + 1, xs)
  {
    if n == 0 then [] else Resets(layout, core, n - 1) + [Access(core, layout.Place(n - 1), Store(0))]
  }

  lemma {:induction false} ResetZeroes(layout: Layout, flat: Memory, core: nat, n: nat, i: nat)
    requires i < n
    ensures Read(FlatRun(flat, Resets(layout, core, n)), layout.Place(i)) == 0
  {
    var xs, before := Resets(layout, core, n), Resets(layout, core, n - 1);
    assert xs[..n - 1] == before;
    ReadAfterStep(FlatRun(flat, before), xs[n - 1], layout.Place(i));
    if i < n - 1 {
      ResetZeroes(layout, flat, core, n - 1, i);
    }
  }

  /** From any coherent state the reset takes the counters' lines away from every other core. */
  lemma {:induction false} ResetClaims(layout: Layout, s: State, core: nat, n: nat, c: nat, i: nat)
    requires Exclusive(s.caches) && core < |s.caches| && c < |s.caches| && c != core
    ensures Exclusive(Run(s, Resets(layout, core, n)).caches)
    ensures i < n ==> !Owns(Run(s, Resets(layout, core, n)).caches[c], layout.Place(i).Line())
  {
    if n > 0 {
      var xs, before := Resets(layout, core, n), Resets(layout, core, n - 1);
      assert xs[..n - 1] == before;
      ResetClaims(layout, s, core, n - 1, c, i);
      ExclusiveStep(Run(s, before), xs[n - 1]);
      OwnershipStep(Run(s, before), xs[n - 1], c, layout.Place(i).Line());
    }
  }

  /** Before n workers start, the thread that starts them resets all the counters. */
  lemma {:induction false} ResetPrepares(layout: Layout, s: State, flat: Memory, counters: nat, n: nat)
    requires Agrees(s, flat) && |s.caches| == n + 1 && n <= counters
    ensures var xs := Resets(layout, n, counters);
            && Agrees(Run(s, xs), FlatRun(flat, xs))
            && Cold(layout, Run(s, xs), n)
  {
    var xs := Resets(layout, n, counters);
    AgreesHolds(s, flat, xs);
    forall c, i | 0 <= c < n && 0 <= i < n ensures !Owns(Run(s, xs).caches[c], layout.Place(i).Line()) {
      ResetClaims(layout, s, n, counters, c, i);
    }
  }

  /** A whole runWith with n workers from any coherent state, in either layout: after the reset every
      interleaving leaves each counter, of the workers and beyond, at the number of its increments, as
      any core reads it, and the workers miss as often as they switch. */
  lemma {:induction false} RunWithIsExact(layout: Layout, s: State, flat: Memory, counters: nat, n: nat,
                                          schedule: seq<nat>, core: nat, i: nat)
    requires Agrees(s, flat) && |s.caches| == n + 1 && n <= counters && core <= n && i < counters
    requires Workers(n, schedule)
    ensures var ready := Run(s, Resets(layout, n, counters));
            var done := Run(ready, Increments(layout, schedule));
            && Cold(layout, ready, n) && Exclusive(ready.caches)
            && Result(done, Access(core, layout.Place(i), Load)) == Count(schedule, i) % WORD
            && done.misses == ready.misses + Switches(layout, schedule)
  {
    ResetPrepares(layout, s, flat, counters, n);
    ResetZeroes(layout, flat, n, counters, i);
    var ready, zero := Run(s, Resets(layout, n, counters)), FlatRun(flat, Resets(layout, n, counters));
    var xs := Increments(layout, schedule);
    AgreesHolds(ready, zero, xs);
    AgreesStep(Run(ready, xs), FlatRun(zero, xs), Access(core, layout.Place(i), Load));
    FlatHits(zero, xs, layout.Place(i));
    HitsAreCounts(layout, schedule, i);
    MissesAreSwitches(layout, ready, n, schedule);
  }

  /** `runWith` on the array: reset all four, then the workers' increments in the order of the
      schedule. */
  method RunWith(value: array<nat>, threads: nat, schedule: seq<nat>)
    requires value.Length == 4 && threads <= 4 && Workers(threads, schedule)
    modifies value
    ensures forall i :: 0 <= i < 4 ==> value[i] == Count(schedule, i) % WORD
  {
    for i := 0 to 4
      invariant forall j :: 0 <= j < i ==> value[j] == 0
    {
      value[i] := 0;
    }
    for t := 0 to |schedule|
      invariant forall j :: 0 <= j < 4 ==> value[j] == Count(schedule[..t], j) % WORD
    {
      assert schedule[..t + 1][..t] == schedule[..t];
      var i := schedule[t];
      OneMore(Count(schedule[..t], i));
      value[i] := (value[i] + 1) % WORD;
    }
    assert schedule[..|schedule|] == schedule;
  }
}
