/**
 Case 05: cores with private caches that keep whole 64-byte lines and invalidate on write (MSI).
 Caching is invisible to the values, and the cost of the two counter layouts is exact: a worker
 misses precisely when the last access to its line came from another core.
*/
module Coherence {
  import opened Arith

  const LINE_WORDS: nat := 8  // 64 bytes of 64-bit words

  type Line = s: seq<nat> | |s| == LINE_WORDS witness [0, 0, 0, 0, 0, 0, 0, 0]

  const ZERO: Line := [0, 0, 0, 0, 0, 0, 0, 0]

  /** The word with index w, counted from address 0. */
  datatype Addr = Addr(w: nat) {
    function Line(): nat { w / LINE_WORDS }
    function Offset(): (o: nat) ensures o < LINE_WORDS { w % LINE_WORDS }
  }

  datatype Op = Load | Store(v: nat) | FetchAdd(d: nat) {
    predicate Writes() { !Load? }

    function NewValue(old': nat): nat {
      match this
      case Load => old'
      case Store(v) => v
      case FetchAdd(d) => (old' + d) % WORD
    }
  }

  datatype Access = Access(core: nat, addr: Addr, op: Op)

  // ---- Flat memory ----

  type Memory = map<nat, Line>

  function At(m: Memory, l: nat): Line { if l in m then m[l] else ZERO }

  function Read(m: Memory, a: Addr): nat { At(m, a.Line())[a.Offset()] }

  function Write(line: Line, a: Addr, op: Op): Line {
    line[a.Offset() := op.NewValue(line[a.Offset()])]
  }

  function FlatStep(m: Memory, x: Access): Memory {
    m[x.addr.Line() := Write(At(m, x.addr.Line()), x.addr, x.op)]
  }

  function FlatRun(m: Memory, xs: seq<Access>): Memory {
    if xs == [] then m else FlatStep(FlatRun(m, xs[..|xs| - 1]), xs[|xs| - 1])
  }

  // ---- Cached memory ----

  datatype Mode = Shared | Modified

  datatype Entry = Entry(mode: Mode, data: Line)

  type Cache = map<nat, Entry>

  datatype State = State(memory: Memory, caches: seq<Cache>, misses: nat)

  predicate Owns(c: Cache, l: nat) { l in c && c[l].mode.Modified? }

  /** The first cache from `from` on that holds line l modified, or the number of caches. */
  function Owner(caches: seq<Cache>, l: nat, from: nat): (o: nat)
    requires from <= |caches|
    ensures from <= o <= |caches|
    ensures o < |caches| ==> Owns(caches[o], l)
    ensures forall c :: from <= c < o ==> !Owns(caches[c], l)
    decreases |caches| - from
  {
    if from == |caches| || Owns(caches[from], l) then from else Owner(caches, l, from + 1)
  }

  /** What a core that misses gets: the owner's copy, else memory's. */
  function Fetch(s: State, l: nat): Line {
    var o := Owner(s.caches, l, 0);
    if o < |s.caches| then s.caches[o][l].data else At(s.memory, l)
  }

  predicate Misses(s: State, x: Access)
    requires x.core < |s.caches|
  {
    var c := s.caches[x.core];
    if x.op.Writes() then !Owns(c, x.addr.Line()) else x.addr.Line() !in c
  }

  function LineFor(s: State, x: Access): Line
    requires x.core < |s.caches|
  {
    var l := x.addr.Line();
    if l in s.caches[x.core] then s.caches[x.core][l].data else Fetch(s, l)
  }

  /** The value an access returns to its core: the word before the access. */
  function Result(s: State, x: Access): nat
    requires x.core < |s.caches|
  {
    LineFor(s, x)[x.addr.Offset()]
  }

  function Downgrade(c: Cache, l: nat): Cache {
    if Owns(c, l) then c[l := Entry(Shared, c[l].data)] else c
  }

  function AfterMiss(c: Cache, own: bool, l: nat, line: Line, writes: bool): Cache {
    if own then c[l := Entry(if writes then Modified else Shared, line)]
    else if writes then c - {l}
    else Downgrade(c, l)
  }

  function CachesAfterMiss(caches: seq<Cache>, core: nat, l: nat, line: Line, writes: bool): (r: seq<Cache>)
    ensures |r| == |caches|
    ensures forall c :: 0 <= c < |caches| ==> r[c] == AfterMiss(caches[c], c == core, l, line, writes)
  {
    if caches == [] then []
    else
      var last := |caches| - 1;
      CachesAfterMiss(caches[..last], core, l, line, writes)
      + [AfterMiss(caches[last], last == core, l, line, writes)]
  }

  /** A miss writes the current line back; a write leaves its core the only holder, a read turns a
      modified copy into a shared one. */
  function Step(s: State, x: Access): State
    requires x.core < |s.caches|
  {
    var l := x.addr.Line();
    var line := LineFor(s, x);
    if Misses(s, x) then
      State(s.memory[l := line],
            CachesAfterMiss(s.caches, x.core, l, Write(line, x.addr, x.op), x.op.Writes()),
            s.misses + 1)
    else
      var own := s.caches[x.core];
      s.(caches := s.caches[x.core := own[l := own[l].(data := Write(line, x.addr, x.op))]])
  }

  predicate OnCores(n: nat, xs: seq<Access>) {
    forall i :: 0 <= i < |xs| ==> xs[i].core < n
  }

  function Run(s: State, xs: seq<Access>): (t: State)
    requires OnCores(|s.caches|, xs)
    ensures |t.caches| == |s.caches|
  {
    if xs == [] then s else Step(Run(s, xs[..|xs| - 1]), xs[|xs| - 1])
  }

  // ---- Coherence ----

  /** Every copy is current. */
  ghost predicate Current(caches: seq<Cache>, flat: Memory) {
    forall c, l :: 0 <= c < |caches| && l in caches[c] ==> caches[c][l].data == At(flat, l)
  }

  predicate Apart(c: Cache, d: Cache, l: nat) {
    Owns(c, l) ==> l !in d
  }

  /** A modified copy is the only one. */
  ghost predicate Exclusive(caches: seq<Cache>) {
    forall c, d, l :: 0 <= c < |caches| && 0 <= d < |caches| && c != d ==> Apart(caches[c], caches[d], l)
  }

  /** Memory is current for every line nobody has modified. */
  ghost predicate Backed(s: State, flat: Memory) {
    forall l :: Owner(s.caches, l, 0) == |s.caches| ==> At(s.memory, l) == At(flat, l)
  }

  ghost predicate Agrees(s: State, flat: Memory) {
    Current(s.caches, flat) && Exclusive(s.caches) && Backed(s, flat)
  }

  lemma {:induction false} FetchIsCurrent(s: State, flat: Memory, x: Access)
    requires x.core < |s.caches| && Current(s.caches, flat) && Backed(s, flat)
    ensures LineFor(s, x) == At(flat, x.addr.Line())
  {
  }

  lemma {:induction false} LoadKeepsLine(line: Line, a: Addr, op: Op)
    requires op.Load?
    ensures Write(line, a, op) == line
  {
  }

  lemma {:induction false} ExclusiveStep(s: State, x: Access)
    requires x.core < |s.caches| && Exclusive(s.caches)
    ensures Exclusive(Step(s, x).caches)
  {
    var caches, caches' := s.caches, Step(s, x).caches;
    forall c, d, k | 0 <= c < |caches| && 0 <= d < |caches| && c != d
      ensures Apart(caches'[c], caches'[d], k)
    {
      assert Apart(caches[c], caches[d], k);
    }
  }

  lemma {:induction false} CurrentStep(s: State, flat: Memory, x: Access)
    requires x.core < |s.caches| && Current(s.caches, flat) && Exclusive(s.caches)
    requires LineFor(s, x) == At(flat, x.addr.Line())
    ensures Current(Step(s, x).caches, FlatStep(flat, x))
  {
    forall c, k: nat | 0 <= c < |s.caches| && k in Step(s, x).caches[c]
      ensures Step(s, x).caches[c][k].data == At(FlatStep(flat, x), k)
    {
      if c == x.core {
        CurrentAtCore(s, flat, x, k);
      } else {
        CurrentElsewhere(s, flat, x, c, k);
      }
    }
  }

  lemma {:induction false} CurrentAtCore(s: State, flat: Memory, x: Access, k: nat)
    requires x.core < |s.caches| && Current(s.caches, flat)
    requires LineFor(s, x) == At(flat, x.addr.Line())
    requires k in Step(s, x).caches[x.core]
    ensures Step(s, x).caches[x.core][k].data == At(FlatStep(flat, x), k)
  {
    if k != x.addr.Line() {
      assert Step(s, x).caches[x.core][k] == s.caches[x.core][k];
      assert At(FlatStep(flat, x), k) == At(flat, k);
    } else {
      assert At(FlatStep(flat, x), k) == Write(At(flat, k), x.addr, x.op);
    }
  }

  lemma {:induction false} CurrentElsewhere(s: State, flat: Memory, x: Access, c: nat, k: nat)
    requires x.core < |s.caches| && c < |s.caches| && c != x.core
    requires Current(s.caches, flat) && Exclusive(s.caches)
    requires k in Step(s, x).caches[c]
    ensures Step(s, x).caches[c][k].data == At(FlatStep(flat, x), k)
  {
    assert k in s.caches[c] && Step(s, x).caches[c][k].data == s.caches[c][k].data;
    if k == x.addr.Line() {
      assert Apart(s.caches[x.core], s.caches[c], k);
      LoadKeepsLine(At(flat, k), x.addr, x.op);
    }
    assert At(FlatStep(flat, x), k) == At(flat, k);
  }

  lemma {:induction false} BackedStep(s: State, flat: Memory, x: Access)
    requires x.core < |s.caches| && Backed(s, flat)
    requires LineFor(s, x) == At(flat, x.addr.Line())
    ensures Backed(Step(s, x), FlatStep(flat, x))
  {
    var l := x.addr.Line();
    var s' := Step(s, x);
    if x.op.Load? { LoadKeepsLine(At(flat, l), x.addr, x.op); }
    forall k | Owner(s'.caches, k, 0) == |s'.caches|
      ensures At(s'.memory, k) == At(FlatStep(flat, x), k)
    {
      assert !Owns(s'.caches[x.core], k);
      if k != l || !Misses(s, x) {
        forall c | 0 <= c < |s.caches| ensures !Owns(s.caches[c], k) {
          assert !Owns(s'.caches[c], k);
        }
        assert Owner(s.caches, k, 0) == |s.caches|;
      }
    }
  }

  lemma {:induction false} AgreesStep(s: State, flat: Memory, x: Access)
    requires x.core < |s.caches| && Agrees(s, flat)
    ensures Result(s, x) == Read(flat, x.addr)
    ensures Agrees(Step(s, x), FlatStep(flat, x))
  {
    FetchIsCurrent(s, flat, x);
    ExclusiveStep(s, x);
    CurrentStep(s, flat, x);
    BackedStep(s, flat, x);
  }

  lemma {:induction false} AgreesHolds(s: State, flat: Memory, xs: seq<Access>)
    requires OnCores(|s.caches|, xs) && Agrees(s, flat)
    ensures Agrees(Run(s, xs), FlatRun(flat, xs))
  {
    if xs != [] {
      var before := xs[..|xs| - 1];
      AgreesHolds(s, flat, before);
      AgreesStep(Run(s, before), FlatRun(flat, before), xs[|xs| - 1]);
    }
  }

  /** Caching is invisible: from agreeing states, whatever the cores access in whatever order, every
      access returns what flat memory holds at that point. */
  lemma {:induction false} CachingIsInvisible(s: State, flat: Memory, xs: seq<Access>, i: nat)
    requires OnCores(|s.caches|, xs) && Agrees(s, flat) && i < |xs|
    ensures Result(Run(s, xs[..i]), xs[i]) == Read(FlatRun(flat, xs[..i]), xs[i].addr)
  {
    AgreesHolds(s, flat, xs[..i]);
    AgreesStep(Run(s, xs[..i]), FlatRun(flat, xs[..i]), xs[i]);
  }

  /** Words are 0 at first, and an access changes no word but its own, and that as its operation says. */
  lemma {:induction false} FlatAccess(m: Memory, core: nat, a: Addr, b: Addr, v: nat)
    ensures Read(map[], a) == 0
    ensures Read(FlatStep(m, Access(core, a, Load)), b) == Read(m, b)
    ensures Read(FlatStep(m, Access(core, a, Store(v))), b) == if a == b then v else Read(m, b)
    ensures Read(FlatStep(m, Access(core, a, FetchAdd(v))), b) == if a == b then (Read(m, a) + v) % WORD else Read(m, b)
  {
    if a != b {
      assert a.Line() != b.Line() || a.Offset() != b.Offset();
    }
  }

  // ---- What misses ----

  /** Access i is by core c to line l, and no other core disturbs it later: any access disturbs an owned
      copy, a write any copy. */
  predicate Lasts(xs: seq<Access>, c: nat, l: nat, own: bool, i: nat) {
    && i < |xs| && xs[i].core == c && xs[i].addr.Line() == l
    && (own ==> xs[i].op.Writes())
    && (forall j :: i < j < |xs| && xs[j].core != c && xs[j].addr.Line() == l ==> !own && xs[j].op.Load?)
  }

  ghost predicate Since(xs: seq<Access>, c: nat, l: nat, own: bool) {
    exists i :: Lasts(xs, c, l, own, i)
  }

  lemma {:induction false} SinceExtends(xs: seq<Access>, c: nat, l: nat, own: bool)
    requires xs != []
    ensures var x := xs[|xs| - 1];
            Since(xs, c, l, own) <==>
              if x.addr.Line() != l then Since(xs[..|xs| - 1], c, l, own)
              else if x.core == c then (own ==> x.op.Writes()) || Since(xs[..|xs| - 1], c, l, own)
              else !own && x.op.Load? && Since(xs[..|xs| - 1], c, l, own)
  {
    var last := |xs| - 1;
    if i: nat :| Lasts(xs, c, l, own, i) {
      if i < last {
        assert xs[last].core != c && xs[last].addr.Line() == l ==> !own && xs[last].op.Load?;
        assert Lasts(xs[..last], c, l, own, i);
      }
    }
    if xs[last].addr.Line() == l && xs[last].core == c && (own ==> xs[last].op.Writes()) {
      assert Lasts(xs, c, l, own, last);
    } else if i: nat :| Lasts(xs[..last], c, l, own, i) {
      if xs[last].addr.Line() != l || xs[last].core == c || (!own && xs[last].op.Load?) {
        assert forall j :: i < j < last ==> xs[..last][j] == xs[j];
        assert Lasts(xs, c, l, own, i);
      }
    }
  }

  /** A core has a copy of a line exactly since an access of its own after which no other core has written
      to the line, and owns it exactly since a write after which no other core has touched it. */
  lemma {:induction false} CopiesExactly(s: State, xs: seq<Access>, c: nat, l: nat)
    requires OnCores(|s.caches|, xs) && c < |s.caches| && Exclusive(s.caches)
    requires forall d :: 0 <= d < |s.caches| ==> l !in s.caches[d]
    ensures Exclusive(Run(s, xs).caches)
    ensures l in Run(s, xs).caches[c] <==> Since(xs, c, l, false)
    ensures Owns(Run(s, xs).caches[c], l) <==> Since(xs, c, l, true)
  {
    if xs != [] {
      var before, x := xs[..|xs| - 1], xs[|xs| - 1];
      CopiesExactly(s, before, c, l);
      ExclusiveStep(Run(s, before), x);
      SinceExtends(xs, c, l, false);
      SinceExtends(xs, c, l, true);
      CopyStep(Run(s, before), x, c, l);
    }
  }

  lemma {:induction false} CopyStep(s: State, x: Access, c: nat, l: nat)
    requires x.core < |s.caches| && c < |s.caches| && Exclusive(s.caches)
    ensures var own, has := Owns(s.caches[c], l), l in s.caches[c];
            && (l in Step(s, x).caches[c] <==>
                if x.addr.Line() != l then has else if x.core == c then true else x.op.Load? && has)
            && (Owns(Step(s, x).caches[c], l) <==>
                if x.addr.Line() != l then own else if x.core == c then x.op.Writes() || own else false)
  {
    assert c != x.core ==> Apart(s.caches[x.core], s.caches[c], l) && Apart(s.caches[c], s.caches[x.core], l);
  }

  /** From empty caches, an access misses exactly when its core has not kept the copy it needs. */
  lemma {:induction false} MissesExactly(s: State, xs: seq<Access>, i: nat)
    requires OnCores(|s.caches|, xs) && i < |xs|
    requires forall d :: 0 <= d < |s.caches| ==> s.caches[d] == map[]
    ensures var kept := Since(xs[..i], xs[i].core, xs[i].addr.Line(), xs[i].op.Writes());
            Run(s, xs[..i + 1]).misses == Run(s, xs[..i]).misses + (if kept then 0 else 1)
  {
    forall c, d, l | 0 <= c < |s.caches| && 0 <= d < |s.caches| && c != d
      ensures Apart(s.caches[c], s.caches[d], l) {}
    assert xs[..i + 1][..i] == xs[..i];
    CopiesExactly(s, xs[..i], xs[i].core, xs[i].addr.Line());
  }
}
