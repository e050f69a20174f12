/** Runs that descend through a lexicographic rank end. */
module Descent {
  datatype Rank = Rank(phase: nat, a: nat, b: nat, c: nat, d: nat, e: nat)

  predicate Below(r: Rank, t: Rank) {
    || r.phase < t.phase
    || (r.phase == t.phase && r.a < t.a)
    || (r.phase == t.phase && r.a == t.a && r.b < t.b)
    || (r.phase == t.phase && r.a == t.a && r.b == t.b && r.c < t.c)
    || (r.phase == t.phase && r.a == t.a && r.b == t.b && r.c == t.c && r.d < t.d)
    || (r.phase == t.phase && r.a == t.a && r.b == t.b && r.c == t.c && r.d == t.d && r.e < t.e)
  }

  function Fold<S>(step: (S, nat) -> S, s: S, ns: seq<nat>): S {
    if ns == [] then s else step(Fold(step, s, ns[..|ns| - 1]), ns[|ns| - 1])
  }

  /** If every step of a live, unfinished state descends, then from every live state the steps the
      environment offers reach a finished one. */
  lemma {:induction false} Ends<S(!new)>(
      step: (S, nat) -> S, live: S -> bool, done: S -> bool, rank: S -> Rank,
      start: S, ns: seq<nat>, offer: nat -> nat, r: Rank) returns (ms: seq<nat>)
    requires forall s, n :: live(s) && !done(s) ==> live(step(s, n)) && Below(rank(step(s, n)), rank(s))
    requires live(Fold(step, start, ns)) && r == rank(Fold(step, start, ns))
    ensures done(Fold(step, start, ns + ms))
    ensures forall i :: 0 <= i < |ms| ==> ms[i] == offer(|ns| + i)
    decreases r.phase, r.a, r.b, r.c, r.d, r.e
  {
    if done(Fold(step, start, ns)) {
      ms := [];
      assert ns + ms == ns;
    } else {
      var n := offer(|ns|);
      assert (ns + [n])[..|ns|] == ns;
      var rest := Ends(step, live, done, rank, start, ns + [n], offer, rank(Fold(step, start, ns + [n])));
      ms := [n] + rest;
      assert ns + ms == ns + [n] + rest;
    }
  }
}
