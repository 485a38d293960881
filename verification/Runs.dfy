/**
 Runs of a labelled transition system: `next` gives the state after a step, or nothing
 when the label is not enabled.
 */
module Runs {
  import opened Options

  /** The i-th label of the run leads from one state to the next. */
  ghost predicate Follows<S, L>(next: (S, L) -> Option<S>, run: seq<L>, states: seq<S>, i: nat)
    requires i < |run| < |states|
  {
    next(states[i], run[i]) == Some(states[i + 1])
  }

  ghost predicate Trace<S, L>(next: (S, L) -> Option<S>, s: S, run: seq<L>, states: seq<S>) {
    && |states| == |run| + 1
    && states[0] == s
    && forall i :: 0 <= i < |run| ==> Follows(next, run, states, i)
  }

  /** Each label of the run is enabled where it is taken. */
  ghost predicate Legal<S(!new), L(!new)>(next: (S, L) -> Option<S>, s: S, run: seq<L>) {
    exists states :: Trace(next, s, run, states)
  }

  /** Where the run ends. */
  ghost function Exec<S(!new), L(!new)>(next: (S, L) -> Option<S>, s: S, run: seq<L>): S
    requires Legal(next, s, run)
  {
    var states :| Trace(next, s, run, states);
    states[|run|]
  }

  lemma {:induction false} TraceIsUnique<S(!new), L(!new)>(next: (S, L) -> Option<S>, s: S, run: seq<L>,
                                                           a: seq<S>, b: seq<S>, i: nat)
    requires Trace(next, s, run, a) && Trace(next, s, run, b) && i <= |run|
    ensures a[i] == b[i]
  {
    if i == 0 {
    } else {
      TraceIsUnique(next, s, run, a, b, i - 1);
      assert Follows(next, run, a, i - 1) && Follows(next, run, b, i - 1);
    }
  }

  lemma TraceGives<S(!new), L(!new)>(next: (S, L) -> Option<S>, s: S, run: seq<L>, states: seq<S>)
    requires Trace(next, s, run, states)
    ensures Legal(next, s, run) && Exec(next, s, run) == states[|run|]
  {
    var other :| Trace(next, s, run, other) && Exec(next, s, run) == other[|run|];
    TraceIsUnique(next, s, run, states, other, |run|);
  }

  /** A run is empty, or a step and a run from there. */
  lemma Unfold<S(!new), L(!new)>(next: (S, L) -> Option<S>, s: S, run: seq<L>)
    ensures Legal(next, s, run) <==>
            run == [] || (next(s, run[0]).Some? && Legal(next, next(s, run[0]).value, run[1..]))
    ensures Legal(next, s, run) ==>
            Exec(next, s, run) == if run == [] then s else Exec(next, next(s, run[0]).value, run[1..])
  {
    if run == [] {
      TraceGives(next, s, run, [s]);
    } else {
      if Legal(next, s, run) {
        var states :| Trace(next, s, run, states);
        TailIsTrace(next, s, run, states);
        TraceGives(next, s, run, states);
        TraceGives(next, states[1], run[1..], states[1..]);
      }
      if next(s, run[0]).Some? && Legal(next, next(s, run[0]).value, run[1..]) {
        var rest :| Trace(next, next(s, run[0]).value, run[1..], rest);
        LongerTrace(next, s, run, rest);
        TraceGives(next, s, run, [s] + rest);
      }
    }
  }

  lemma TailIsTrace<S(!new), L(!new)>(next: (S, L) -> Option<S>, s: S, run: seq<L>, states: seq<S>)
    requires Trace(next, s, run, states) && run != []
    ensures next(s, run[0]) == Some(states[1]) && Trace(next, states[1], run[1..], states[1..])
  {
    assert Follows(next, run, states, 0);
    forall i | 0 <= i < |run| - 1 ensures Follows(next, run[1..], states[1..], i) {
      assert Follows(next, run, states, i + 1);
    }
  }

  lemma LongerTrace<S(!new), L(!new)>(next: (S, L) -> Option<S>, s: S, run: seq<L>, rest: seq<S>)
    requires run != [] && next(s, run[0]).Some? && Trace(next, next(s, run[0]).value, run[1..], rest)
    ensures Trace(next, s, run, [s] + rest)
  {
    forall i | 0 <= i < |run| ensures Follows(next, run, [s] + rest, i) {
      if i > 0 { assert Follows(next, run[1..], rest, i - 1); }
    }
  }

  /** A run can be cut anywhere: the parts are runs, and meet. */
  lemma {:induction false} Cut<S(!new), L(!new)>(next: (S, L) -> Option<S>, s: S, a: seq<L>, b: seq<L>)
    requires Legal(next, s, a + b)
    ensures Legal(next, s, a) && Legal(next, Exec(next, s, a), b)
    ensures Exec(next, s, a + b) == Exec(next, Exec(next, s, a), b)
    decreases |a|
  {
    hide Legal, Exec;
    Unfold(next, s, a);
    if a == [] {
      assert a + b == b;
    } else {
      Unfold(next, s, a + b);
      assert (a + b)[1..] == a[1..] + b;
      Cut(next, next(s, a[0]).value, a[1..], b);
    }
  }

  /** A run can be taken on by one step. */
  lemma Extend<S(!new), L(!new)>(next: (S, L) -> Option<S>, s: S, run: seq<L>, l: L)
    requires Legal(next, s, run) && next(Exec(next, s, run), l).Some?
    ensures Legal(next, s, run + [l]) && Exec(next, s, run + [l]) == next(Exec(next, s, run), l).value
  {
    var states :| Trace(next, s, run, states);
    TraceGives(next, s, run, states);
    var longer := states + [next(states[|run|], l).value];
    forall i | 0 <= i < |run| + 1 ensures Follows(next, run + [l], longer, i) {
      if i < |run| { assert Follows(next, run, states, i); }
    }
    TraceGives(next, s, run + [l], longer);
  }
}
