/** Runs of a step relation: what every machine of this project means by a reachable state. */
module Traces {

  /** A run: every state is reached from the one before it by one step. */
  ghost predicate IsRun<S(!new)>(init: S -> bool, step: (S, S) -> bool, run: seq<S>) {
    && run != [] && init(run[0])
    && (forall k :: 0 <= k < |run| - 1 ==> step(run[k], run[k + 1]))
  }

  ghost predicate Reached<S(!new)>(init: S -> bool, step: (S, S) -> bool, s: S) {
    exists run: seq<S> :: IsRun(init, step, run) && run[|run| - 1] == s
  }

  /** What holds at the start and is kept by every step holds all along every run. */
  lemma {:induction false} InvariantAlong<S(!new)>(init: S -> bool, step: (S, S) -> bool, inv: S -> bool, run: seq<S>)
    requires IsRun(init, step, run)
    requires forall s :: init(s) ==> inv(s)
    requires forall s, t :: inv(s) && step(s, t) ==> inv(t)
    ensures inv(run[|run| - 1])
  {
    if |run| > 1 {
      var front := run[..|run| - 1];
      assert IsRun(init, step, front);
      InvariantAlong(init, step, inv, front);
      assert step(run[|run| - 2], run[|run| - 1]);
    }
  }

  lemma InvariantHolds<S(!new)>(init: S -> bool, step: (S, S) -> bool, inv: S -> bool, s: S)
    requires Reached(init, step, s)
    requires forall s :: init(s) ==> inv(s)
    requires forall s, t :: inv(s) && step(s, t) ==> inv(t)
    ensures inv(s)
  {
    var run: seq<S> :| IsRun(init, step, run) && run[|run| - 1] == s;
    InvariantAlong(init, step, inv, run);
  }

  lemma StartIsReached<S(!new)>(init: S -> bool, step: (S, S) -> bool, s: S)
    requires init(s)
    ensures Reached(init, step, s)
  {
    assert IsRun(init, step, [s]);
  }

  lemma OneMore<S(!new)>(init: S -> bool, step: (S, S) -> bool, s: S, t: S)
    requires Reached(init, step, s) && step(s, t)
    ensures Reached(init, step, t)
  {
    var run: seq<S> :| IsRun(init, step, run) && run[|run| - 1] == s;
    var more := run + [t];
    forall k | 0 <= k < |more| - 1
      ensures step(more[k], more[k + 1])
    {
      assert k < |run| - 1 ==> step(run[k], run[k + 1]);
    }
    assert IsRun(init, step, more);
  }

  ghost function Just<S(!new)>(s: S): S -> bool { (x: S) => x == s }

  /** Some run leads from `s` to `t`. */
  ghost predicate Leads<S(!new)>(step: (S, S) -> bool, s: S, t: S) { Reached(Just(s), step, t) }

  lemma LeadsFirst<S(!new)>(step: (S, S) -> bool, s: S, u: S, t: S)
    requires step(s, u) && Leads(step, u, t)
    ensures Leads(step, s, t)
  {
    var run: seq<S> :| IsRun(Just(u), step, run) && run[|run| - 1] == t;
    var more := [s] + run;
    forall k | 0 <= k < |more| - 1
      ensures step(more[k], more[k + 1])
    {
      assert k > 0 ==> step(run[k - 1], run[k]);
    }
    assert IsRun(Just(s), step, more);
  }

  lemma KeptAlong<S(!new)>(step: (S, S) -> bool, inv: S -> bool, s: S, t: S)
    requires Leads(step, s, t) && inv(s)
    requires forall s, t :: inv(s) && step(s, t) ==> inv(t)
    ensures inv(t)
  {
    InvariantHolds(Just(s), step, inv, t);
  }
}
