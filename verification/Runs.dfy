/** Runs of a step machine, and the one induction every claim about them needs. */
module Runs {
  ghost predicate Stepped<S(!new), A(!new)>(states: seq<S>, acts: seq<A>, step: (S, A, S) -> bool, i: nat)
    requires |states| == |acts| + 1 && i < |acts|
  {
    step(states[i], acts[i], states[i + 1])
  }

  /** Any number of steps from `start`. */
  ghost predicate Run<S(!new), A(!new)>(states: seq<S>, acts: seq<A>, start: S, step: (S, A, S) -> bool) {
    && |states| == |acts| + 1 && states[0] == start
    && forall i :: 0 <= i < |acts| ==> Stepped(states, acts, step, i)
  }

  /** What every step keeps holds throughout. */
  lemma {:induction false} InvariantThroughout<S(!new), A(!new)>(
      states: seq<S>, acts: seq<A>, start: S, step: (S, A, S) -> bool, inv: S -> bool, i: nat)
    requires Run(states, acts, start, step) && i < |states|
    requires inv(start)
    requires forall s, a, s' :: inv(s) && step(s, a, s') ==> inv(s')
    ensures inv(states[i])
  {
    if i > 0 {
      InvariantThroughout(states, acts, start, step, inv, i - 1);
      assert Stepped(states, acts, step, i - 1);
    }
  }
}
