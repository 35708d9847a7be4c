/**
 Runs of a step function over a sequence of inputs, and the one induction they need.
 */
module Runs {
  function Run<S, I>(step: (S, I) -> S, state: S, inputs: seq<I>): S {
    if inputs == [] then state else step(Run(step, state, inputs[..|inputs| - 1]), inputs[|inputs| - 1])
  }

  // What holds after `from` inputs and every further step keeps holds at the end.
  lemma {:induction false} RunKeeps<S(!new), I(!new)>(
    step: (S, I) -> S, holds: (S, seq<I>) -> bool, accepts: I -> bool, state: S, inputs: seq<I>, from: nat)
    requires from <= |inputs| && holds(Run(step, state, inputs[..from]), inputs[..from])
    requires forall i :: from <= i < |inputs| ==> accepts(inputs[i])
    requires forall s, past, input :: holds(s, past) && accepts(input) ==> holds(step(s, input), past + [input])
    ensures holds(Run(step, state, inputs), inputs)
    decreases |inputs|
  {
    if from == |inputs| {
      assert inputs[..from] == inputs;
    } else {
      var init, last := inputs[..|inputs| - 1], inputs[|inputs| - 1];
      assert init[..from] == inputs[..from];
      RunKeeps(step, holds, accepts, state, init, from);
      assert accepts(inputs[|inputs| - 1]);
      assert inputs == init + [last];
    }
  }

  lemma {:induction false} RunAppend<S, I>(step: (S, I) -> S, state: S, a: seq<I>, b: seq<I>)
    ensures Run(step, state, a + b) == Run(step, Run(step, state, a), b)
    decreases |b|
  {
    if b == [] {
      assert a + b == a;
    } else {
      assert (a + b)[..|a + b| - 1] == a + b[..|b| - 1];
      RunAppend(step, state, a, b[..|b| - 1]);
    }
  }
}
