/** Finite runs of a step relation. */
module Chains {
  import opened Totals

  /** Each state but the last is followed by one that `next` allows for its step. */
  ghost predicate IsChain<S, T>(next: (S, T, S) -> bool, states: seq<S>, steps: seq<T>) {
    && |states| == |steps| + 1
    && forall k {:trigger steps[k]} :: 0 <= k < |steps| ==> next(states[k], steps[k], states[k + 1])
  }

  lemma ChainGrows<S, T>(next: (S, T, S) -> bool, states: seq<S>, steps: seq<T>, step: T, last: S)
    requires IsChain(next, states, steps) && next(states[|steps|], step, last)
    ensures IsChain(next, states + [last], steps + [step])
    ensures (states + [last])[0] == states[0] && (states + [last])[|steps + [step]|] == last
  {
  }

  lemma ChainBeginsEarlier<S, T>(next: (S, T, S) -> bool, first: S, step: T, states: seq<S>, steps: seq<T>)
    requires IsChain(next, states, steps) && next(first, step, states[0])
    ensures IsChain(next, [first] + states, [step] + steps)
    ensures ([first] + states)[0] == first && ([first] + states)[|[step] + steps|] == states[|steps|]
  {
  }

  /** What every step keeps holds all along a chain that begins with it. */
  lemma {:induction false} ChainKeeps<S(!new), T(!new)>(next: (S, T, S) -> bool, inv: S -> bool, states: seq<S>, steps: seq<T>, k: nat)
    requires IsChain(next, states, steps) && inv(states[0]) && k <= |steps|
    requires forall s, t, s' :: inv(s) && next(s, t, s') ==> inv(s')
    ensures inv(states[k])
  {
    if k > 0 {
      ChainKeeps(next, inv, states, steps, k - 1);
      assert next(states[k - 1], steps[k - 1], states[k]);
    }
  }

  /** Where every step lessens a load, or costs something, a chain is no longer than the load and the costs. */
  lemma {:induction false} ChainIsBounded<S(!new), T(!new)>(next: (S, T, S) -> bool, inv: S -> bool, load: S -> nat, cost: T -> nat,
                                                            states: seq<S>, steps: seq<T>)
    requires IsChain(next, states, steps) && inv(states[0])
    requires forall s, t, s' :: inv(s) && next(s, t, s') ==> inv(s') && load(s') + 1 <= load(s) + cost(t)
    ensures |steps| <= load(states[0]) + Total(steps, cost)
  {
    if steps != [] {
      assert next(states[0], steps[0], states[1]);
      assert states[1..][0] == states[1];
      ChainIsBounded(next, inv, load, cost, states[1..], steps[1..]);
    }
  }

  /** Some chain of `next` goes from `a` to `b`. */
  ghost predicate Connects<S(!new), T(!new)>(next: (S, T, S) -> bool, a: S, b: S) {
    exists states: seq<S>, steps: seq<T> :: IsChain(next, states, steps) && states[0] == a && states[|steps|] == b
  }

  lemma ConnectsSelf<S(!new), T(!new)>(next: (S, T, S) -> bool, a: S)
    ensures Connects(next, a, a)
  {
    var none: seq<T> := [];
    assert IsChain(next, [a], none);
  }

  lemma ConnectsEarlier<S(!new), T(!new)>(next: (S, T, S) -> bool, a: S, step: T, b: S, c: S)
    requires next(a, step, b) && Connects(next, b, c)
    ensures Connects(next, a, c)
  {
    var states: seq<S>, steps: seq<T> :| IsChain(next, states, steps) && states[0] == b && states[|steps|] == c;
    ChainBeginsEarlier(next, a, step, states, steps);
  }

  lemma ConnectsAcross<S(!new), T(!new)>(next: (S, T, S) -> bool, a: S, b: S, c: S)
    requires Connects(next, a, b) && Connects(next, b, c)
    ensures Connects(next, a, c)
  {
    var states: seq<S>, steps: seq<T> :| IsChain(next, states, steps) && states[0] == a && states[|steps|] == b;
    ChainConnects(next, states, steps, 0, c);
  }

  lemma {:induction false} ChainConnects<S(!new), T(!new)>(next: (S, T, S) -> bool, states: seq<S>, steps: seq<T>, k: nat, c: S)
    requires IsChain(next, states, steps) && k <= |steps| && Connects(next, states[|steps|], c)
    ensures Connects(next, states[k], c)
    decreases |steps| - k
  {
    if k < |steps| {
      ChainConnects(next, states, steps, k + 1, c);
      ConnectsEarlier(next, states[k], steps[k], states[k + 1], c);
    }
  }
}
