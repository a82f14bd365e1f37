/**
 * `random.shuffle(x)`: the Fisher-Yates pass that, for i from len(x)-1 down
 * to 1, swaps x[i] with x[j] for a random j in [0, i]. The random choices are
 * an input here: draws[i] is the j drawn for index i.
 */
module Shuffle {

  /** One drawn index per position, each within the range the pass draws from. */
  predicate ValidDraws(draws: seq<nat>, n: nat) {
    |draws| == n && forall i :: 0 <= i < n ==> draws[i] <= i
  }

  function Swap<T>(xs: seq<T>, i: nat, j: nat): (r: seq<T>)
    requires i < |xs| && j < |xs|
    ensures |r| == |xs| && multiset(r) == multiset(xs)
    ensures r[i] == xs[j] && r[j] == xs[i]
    ensures forall k :: 0 <= k < |xs| && k != i && k != j ==> r[k] == xs[k]
  {
    xs[i := xs[j]][j := xs[i]]
  }

  /** The swaps for indices i-1 down to 1. */
  function ShuffleBelow<T>(xs: seq<T>, draws: seq<nat>, i: nat): seq<T>
    requires i <= |xs| && ValidDraws(draws, |xs|)
    decreases i
  {
    if i <= 1 then xs else ShuffleBelow(Swap(xs, i - 1, draws[i - 1]), draws, i - 1)
  }

  function Shuffled<T>(xs: seq<T>, draws: seq<nat>): seq<T>
    requires ValidDraws(draws, |xs|)
  {
    ShuffleBelow(xs, draws, |xs|)
  }

  lemma {:induction false} ShuffleBelowPermutes<T>(xs: seq<T>, draws: seq<nat>, i: nat)
    requires i <= |xs| && ValidDraws(draws, |xs|)
    ensures |ShuffleBelow(xs, draws, i)| == |xs|
    ensures multiset(ShuffleBelow(xs, draws, i)) == multiset(xs)
    decreases i
  {
    if i > 1 {
      ShuffleBelowPermutes(Swap(xs, i - 1, draws[i - 1]), draws, i - 1);
    }
  }

  /** The shuffled roster holds the same agents, each as often as before. */
  lemma ShuffledIsPermutation<T>(xs: seq<T>, draws: seq<nat>)
    requires ValidDraws(draws, |xs|)
    ensures |Shuffled(xs, draws)| == |xs|
    ensures multiset(Shuffled(xs, draws)) == multiset(xs)
  {
    ShuffleBelowPermutes(xs, draws, |xs|);
  }
}
