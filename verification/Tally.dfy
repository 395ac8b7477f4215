/**
 Sums over the list of agents of a protocol.

 Every protocol below keeps its threads, tasks and handles in one sequence that
 only grows, and states conservation laws as sums of weights over that sequence.
 A step rewrites one entry or appends one, so two lemmas carry every such law
 from state to state.
 */
module Tally {

  /** A condition as a weight. */
  function One(b: bool): nat { if b then 1 else 0 }

  function Min(a: nat, b: nat): nat { if a < b then a else b }

  function Max(a: nat, b: nat): nat { if a < b then b else a }

  function Sum<T>(xs: seq<T>, weight: T -> nat): nat
  {
    if xs == [] then 0 else Sum(xs[..|xs| - 1], weight) + weight(xs[|xs| - 1])
  }

  lemma {:induction false} SumUpdate<T>(xs: seq<T>, i: nat, x: T, weight: T -> nat)
    requires i < |xs|
    ensures Sum(xs[i := x], weight) == Sum(xs, weight) - weight(xs[i]) + weight(x)
  {
    var ys := xs[i := x];
    var n := |xs| - 1;
    if i == n {
      assert ys[..n] == xs[..n];
    } else {
      assert ys[..n] == xs[..n][i := x];
      SumUpdate(xs[..n], i, x, weight);
    }
  }

  lemma SumAppend<T>(xs: seq<T>, x: T, weight: T -> nat)
    ensures Sum(xs + [x], weight) == Sum(xs, weight) + weight(x)
  {
    assert (xs + [x])[..|xs|] == xs;
  }

  /** The sum, from the front. */
  lemma {:induction false} SumFirst<T>(xs: seq<T>, weight: T -> nat)
    requires xs != []
    ensures Sum(xs, weight) == weight(xs[0]) + Sum(xs[1..], weight)
  {
    if |xs| > 1 {
      SumFirst(xs[..|xs| - 1], weight);
      assert xs[..|xs| - 1][1..] == xs[1..][..|xs| - 2];
    }
  }

  /** One entry never weighs more than all of them together. */
  lemma {:induction false} SumMember<T>(xs: seq<T>, i: nat, weight: T -> nat)
    requires i < |xs|
    ensures weight(xs[i]) <= Sum(xs, weight)
  {
    if i < |xs| - 1 {
      SumMember(xs[..|xs| - 1], i, weight);
    }
  }

  /** Neither do two different ones. */
  lemma {:induction false} SumPair<T>(xs: seq<T>, i: nat, j: nat, weight: T -> nat)
    requires i < j < |xs|
    ensures weight(xs[i]) + weight(xs[j]) <= Sum(xs, weight)
  {
    var n := |xs| - 1;
    if j == n {
      SumMember(xs[..n], i, weight);
    } else {
      SumPair(xs[..n], i, j, weight);
    }
  }

  /** A positive sum has a positive term. */
  lemma {:induction false} SumWitness<T>(xs: seq<T>, weight: T -> nat) returns (i: nat)
    requires Sum(xs, weight) > 0
    ensures i < |xs| && weight(xs[i]) > 0
  {
    var n := |xs| - 1;
    if weight(xs[n]) > 0 {
      i := n;
    } else {
      i := SumWitness(xs[..n], weight);
    }
  }

  lemma {:induction false} SumZero<T>(xs: seq<T>, weight: T -> nat)
    requires forall i | 0 <= i < |xs| :: weight(xs[i]) == 0
    ensures Sum(xs, weight) == 0
  {
    if xs != [] {
      SumZero(xs[..|xs| - 1], weight);
    }
  }

  /** Term by term no more, in all no more. */
  lemma {:induction false} SumAtMost<T>(xs: seq<T>, weight: T -> nat, other: T -> nat)
    requires forall i | 0 <= i < |xs| :: weight(xs[i]) <= other(xs[i])
    ensures Sum(xs, weight) <= Sum(xs, other)
  {
    if xs != [] {
      SumAtMost(xs[..|xs| - 1], weight, other);
    }
  }
}
