/** A run of operations on a state, one after the other. */
module Folds {
  function Fold<S, O>(step: (S, O) -> S, s: S, ops: seq<O>): S
    decreases |ops|
  {
    if ops == [] then s else Fold(step, step(s, ops[0]), ops[1..])
  }

  lemma {:induction false} FoldSplit<S, O>(step: (S, O) -> S, s: S, xs: seq<O>, ys: seq<O>)
    ensures Fold(step, s, xs + ys) == Fold(step, Fold(step, s, xs), ys)
    decreases |xs|
  {
    if xs == [] {
      assert xs + ys == ys;
    } else {
      FoldSplit(step, step(s, xs[0]), xs[1..], ys);
      assert (xs + ys)[1..] == xs[1..] + ys;
    }
  }

  /** The state after the first `j` operations is reached from the state after the first `i`. */
  lemma FoldFrom<S, O>(step: (S, O) -> S, s: S, run: seq<O>, i: nat, j: nat)
    requires i <= j <= |run|
    ensures Fold(step, s, run[..j]) == Fold(step, Fold(step, s, run[..i]), run[i..j])
  {
    assert run[..j] == run[..i] + run[i..j];
    FoldSplit(step, s, run[..i], run[i..j]);
  }

  lemma FoldNext<S, O>(step: (S, O) -> S, s: S, run: seq<O>, i: nat)
    requires i < |run|
    ensures Fold(step, s, run[..i + 1]) == step(Fold(step, s, run[..i]), run[i])
  {
    FoldFrom(step, s, run, i, i + 1);
    assert run[i..i + 1] == [run[i]];
    assert [run[i]][1..] == [];
  }
}
