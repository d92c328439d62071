/** Running a list of inputs through a step that may refuse one. */
module Folding {
  import opened Wrappers

  /** The state after all inputs, or None once the step refuses. */
  function FoldAll<S, C>(step: (S, C) -> Option<S>, s: S, inputs: seq<C>): Option<S> {
    if inputs == [] then Some(s)
    else
      var before := FoldAll(step, s, inputs[..|inputs| - 1]);
      if before.None? then None else step(before.value, inputs[|inputs| - 1])
  }

  lemma {:induction false} FoldConcat<S, C>(step: (S, C) -> Option<S>, s: S, a: seq<C>, b: seq<C>)
    ensures FoldAll(step, s, a + b) ==
            (var mid := FoldAll(step, s, a); if mid.None? then None else FoldAll(step, mid.value, b))
  {
    if b == [] {
      assert a + b == a;
    } else {
      FoldConcat(step, s, a, b[..|b| - 1]);
      assert (a + b)[..|a + b| - 1] == a + b[..|b| - 1];
    }
  }

  /** Two steps that agree on corresponding inputs give the same run. */
  lemma {:induction false} FoldAgree<S(!new), C, D>(
    f: (S, C) -> Option<S>, g: (S, D) -> Option<S>, s: S, a: seq<C>, b: seq<D>)
    requires |a| == |b|
    requires forall i, t: S :: 0 <= i < |a| ==> f(t, a[i]) == g(t, b[i])
    ensures FoldAll(f, s, a) == FoldAll(g, s, b)
  {
    if a != [] {
      var n := |a| - 1;
      assert forall i :: 0 <= i < n ==> a[..n][i] == a[i] && b[..n][i] == b[i];
      FoldAgree(f, g, s, a[..n], b[..n]);
    }
  }

  lemma {:induction false} FoldPrefix<S, C>(f: (S, C) -> Option<S>, s: S, a: seq<C>, n: nat)
    requires n <= |a|
    ensures FoldAll(f, s, a).Some? ==> FoldAll(f, s, a[..n]).Some?
  {
    assert a == a[..n] + a[n..];
    FoldConcat(f, s, a[..n], a[n..]);
  }
}
