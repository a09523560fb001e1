/** Taking the elements of a sequence one after another. */
module Folds {

  function Fold<S, E>(step: (S, E) -> S, s: S, es: seq<E>): S {
    if es == [] then s else step(Fold(step, s, es[..|es| - 1]), es[|es| - 1])
  }

  lemma {:induction false} FoldAppend<S, E>(step: (S, E) -> S, s: S, a: seq<E>, b: seq<E>)
    ensures Fold(step, s, a + b) == Fold(step, Fold(step, s, a), b)
  {
    if b == [] {
      assert a + b == a;
    } else {
      var n := |b| - 1;
      assert (a + b)[..|a| + n] == a + b[..n];
      FoldAppend(step, s, a, b[..n]);
    }
  }

  lemma {:induction false} FoldLast<S, E>(step: (S, E) -> S, s: S, a: seq<E>, e: E)
    ensures Fold(step, s, a + [e]) == step(Fold(step, s, a), e)
  {
    assert (a + [e])[..|a|] == a;
  }

  /** One more element of a longer sequence. */
  lemma {:induction false} FoldNext<S, E>(step: (S, E) -> S, s: S, es: seq<E>, n: nat)
    requires n < |es|
    ensures Fold(step, s, es[..n + 1]) == step(Fold(step, s, es[..n]), es[n])
  {
    assert es[..n + 1][..n] == es[..n];
  }

  lemma {:induction false} FoldAll<S, E>(step: (S, E) -> S, s: S, es: seq<E>)
    ensures Fold(step, s, es[..|es|]) == Fold(step, s, es)
  {
    assert es[..|es|] == es;
  }

  lemma {:induction false} FoldNone<S, E>(step: (S, E) -> S, s: S)
    ensures Fold(step, s, []) == s
  {
  }

  lemma {:induction false} FoldOne<S, E>(step: (S, E) -> S, s: S, e: E)
    ensures Fold(step, s, [e]) == step(s, e)
  {
  }

  lemma {:induction false} FoldTwo<S, E>(step: (S, E) -> S, s: S, e: E, f: E)
    ensures Fold(step, s, [e, f]) == step(step(s, e), f)
  {
    FoldLast(step, s, [e], f);
  }

  lemma {:induction false} FoldThree<S, E>(step: (S, E) -> S, s: S, e: E, f: E, g: E)
    ensures Fold(step, s, [e, f, g]) == step(step(step(s, e), f), g)
  {
    FoldLast(step, s, [e, f], g);
    FoldTwo(step, s, e, f);
    assert [e, f, g] == [e, f] + [g];
  }
}
