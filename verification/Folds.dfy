/** Left folds, used for every run of a state machine over a sequence of inputs, and flat maps. */
module Folds {

  datatype Option<+T> = None | Some(value: T)

  function Fold<S, X>(step: (S, X) -> S, s: S, xs: seq<X>): S {
    if xs == [] then s else Fold(step, step(s, xs[0]), xs[1..])
  }

  lemma {:induction false} FoldConcat<S, X>(step: (S, X) -> S, s: S, xs: seq<X>, ys: seq<X>)
    ensures Fold(step, s, xs + ys) == Fold(step, Fold(step, s, xs), ys)
  {
    if xs == [] {
      assert xs + ys == ys;
    } else {
      assert (xs + ys)[0] == xs[0] && (xs + ys)[1..] == xs[1..] + ys;
      FoldConcat(step, step(s, xs[0]), xs[1..], ys);
    }
  }

  lemma FoldOne<S, X>(step: (S, X) -> S, s: S, x: X)
    ensures Fold(step, s, [x]) == step(s, x)
  {
    assert [x][1..] == [];
  }

  lemma FoldTwo<S, X>(step: (S, X) -> S, s: S, x: X, y: X)
    ensures Fold(step, s, [x, y]) == step(step(s, x), y)
  {
    assert [x, y][1..] == [y];
    FoldOne(step, step(s, x), y);
  }

  lemma FoldFour<S, X>(step: (S, X) -> S, s: S, a: X, b: X, c: X, d: X)
    ensures Fold(step, s, [a, b, c, d]) == step(step(step(step(s, a), b), c), d)
  {
    assert [a, b, c, d] == [a, b] + [c, d];
    FoldConcat(step, s, [a, b], [c, d]);
    FoldTwo(step, s, a, b);
    FoldTwo(step, Fold(step, s, [a, b]), c, d);
  }

  lemma FoldSnoc<S, X>(step: (S, X) -> S, s: S, xs: seq<X>, x: X)
    ensures Fold(step, s, xs + [x]) == step(Fold(step, s, xs), x)
  {
    FoldConcat(step, s, xs, [x]);
    FoldOne(step, Fold(step, s, xs), x);
  }

  function FlatMap<A, B>(f: A -> seq<B>, xs: seq<A>): seq<B> {
    if xs == [] then [] else FlatMap(f, xs[..|xs| - 1]) + f(xs[|xs| - 1])
  }

  lemma {:induction false} FlatMapConcat<A, B>(f: A -> seq<B>, xs: seq<A>, ys: seq<A>)
    ensures FlatMap(f, xs + ys) == FlatMap(f, xs) + FlatMap(f, ys)
    decreases |ys|
  {
    if ys == [] {
      assert xs + ys == xs;
    } else {
      var n := |ys| - 1;
      assert (xs + ys)[..|xs| + n] == xs + ys[..n];
      FlatMapConcat(f, xs, ys[..n]);
    }
  }

  lemma FlatMapOne<A, B>(f: A -> seq<B>, x: A)
    ensures FlatMap(f, [x]) == f(x)
  {
    assert [x][..0] == [];
    assert FlatMap(f, [x][..0]) == [];
  }

  lemma FlatMapSnoc<A, B>(f: A -> seq<B>, xs: seq<A>, x: A)
    ensures FlatMap(f, xs + [x]) == FlatMap(f, xs) + f(x)
    ensures f(x) == [] ==> FlatMap(f, xs + [x]) == FlatMap(f, xs)
  {
    assert (xs + [x])[..|xs|] == xs;
  }

  lemma {:induction false} FlatMapNothing<A, B>(f: A -> seq<B>, xs: seq<A>)
    requires forall x :: x in xs ==> f(x) == []
    ensures FlatMap(f, xs) == []
    decreases |xs|
  {
    if xs != [] {
      assert xs[|xs| - 1] in xs;
      FlatMapNothing(f, xs[..|xs| - 1]);
    }
  }

  /** How often x occurs. */
  function Times<T(==)>(xs: seq<T>, x: T): nat {
    if xs == [] then 0 else (if xs[0] == x then 1 else 0) + Times(xs[1..], x)
  }

  lemma {:induction false} TimesConcat<T>(xs: seq<T>, ys: seq<T>, x: T)
    ensures Times(xs + ys, x) == Times(xs, x) + Times(ys, x)
  {
    if xs == [] {
      assert xs + ys == ys;
    } else {
      assert (xs + ys)[1..] == xs[1..] + ys;
      TimesConcat(xs[1..], ys, x);
    }
  }

  lemma TimesSnoc<T>(xs: seq<T>, y: T, x: T)
    ensures Times(xs + [y], x) == Times(xs, x) + if y == x then 1 else 0
  {
    TimesConcat(xs, [y], x);
    assert [y][1..] == [];
  }

  lemma {:induction false} TimesIsMultiplicity<T>(xs: seq<T>, x: T)
    ensures Times(xs, x) == multiset(xs)[x]
  {
    if xs != [] {
      assert xs == [xs[0]] + xs[1..];
      TimesIsMultiplicity(xs[1..], x);
    }
  }
}
