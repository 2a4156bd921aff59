/** Sequences built element by element. */
module Seqs {

  function FlatMap<T, U>(f: T -> seq<U>, xs: seq<T>): seq<U> {
    if xs == [] then [] else f(xs[0]) + FlatMap(f, xs[1..])
  }

  function Fold<T, U>(f: (U, T) -> U, acc: U, xs: seq<T>): U {
    if xs == [] then acc else Fold(f, f(acc, xs[0]), xs[1..])
  }

  lemma {:induction false} FlatMapAppend<T, U>(f: T -> seq<U>, a: seq<T>, b: seq<T>)
    ensures FlatMap(f, a + b) == FlatMap(f, a) + FlatMap(f, b)
  {
    if a == [] {
      assert a + b == b;
    } else {
      assert (a + b)[1..] == a[1..] + b;
      FlatMapAppend(f, a[1..], b);
    }
  }

  lemma FlatMapOne<T, U>(f: T -> seq<U>, x: T)
    ensures FlatMap(f, [x]) == f(x)
  {
    assert [x][1..] == [];
  }

  lemma {:induction false} FoldAppend<T, U>(f: (U, T) -> U, acc: U, a: seq<T>, b: seq<T>)
    ensures Fold(f, acc, a + b) == Fold(f, Fold(f, acc, a), b)
  {
    if a == [] {
      assert a + b == b;
    } else {
      assert (a + b)[1..] == a[1..] + b;
      FoldAppend(f, f(acc, a[0]), a[1..], b);
    }
  }

  lemma FoldOne<T, U>(f: (U, T) -> U, acc: U, x: T)
    ensures Fold(f, acc, [x]) == f(acc, x)
  {
    assert [x][1..] == [];
  }

  /** One step of a loop that collects what each element contributes. */
  lemma FlatMapStep<T, U>(f: T -> seq<U>, xs: seq<T>, i: nat)
    requires i < |xs|
    ensures FlatMap(f, xs[..i + 1]) == FlatMap(f, xs[..i]) + f(xs[i])
  {
    assert xs[..i + 1] == xs[..i] + [xs[i]];
    FlatMapAppend(f, xs[..i], [xs[i]]);
    FlatMapOne(f, xs[i]);
  }

  lemma FoldStep<T, U>(f: (U, T) -> U, acc: U, xs: seq<T>, i: nat)
    requires i < |xs|
    ensures Fold(f, acc, xs[..i + 1]) == f(Fold(f, acc, xs[..i]), xs[i])
  {
    assert xs[..i + 1] == xs[..i] + [xs[i]];
    FoldAppend(f, acc, xs[..i], [xs[i]]);
    FoldOne(f, Fold(f, acc, xs[..i]), xs[i]);
  }
}
