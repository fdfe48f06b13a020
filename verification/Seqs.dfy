/** Maps and folds over sequences, with the concatenation laws the parsers' proofs use. */
module Seqs {

  function Map<A, B>(f: A -> B, xs: seq<A>): (ys: seq<B>)
    ensures |ys| == |xs|
    ensures forall i :: 0 <= i < |xs| ==> ys[i] == f(xs[i])
  {
    if xs == [] then [] else [f(xs[0])] + Map(f, xs[1..])
  }

  function Fold<S, A>(f: (S, A) -> S, st: S, xs: seq<A>): S {
    if xs == [] then st else Fold(f, f(st, xs[0]), xs[1..])
  }

  /** The concatenation of f over the elements. */
  function FlatMap<A, B>(f: A -> seq<B>, xs: seq<A>): seq<B> {
    if xs == [] then [] else f(xs[0]) + FlatMap(f, xs[1..])
  }

  lemma MapConcat<A, B>(f: A -> B, a: seq<A>, b: seq<A>)
    ensures Map(f, a + b) == Map(f, a) + Map(f, b)
  {
  }

  lemma {:induction false} FoldConcat<S, A>(f: (S, A) -> S, st: S, a: seq<A>, b: seq<A>)
    ensures Fold(f, st, a + b) == Fold(f, Fold(f, st, a), b)
  {
    if a == [] {
      assert a + b == b;
    } else {
      assert (a + b)[1..] == a[1..] + b;
      FoldConcat(f, f(st, a[0]), a[1..], b);
    }
  }

  lemma FoldCons<S, A>(f: (S, A) -> S, st: S, x: A, xs: seq<A>)
    ensures Fold(f, st, [x] + xs) == Fold(f, f(st, x), xs)
  {
    assert ([x] + xs)[1..] == xs;
  }

  lemma FoldOne<S, A>(f: (S, A) -> S, st: S, x: A)
    ensures Fold(f, st, [x]) == f(st, x)
  {
  }

  lemma FoldTwo<S, A>(f: (S, A) -> S, st: S, x: A, y: A)
    ensures Fold(f, st, [x, y]) == f(f(st, x), y)
  {
    FoldCons(f, st, x, [y]);
    assert [x] + [y] == [x, y];
  }

  /** One more element at the end: what a left-to-right loop does. */
  lemma FoldSnoc<S, A>(f: (S, A) -> S, st: S, xs: seq<A>, k: nat)
    requires k < |xs|
    ensures Fold(f, st, xs[..k + 1]) == f(Fold(f, st, xs[..k]), xs[k])
  {
    FoldConcat(f, st, xs[..k], [xs[k]]);
    assert xs[..k + 1] == xs[..k] + [xs[k]];
  }

  lemma MapSnoc<A, B>(f: A -> B, xs: seq<A>, k: nat)
    requires k < |xs|
    ensures Map(f, xs[..k + 1]) == Map(f, xs[..k]) + [f(xs[k])]
  {
  }

  lemma {:induction false} FlatMapConcat<A, B>(f: A -> seq<B>, a: seq<A>, b: seq<A>)
    ensures FlatMap(f, a + b) == FlatMap(f, a) + FlatMap(f, b)
  {
    if a == [] {
      assert a + b == b;
    } else {
      assert (a + b)[1..] == a[1..] + b;
      FlatMapConcat(f, a[1..], b);
    }
  }

  lemma FlatMapSnoc<A, B>(f: A -> seq<B>, xs: seq<A>, k: nat)
    requires k < |xs|
    ensures FlatMap(f, xs[..k + 1]) == FlatMap(f, xs[..k]) + f(xs[k])
  {
    FlatMapConcat(f, xs[..k], [xs[k]]);
    assert xs[..k + 1] == xs[..k] + [xs[k]];
    assert FlatMap(f, [xs[k]]) == f(xs[k]);
  }

  lemma MapTwo<A, B>(f: A -> B, x: A, y: A)
    ensures Map(f, [x, y]) == [f(x), f(y)]
  {
  }

  lemma MapThree<A, B>(f: A -> B, x: A, y: A, z: A)
    ensures Map(f, [x, y, z]) == [f(x), f(y), f(z)]
  {
  }

  lemma MapConcatFour<A, B>(f: A -> B, a: seq<A>, b: seq<A>, c: seq<A>, d: seq<A>)
    ensures Map(f, a + b + c + d) == Map(f, a) + Map(f, b) + Map(f, c) + Map(f, d)
  {
    MapConcat(f, a, b);
    MapConcat(f, a + b, c);
    MapConcat(f, a + b + c, d);
  }

  lemma FoldConcatFour<S, A>(f: (S, A) -> S, st: S, a: seq<A>, b: seq<A>, c: seq<A>, d: seq<A>)
    ensures Fold(f, st, a + b + c + d) == Fold(f, Fold(f, Fold(f, Fold(f, st, a), b), c), d)
  {
    FoldConcat(f, st, a, b);
    FoldConcat(f, st, a + b, c);
    FoldConcat(f, st, a + b + c, d);
  }

  function Sum<A>(f: A -> nat, xs: seq<A>): nat {
    if xs == [] then 0 else f(xs[0]) + Sum(f, xs[1..])
  }

  lemma {:induction false} SumConcat<A>(f: A -> nat, a: seq<A>, b: seq<A>)
    ensures Sum(f, a + b) == Sum(f, a) + Sum(f, b)
  {
    if a == [] {
      assert a + b == b;
    } else {
      assert (a + b)[1..] == a[1..] + b;
      SumConcat(f, a[1..], b);
    }
  }

  lemma SumSnoc<A>(f: A -> nat, a: seq<A>, x: A)
    ensures Sum(f, a + [x]) == Sum(f, a) + f(x)
  {
    SumConcat(f, a, [x]);
  }

  lemma {:induction false} SumZero<A>(f: A -> nat, xs: seq<A>)
    ensures Sum(f, xs) == 0 <==> forall i :: 0 <= i < |xs| ==> f(xs[i]) == 0
  {
    if xs != [] {
      SumZero(f, xs[1..]);
      assert xs == [xs[0]] + xs[1..];
      assert forall i :: 1 <= i < |xs| ==> xs[i] == xs[1..][i - 1];
    }
  }

  lemma SumTwo<A>(f: A -> nat, x: A, y: A)
    ensures Sum(f, [x, y]) == f(x) + f(y)
  {
    assert [x, y][1..] == [y];
    assert Sum(f, [y]) == f(y) + Sum(f, []);
  }

  lemma MapOne<A, B>(f: A -> B, x: A)
    ensures Map(f, [x]) == [f(x)]
  {
  }

  lemma {:induction false} SumUpdate<A>(f: A -> nat, xs: seq<A>, i: nat, y: A)
    requires i < |xs|
    ensures Sum(f, xs[i := y]) + f(xs[i]) == Sum(f, xs) + f(y)
  {
    if i == 0 {
      assert xs[i := y][1..] == xs[1..];
    } else {
      SumUpdate(f, xs[1..], i - 1, y);
      assert xs[i := y][1..] == xs[1..][i - 1 := y];
    }
  }

  /** How often bit holds along a fold: at each element, in the state the ones before it
      lead to. */
  function CountAlong<S, A>(step: (S, A) -> S, bit: (S, A) -> nat, st: S, xs: seq<A>): nat
    decreases |xs|
  {
    if xs == [] then 0 else bit(st, xs[0]) + CountAlong(step, bit, step(st, xs[0]), xs[1..])
  }

  lemma {:induction false} CountAlongZero<S, A>(step: (S, A) -> S, bit: (S, A) -> nat, st: S, xs: seq<A>)
    ensures CountAlong(step, bit, st, xs) == 0 <==> forall k :: 0 <= k < |xs| ==>
            bit(Fold(step, st, xs[..k]), xs[k]) == 0
    decreases |xs|
  {
    if xs != [] {
      var next, rest := step(st, xs[0]), xs[1..];
      CountAlongZero(step, bit, next, rest);
      assert Fold(step, st, xs[..0]) == st;
      forall k | 0 <= k < |rest|
        ensures Fold(step, st, xs[..k + 1]) == Fold(step, next, rest[..k]) && xs[k + 1] == rest[k]
      {
        assert xs[..k + 1] == [xs[0]] + rest[..k];
        FoldCons(step, st, xs[0], rest[..k]);
      }
      assert forall k :: 1 <= k < |xs| ==>
             Fold(step, st, xs[..k]) == Fold(step, next, rest[..k - 1]) && xs[k] == rest[k - 1] by {
        assert forall k :: 1 <= k < |xs| ==> xs[..k] == xs[..(k - 1) + 1];
      }
    }
  }
}
