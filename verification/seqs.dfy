/**
 Sequence combinators shared by the compiler and its proofs. Every emission
 loop of the compiler has the shape "for each element, append a fixed block
 of operations", which is `FlatMap`; filtering and counting are `FlatMap`
 with a block of at most one element.
 */
module Seqs {

  /** The blocks f(x) for x in xs, concatenated in the order of xs. */
  function FlatMap<T, U>(xs: seq<T>, f: T -> seq<U>): seq<U>
  {
    if xs == [] then [] else f(xs[0]) + FlatMap(xs[1..], f)
  }

  /** The elements of xs satisfying p, in their original order. */
  function Filter<T>(xs: seq<T>, p: T -> bool): seq<T>
  {
    FlatMap(xs, x => if p(x) then [x] else [])
  }

  /** How many elements of xs satisfy p. */
  function Count<T>(xs: seq<T>, p: T -> bool): nat
  {
    |Filter(xs, p)|
  }

  /** FlatMap distributes over concatenation of its input. */
  lemma {:induction false} FlatMapAppend<T, U>(xs: seq<T>, ys: seq<T>, f: T -> seq<U>)
    ensures FlatMap(xs + ys, f) == FlatMap(xs, f) + FlatMap(ys, f)
  {
    if xs == [] {
      assert xs + ys == ys;
    } else {
      assert (xs + ys)[1..] == xs[1..] + ys;
      FlatMapAppend(xs[1..], ys, f);
    }
  }

  lemma FlatMapSingle<T, U>(x: T, f: T -> seq<U>)
    ensures FlatMap([x], f) == f(x)
  {
    assert [x][1..] == [];
    assert FlatMap([x], f) == f(x) + FlatMap([], f);
  }

  /** Appending one element appends its block: the step of an emission loop. */
  lemma FlatMapSnoc<T, U>(xs: seq<T>, x: T, f: T -> seq<U>)
    ensures FlatMap(xs + [x], f) == FlatMap(xs, f) + f(x)
  {
    FlatMapAppend(xs, [x], f);
    FlatMapSingle(x, f);
  }

  /** When every block has length k, the result has length k * |xs|. */
  lemma {:induction false} FlatMapLength<T, U>(xs: seq<T>, f: T -> seq<U>, k: nat)
    requires forall i :: 0 <= i < |xs| ==> |f(xs[i])| == k
    ensures |FlatMap(xs, f)| == k * |xs|
  {
    if xs != [] {
      assert forall i :: 0 <= i < |xs[1..]| ==> xs[1..][i] == xs[i + 1];
      FlatMapLength(xs[1..], f, k);
    }
  }

  /** When every block has length k, block i sits at offsets k*i .. k*i+k. */
  lemma {:induction false} FlatMapBlock<T, U>(xs: seq<T>, f: T -> seq<U>, k: nat, i: nat)
    requires forall j :: 0 <= j < |xs| ==> |f(xs[j])| == k
    requires i < |xs|
    ensures k * i + k <= |FlatMap(xs, f)|
    ensures FlatMap(xs, f)[k * i .. k * i + k] == f(xs[i])
  {
    FlatMapLength(xs, f, k);
    assert k * i + k <= k * |xs| by {
      assert k * (i + 1) <= k * |xs| by { MulMonotone(k, i + 1, |xs|); }
    }
    var head, rest := f(xs[0]), FlatMap(xs[1..], f);
    assert FlatMap(xs, f) == head + rest;
    if i > 0 {
      assert forall j :: 0 <= j < |xs[1..]| ==> xs[1..][j] == xs[j + 1];
      FlatMapBlock(xs[1..], f, k, i - 1);
      assert k * i == k + k * (i - 1);
      assert (head + rest)[k * i .. k * i + k] == rest[k * (i - 1) .. k * (i - 1) + k];
    }
  }

  /** A slice inside the middle part of a three-part concatenation. */
  lemma SliceOfMiddle<T>(a: seq<T>, b: seq<T>, c: seq<T>, lo: nat, hi: nat)
    requires lo <= hi <= |b|
    ensures (a + b + c)[|a| + lo .. |a| + hi] == b[lo..hi]
  {
    assert forall j :: |a| + lo <= j < |a| + hi ==> (a + b + c)[j] == b[j - |a|];
  }

  lemma MulMonotone(k: nat, a: nat, b: nat)
    requires a <= b
    ensures k * a <= k * b
  {
  }

  /** Counting distributes over concatenation. */
  lemma CountAppend<T>(xs: seq<T>, ys: seq<T>, p: T -> bool)
    ensures Count(xs + ys, p) == Count(xs, p) + Count(ys, p)
  {
    FlatMapAppend(xs, ys, x => if p(x) then [x] else []);
  }

  /** Counting over a single element. */
  lemma CountSingle<T>(x: T, p: T -> bool)
    ensures Count([x], p) == if p(x) then 1 else 0
  {
    FlatMapSingle(x, x => if p(x) then [x] else []);
  }

  /** Counting peels off the first element. */
  lemma CountCons<T>(xs: seq<T>, p: T -> bool)
    requires xs != []
    ensures Count(xs, p) == (if p(xs[0]) then 1 else 0) + Count(xs[1..], p)
  {
  }

  /** Nothing is counted when no element satisfies p. */
  lemma {:induction false} CountNone<T>(xs: seq<T>, p: T -> bool)
    requires forall i :: 0 <= i < |xs| ==> !p(xs[i])
    ensures Count(xs, p) == 0
  {
    if xs != [] {
      assert forall i :: 0 <= i < |xs[1..]| ==> xs[1..][i] == xs[i + 1];
      CountNone(xs[1..], p);
      CountCons(xs, p);
    }
  }

  /** Everything is counted when every element satisfies p. */
  lemma {:induction false} CountAll<T>(xs: seq<T>, p: T -> bool)
    requires forall i :: 0 <= i < |xs| ==> p(xs[i])
    ensures Count(xs, p) == |xs|
  {
    if xs != [] {
      assert forall i :: 0 <= i < |xs[1..]| ==> xs[1..][i] == xs[i + 1];
      CountAll(xs[1..], p);
      CountCons(xs, p);
    }
  }
}
