/** Sums over sequences, shared by every module that adds up money. */
module Sums {

  /** The sum of `f` over `xs`. */
  function SumOf<T(!new)>(xs: seq<T>, f: T -> real): real {
    if xs == [] then 0.0 else f(xs[0]) + SumOf(xs[1..], f)
  }

  lemma {:induction false} SumAppend<T(!new)>(xs: seq<T>, ys: seq<T>, f: T -> real)
    ensures SumOf(xs + ys, f) == SumOf(xs, f) + SumOf(ys, f)
  {
    if xs == [] {
      assert xs + ys == ys;
    } else {
      assert (xs + ys)[1..] == xs[1..] + ys;
      SumAppend(xs[1..], ys, f);
    }
  }

  lemma SumSnoc<T(!new)>(xs: seq<T>, x: T, f: T -> real)
    ensures SumOf(xs + [x], f) == SumOf(xs, f) + f(x)
  {
    SumAppend(xs, [x], f);
  }

  /** One step of a loop that adds up the prefix `xs[..i]`. */
  lemma SumPrefix<T(!new)>(xs: seq<T>, i: nat, f: T -> real)
    requires i < |xs|
    ensures SumOf(xs[..i + 1], f) == SumOf(xs[..i], f) + f(xs[i])
  {
    assert xs[..i + 1] == xs[..i] + [xs[i]];
    SumSnoc(xs[..i], xs[i], f);
  }

  lemma {:induction false} SumCongruent<T(!new)>(xs: seq<T>, f: T -> real, g: T -> real)
    requires forall x | x in xs :: f(x) == g(x)
    ensures SumOf(xs, f) == SumOf(xs, g)
  {
    if xs != [] {
      SumCongruent(xs[1..], f, g);
    }
  }

  lemma {:induction false} SumNonNegative<T(!new)>(xs: seq<T>, f: T -> real)
    requires forall x | x in xs :: f(x) >= 0.0
    ensures SumOf(xs, f) >= 0.0
  {
    if xs != [] {
      SumNonNegative(xs[1..], f);
    }
  }

  lemma {:induction false} SumZero<T(!new)>(xs: seq<T>, f: T -> real)
    requires forall x | x in xs :: f(x) == 0.0
    ensures SumOf(xs, f) == 0.0
  {
    if xs != [] {
      SumZero(xs[1..], f);
    }
  }

  /** f(0) + ... + f(n - 1). */
  function SumTo(n: nat, f: nat -> real): real {
    if n == 0 then 0.0 else SumTo(n - 1, f) + f(n - 1)
  }

  lemma {:induction false} SumToAdd(n: nat, f: nat -> real, g: nat -> real, h: nat -> real)
    requires forall k: nat | k < n :: h(k) == f(k) + g(k)
    ensures SumTo(n, h) == SumTo(n, f) + SumTo(n, g)
  {
    if n != 0 {
      SumToAdd(n - 1, f, g, h);
    }
  }

  /** Changing one summand changes the sum by as much. */
  lemma {:induction false} SumToPoint(n: nat, f: nat -> real, g: nat -> real, k: nat, d: real)
    requires forall j: nat | j < n :: g(j) == if j == k then f(j) + d else f(j)
    ensures SumTo(n, g) == SumTo(n, f) + if k < n then d else 0.0
  {
    if n != 0 {
      SumToPoint(n - 1, f, g, k, d);
    }
  }

  lemma {:induction false} SumToZero(n: nat, f: nat -> real)
    requires forall j: nat | j < n :: f(j) == 0.0
    ensures SumTo(n, f) == 0.0
  {
    if n != 0 {
      SumToZero(n - 1, f);
    }
  }

  /** A sum over a sequence as a sum over its indices. */
  lemma {:induction false} SumOfIndices<T(!new)>(xs: seq<T>, f: T -> real, g: nat -> real, n: nat)
    requires n <= |xs| && forall k: nat | k < n :: g(k) == f(xs[k])
    ensures SumTo(n, g) == SumOf(xs[..n], f)
  {
    if n != 0 {
      SumOfIndices(xs, f, g, n - 1);
      SumPrefix(xs, n - 1, f);
    }
  }
}
