/** Reference (whole-sequence) definitions that the cursor adapters are
    proved against. None of them mentions a cursor: each one says, for a
    complete source sequence, what iterating an adapter over it should yield.
 */
module Seqs {

  /** `map f`: the i-th output is `f` of the i-th input. */
  function Map<T, U>(f: T -> U, xs: seq<T>): (r: seq<U>)
    ensures |r| == |xs|
    ensures forall i :: 0 <= i < |xs| ==> r[i] == f(xs[i])
  {
    seq(|xs|, i requires 0 <= i < |xs| => f(xs[i]))
  }

  /** Order-preserving `filter p`. */
  function Filter<T>(p: T -> bool, xs: seq<T>): (r: seq<T>)
  {
    if xs == [] then []
    else (if p(xs[0]) then [xs[0]] else []) + Filter(p, xs[1..])
  }

  /** The filter keeps only elements of the input that pass, and is no
      longer than the input. */
  lemma {:induction false} FilterSound<T>(p: T -> bool, xs: seq<T>)
    ensures |Filter(p, xs)| <= |xs|
    ensures forall x :: x in Filter(p, xs) ==> x in xs && p(x)
    decreases |xs|
  {
    if xs != [] {
      FilterSound(p, xs[1..]);
    }
  }

  function Min(a: int, b: int): int {
    if a <= b then a else b
  }

  /** Lockstep pairing, truncated to the shorter input. */
  function Zip<A, B>(xs: seq<A>, ys: seq<B>): (r: seq<(A, B)>)
    ensures |r| == Min(|xs|, |ys|)
    ensures forall i :: 0 <= i < |r| ==> r[i] == (xs[i], ys[i])
  {
    seq(Min(|xs|, |ys|), i requires 0 <= i < Min(|xs|, |ys|) => (xs[i], ys[i]))
  }

  /** One-level flattening of the expansions `f(x)` of every element, in order. */
  function FlatMap<T, U>(f: T -> seq<U>, xs: seq<T>): (r: seq<U>)
  {
    if xs == [] then [] else f(xs[0]) + FlatMap(f, xs[1..])
  }

  /** Left fold: `f(...f(f(a, xs[0]), xs[1])..., xs[n-1])`. */
  function FoldLeft<A, T>(f: (A, T) -> A, a: A, xs: seq<T>): A
  {
    if xs == [] then a else FoldLeft(f, f(a, xs[0]), xs[1..])
  }

  /** `Filter` commutes with `Map` once the predicate is pulled back along
      the mapping function. */
  lemma {:induction false} FilterMap<T, U>(p: U -> bool, f: T -> U, xs: seq<T>)
    ensures Filter(p, Map(f, xs)) == Map(f, Filter(x => p(f(x)), xs))
    decreases |xs|
  {
    if xs != [] {
      assert Map(f, xs)[1..] == Map(f, xs[1..]);
      FilterMap(p, f, xs[1..]);
    }
  }

  /** Mapping twice is mapping once with the composition. */
  lemma MapMap<T, U, W>(f: T -> U, g: U -> W, xs: seq<T>)
    ensures Map(g, Map(f, xs)) == Map(x => g(f(x)), xs)
  {
  }

  /** Filtering skips a stretch whose elements all fail the predicate. */
  lemma {:induction false} FilterSkipsRejected<T>(p: T -> bool, xs: seq<T>, a: nat, b: nat)
    requires a <= b <= |xs|
    requires forall k :: a <= k < b ==> !p(xs[k])
    ensures Filter(p, xs[a..]) == Filter(p, xs[b..])
    decreases b - a
  {
    if a < b {
      assert xs[a..][1..] == xs[a + 1..];
      FilterSkipsRejected(p, xs, a + 1, b);
    }
  }

  /** Filtering keeps a suffix whose elements all pass the predicate whole. */
  lemma {:induction false} FilterKeepsAll<T>(p: T -> bool, xs: seq<T>, a: nat)
    requires a <= |xs|
    requires forall k :: a <= k < |xs| ==> p(xs[k])
    ensures Filter(p, xs[a..]) == xs[a..]
    decreases |xs| - a
  {
    if a < |xs| {
      assert xs[a..][1..] == xs[a + 1..];
      FilterKeepsAll(p, xs, a + 1);
    }
  }

  /** The filter of a non-empty suffix whose head is kept. */
  lemma FilterKeepsHead<T>(p: T -> bool, xs: seq<T>, a: nat)
    requires a < |xs| && p(xs[a])
    ensures Filter(p, xs[a..]) == [xs[a]] + Filter(p, xs[a + 1..])
  {
    assert xs[a..][1..] == xs[a + 1..];
  }

  /** Unfolding `FlatMap` on a non-empty suffix. */
  lemma FlatMapHead<T, U>(f: T -> seq<U>, xs: seq<T>, a: nat)
    requires a < |xs|
    ensures FlatMap(f, xs[a..]) == f(xs[a]) + FlatMap(f, xs[a + 1..])
  {
    assert xs[a..][1..] == xs[a + 1..];
  }
}
