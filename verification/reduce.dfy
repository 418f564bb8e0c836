/** The terminal fold (`reduce_aux` and the four `reduce` overloads): walk
    the source once from begin to end, combining an accumulator with each
    element, starting from the seed.

    The source declares `reduce_aux` to return the ELEMENT type `N` while it
    computes a value of the accumulator type `R`; the overloads then return
    that `N` as an `R`. So the folded value passes through `N` on its way
    out. `ReduceAsWritten` models that round trip with explicit conversions;
    `Fold` is the fold the library evidently intends, and the one the rest
    of the model uses.
 */
module Reduce {
  import Seqs

  /** The loop of `reduce_aux`: an empty source returns the seed; otherwise
      every element is combined once, in order, into the accumulator. */
  method Fold<A, T>(f: (A, T) -> A, xs: seq<T>, def: A) returns (r: A)
    ensures r == Seqs.FoldLeft(f, def, xs)
    ensures xs == [] ==> r == def
  {
    if xs == [] {
      return def;
    }
    var value := def;
    var i := 0;
    while i < |xs|
      invariant 0 <= i <= |xs|
      invariant Seqs.FoldLeft(f, value, xs[i..]) == Seqs.FoldLeft(f, def, xs)
    {
      assert xs[i..][1..] == xs[i + 1..];
      value := f(value, xs[i]);
      i := i + 1;
    }
    return value;
  }

  /** `reduce(f, c, def)` as written: the folded value is converted to the
      element type `N` (`narrow`) and back to the accumulator type `R`
      (`widen`). */
  function ReduceAsWritten<R, N>(f: (R, N) -> R, xs: seq<N>, def: R, narrow: R -> N, widen: N -> R): R {
    widen(narrow(Seqs.FoldLeft(f, def, xs)))
  }

  /** The conversion of an `int` to a signed 8-bit element type: wraps
      modulo 256 into [-128, 127]. */
  function ToInt8(x: int): (r: int)
    ensures -128 <= r < 128
    ensures (r - x) % 256 == 0
  {
    (x + 128) % 256 - 128
  }

  /** The sum of `xs` as a left fold from seed 0. */
  function Add(a: int, b: int): int {
    a + b
  }

  /** Summing 200 into an `int` over signed 8-bit elements, as written,
      returns -56, although the fold computes 200. */
  lemma ReduceNarrowsThroughElementType()
    ensures Seqs.FoldLeft(Add, 0, [100, 100]) == 200
    ensures ReduceAsWritten(Add, [100, 100], 0, ToInt8, (n: int) => n) == -56
  {
  }

  /** Summing `int` elements into an `int` through a signed 8-bit element
      type: the written reduce returns the sum exactly when the sum lies in
      [-128, 127]; every other sum comes back wrapped. */
  lemma ReduceAsWrittenAgreesWhenRepresentable(xs: seq<int>)
    ensures (ReduceAsWritten(Add, xs, 0, ToInt8, (n: int) => n) == Seqs.FoldLeft(Add, 0, xs))
        <==> (-128 <= Seqs.FoldLeft(Add, 0, xs) < 128)
  {
    var v := Seqs.FoldLeft(Add, 0, xs);
    if -128 <= v < 128 {
      assert (v + 128) % 256 == v + 128;
    }
  }

  /** The fold distributes over concatenation: folding `xs + ys` folds `ys`
      starting from the fold of `xs`. So the single pass could stop and
      resume at any element. */
  lemma {:induction false} FoldAppend<A, T>(f: (A, T) -> A, a: A, xs: seq<T>, ys: seq<T>)
    ensures Seqs.FoldLeft(f, a, xs + ys) == Seqs.FoldLeft(f, Seqs.FoldLeft(f, a, xs), ys)
    decreases |xs|
  {
    if xs != [] {
      assert (xs + ys)[1..] == xs[1..] + ys;
      FoldAppend(f, f(a, xs[0]), xs[1..], ys);
    } else {
      assert xs + ys == ys;
    }
  }

  /** The element last in the source is combined last. */
  lemma FoldLast<A, T>(f: (A, T) -> A, a: A, xs: seq<T>, x: T)
    ensures Seqs.FoldLeft(f, a, xs + [x]) == f(Seqs.FoldLeft(f, a, xs), x)
  {
    FoldAppend(f, a, xs, [x]);
  }
}
