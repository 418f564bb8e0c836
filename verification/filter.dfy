/** The filter adapter (`it::FilterIterator`): a cursor that skips source
    elements failing the predicate, eagerly at construction and on every
    step, and keeps a `finish` flag recording that it reached the end.
 */
module FilterIterator {
  import Seqs

  /** A filter cursor: source position, source end, and the finished flag. */
  datatype Cursor = Cursor(s: nat, end: nat, finish: bool)

  /** Advance from `s` while the end is not reached and the predicate fails:
      the first position at or after `s` whose element satisfies `p`, or `e`. */
  function SkipFrom<T>(p: T -> bool, xs: seq<T>, s: nat, e: nat): (r: nat)
    requires s <= e <= |xs|
    ensures s <= r <= e
    ensures r < e ==> p(xs[r])
    ensures forall k :: s <= k < r ==> !p(xs[k])
    decreases e - s
  {
    if s == e || p(xs[s]) then s else SkipFrom(p, xs, s + 1, e)
  }

  /** The constructor: skip to the first accepted element, then record
      whether the end was reached. */
  function Make<T>(p: T -> bool, xs: seq<T>, b: nat, e: nat): Cursor
    requires b <= e <= |xs|
  {
    var s := SkipFrom(p, xs, b, e);
    Cursor(s, e, e == s)
  }

  function Begin<T>(p: T -> bool, xs: seq<T>): Cursor {
    Make(p, xs, 0, |xs|)
  }

  function End<T>(p: T -> bool, xs: seq<T>): Cursor {
    Make(p, xs, |xs|, |xs|)
  }

  /** What every cursor built by `Make` and `Step` satisfies. */
  ghost predicate Valid<T>(p: T -> bool, xs: seq<T>, c: Cursor) {
    && c.s <= c.end <= |xs|
    && c.finish == (c.s == c.end)
    && (c.s < c.end ==> p(xs[c.s]))
  }

  /** `operator==`: two finished cursors are equal; otherwise compare positions. */
  predicate Eq(a: Cursor, b: Cursor) {
    (a.finish && a.finish == b.finish) || a.s == b.s
  }

  /** `operator*`: asserts `s != end`, then yields the source element unchanged. */
  function Deref<T>(xs: seq<T>, c: Cursor): T
    requires c.s < c.end <= |xs|
  {
    xs[c.s]
  }

  /** Prefix `operator++`: asserts `s != end`, advances at least once and
      then while the predicate fails, and recomputes `finish`. */
  function Step<T>(p: T -> bool, xs: seq<T>, c: Cursor): (r: Cursor)
    requires c.s < c.end <= |xs|
    ensures c.s < r.s <= c.end && r.end == c.end
    ensures forall k :: c.s < k < r.s ==> !p(xs[k])
    ensures Valid(p, xs, r)
  {
    var s := SkipFrom(p, xs, c.s + 1, c.end);
    Cursor(s, c.end, c.end == s)
  }

  /** Postfix `operator++`: the stepped cursor, and the copy taken before
      stepping, which is what the operator returns. */
  function PostIncrement<T>(p: T -> bool, xs: seq<T>, c: Cursor): (Cursor, Cursor)
    requires c.s < c.end <= |xs|
  {
    (Step(p, xs, c), c)
  }

  /** Iterate from `c` until it compares equal to `End`. */
  function Drain<T>(p: T -> bool, xs: seq<T>, c: Cursor): seq<T>
    requires Valid(p, xs, c) && c.end == |xs|
    decreases |xs| - c.s
  {
    if Eq(c, End(p, xs)) then [] else [Deref(xs, c)] + Drain(p, xs, Step(p, xs, c))
  }

  function Materialise<T>(p: T -> bool, xs: seq<T>): seq<T> {
    Drain(p, xs, Begin(p, xs))
  }

  /** The constructor yields a valid cursor that stands on the first
      accepted element (or on the end) and skipped only rejected ones. */
  lemma MakeSkipsRejected<T>(p: T -> bool, xs: seq<T>, b: nat, e: nat)
    requires b <= e <= |xs|
    ensures Valid(p, xs, Make(p, xs, b, e))
    ensures b <= Make(p, xs, b, e).s
    ensures forall k :: b <= k < Make(p, xs, b, e).s ==> !p(xs[k])
    ensures Make(p, xs, b, e).finish <==> forall k :: b <= k < e ==> !p(xs[k])
  {
  }

  /** The end cursor is finished, and a valid cursor equals it exactly when
      it is finished itself. */
  lemma EqEndIffFinished<T>(p: T -> bool, xs: seq<T>, c: Cursor)
    requires Valid(p, xs, c) && c.end == |xs|
    ensures End(p, xs).finish
    ensures Eq(c, End(p, xs)) <==> c.finish
  {
  }

  /** Draining from a valid cursor filters the rest of the source. */
  lemma {:induction false} DrainIsFilter<T>(p: T -> bool, xs: seq<T>, c: Cursor)
    requires Valid(p, xs, c) && c.end == |xs|
    ensures Drain(p, xs, c) == Seqs.Filter(p, xs[c.s..])
    decreases |xs| - c.s
  {
    if c.s < |xs| {
      var n := Step(p, xs, c);
      DrainIsFilter(p, xs, n);
      Seqs.FilterKeepsHead(p, xs, c.s);
      Seqs.FilterSkipsRejected(p, xs, c.s + 1, n.s);
    }
  }

  /** Materialising yields exactly the elements satisfying the predicate,
      in source order. */
  lemma MaterialiseIsFilter<T>(p: T -> bool, xs: seq<T>)
    ensures Materialise(p, xs) == Seqs.Filter(p, xs)
  {
    var b := Begin(p, xs);
    DrainIsFilter(p, xs, b);
    Seqs.FilterSkipsRejected(p, xs, 0, b.s);
  }

  /** Postfix increment returns the cursor it was called on, so `*it++`
      yields the current element while `it` moves on to the remainder. */
  lemma PostIncrementYieldsCurrent<T>(p: T -> bool, xs: seq<T>, c: Cursor)
    requires Valid(p, xs, c) && c.end == |xs| && c.s < c.end
    ensures PostIncrement(p, xs, c).1 == c
    ensures Drain(p, xs, c) == [Deref(xs, PostIncrement(p, xs, c).1)] + Drain(p, xs, PostIncrement(p, xs, c).0)
  {
  }

  /** An always-false predicate gives a begin cursor equal to the end. */
  lemma RejectAllIsEmpty<T>(xs: seq<T>)
    ensures Eq(Begin(_ => false, xs), End(_ => false, xs))
    ensures Materialise(_ => false, xs) == []
  {
  }
}
