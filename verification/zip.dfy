/** The zip adapter (`it::ZipIterator` with `zip_t`), for two sources: a
    pair of component cursors advanced in lockstep, each with its own end,
    and a `finish` flag that is the OR over the components of "this
    component is at its end".
 */
module ZipIterator {
  import Seqs

  /** Component cursors `a`, `b`, their ends, and the derived finished flag. */
  datatype Cursor = Cursor(a: nat, b: nat, endA: nat, endB: nat, finish: bool)

  /** `is_end` / `check<T,N>::eq`: some component equals its own end. */
  predicate IsEnd(a: nat, b: nat, endA: nat, endB: nat) {
    a == endA || b == endB
  }

  /** The two-tuple constructor: computes `finish` immediately. */
  function Make(a: nat, b: nat, endA: nat, endB: nat): Cursor {
    Cursor(a, b, endA, endB, IsEnd(a, b, endA, endB))
  }

  /** `zip_t::begin`: every source's begin paired with its end. */
  function Begin<A, B>(xs: seq<A>, ys: seq<B>): Cursor {
    Make(0, 0, |xs|, |ys|)
  }

  /** `zip_t::end`: every component at its end. */
  function End<A, B>(xs: seq<A>, ys: seq<B>): Cursor {
    Make(|xs|, |ys|, |xs|, |ys|)
  }

  ghost predicate Valid<A, B>(xs: seq<A>, ys: seq<B>, c: Cursor) {
    && c.a <= c.endA == |xs|
    && c.b <= c.endB == |ys|
    && c.finish == IsEnd(c.a, c.b, c.endA, c.endB)
  }

  /** `operator==` as written: the finished flags agree, or the component
      cursors agree. Two unfinished cursors therefore always compare equal. */
  predicate Eq(c: Cursor, d: Cursor) {
    c.finish == d.finish || (c.a == d.a && c.b == d.b)
  }

  /** The equality the adapter evidently intends (the rule the filter
      adapter uses): both finished, or the component cursors agree. */
  predicate EqIntended(c: Cursor, d: Cursor) {
    (c.finish && d.finish) || (c.a == d.a && c.b == d.b)
  }

  /** `operator*`: asserts not finished, then the pair of current values. */
  function Deref<A, B>(xs: seq<A>, ys: seq<B>, c: Cursor): (A, B)
    requires Valid(xs, ys, c) && !c.finish
  {
    (xs[c.a], ys[c.b])
  }

  /** Prefix `operator++`: advance every component by one and recompute
      `finish`. Advancing a component already at its end is undefined in
      the source, hence the precondition. */
  function Step<A, B>(xs: seq<A>, ys: seq<B>, c: Cursor): (r: Cursor)
    requires Valid(xs, ys, c) && !c.finish
    ensures Valid(xs, ys, r)
  {
    Make(c.a + 1, c.b + 1, c.endA, c.endB)
  }

  /** Postfix `operator++`: the stepped cursor and the copy it returns. */
  function PostIncrement<A, B>(xs: seq<A>, ys: seq<B>, c: Cursor): (Cursor, Cursor)
    requires Valid(xs, ys, c) && !c.finish
  {
    (Step(xs, ys, c), c)
  }

  function StepN<A, B>(xs: seq<A>, ys: seq<B>, c: Cursor, n: nat): (r: Cursor)
    requires Valid(xs, ys, c)
    requires c.a + n <= |xs| && c.b + n <= |ys|
    ensures Valid(xs, ys, r)
    decreases n
  {
    if n == 0 then c else StepN(xs, ys, Step(xs, ys, c), n - 1)
  }

  /** `operator[]`: the pair `i` positions ahead. */
  function At<A, B>(xs: seq<A>, ys: seq<B>, c: Cursor, i: nat): (A, B)
    requires c.a + i < |xs| && c.b + i < |ys|
  {
    (xs[c.a + i], ys[c.b + i])
  }

  /** `operator+ (int)`: shift every component and recompute `finish`. */
  function Plus<A, B>(xs: seq<A>, ys: seq<B>, c: Cursor, i: int): Cursor
    requires 0 <= c.a + i <= |xs| && 0 <= c.b + i <= |ys|
  {
    Make(c.a + i, c.b + i, c.endA, c.endB)
  }

  /** `operator- (int)`: shift every component back and recompute `finish`. */
  function Minus<A, B>(xs: seq<A>, ys: seq<B>, c: Cursor, i: int): Cursor
    requires 0 <= c.a - i <= |xs| && 0 <= c.b - i <= |ys|
  {
    Make(c.a - i, c.b - i, c.endA, c.endB)
  }

  /** `operator- (const S&)`: the smallest per-component distance. The
      source stores the distances as unsigned, so a negative one would
      wrap; the precondition rules that out. */
  function Distance(c: Cursor, d: Cursor): int
    requires d.a <= c.a && d.b <= c.b
  {
    Seqs.Min(c.a - d.a, c.b - d.b)
  }

  /** Iterate from `c` until it compares equal to `End`. */
  function Drain<A, B>(xs: seq<A>, ys: seq<B>, c: Cursor): seq<(A, B)>
    requires Valid(xs, ys, c)
    decreases |xs| - c.a
  {
    if EqIntended(c, End(xs, ys)) then []
    else [Deref(xs, ys, c)] + Drain(xs, ys, Step(xs, ys, c))
  }

  function Materialise<A, B>(xs: seq<A>, ys: seq<B>): seq<(A, B)> {
    Drain(xs, ys, Begin(xs, ys))
  }

  /** Against the end cursor the written and the intended equality agree,
      and both say exactly "finished": so iterating to the end is the same
      under either. */
  lemma EqAgainstEnd<A, B>(xs: seq<A>, ys: seq<B>, c: Cursor)
    requires Valid(xs, ys, c)
    ensures End(xs, ys).finish
    ensures Eq(c, End(xs, ys)) <==> c.finish
    ensures EqIntended(c, End(xs, ys)) <==> c.finish
  {
  }

  /** A cursor is finished exactly when one of its components is at its end. */
  lemma FinishedIffSomeComponentAtEnd<A, B>(xs: seq<A>, ys: seq<B>, c: Cursor)
    requires Valid(xs, ys, c)
    ensures c.finish <==> (c.a == |xs| || c.b == |ys|)
  {
  }

  /** Draining from a valid cursor pairs the remaining elements positionally,
      stopping at the shorter remainder. */
  lemma {:induction false} DrainIsZip<A, B>(xs: seq<A>, ys: seq<B>, c: Cursor)
    requires Valid(xs, ys, c)
    ensures Drain(xs, ys, c) == Seqs.Zip(xs[c.a..], ys[c.b..])
    decreases |xs| - c.a
  {
    if !c.finish {
      DrainIsZip(xs, ys, Step(xs, ys, c));
    }
  }

  /** Materialising the zip yields the positional pairing, as long as the
      shorter input. */
  lemma MaterialiseIsZip<A, B>(xs: seq<A>, ys: seq<B>)
    ensures Materialise(xs, ys) == Seqs.Zip(xs, ys)
    ensures |Materialise(xs, ys)| == Seqs.Min(|xs|, |ys|)
  {
    DrainIsZip(xs, ys, Begin(xs, ys));
  }

  /** Begin differs from end exactly when both sources are non-empty. */
  lemma BeginIsEndIffSomeEmpty<A, B>(xs: seq<A>, ys: seq<B>)
    ensures Eq(Begin(xs, ys), End(xs, ys)) <==> (xs == [] || ys == [])
  {
  }

  /** `n` lockstep steps from `c` move both components by `n`. */
  lemma {:induction false} StepNPosition<A, B>(xs: seq<A>, ys: seq<B>, c: Cursor, n: nat)
    requires Valid(xs, ys, c)
    requires c.a + n <= |xs| && c.b + n <= |ys|
    ensures StepN(xs, ys, c, n).a == c.a + n && StepN(xs, ys, c, n).b == c.b + n
    decreases n
  {
    if n > 0 {
      StepNPosition(xs, ys, Step(xs, ys, c), n - 1);
    }
  }

  /** Jumping agrees with stepping, indexed access agrees with jumping then
      dereferencing, jumping back undoes a jump, and the distance of a jump
      is its length. */
  lemma RandomAccessAgrees<A, B>(xs: seq<A>, ys: seq<B>, c: Cursor, i: nat)
    requires Valid(xs, ys, c)
    requires c.a + i <= |xs| && c.b + i <= |ys|
    ensures Plus(xs, ys, c, i) == StepN(xs, ys, c, i)
    ensures c.a + i < |xs| && c.b + i < |ys| ==>
              At(xs, ys, c, i) == Deref(xs, ys, Plus(xs, ys, c, i))
    ensures Minus(xs, ys, Plus(xs, ys, c, i), i) == c
    ensures Distance(Plus(xs, ys, c, i), c) == i
  {
    StepNPosition(xs, ys, c, i);
  }

  /** `end - begin` is the length of the shorter source, which is the
      number of pairs the zip yields. */
  lemma DistanceIsShortest<A, B>(xs: seq<A>, ys: seq<B>)
    ensures Distance(End(xs, ys), Begin(xs, ys)) == Seqs.Min(|xs|, |ys|)
    ensures Distance(End(xs, ys), Begin(xs, ys)) == |Materialise(xs, ys)|
  {
    MaterialiseIsZip(xs, ys);
  }

  /** As written: on two sources of length 3, the begin cursor and the
      cursor one step on compare equal although they stand on different
      elements. */
  lemma EqConflatesUnfinished()
    ensures var xs, ys := [1, 2, 3], [4, 5, 6];
            var c := Begin(xs, ys);
            && c.a != Step(xs, ys, c).a
            && Deref(xs, ys, c) != Deref(xs, ys, Step(xs, ys, c))
            && Eq(c, Step(xs, ys, c))
  {
  }

  /** The intended equality identifies cursors reached from begin exactly
      when they were reached by the same number of steps. */
  lemma EqIntendedIsPosition<A, B>(xs: seq<A>, ys: seq<B>, k: nat, j: nat)
    requires k <= Seqs.Min(|xs|, |ys|) && j <= Seqs.Min(|xs|, |ys|)
    ensures EqIntended(StepN(xs, ys, Begin(xs, ys), k), StepN(xs, ys, Begin(xs, ys), j)) <==> k == j
  {
    StepNPosition(xs, ys, Begin(xs, ys), k);
    StepNPosition(xs, ys, Begin(xs, ys), j);
  }
}
