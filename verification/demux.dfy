/** The expand adapter (`it::DemuxIterator`): every source element is
    expanded by the function into a sub-sequence that is staged in the
    cursor together with a sub-cursor; stepping walks the staged
    sub-sequence and, when it is used up, expands the next source element.

    As written, an exhausted staged sub-sequence is replaced at most once
    per step, and the constructor does not look past the first expansion,
    so an empty expansion that is not the last one leaves a cursor that is
    neither the end nor dereferenceable. `Settle` and the `...Skipping`
    members give the behaviour evidently intended, which skips empty
    expansions.
 */
module DemuxIterator {
  import Seqs

  /** Source position `s`, source end `e`, the staged expansion
      (`last_result`) and the sub-cursor `sub` into it (`local_s`; its end
      `local_e` is `|staged|`). */
  datatype Cursor<U> = Cursor(s: nat, e: nat, staged: seq<U>, sub: nat)

  /** The constructor: on a non-empty range expand the first element and
      advance the source; on an empty one stage nothing. */
  function Make<T, U>(f: T -> seq<U>, xs: seq<T>, s: nat, e: nat): Cursor<U>
    requires s <= e <= |xs|
  {
    if s != e then Cursor(s + 1, e, f(xs[s]), 0) else Cursor(s, e, [], 0)
  }

  function Begin<T, U>(f: T -> seq<U>, xs: seq<T>): Cursor<U> {
    Make(f, xs, 0, |xs|)
  }

  function End<T, U>(f: T -> seq<U>, xs: seq<T>): Cursor<U> {
    Make(f, xs, |xs|, |xs|)
  }

  /** `local_e - local_s`: what is left of the staged expansion. */
  function Remaining<U>(c: Cursor<U>): int {
    |c.staged| - c.sub
  }

  /** `operator==`: equal remaining sub-span and equal source position. */
  predicate Eq<U>(c: Cursor<U>, d: Cursor<U>) {
    Remaining(c) == Remaining(d) && c.s == d.s
  }

  /** `operator*`: the current element of the staged expansion. */
  function Deref<U>(c: Cursor<U>): U
    requires c.sub < |c.staged|
  {
    c.staged[c.sub]
  }

  /** A cursor whose parts are in range. */
  ghost predicate WellFormed<T, U>(xs: seq<T>, c: Cursor<U>) {
    c.s <= c.e == |xs| && c.sub <= |c.staged|
  }

  /** `plusplus`: advance the sub-cursor if it is not exhausted; then, if it
      is exhausted and source elements remain, expand the next one (once)
      and advance the source. */
  function Step<T, U>(f: T -> seq<U>, xs: seq<T>, c: Cursor<U>): Cursor<U>
    requires WellFormed(xs, c)
  {
    var sub := if c.sub != |c.staged| then c.sub + 1 else c.sub;
    if sub == |c.staged| && c.s != c.e then Cursor(c.s + 1, c.e, f(xs[c.s]), 0)
    else c.(sub := sub)
  }

  /** The condition under which the adapter as written flattens: every
      expansion is non-empty, except possibly the last one. */
  ghost predicate NonEmptyBeforeLast<T, U>(f: T -> seq<U>, xs: seq<T>) {
    forall k :: 0 <= k < |xs| - 1 ==> |f(xs[k])| > 0
  }

  /** A cursor that is dereferenceable unless the source is exhausted. */
  ghost predicate Settled<T, U>(xs: seq<T>, c: Cursor<U>) {
    WellFormed(xs, c) && (c.sub == |c.staged| ==> c.s == c.e)
  }

  /** One more than the size of every expansion still to come: bounds the
      number of steps left, empty expansions included. */
  function Pending<T, U>(f: T -> seq<U>, xs: seq<T>, s: nat): nat
    requires s <= |xs|
    decreases |xs| - s
  {
    if s == |xs| then 0 else 1 + |f(xs[s])| + Pending(f, xs, s + 1)
  }

  /** Iterate from `c` until it compares equal to `End`, the adapter as
      written. */
  function Drain<T, U>(f: T -> seq<U>, xs: seq<T>, c: Cursor<U>): seq<U>
    requires NonEmptyBeforeLast(f, xs) && Settled(xs, c)
    decreases Remaining(c) + Pending(f, xs, c.s)
  {
    if Eq(c, End(f, xs)) then []
    else
      StepKeepsSettled(f, xs, c);
      [Deref(c)] + Drain(f, xs, Step(f, xs, c))
  }

  /** Under `NonEmptyBeforeLast`, stepping a settled cursor short of the end
      gives a settled cursor. */
  lemma StepKeepsSettled<T, U>(f: T -> seq<U>, xs: seq<T>, c: Cursor<U>)
    requires NonEmptyBeforeLast(f, xs) && Settled(xs, c) && !Eq(c, End(f, xs))
    ensures Settled(xs, Step(f, xs, c))
  {
    if c.s < |xs| - 1 {
      assert |f(xs[c.s])| > 0;
    }
  }

  /** Every step short of the end uses up one unit of the measure. */
  lemma StepDecreases<T, U>(f: T -> seq<U>, xs: seq<T>, c: Cursor<U>)
    requires WellFormed(xs, c) && !Eq(c, End(f, xs))
    ensures WellFormed(xs, Step(f, xs, c))
    ensures Remaining(Step(f, xs, c)) + Pending(f, xs, Step(f, xs, c).s) < Remaining(c) + Pending(f, xs, c.s)
  {
  }

  function Materialise<T, U>(f: T -> seq<U>, xs: seq<T>): seq<U>
    requires NonEmptyBeforeLast(f, xs)
  {
    Drain(f, xs, Begin(f, xs))
  }

  /** The end cursor stages nothing; a well-formed cursor equals it exactly
      when both its staged expansion and the source are exhausted. */
  lemma EqEndIffExhausted<T, U>(f: T -> seq<U>, xs: seq<T>, c: Cursor<U>)
    requires WellFormed(xs, c)
    ensures End(f, xs).staged == [] && End(f, xs).s == |xs|
    ensures Eq(c, End(f, xs)) <==> c.sub == |c.staged| && c.s == |xs|
  {
  }

  /** The constructor on a non-empty source stages the first expansion at
      its start and advances the source; on an empty source it equals the
      end. */
  lemma MakeExpandsFirst<T, U>(f: T -> seq<U>, xs: seq<T>)
    ensures xs != [] ==> Begin(f, xs) == Cursor(1, |xs|, f(xs[0]), 0)
    ensures xs == [] ==> Eq(Begin(f, xs), End(f, xs)) && Begin(f, xs).staged == []
  {
  }

  /** One step from a dereferenceable cursor yields its current element and
      loses nothing else: what is left to flatten after the step is what
      was left before it, minus that element. */
  lemma StepLosesOnlyCurrent<T, U>(f: T -> seq<U>, xs: seq<T>, c: Cursor<U>)
    requires WellFormed(xs, c) && c.sub < |c.staged|
    ensures var d := Step(f, xs, c);
            [Deref(c)] + (d.staged[d.sub..] + Seqs.FlatMap(f, xs[d.s..]))
              == c.staged[c.sub..] + Seqs.FlatMap(f, xs[c.s..])
  {
    assert c.staged[c.sub..] == [c.staged[c.sub]] + c.staged[c.sub + 1..];
    if c.sub + 1 == |c.staged| && c.s != c.e {
      Seqs.FlatMapHead(f, xs, c.s);
      assert f(xs[c.s])[0..] == f(xs[c.s]);
    }
  }

  /** Draining a settled cursor yields the rest of the staged expansion
      followed by the expansions of the remaining source elements. */
  lemma {:induction false} DrainIsFlatMap<T, U>(f: T -> seq<U>, xs: seq<T>, c: Cursor<U>)
    requires NonEmptyBeforeLast(f, xs) && Settled(xs, c)
    ensures Drain(f, xs, c) == c.staged[c.sub..] + Seqs.FlatMap(f, xs[c.s..])
    decreases Remaining(c) + Pending(f, xs, c.s)
  {
    if !Eq(c, End(f, xs)) {
      StepKeepsSettled(f, xs, c);
      DrainIsFlatMap(f, xs, Step(f, xs, c));
      StepLosesOnlyCurrent(f, xs, c);
    }
  }

  /** When every expansion but possibly the last is non-empty, materialising
      flattens the expansions one level, in order. */
  lemma MaterialiseIsFlatMap<T, U>(f: T -> seq<U>, xs: seq<T>)
    requires NonEmptyBeforeLast(f, xs)
    ensures Materialise(f, xs) == Seqs.FlatMap(f, xs)
  {
    var b := Begin(f, xs);
    if xs != [] {
      assert Settled(xs, b) by {
        if |xs| > 1 {
          assert |f(xs[0])| > 0;
        }
      }
      DrainIsFlatMap(f, xs, b);
      Seqs.FlatMapHead(f, xs, 0);
    }
  }

  /** As written: over `[0, 1]` with `0` expanding to nothing and `1` to one
      element, the begin cursor is not the end, yet its staged expansion is
      empty, so dereferencing it reads past the expansion. */
  lemma EmptyExpansionNotSkipped()
    ensures var f: int -> seq<char> := x => if x == 0 then [] else ['a'];
            var xs := [0, 1];
            && !Eq(Begin(f, xs), End(f, xs))
            && Begin(f, xs).sub == |Begin(f, xs).staged|
            && Seqs.FlatMap(f, xs) == ['a']
  {
    var f: int -> seq<char> := x => if x == 0 then [] else ['a'];
    var xs := [0, 1];
    assert xs[1..][1..] == [];
  }

  /** Replace an exhausted staged expansion by the next source element's,
      repeatedly, until a non-empty one is staged or the source runs out. */
  function Settle<T, U>(f: T -> seq<U>, xs: seq<T>, c: Cursor<U>): (r: Cursor<U>)
    requires WellFormed(xs, c)
    ensures Settled(xs, r)
    ensures Remaining(r) + Pending(f, xs, r.s) <= Remaining(c) + Pending(f, xs, c.s)
    ensures r.staged[r.sub..] + Seqs.FlatMap(f, xs[r.s..]) ==
            c.staged[c.sub..] + Seqs.FlatMap(f, xs[c.s..])
    decreases c.e - c.s
  {
    if c.sub == |c.staged| && c.s != c.e then
      Seqs.FlatMapHead(f, xs, c.s);
      Settle(f, xs, Cursor(c.s + 1, c.e, f(xs[c.s]), 0))
    else c
  }

  /** The constructor that skips empty expansions. */
  function BeginSkipping<T, U>(f: T -> seq<U>, xs: seq<T>): Cursor<U> {
    Settle(f, xs, Begin(f, xs))
  }

  /** The step that skips empty expansions. */
  function StepSkipping<T, U>(f: T -> seq<U>, xs: seq<T>, c: Cursor<U>): Cursor<U>
    requires WellFormed(xs, c)
  {
    Settle(f, xs, Step(f, xs, c))
  }

  function DrainSkipping<T, U>(f: T -> seq<U>, xs: seq<T>, c: Cursor<U>): seq<U>
    requires Settled(xs, c)
    decreases Remaining(c) + Pending(f, xs, c.s)
  {
    if Eq(c, End(f, xs)) then []
    else
      StepDecreases(f, xs, c);
      [Deref(c)] + DrainSkipping(f, xs, StepSkipping(f, xs, c))
  }

  function MaterialiseSkipping<T, U>(f: T -> seq<U>, xs: seq<T>): seq<U> {
    DrainSkipping(f, xs, BeginSkipping(f, xs))
  }

  /** With empty expansions skipped, draining a settled cursor flattens for
      every expansion function. */
  lemma {:induction false} DrainSkippingIsFlatMap<T, U>(f: T -> seq<U>, xs: seq<T>, c: Cursor<U>)
    requires Settled(xs, c)
    ensures DrainSkipping(f, xs, c) == c.staged[c.sub..] + Seqs.FlatMap(f, xs[c.s..])
    decreases Remaining(c) + Pending(f, xs, c.s)
  {
    if !Eq(c, End(f, xs)) {
      StepDecreases(f, xs, c);
      DrainSkippingIsFlatMap(f, xs, StepSkipping(f, xs, c));
      StepLosesOnlyCurrent(f, xs, c);
    }
  }

  /** With empty expansions skipped, materialising is the flattening of the
      expansions for every expansion function, empty expansions anywhere. */
  lemma MaterialiseSkippingIsFlatMap<T, U>(f: T -> seq<U>, xs: seq<T>)
    ensures MaterialiseSkipping(f, xs) == Seqs.FlatMap(f, xs)
  {
    DrainSkippingIsFlatMap(f, xs, BeginSkipping(f, xs));
    if xs != [] {
      Seqs.FlatMapHead(f, xs, 0);
    }
  }

  /** Where the adapter as written is well behaved, skipping changes
      nothing: settling a settled cursor leaves it as it is. */
  lemma SettleKeepsSettled<T, U>(f: T -> seq<U>, xs: seq<T>, c: Cursor<U>)
    requires Settled(xs, c)
    ensures Settle(f, xs, c) == c
  {
  }
}
