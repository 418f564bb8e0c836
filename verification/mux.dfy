/** The group adapter (`it::MuxIterator`): each step hands the source
    cursor and the source end to a caller-supplied consumer, which advances
    the cursor by as many elements as it likes and returns one output
    value. A `pre_end` flag delays the end by one step after the consumer
    drains the source, so that the last value is still yielded, once.
 */
module MuxIterator {

  /** What one consumer call produces: where it left the source cursor,
      and the value it returned. */
  datatype Consumed<V> = Consumed(next: nat, value: V)

  /** The consumer `f(it, end)`: reads the source from position `s` up to
      `e` and reports where it stopped. */
  type Consumer<!T, V> = (seq<T>, nat, nat) -> Consumed<V>

  /** The cached `last_value`: default-constructed until the first call. */
  datatype Cache<V> = Unset | Cached(value: V)

  /** A group cursor: source position `s`, source end `e`, the cached
      value and the `pre_end` flag. */
  datatype Cursor<V> = Cursor(s: nat, e: nat, last: Cache<V>, preEnd: bool)

  /** The consumer makes progress: called with elements left, it consumes
      at least one and never runs past the end. The source does not check
      this; without it iteration does not terminate. */
  ghost predicate Progresses<T, V>(f: Consumer<T, V>, xs: seq<T>, e: nat) {
    forall s: nat :: s < e ==> s < f(xs, s, e).next <= e
  }

  /** The constructor: on an empty range no consumer call and no `pre_end`;
      otherwise one call, its value cached, and `pre_end` set when that call
      drained the source. */
  function Make<T, V>(f: Consumer<T, V>, xs: seq<T>, s: nat, e: nat): Cursor<V> {
    if s == e then Cursor(s, e, Unset, false)
    else
      var r := f(xs, s, e);
      Cursor(r.next, e, Cached(r.value), r.next == e)
  }

  function Begin<T, V>(f: Consumer<T, V>, xs: seq<T>): Cursor<V> {
    Make(f, xs, 0, |xs|)
  }

  function End<T, V>(f: Consumer<T, V>, xs: seq<T>): Cursor<V> {
    Make(f, xs, |xs|, |xs|)
  }

  /** `operator==`: same source position and same `pre_end`. */
  predicate Eq<V>(c: Cursor<V>, d: Cursor<V>) {
    c.s == d.s && c.preEnd == d.preEnd
  }

  /** `operator*`: the cached value; no consumer call. */
  function Deref<V>(c: Cursor<V>): V
    requires c.last.Cached?
  {
    c.last.value
  }

  /** Prefix `operator++`: with `pre_end` set, clear it (the source asserts
      `s == e`) without calling the consumer; otherwise call the consumer
      again, cache its value and recompute `pre_end`. */
  function Step<T, V>(f: Consumer<T, V>, xs: seq<T>, c: Cursor<V>): Cursor<V>
    requires c.preEnd ==> c.s == c.e
  {
    if c.preEnd then c.(preEnd := false)
    else
      var r := f(xs, c.s, c.e);
      Cursor(r.next, c.e, Cached(r.value), r.next == c.e)
  }

  /** The states iteration passes through: before the end every cursor
      holds a value, and `pre_end` is only ever set with the source drained. */
  ghost predicate Valid<T, V>(f: Consumer<T, V>, xs: seq<T>, c: Cursor<V>) {
    && c.s <= c.e == |xs|
    && (c.preEnd ==> c.s == c.e)
    && (!Eq(c, End(f, xs)) ==> c.last.Cached?)
  }

  /** The values of the successive consumer calls on `[s, e)`, each call
      starting where the previous one stopped: what grouping should yield. */
  function Groups<T, V>(f: Consumer<T, V>, xs: seq<T>, s: nat, e: nat): seq<V>
    requires s <= e && Progresses(f, xs, e)
    decreases e - s
  {
    if s == e then []
    else
      var r := f(xs, s, e);
      [r.value] + Groups(f, xs, r.next, e)
  }

  /** Iterate from `c` until it compares equal to `End`. */
  function Drain<T, V>(f: Consumer<T, V>, xs: seq<T>, c: Cursor<V>): seq<V>
    requires Valid(f, xs, c) && Progresses(f, xs, |xs|)
    decreases 2 * (c.e - c.s) + (if c.preEnd then 1 else 0)
  {
    if Eq(c, End(f, xs)) then []
    else [Deref(c)] + Drain(f, xs, Step(f, xs, c))
  }

  function Materialise<T, V>(f: Consumer<T, V>, xs: seq<T>): seq<V>
    requires Progresses(f, xs, |xs|)
  {
    Drain(f, xs, Begin(f, xs))
  }

  /** The constructor on an empty source calls no consumer and gives a
      cursor equal to the end; on a non-empty one it caches the first
      call's value and sets `pre_end` exactly when that call drained the
      source. */
  lemma MakeCallsOnce<T, V>(f: Consumer<T, V>, xs: seq<T>)
    requires Progresses(f, xs, |xs|)
    ensures Valid(f, xs, Begin(f, xs))
    ensures xs == [] ==> Eq(Begin(f, xs), End(f, xs)) && Begin(f, xs).last == Unset
    ensures xs != [] ==>
              && Begin(f, xs).last == Cached(f(xs, 0, |xs|).value)
              && Begin(f, xs).s == f(xs, 0, |xs|).next
              && (Begin(f, xs).preEnd <==> f(xs, 0, |xs|).next == |xs|)
  {
  }

  /** A cursor with `pre_end` set is not yet the end; one step, with no
      consumer call, makes it the end and leaves the cache untouched. So
      the value of the draining call is yielded exactly once. */
  lemma PreEndClosesOnce<T, V>(f: Consumer<T, V>, xs: seq<T>, c: Cursor<V>)
    requires Valid(f, xs, c) && Progresses(f, xs, |xs|) && c.preEnd
    ensures !Eq(c, End(f, xs))
    ensures Eq(Step(f, xs, c), End(f, xs))
    ensures Step(f, xs, c).last == c.last
    ensures Drain(f, xs, c) == [Deref(c)]
  {
  }

  /** Stepping keeps a cursor valid. */
  lemma StepValid<T, V>(f: Consumer<T, V>, xs: seq<T>, c: Cursor<V>)
    requires Valid(f, xs, c) && Progresses(f, xs, |xs|) && !Eq(c, End(f, xs))
    ensures Valid(f, xs, Step(f, xs, c))
  {
  }

  /** Draining a cursor yields its cached value (if it is not the end)
      followed by the values of the consumer calls still to come. */
  lemma {:induction false} DrainIsGroups<T, V>(f: Consumer<T, V>, xs: seq<T>, c: Cursor<V>)
    requires Valid(f, xs, c) && Progresses(f, xs, |xs|)
    ensures Drain(f, xs, c) ==
              if Eq(c, End(f, xs)) then [] else [Deref(c)] + Groups(f, xs, c.s, |xs|)
    decreases 2 * (c.e - c.s) + (if c.preEnd then 1 else 0)
  {
    if !Eq(c, End(f, xs)) {
      var n := Step(f, xs, c);
      DrainIsGroups(f, xs, n);
      if !c.preEnd {
        assert c.s < |xs|;
        assert !Eq(n, End(f, xs));
      }
    }
  }

  /** Materialising yields one output per consumer call, in call order: the
      value of every call, the draining one included, exactly once. */
  lemma MaterialiseIsGroups<T, V>(f: Consumer<T, V>, xs: seq<T>)
    requires Progresses(f, xs, |xs|)
    ensures Materialise(f, xs) == Groups(f, xs, 0, |xs|)
  {
    DrainIsGroups(f, xs, Begin(f, xs));
  }
}
