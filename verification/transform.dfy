/** The transform adapter (`TransformIterator`): a cursor that holds only
    its source position and applies the mapping function on every
    dereference. The source is a random-access container, so the indexed
    read, jump and distance operations are available (see module Iterators
    for when the C++ enables them).
 */
module TransformIterator {
  import Seqs

  /** A transform cursor: the source cursor `s`, an index into the source. */
  datatype Cursor = Cursor(s: nat)

  /** The three-argument constructor: the end argument is accepted and ignored. */
  function Make(b: nat, e: nat): Cursor {
    Cursor(b)
  }

  function Begin<T>(xs: seq<T>): Cursor {
    Make(0, |xs|)
  }

  function End<T>(xs: seq<T>): Cursor {
    Make(|xs|, |xs|)
  }

  /** `operator==`: equality of the source cursors. */
  predicate Eq(a: Cursor, b: Cursor) {
    a.s == b.s
  }

  /** `operator*`: the function applied to the current source element. */
  function Deref<T, U>(f: T -> U, xs: seq<T>, c: Cursor): U
    requires c.s < |xs|
  {
    f(xs[c.s])
  }

  /** Prefix `operator++`: advance the source cursor. Stepping the end
      cursor is undefined in the source, hence the precondition. */
  function Step<T>(xs: seq<T>, c: Cursor): Cursor
    requires c.s < |xs|
  {
    Cursor(c.s + 1)
  }

  /** `n` prefix steps. */
  function StepN<T>(xs: seq<T>, c: Cursor, n: nat): (r: Cursor)
    requires c.s + n <= |xs|
    ensures r.s <= |xs|
    decreases n
  {
    if n == 0 then c else StepN(xs, Step(xs, c), n - 1)
  }

  /** `operator[]`: read `i` elements ahead without moving. */
  function At<T, U>(f: T -> U, xs: seq<T>, c: Cursor, i: nat): U
    requires c.s + i < |xs|
  {
    f(xs[c.s + i])
  }

  /** `operator+ (int)`: a cursor `i` positions further on. */
  function Plus<T>(xs: seq<T>, c: Cursor, i: int): Cursor
    requires 0 <= c.s + i <= |xs|
  {
    Make(c.s + i, c.s)
  }

  /** `operator- (int)`: a cursor `i` positions back. */
  function Minus<T>(xs: seq<T>, c: Cursor, i: int): Cursor
    requires 0 <= c.s - i <= |xs|
  {
    Make(c.s - i, c.s)
  }

  /** `operator- (const S&)`: the distance of the source cursors. */
  function Distance(a: Cursor, b: Cursor): int {
    a.s - b.s
  }

  /** Iterate from `c` until it compares equal to `End(xs)`, collecting
      every dereferenced value. */
  function Drain<T, U>(f: T -> U, xs: seq<T>, c: Cursor): seq<U>
    requires c.s <= |xs|
    decreases |xs| - c.s
  {
    if Eq(c, End(xs)) then [] else [Deref(f, xs, c)] + Drain(f, xs, Step(xs, c))
  }

  /** Copy the whole chain into a collection: `vector<U>(begin(), end())`. */
  function Materialise<T, U>(f: T -> U, xs: seq<T>): seq<U> {
    Drain(f, xs, Begin(xs))
  }

  /** Draining from any cursor maps the rest of the source. */
  lemma {:induction false} DrainIsMap<T, U>(f: T -> U, xs: seq<T>, c: Cursor)
    requires c.s <= |xs|
    ensures Drain(f, xs, c) == Seqs.Map(f, xs[c.s..])
    decreases |xs| - c.s
  {
    if c.s < |xs| {
      DrainIsMap(f, xs, Step(xs, c));
    }
  }

  /** Materialising a transform over `xs` yields `map f xs`: same length,
      same order, each element mapped. */
  lemma MaterialiseIsMap<T, U>(f: T -> U, xs: seq<T>)
    ensures Materialise(f, xs) == Seqs.Map(f, xs)
  {
    DrainIsMap(f, xs, Begin(xs));
  }

  /** A transform whose source is another transform yields the composition. */
  lemma MaterialiseComposes<T, U, W>(f: T -> U, g: U -> W, xs: seq<T>)
    ensures Materialise(g, Materialise(f, xs)) == Materialise(x => g(f(x)), xs)
  {
    MaterialiseIsMap(f, xs);
    MaterialiseIsMap(g, Materialise(f, xs));
    MaterialiseIsMap(x => g(f(x)), xs);
    Seqs.MapMap(f, g, xs);
  }

  /** Equality looks at the source position only; the end argument given
      at construction plays no part. */
  lemma EqIgnoresEndArgument(b1: nat, e1: nat, b2: nat, e2: nat)
    ensures Eq(Make(b1, e1), Make(b2, e2)) <==> b1 == b2
  {
  }

  /** One prefix step drops exactly the current output from what remains. */
  lemma StepDropsOne<T, U>(f: T -> U, xs: seq<T>, c: Cursor)
    requires c.s < |xs|
    ensures Drain(f, xs, c) == [Deref(f, xs, c)] + Drain(f, xs, Step(xs, c))
    ensures |Drain(f, xs, Step(xs, c))| + 1 == |Drain(f, xs, c)|
  {
    DrainIsMap(f, xs, c);
    DrainIsMap(f, xs, Step(xs, c));
  }

  /** `n` steps land on source position `s + n`. */
  lemma {:induction false} StepNPosition<T>(xs: seq<T>, c: Cursor, n: nat)
    requires c.s + n <= |xs|
    ensures StepN(xs, c, n).s == c.s + n
    decreases n
  {
    if n > 0 {
      StepNPosition(xs, Step(xs, c), n - 1);
    }
  }

  /** Jumping agrees with stepping, and indexed access agrees with jumping
      then dereferencing. */
  lemma RandomAccessAgrees<T, U>(f: T -> U, xs: seq<T>, c: Cursor, i: nat)
    requires c.s + i <= |xs|
    ensures Plus(xs, c, i) == StepN(xs, c, i)
    ensures c.s + i < |xs| ==> At(f, xs, c, i) == Deref(f, xs, Plus(xs, c, i))
  {
    StepNPosition(xs, c, i);
  }

  /** Jumping back undoes jumping forward, and the distance measures the jump. */
  lemma PlusMinusInverse<T>(xs: seq<T>, c: Cursor, i: int)
    requires c.s <= |xs|
    requires 0 <= c.s + i <= |xs|
    ensures Minus(xs, Plus(xs, c, i), i) == c
    ensures Distance(Plus(xs, c, i), c) == i
  {
  }

  /** The random-access facts the source's tests rely on: `end - begin` is
      the length, `begin + n` equals `end`, and the last element is read
      through `end - 1`. */
  lemma BeginEndArithmetic<T, U>(f: T -> U, xs: seq<T>)
    ensures Distance(End(xs), Begin(xs)) == |xs|
    ensures Eq(Plus(xs, Begin(xs), |xs|), End(xs))
    ensures |xs| > 0 ==> Deref(f, xs, Minus(xs, End(xs), 1)) == f(xs[|xs| - 1])
  {
  }
}
