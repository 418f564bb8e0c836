/** The arithmetic sequence generator (`it::SequenceIterator` and
    `sequenece_t`): a cursor holding the current value, the step and the
    remaining count. Equality compares the remaining count only. The count
    is a `size_t`, so its arithmetic wraps modulo 2^64; values are
    unbounded integers here.

    Three members are modelled twice, as written and as evidently intended:
    the postfix increment, the forward jump and the distance. The intended
    versions are the ones the rest of the model uses.
 */
module SequenceIterator {

  /** 2^64: `size_t` arithmetic is modulo this. */
  const SizeModulus: nat := 0x1_0000_0000_0000_0000

  /** `std::numeric_limits<size_t>::max()`, the count of an unbounded sequence. */
  const SizeMax: nat := SizeModulus - 1

  /** An `int` converted to `size_t`. */
  function SizeT(x: int): (r: nat)
    ensures r < SizeModulus
    ensures 0 <= x < SizeModulus ==> r == x
  {
    x % SizeModulus
  }

  /** Current value `v`, the `step`, and the remaining `count`. */
  datatype Cursor = Cursor(v: int, step: int, count: nat)

  /** `sequenece_t::begin`: the initial value, the step and the bound. */
  function Begin(init: int, step: int, count: nat): Cursor
    requires count <= SizeMax
  {
    Cursor(init, step, count)
  }

  /** `sequence(init, step)` without a bound: the count is `SIZE_MAX`. */
  function Unbounded(init: int, step: int): Cursor {
    Begin(init, step, SizeMax)
  }

  /** `sequenece_t::end`: the default cursor, count 0 and step 0. Its value
      is left uninitialised by the source; 0 stands for it here, and nothing
      observes it. */
  function End(): Cursor {
    Cursor(0, 0, 0)
  }

  /** `operator==`: equal remaining counts. */
  predicate Eq(a: Cursor, b: Cursor) {
    a.count == b.count
  }

  /** `operator*`: the current value. */
  function Deref(c: Cursor): int {
    c.v
  }

  /** Prefix `operator++`: asserts `count > 0`, decrements it and adds the step. */
  function Step(c: Cursor): Cursor
    requires c.count > 0
  {
    Cursor(c.v + c.step, c.step, c.count - 1)
  }

  function StepN(c: Cursor, n: nat): Cursor
    requires n <= c.count
    decreases n
  {
    if n == 0 then c else StepN(Step(c), n - 1)
  }

  /** Postfix `operator++` as written: the count is decremented BEFORE the
      copy is taken, so the returned copy holds the old value but the new
      count. Result: (the stepped cursor, the returned copy). */
  function PostIncrementAsWritten(c: Cursor): (Cursor, Cursor)
    requires c.count > 0
  {
    var decremented := c.(count := c.count - 1);
    (Step(c), decremented)
  }

  /** Postfix `operator++` as evidently intended: return the cursor as it
      was before the step. */
  function PostIncrement(c: Cursor): (Cursor, Cursor)
    requires c.count > 0
  {
    (Step(c), c)
  }

  /** `operator[]`: asserts `count - i > 0` in `size_t`, then `v + i*step`. */
  function At(c: Cursor, i: nat): int
    requires SizeT(c.count - i) > 0
  {
    c.v + i * c.step
  }

  /** `operator+ (int)` as written: asserts `count - i > 0` in `size_t`, then
      adds `i*step` to the value and subtracts `i` from the count, in
      `size_t`. */
  function PlusAsWritten(c: Cursor, i: int): Cursor
    requires SizeT(c.count - i) > 0
  {
    Cursor(c.v + i * c.step, c.step, SizeT(c.count - i))
  }

  /** `operator+ (int)` as evidently intended: any jump that keeps the count
      within `[0, SIZE_MAX]`, landing on the end included. */
  function Plus(c: Cursor, i: int): Cursor
    requires 0 <= c.count - i <= SizeMax
  {
    Cursor(c.v + i * c.step, c.step, c.count - i)
  }

  /** `operator- (int)`: asserts `count + i > 0` in `size_t`, subtracts
      `i*step` from the value and adds `i` to the count, in `size_t`. */
  function Minus(c: Cursor, i: int): Cursor
    requires SizeT(c.count + i) > 0
  {
    Cursor(c.v - i * c.step, c.step, SizeT(c.count + i))
  }

  /** `operator- (const S&)` as written: `count - o.count`. */
  function DistanceAsWritten(a: Cursor, b: Cursor): int {
    a.count - b.count
  }

  /** The distance as evidently intended: how many steps lead from `b` to
      `a`, which is how far the count went down. */
  function Distance(a: Cursor, b: Cursor): int {
    b.count - a.count
  }

  /** Iterate from `c` until it compares equal to `End()`. */
  function Drain(c: Cursor): seq<int>
    decreases c.count
  {
    if Eq(c, End()) then [] else [Deref(c)] + Drain(Step(c))
  }

  /** The bounded arithmetic progression `init, init + step, ...` with `n` terms. */
  function Progression(init: int, step: int, n: nat): (r: seq<int>)
    ensures |r| == n
    ensures forall i :: 0 <= i < n ==> r[i] == init + i * step
  {
    seq(n, i requires 0 <= i < n => init + i * step)
  }

  /** After `n` steps the value is `v + n*step` and the count is down by `n`. */
  lemma {:induction false} StepNValue(c: Cursor, n: nat)
    requires n <= c.count
    ensures StepN(c, n) == Cursor(c.v + n * c.step, c.step, c.count - n)
    decreases n
  {
    if n > 0 {
      StepNValue(Step(c), n - 1);
    }
  }

  /** A bound-`n` sequence equals the end after exactly `n` steps. */
  lemma EqEndAfterExactlyCount(init: int, step: int, n: nat, k: nat)
    requires n <= SizeMax && k <= n
    ensures Eq(StepN(Begin(init, step, n), k), End()) <==> k == n
  {
    StepNValue(Begin(init, step, n), k);
  }

  /** Draining from any cursor yields the progression of its remaining count. */
  lemma {:induction false} DrainIsProgression(c: Cursor)
    ensures Drain(c) == Progression(c.v, c.step, c.count)
    decreases c.count
  {
    if c.count > 0 {
      DrainIsProgression(Step(c));
    }
  }

  /** Materialising a bounded sequence yields `init + i*step` for `i < n`. */
  lemma MaterialiseIsProgression(init: int, step: int, n: nat)
    requires n <= SizeMax
    ensures Drain(Begin(init, step, n)) == Progression(init, step, n)
  {
    DrainIsProgression(Begin(init, step, n));
  }

  /** Indexed access reads the value `i` steps ahead, for every `i` the
      count allows. */
  lemma AtAgreesWithStepping(c: Cursor, i: nat)
    requires i < c.count < SizeModulus
    ensures At(c, i) == Deref(StepN(c, i))
  {
    StepNValue(c, i);
  }

  /** The intended jump agrees with stepping, lands on the end for
      `i == count`, is undone by `operator-`, and its distance is `i`. */
  lemma PlusAgreesWithStepping(c: Cursor, i: nat)
    requires i <= c.count <= SizeMax
    ensures Plus(c, i) == StepN(c, i)
    ensures i == c.count ==> Eq(Plus(c, i), End())
    ensures c.count > 0 ==> Minus(Plus(c, i), i) == c
    ensures Distance(Plus(c, i), c) == i
  {
    StepNValue(c, i);
  }

  /** The postfix increment as written returns a copy that is not the
      cursor it was called on: on a one-element sequence the copy already
      equals the end although it still holds the element. */
  lemma PostIncrementAsWrittenReturnsStepped()
    ensures var c := Begin(7, 1, 1);
            && PostIncrementAsWritten(c).1 != c
            && Deref(PostIncrementAsWritten(c).1) == 7
            && Eq(PostIncrementAsWritten(c).1, End())
            && !Eq(c, End())
  {
  }

  /** The intended postfix increment returns the pre-step cursor, so
      `*it++` reads the current value and the returned copy is the end
      exactly when the cursor was. */
  lemma PostIncrementReturnsPrior(c: Cursor)
    requires c.count > 0
    ensures PostIncrement(c).1 == c
    ensures Deref(PostIncrement(c).1) == Deref(c)
    ensures Drain(c) == [Deref(PostIncrement(c).1)] + Drain(PostIncrement(c).0)
  {
  }

  /** The forward jump as written refuses to land on the end (`begin + 3`
      on a bound-3 sequence fails the assertion) and lets a jump past the
      end through with a wrapped, enormous count. */
  lemma PlusAsWrittenGuardIsOffByOne()
    ensures var c := Begin(0, 1, 3);
            && !(SizeT(c.count - 3) > 0)
            && SizeT(c.count - 5) > 0
            && PlusAsWritten(c, 5).count == SizeModulus - 2
  {
  }

  /** As written, the distance from `begin` to `begin + 3` is -3. */
  lemma DistanceAsWrittenHasWrongSign()
    ensures var b := Begin(0, 1, 10);
            DistanceAsWritten(Plus(b, 3), b) == -3
  {
  }

  /** The intended distance from `begin` to `end` is the bound, and it
      counts the steps between any two cursors on one sequence. */
  lemma DistanceCountsSteps(init: int, step: int, n: nat, k: nat)
    requires k <= n <= SizeMax
    ensures Distance(End(), Begin(init, step, n)) == n
    ensures Distance(StepN(Begin(init, step, n), k), Begin(init, step, n)) == k
  {
    StepNValue(Begin(init, step, n), k);
  }
}
