/** Concrete chains from the library's usage examples, with what iterating
    them yields, derived from the general lemmas of each adapter. */
module Scenarios {
  import Seqs
  import TransformIterator
  import FilterIterator
  import ZipIterator
  import MuxIterator
  import DemuxIterator
  import SequenceIterator
  import Reduce
  import Chaineable

  function Inc(x: int): int { x + 1 }
  function Double(x: int): int { 2 * x }
  function Above4(x: int): bool { x > 4 }
  function Above2(x: int): bool { x > 2 }
  function Odd(x: int): bool { x % 2 == 1 }
  function Abs(x: int): int { if x < 0 then -x else x }

  /** `filter(a > 4)` over 0..9 yields 5..9. */
  lemma FilterAboveFour(xs: seq<int>)
    requires xs == [0, 1, 2, 3, 4, 5, 6, 7, 8, 9]
    ensures FilterIterator.Materialise(Above4, xs) == [5, 6, 7, 8, 9]
  {
    FilterIterator.MaterialiseIsFilter(Above4, xs);
    Seqs.FilterSkipsRejected(Above4, xs, 0, 5);
    Seqs.FilterKeepsAll(Above4, xs, 5);
    assert xs[0..] == xs;
  }

  /** Over 0..5, `transform(+1, filter(>2))` yields [4, 5, 6]. */
  lemma FilterThenIncrement(l: seq<int>)
    requires l == [0, 1, 2, 3, 4, 5]
    ensures TransformIterator.Materialise(Inc, FilterIterator.Materialise(Above2, l)) == [4, 5, 6]
  {
    FilterIterator.MaterialiseIsFilter(Above2, l);
    Seqs.FilterSkipsRejected(Above2, l, 0, 3);
    Seqs.FilterKeepsAll(Above2, l, 3);
    assert l[0..] == l;
    TransformIterator.MaterialiseIsMap(Inc, FilterIterator.Materialise(Above2, l));
  }

  /** Over 0..5, `transform(+1)` yields 1..6. */
  lemma IncrementZeroToFive(l: seq<int>)
    requires l == [0, 1, 2, 3, 4, 5]
    ensures TransformIterator.Materialise(Inc, l) == [1, 2, 3, 4, 5, 6]
  {
    TransformIterator.MaterialiseIsMap(Inc, l);
  }

  /** Over 1..6, `filter(>2)` yields 3..6. */
  lemma AboveTwoOfOneToSix(m: seq<int>)
    requires m == [1, 2, 3, 4, 5, 6]
    ensures FilterIterator.Materialise(Above2, m) == [3, 4, 5, 6]
  {
    FilterIterator.MaterialiseIsFilter(Above2, m);
    Seqs.FilterSkipsRejected(Above2, m, 0, 2);
    Seqs.FilterKeepsAll(Above2, m, 2);
    assert m[0..] == m;
  }

  /** Over 0..5, `filter(>2, transform(+1))` yields [3, 4, 5, 6]: the order
      of the stages matters. */
  lemma IncrementThenFilter(l: seq<int>)
    requires l == [0, 1, 2, 3, 4, 5]
    ensures FilterIterator.Materialise(Above2, TransformIterator.Materialise(Inc, l)) == [3, 4, 5, 6]
  {
    IncrementZeroToFive(l);
    AboveTwoOfOneToSix(TransformIterator.Materialise(Inc, l));
  }

  /** Four `+1` stages over 0..5 yield 4..9. */
  lemma FourIncrements(l: seq<int>)
    requires l == [0, 1, 2, 3, 4, 5]
    ensures TransformIterator.Materialise(Inc,
              TransformIterator.Materialise(Inc,
                TransformIterator.Materialise(Inc,
                  TransformIterator.Materialise(Inc, l)))) == [4, 5, 6, 7, 8, 9]
  {
    TransformIterator.MaterialiseIsMap(Inc, l);
    var a := TransformIterator.Materialise(Inc, l);
    TransformIterator.MaterialiseIsMap(Inc, a);
    var b := TransformIterator.Materialise(Inc, a);
    TransformIterator.MaterialiseIsMap(Inc, b);
    var c := TransformIterator.Materialise(Inc, b);
    TransformIterator.MaterialiseIsMap(Inc, c);
  }

  /** `2*(1+x)` as a chain over a chain bound by reference to [1, 1, 2, 2]
      yields [4, 4, 6, 6]. */
  lemma NestedChainOverReference(env: Chaineable.Env<int>, vec: seq<int>)
    requires vec == [1, 1, 2, 2] && env == map["vec" := vec]
    ensures var inner := Chaineable.MaterialiseTransform(Chaineable.Transform(Inc, Chaineable.Lvalue("vec")), env);
            Chaineable.MaterialiseTransform(Chaineable.Transform(Double, Chaineable.Rvalue(inner)), map[])
              == [4, 4, 6, 6]
  {
    Chaineable.NestedTransformsCompose(Inc, Double, Chaineable.Lvalue("vec"), env);
    assert Chaineable.Denoted(Chaineable.Lvalue("vec"), env) == vec;
  }

  /** The odd elements of 1..6 are [1, 3, 5]. */
  lemma OddOfOneToSix(input: seq<int>)
    requires input == [1, 2, 3, 4, 5, 6]
    ensures FilterIterator.Materialise(Odd, input) == [1, 3, 5]
  {
    FilterIterator.MaterialiseIsFilter(Odd, input);
    assert Seqs.Filter(Odd, [1, 2, 3, 4, 5, 6]) == [1, 3, 5];
  }

  /** Zipping 1..6 with the odd absolute values of 1..6 (three of them)
      yields three pairs whose first components are 1, 2, 3. */
  lemma ZipTruncatesToShorter(input: seq<int>)
    requires input == [1, 2, 3, 4, 5, 6]
    ensures var odd := FilterIterator.Materialise(Odd, TransformIterator.Materialise(Abs, input));
            var z := ZipIterator.Materialise(input, odd);
            |z| == 3 && z[0].0 == 1 && z[1].0 == 2 && z[2].0 == 3
  {
    assert TransformIterator.Materialise(Abs, input) == input by {
      TransformIterator.MaterialiseIsMap(Abs, input);
    }
    OddOfOneToSix(input);
    ZipIterator.MaterialiseIsZip(input, FilterIterator.Materialise(Odd, input));
  }

  /** Zipping with an empty chain yields nothing, and its begin is its end. */
  lemma ZipWithEmptyIsEmpty<A, B>(xs: seq<A>, empty: seq<B>)
    requires empty == []
    ensures ZipIterator.Materialise(xs, empty) == []
    ensures ZipIterator.Eq(ZipIterator.Begin(xs, empty), ZipIterator.End(xs, empty))
  {
    ZipIterator.MaterialiseIsZip(xs, empty);
  }

  /** Two equal-length inputs are paired positionally. */
  lemma ZipPairsPositionally(xs: seq<int>, ys: seq<int>)
    requires xs == [1, 2, 3, 4] && ys == [10, 20, 30, 40]
    ensures ZipIterator.Materialise(xs, ys) == [(1, 10), (2, 20), (3, 30), (4, 40)]
  {
    ZipIterator.MaterialiseIsZip(xs, ys);
  }

  /** A consumer that takes up to two elements and returns how many it took. */
  function TakeTwo(xs: seq<int>, s: nat, e: nat): MuxIterator.Consumed<int> {
    if s + 2 <= e then MuxIterator.Consumed(s + 2, 2)
    else if s < e then MuxIterator.Consumed(e, e - s)
    else MuxIterator.Consumed(s, 0)
  }

  /** A consumer that steps over two elements and returns the one it stands
      on then; near the end it returns the last element it read. */
  function TakeTwoReturnThird(xs: seq<int>, s: nat, e: nat): MuxIterator.Consumed<int> {
    if !(s < e <= |xs|) then MuxIterator.Consumed(s, 0)
    else if s + 1 == e then MuxIterator.Consumed(s + 1, xs[s])
    else if s + 2 == e then MuxIterator.Consumed(s + 2, xs[s + 1])
    else MuxIterator.Consumed(s + 2, xs[s + 2])
  }

  /** One output per consumer call: the take-two consumer yields [2] on
      [1, 2] and [2, 1] on [1, 2, 3]. */
  lemma MuxTakeTwo()
    ensures MuxIterator.Materialise(TakeTwo, [1, 2]) == [2]
    ensures MuxIterator.Materialise(TakeTwo, [1, 2, 3]) == [2, 1]
  {
    MuxIterator.MaterialiseIsGroups(TakeTwo, [1, 2]);
    MuxIterator.MaterialiseIsGroups(TakeTwo, [1, 2, 3]);
    assert MuxIterator.Groups(TakeTwo, [1, 2, 3], 2, 3) == [1];
  }

  /** The step-two consumer over 0..9 yields [2, 4, 6, 8, 9]: the last call
      finds only two elements left. */
  lemma MuxTakeTwoReturnThird()
    ensures MuxIterator.Materialise(TakeTwoReturnThird, [0, 1, 2, 3, 4, 5, 6, 7, 8, 9])
              == [2, 4, 6, 8, 9]
  {
    var xs := [0, 1, 2, 3, 4, 5, 6, 7, 8, 9];
    MuxIterator.MaterialiseIsGroups(TakeTwoReturnThird, xs);
    assert MuxIterator.Groups(TakeTwoReturnThird, xs, 8, 10) == [9];
    assert MuxIterator.Groups(TakeTwoReturnThird, xs, 6, 10) == [8, 9];
    assert MuxIterator.Groups(TakeTwoReturnThird, xs, 4, 10) == [6, 8, 9];
    assert MuxIterator.Groups(TakeTwoReturnThird, xs, 2, 10) == [4, 6, 8, 9];
  }

  /** The consumer of the empty-source test: it never advances and
      returns -1, so it would loop on any non-empty source. */
  function Stall(xs: seq<int>, s: nat, e: nat): MuxIterator.Consumed<int> {
    MuxIterator.Consumed(s, -1)
  }

  /** A consumer on an empty source is never called: even the consumer
      that never advances yields an empty range. */
  lemma MuxEmptySource()
    ensures MuxIterator.Materialise(Stall, []) == []
  {
  }

  /** Position of the first newline at or after `s`, or `e` if there is none. */
  function LineEnd(xs: seq<char>, s: nat, e: nat): (r: nat)
    requires s <= e <= |xs|
    ensures s <= r <= e
    decreases e - s
  {
    if s == e || xs[s] == '\n' then s else LineEnd(xs, s + 1, e)
  }

  /** `LineEnd` stops at the first newline and nowhere before it. */
  lemma {:induction false} LineEndAt(xs: seq<char>, s: nat, k: nat, e: nat)
    requires s <= k <= e <= |xs|
    requires '\n' !in xs[s..k]
    requires k == e || xs[k] == '\n'
    ensures LineEnd(xs, s, e) == k
    decreases k - s
  {
    if s < k {
      assert xs[s] == xs[s..k][0];
      assert xs[s + 1..k] == xs[s..k][1..];
      LineEndAt(xs, s + 1, k, e);
    }
  }

  /** The line-splitting consumer: collects characters up to a newline or
      the end, then steps over the newline if there is one. */
  function SplitLine(xs: seq<char>, s: nat, e: nat): MuxIterator.Consumed<string> {
    if !(s <= e <= |xs|) then MuxIterator.Consumed(s, "")
    else
      var k := LineEnd(xs, s, e);
      MuxIterator.Consumed(if k < e then k + 1 else k, xs[s..k])
  }

  /** The line splitter consumes at least one character per call. */
  lemma SplitLineProgresses(xs: string)
    ensures MuxIterator.Progresses(SplitLine, xs, |xs|)
  {
  }

  /** The three calls of the line splitter on " hello\n new line \n adios.":
      each returns one line and resumes after its newline. */
  lemma SplitSample(xs: string)
    requires xs == " hello\n new line \n adios."
    ensures SplitLine(xs, 0, 25) == MuxIterator.Consumed(7, " hello")
    ensures SplitLine(xs, 7, 25) == MuxIterator.Consumed(18, " new line ")
    ensures SplitLine(xs, 18, 25) == MuxIterator.Consumed(25, " adios.")
  {
    assert xs[18..25] == " adios.";
    LineEndAt(xs, 18, 25, 25);
    assert xs[7..17] == " new line ";
    LineEndAt(xs, 7, 17, 25);
    assert xs[0..6] == " hello";
    LineEndAt(xs, 0, 6, 25);
  }

  /** Splitting " hello", " new line " and " adios." joined by newlines
      yields the three lines. */
  lemma LineSplitter(xs: string)
    requires xs == " hello\n new line \n adios."
    ensures MuxIterator.Materialise(SplitLine, xs) == [" hello", " new line ", " adios."]
  {
    SplitLineProgresses(xs);
    MuxIterator.MaterialiseIsGroups(SplitLine, xs);
    SplitSample(xs);
    assert MuxIterator.Groups(SplitLine, xs, 18, 25) == [" adios."];
    assert MuxIterator.Groups(SplitLine, xs, 7, 25) == [" new line ", " adios."];
  }

  /** 'd' above 1000, 'c' above 100, 'b' above 10, 'a' above 0, widest
      first. */
  function Digits(v: int): seq<char> {
    (if v > 1000 then ['d'] else [])
    + (if v > 100 then ['c'] else [])
    + (if v > 10 then ['b'] else [])
    + (if v > 0 then ['a'] else [])
  }

  /** The digit-letter expansions of [1, 23, 456, 7890]. */
  lemma DigitsOfSample(xs: seq<int>)
    requires xs == [1, 23, 456, 7890]
    ensures Digits(xs[0]) == ['a'] && Digits(xs[1]) == ['b', 'a']
    ensures Digits(xs[2]) == ['c', 'b', 'a'] && Digits(xs[3]) == ['d', 'c', 'b', 'a']
  {
  }

  /** The expansions of [1, 23, 456, 7890], flattened. */
  lemma DigitsFlatten(xs: seq<int>)
    requires xs == [1, 23, 456, 7890]
    ensures DemuxIterator.NonEmptyBeforeLast(Digits, xs)
    ensures Seqs.FlatMap(Digits, xs) == ['a', 'b', 'a', 'c', 'b', 'a', 'd', 'c', 'b', 'a']
  {
    DigitsOfSample(xs);
    Seqs.FlatMapHead(Digits, xs, 3);
    assert xs[4..] == [];
    Seqs.FlatMapHead(Digits, xs, 2);
    Seqs.FlatMapHead(Digits, xs, 1);
    Seqs.FlatMapHead(Digits, xs, 0);
    assert xs[0..] == xs;
  }

  /** Expanding [1, 23, 456, 7890] into digit letters yields the ten
      letters in order. */
  lemma DemuxDigits(xs: seq<int>)
    requires xs == [1, 23, 456, 7890]
    ensures DemuxIterator.Materialise(Digits, xs)
              == ['a', 'b', 'a', 'c', 'b', 'a', 'd', 'c', 'b', 'a']
  {
    DigitsFlatten(xs);
    DemuxIterator.MaterialiseIsFlatMap(Digits, xs);
  }

  /** Expanding [1] yields one letter. */
  lemma DemuxSingleDigit(one: seq<int>)
    requires one == [1]
    ensures DemuxIterator.Materialise(Digits, one) == ['a']
  {
    DemuxIterator.MaterialiseIsFlatMap(Digits, one);
    Seqs.FlatMapHead(Digits, one, 0);
    assert one[1..] == [] && one[0..] == one;
  }

  /** Summing six ones from seed 0 gives 6. */
  method SumOfSixOnes() returns (r: int)
    ensures r == 6
  {
    r := Reduce.Fold(Reduce.Add, [1, 1, 1, 1, 1, 1], 0);
  }

  /** `sequence(0, 2)` yields the even numbers: after `i` steps it reads `2*i`. */
  lemma SequenceOfEvens(i: nat)
    requires i < 100
    ensures SequenceIterator.Deref(SequenceIterator.StepN(SequenceIterator.Unbounded(0, 2), i)) == 2 * i
  {
    SequenceIterator.StepNValue(SequenceIterator.Unbounded(0, 2), i);
  }
}
