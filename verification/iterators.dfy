/** The capability classifier (`iterator_type` / `iterator_type_aux`):
    decides, from the shape of an adapter chain, whether indexed access,
    jumps and distance (`[]`, `+`, `-`) are enabled on it
    (`is_parallel_iterator`).

    Every adapter declares the input category. The classifier is asked
    about an iterator together with a value type: its own value type at the
    top, and the OUTER adapter's value type when a transform passes the
    question on to its source. The transform rule only applies when the
    transform's value type equals that value type; everything else falls
    to the default rule, "the category is random access".

    The classifier also has rules for a filter and for the sequence
    generator, but they name `func::FilterIterator` and
    `func::SequenceIterator`, while the filter adapter and the generator are
    `func::it::FilterIterator` and `func::it::SequenceIterator`. Those two
    rules therefore never match, and both iterators reach the default rule.
    `ParallelAux` is the classifier as it behaves; `IntendedAux` adds the
    sequence rule the generator was evidently meant to match.
 */
module Iterators {

  /** Standard iterator categories. */
  datatype Category = InputCategory | ForwardCategory | BidirectionalCategory | RandomAccessCategory

  /** A C++ value type, by name. */
  type ValueType = string

  /** The iterator at the top of a chain. `Native` is a container's own
      iterator (with its category); the others are this library's adapters,
      each with the value type it produces. */
  datatype Iter =
    | Native(category: Category, value: ValueType)
    | Transform(value: ValueType, source: Iter)
    | Filter(value: ValueType, source: Iter)
    | Sequence(value: ValueType)
    | Zip(value: ValueType, first: Iter, second: Iter)
    | Mux(value: ValueType, source: Iter)
    | Demux(value: ValueType, source: Iter)

  /** `iterator_category`: adapters derive from an input-iterator base. */
  function CategoryOf(it: Iter): Category {
    if it.Native? then it.category else InputCategory
  }

  /** `iterator_type_aux<Iter, Value, Category>::is_parallel_iterator`: only
      the transform rule and the default rule are reachable. */
  function ParallelAux(it: Iter, value: ValueType): bool
    decreases it
  {
    if it.Transform? && it.value == value then ParallelAux(it.source, value)
    else CategoryOf(it) == RandomAccessCategory
  }

  /** `is_parallel_iterator` of a chain: asked with its own value type. */
  function IsParallel(it: Iter): bool {
    ParallelAux(it, it.value)
  }

  /** The classifier with the filter and sequence rules reaching the
      library's own adapters, as evidently intended. */
  function IntendedAux(it: Iter, value: ValueType): bool
    decreases it
  {
    if it.Transform? && it.value == value then IntendedAux(it.source, value)
    else if it.Filter? && it.value == value then false
    else if it.Sequence? && it.value == value then true
    else CategoryOf(it) == RandomAccessCategory
  }

  function IsParallelIntended(it: Iter): bool {
    IntendedAux(it, it.value)
  }

  /** `n` transforms producing `value`, stacked on `base`. */
  function Transforms(n: nat, value: ValueType, base: Iter): (r: Iter)
    ensures n > 0 ==> r.Transform? && r.value == value
    ensures n == 0 ==> r == base
  {
    if n == 0 then base else Transform(value, Transforms(n - 1, value, base))
  }

  /** The independent reading of the rules: follow transforms of the asked
      value type down to the first other iterator; the chain is capable
      exactly when that one is a random-access container iterator. */
  function Bottom(it: Iter, value: ValueType): (r: Iter)
    ensures !(r.Transform? && r.value == value)
    decreases it
  {
    if it.Transform? && it.value == value then Bottom(it.source, value) else it
  }

  predicate CapableBottom(it: Iter) {
    it.Native? && it.category == RandomAccessCategory
  }

  /** The classifier agrees with the bottom-of-spine reading, both ways. */
  lemma {:induction false} ParallelIffCapableBottom(it: Iter, value: ValueType)
    ensures ParallelAux(it, value) <==> CapableBottom(Bottom(it, value))
    decreases it
  {
    if it.Transform? && it.value == value {
      ParallelIffCapableBottom(it.source, value);
    }
  }

  /** The intended classifier also accepts a same-typed sequence generator
      at the bottom, and nothing else beyond the written one. */
  lemma {:induction false} IntendedIffCapableBottom(it: Iter, value: ValueType)
    ensures IntendedAux(it, value) <==>
              CapableBottom(Bottom(it, value))
              || (Bottom(it, value).Sequence? && Bottom(it, value).value == value)
    decreases it
  {
    if it.Transform? && it.value == value {
      IntendedIffCapableBottom(it.source, value);
    }
  }

  /** The two classifiers differ exactly on chains that bottom out in a
      same-typed sequence generator. */
  lemma IntendedDiffersOnlyAtSequence(it: Iter, value: ValueType)
    ensures ParallelAux(it, value) ==> IntendedAux(it, value)
    ensures IntendedAux(it, value) != ParallelAux(it, value) <==>
              Bottom(it, value) == Sequence(value)
  {
    ParallelIffCapableBottom(it, value);
    IntendedIffCapableBottom(it, value);
  }

  /** A transform is capable exactly when its source is, asked about the
      transform's value type. */
  lemma TransformPassesThrough(value: ValueType, source: Iter)
    ensures IsParallel(Transform(value, source)) == ParallelAux(source, value)
  {
  }

  /** A filter is never capable: it reaches the default rule with the
      input category. */
  lemma FilterNeverCapable(value: ValueType, source: Iter)
    ensures !IsParallel(Filter(value, source))
  {
  }

  /** As written, the sequence generator is never capable, so its `[]`,
      `+`, `-` and distance are never enabled. */
  lemma SequenceNeverCapable(value: ValueType)
    ensures !IsParallel(Sequence(value))
    ensures !ParallelAux(Transforms(1, value, Sequence(value)), value)
  {
  }

  /** With the sequence rule reaching the generator, it is capable, and so
      is any stack of same-typed transforms over it. */
  lemma {:induction false} SequenceCapableIntended(n: nat, value: ValueType)
    ensures IsParallelIntended(Sequence(value))
    ensures IntendedAux(Transforms(n, value, Sequence(value)), value)
  {
    if n > 0 {
      SequenceCapableIntended(n - 1, value);
    }
  }

  /** A container's own iterator is capable exactly when it is random access. */
  lemma NativeCapableIffRandomAccess(category: Category, value: ValueType)
    ensures IsParallel(Native(category, value)) <==> category == RandomAccessCategory
  {
  }

  /** Zip, mux and demux have no rule of their own; they fall to the default
      rule with the input category, so none of them is capable. */
  lemma AdaptersWithoutRuleIncapable(it: Iter)
    requires it.Zip? || it.Mux? || it.Demux?
    ensures !IsParallel(it)
  {
  }

  /** Any number of same-typed transforms over a base are capable exactly
      when the base is. */
  lemma {:induction false} TransformStackPassesThrough(n: nat, value: ValueType, base: Iter)
    ensures ParallelAux(Transforms(n, value, base), value) == ParallelAux(base, value)
  {
    if n > 0 {
      TransformStackPassesThrough(n - 1, value, base);
    }
  }

  /** A filter, the sequence generator, or any adapter without a rule
      reached through same-typed transforms makes the whole chain
      incapable. */
  lemma IncapableBaseSpoilsStack(n: nat, value: ValueType, base: Iter)
    requires base.Filter? || base.Sequence? || base.Zip? || base.Mux? || base.Demux?
    ensures !ParallelAux(Transforms(n, value, base), value)
  {
    TransformStackPassesThrough(n, value, base);
  }

  /** A transform over a transform of a DIFFERENT value type is not capable,
      whatever lies below: the pass-through rule does not match the inner
      one, which then falls to the default rule with the input category. */
  lemma TypeChangingTransformBlocks(outer: ValueType, inner: ValueType, source: Iter)
    requires outer != inner
    ensures !IsParallel(Transform(outer, Transform(inner, source)))
  {
    assert !ParallelAux(Transform(inner, source), outer);
  }

  /** A transform over a vector's iterator, and a transform over that
      transform, are both capable. */
  lemma TransformsOverVectorCapable()
    ensures IsParallel(Transform("int", Native(RandomAccessCategory, "int")))
    ensures IsParallel(Transform("int", Transform("int", Native(RandomAccessCategory, "int"))))
  {
  }
}
