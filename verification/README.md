# functionalCpp lazy adapters, in Dafny

This project models the runtime core of functionalCpp, a header-only C++
library of chainable collection operations. It covers the lazy iterator
adapters `transform`, `filter`, `zip`, `mux` (many-to-one grouping) and
`demux` (one-to-many expansion), the arithmetic `sequence` generator, and
the eager `reduce`. It also covers how a chain holds its source (a reference
to an lvalue, or an owned moved-in rvalue) and the capability classifier
that decides whether `[]`, `+`, `-` and distance are enabled on a chain.

The modelling choices:

- A source container is a `seq<T>`.
- A source cursor is an index into that sequence.
- Each adapter cursor is an immutable datatype with pure `Make`/`Begin`/`End`/`Eq`/`Deref`/`Step` functions, mirroring the constructor, `begin()`, `end()`, `operator==`, `operator*` and `operator++`.
- `Drain` iterates a cursor until it compares equal to `End`, the way a range-for or `std::copy` does.
- `Materialise` is `Drain` from `Begin`.
- The main lemma of every adapter relates `Materialise` to an independent reference function in module `Seqs`: `Map`, `Filter`, `Zip`, `FlatMap` or `FoldLeft`. For mux, the reference is `MuxIterator.Groups`.
- Callables are Dafny functions.
- The grouping consumer of `mux` is a function from (source, position, end) to (new position, value).

Modules, one per header:

- `Seqs`
- `TransformIterator`
- `FilterIterator`
- `ZipIterator`
- `MuxIterator`
- `DemuxIterator`
- `SequenceIterator`
- `Reduce`
- `Chaineable`
- `Iterators`

The module `Scenarios` replays the usage examples of the library's tests as lemmas over concrete data.

Three behaviours of the code that a reader might not expect:

- **Zip capability.** The classifier has no rule for zip, so zip takes the default rule with the input category it inherits. Its `[]`, `+` and `-` are therefore never enabled.
- **Filter and generator capability.** The classifier's filter and sequence rules name `func::FilterIterator` and `func::SequenceIterator`. The adapters are declared in `func::it` (`filter.h:27-30`, `generator.h:26-30`), so neither rule ever matches. The filter still comes out incapable, through the default rule. The generator also comes out incapable, so its `[]`, `+`, `-` and distance are never enabled (see Findings).
- **Demux and empty expansions.** The constructor and `plusplus` re-expand at most once. An empty expansion that is not the last is therefore staged as the current one, and `operator*` (`*local_s`, `demux.h:115-117`) then reads an empty range (see Findings).

## Model

| member | source | states |
|---|---|---|
| Seqs.Map | code/include/transform.h:87-89 | the reference mapping: as long as the input, with `f` applied at each position |
| Seqs.Zip | code/include/zip.h:236-241 | the reference pairing: as long as the shorter input, pairing equal positions |
| Seqs.FilterSound | code/include/filter.h:86-93 | the reference filter keeps only input elements that pass the predicate and is never longer than the input |
| Seqs.FilterMap | code/tests/ut_integrate.cc:25-44 | filtering after mapping equals mapping after filtering with the pulled-back predicate, the law behind reordering a transform and a filter |
| Seqs.MapMap | code/tests/ut_transform.cc:79-103 | mapping twice is mapping once with the composed function |
| Seqs.FilterSkipsRejected | code/include/filter.h:88-90 | a stretch of elements that all fail the predicate contributes nothing to the filter |
| Seqs.FilterKeepsAll | code/include/filter.h:86-93 | a stretch of elements that all pass the predicate is kept whole |
| Seqs.FilterKeepsHead | code/include/filter.h:39-45 | an element that passes heads the filter of the suffix it starts |
| Seqs.FlatMapHead | code/include/demux.h:123-135 | flattening a suffix is the first expansion followed by the flattening of the rest |
| TransformIterator.StepN | code/include/transform.h:91-99 | stepping `n` times stays within the source |
| TransformIterator.Make | code/include/transform.h:38-39 | no contract; models the constructor, which keeps the source cursor and ignores the end |
| TransformIterator.Begin | code/include/detail/chaineable.h:101-103 | no contract; models `begin()` over a source |
| TransformIterator.End | code/include/detail/chaineable.h:105-107 | no contract; models `end()` over a source |
| TransformIterator.Eq | code/include/transform.h:73-78 | no contract; models `operator==`, which compares source cursors; its property is `TransformIterator.EqIgnoresEndArgument` |
| TransformIterator.Deref | code/include/transform.h:87-89 | no contract; models `operator*`, `f` of the current element |
| TransformIterator.Step | code/include/transform.h:91-94 | no contract; models prefix `operator++`; its property is `TransformIterator.StepDropsOne` |
| TransformIterator.At | code/include/transform.h:101-104 | no contract; models `operator[]`; its property is `TransformIterator.RandomAccessAgrees` |
| TransformIterator.Plus | code/include/transform.h:106-109 | no contract; models `operator+`; its property is `TransformIterator.RandomAccessAgrees` |
| TransformIterator.Minus | code/include/transform.h:111-114 | no contract; models `operator-` by an offset; its property is `TransformIterator.PlusMinusInverse` |
| TransformIterator.Distance | code/include/transform.h:116-119 | no contract; models `operator-` between cursors; its property is `TransformIterator.PlusMinusInverse` |
| TransformIterator.Drain | code/include/transform.h:74-99 | no contract; iterates until equal to the end; its property is `TransformIterator.DrainIsMap` |
| TransformIterator.Materialise | code/include/detail/chaineable.h:101-107 | no contract; iterates from begin to end; its property is `TransformIterator.MaterialiseIsMap` |
| TransformIterator.StepNPosition | code/include/transform.h:91-99 | `n` increments move the source cursor by exactly `n` |
| TransformIterator.StepDropsOne | code/include/transform.h:87-99 | one step yields `f` of the current element and leaves exactly one element fewer to iterate |
| TransformIterator.EqIgnoresEndArgument | code/include/transform.h:73-78 | cursors compare equal exactly when their source positions are equal; the end given to the constructor plays no part |
| TransformIterator.DrainIsMap | code/include/transform.h:74-99 | iterating from any position to the end yields `f` applied to each remaining element, in order |
| TransformIterator.MaterialiseIsMap | code/tests/ut_transform.cc:21-31 | iterating a transform from begin to end yields the map of the source, same length, same order |
| TransformIterator.MaterialiseComposes | code/tests/ut_transform.cc:79-103 | a transform over a transform yields the map of the composed function |
| TransformIterator.RandomAccessAgrees | code/include/transform.h:102-109 | `it + i` is `i` increments, and `it[i]` is the dereference of `it + i`, which is `f(s[i])` |
| TransformIterator.PlusMinusInverse | code/include/transform.h:106-119 | `(it + i) - i` is `it`, and the distance of `it + i` from `it` is `i` |
| TransformIterator.BeginEndArithmetic | code/tests/ut_parallel_transform.cc:44-48 | `end - begin` is the source length, `begin + length` equals `end`, and `*(end - 1)` is `f` of the last element |
| FilterIterator.SkipFrom | code/include/filter.h:41-43 | the skip loop stops at the first passing element or at the end, and every element it passes over fails |
| FilterIterator.Step | code/include/filter.h:86-93 | `++` advances at least once, passes over only failing elements, stops on a passing element or the end, and recomputes `finish` |
| FilterIterator.Make | code/include/filter.h:39-45 | no contract; models the constructor; its property is `FilterIterator.MakeSkipsRejected` |
| FilterIterator.Begin | code/include/detail/chaineable.h:101-103 | no contract; models `begin()` over a source |
| FilterIterator.End | code/include/detail/chaineable.h:105-107 | no contract; models `end()` over a source |
| FilterIterator.Eq | code/include/filter.h:66-72 | no contract; models `operator==`; its property is `FilterIterator.EqEndIffFinished` |
| FilterIterator.Deref | code/include/filter.h:81-84 | no contract; models `operator*`, the current element |
| FilterIterator.PostIncrement | code/include/filter.h:94-102 | no contract; models postfix `operator++`; its property is `FilterIterator.PostIncrementYieldsCurrent` |
| FilterIterator.Drain | code/include/filter.h:66-93 | no contract; iterates until equal to the end; its property is `FilterIterator.DrainIsFilter` |
| FilterIterator.Materialise | code/include/detail/chaineable.h:101-107 | no contract; iterates from begin to end; its property is `FilterIterator.MaterialiseIsFilter` |
| FilterIterator.MakeSkipsRejected | code/include/filter.h:39-45 | construction skips only failing elements, and the cursor is finished exactly when no element of the range passes |
| FilterIterator.EqEndIffFinished | code/include/filter.h:67-72 | the end cursor is finished, and a cursor compares equal to the end exactly when it is finished |
| FilterIterator.DrainIsFilter | code/include/filter.h:81-93 | iterating from any valid cursor yields the passing elements of the rest of the source, in order |
| FilterIterator.MaterialiseIsFilter | code/tests/ut_filter.cc:18-29 | iterating a filter from begin to end yields exactly the order-preserving filter of the source |
| FilterIterator.PostIncrementYieldsCurrent | code/include/filter.h:94-102 | postfix `++` returns the cursor as it was before the step |
| FilterIterator.RejectAllIsEmpty | code/include/filter.h:39-45 | with a predicate nothing passes, begin equals end and nothing is yielded |
| ZipIterator.Step | code/include/zip.h:223-227 | `++` keeps the cursor within both sources with `finish` recomputed |
| ZipIterator.Make | code/include/zip.h:199 | no contract; models the constructor, which computes `finish` from the components |
| ZipIterator.Begin | code/include/zip.h:296-298 | no contract; models `zip_t::begin()` |
| ZipIterator.End | code/include/zip.h:300-302 | no contract; models `zip_t::end()` |
| ZipIterator.IsEnd | code/include/zip.h:170-186 | no contract; models `is_end`: some component is at its end; its property is `ZipIterator.FinishedIffSomeComponentAtEnd` |
| ZipIterator.Eq | code/include/zip.h:215-217 | no contract; models `operator==` as written; its property is `ZipIterator.EqConflatesUnfinished` and `ZipIterator.EqAgainstEnd` |
| ZipIterator.EqIntended | code/include/zip.h:215-217 | no contract; the equality evidently intended; its property is `ZipIterator.EqIntendedIsPosition` |
| ZipIterator.Deref | code/include/zip.h:236-241 | no contract; models `operator*`, the pair of current components |
| ZipIterator.PostIncrement | code/include/zip.h:229-234 | no contract; models postfix `operator++`, which returns the prior cursor |
| ZipIterator.At | code/include/zip.h:243-248 | no contract; models `operator[]`; its property is `ZipIterator.RandomAccessAgrees` |
| ZipIterator.Plus | code/include/zip.h:250-257 | no contract; models `operator+`; its property is `ZipIterator.RandomAccessAgrees` |
| ZipIterator.Minus | code/include/zip.h:259-266 | no contract; models `operator-` by an offset; its property is `ZipIterator.RandomAccessAgrees` |
| ZipIterator.Distance | code/include/zip.h:268-274 | no contract; models `operator-` between cursors, the smallest per-component distance; its property is `ZipIterator.DistanceIsShortest` |
| ZipIterator.Drain | code/include/zip.h:223-241 | no contract; iterates until equal to the end; its property is `ZipIterator.DrainIsZip` |
| ZipIterator.Materialise | code/include/zip.h:296-302 | no contract; iterates from begin to end; its property is `ZipIterator.MaterialiseIsZip` |
| ZipIterator.StepN | code/include/zip.h:223-227 | repeated `++` keeps the cursor within both sources |
| ZipIterator.StepNPosition | code/include/zip.h:223-227 | `n` increments move both component cursors by exactly `n` |
| ZipIterator.FinishedIffSomeComponentAtEnd | code/include/zip.h:170-186 | a cursor is finished exactly when at least one component is at its own end |
| ZipIterator.EqAgainstEnd | code/include/zip.h:215-217 | the end cursor is finished, and against it both the written and the intended equality hold exactly for finished cursors |
| ZipIterator.BeginIsEndIffSomeEmpty | code/include/zip.h:296-302 | begin compares equal to end exactly when some source is empty |
| ZipIterator.DrainIsZip | code/include/zip.h:223-241 | iterating from a valid cursor pairs the remaining elements positionally, stopping at the shorter remainder |
| ZipIterator.MaterialiseIsZip | code/tests/ut_integrate.cc:259-293 | the zip yields the positional pairs, as many as the shorter source has elements |
| ZipIterator.RandomAccessAgrees | code/include/zip.h:243-266 | `+ i` is `i` lockstep increments, `[i]` reads the pair at `+ i`, `- i` undoes `+ i`, and the distance of `+ i` is `i` |
| ZipIterator.DistanceIsShortest | code/include/zip.h:268-274 | `end - begin` is the smaller per-source length, which is the number of pairs yielded |
| ZipIterator.EqConflatesUnfinished | code/include/zip.h:215-217 | as written, begin and begin+1 over two three-element sources compare equal although they read different pairs |
| ZipIterator.EqIntendedIsPosition | code/include/zip.h:215-217 | with the intended equality, cursors reached from begin are equal exactly when they took the same number of steps |
| MuxIterator.MakeCallsOnce | code/include/mux.h:41-46 | on an empty source no consumer call and begin equals end; otherwise one call, its value cached, `pre_end` set exactly when that call drained the source |
| MuxIterator.Make | code/include/mux.h:41-46 | no contract; models the constructor, which calls the consumer once on a non-empty source; its property is `MuxIterator.MakeCallsOnce` |
| MuxIterator.Begin | code/include/detail/chaineable.h:101-103 | no contract; models `begin()` over a source |
| MuxIterator.End | code/include/detail/chaineable.h:105-107 | no contract; models `end()` over a source |
| MuxIterator.Eq | code/include/mux.h:71-73 | no contract; models `operator==` |
| MuxIterator.Deref | code/include/mux.h:79-81 | no contract; models `operator*`, the cached value |
| MuxIterator.Step | code/include/mux.h:87-96 | no contract; models prefix `operator++`; its property is `MuxIterator.PreEndClosesOnce` and `MuxIterator.StepValid` |
| MuxIterator.Groups | code/include/mux.h:87-96 | no contract; the reference: the values of successive consumer calls |
| MuxIterator.Drain | code/include/mux.h:71-96 | no contract; iterates until equal to the end; its property is `MuxIterator.DrainIsGroups` |
| MuxIterator.Materialise | code/include/detail/chaineable.h:101-107 | no contract; iterates from begin to end; its property is `MuxIterator.MaterialiseIsGroups` |
| MuxIterator.PreEndClosesOnce | code/include/mux.h:87-92 | a cursor with `pre_end` set is not the end, one step makes it the end without a consumer call, and it yields its cached value exactly once |
| MuxIterator.StepValid | code/include/mux.h:87-96 | stepping a cursor that is not the end keeps `pre_end` only with a drained source and keeps a cached value before the end |
| MuxIterator.DrainIsGroups | code/include/mux.h:71-96 | iterating yields the cached value and then the value of every later consumer call, in call order |
| MuxIterator.MaterialiseIsGroups | code/tests/ut_mux.cc:36-108 | the outputs are exactly the values of the successive consumer calls, one per call, the draining call included |
| DemuxIterator.EqEndIffExhausted | code/include/demux.h:104-109 | the end stages nothing, and a cursor equals the end exactly when its staged expansion and the source are both used up |
| DemuxIterator.Make | code/include/demux.h:64-75 | no contract; models the constructor; its property is `DemuxIterator.MakeExpandsFirst` |
| DemuxIterator.Begin | code/include/detail/chaineable.h:101-103 | no contract; models `begin()` over a source |
| DemuxIterator.End | code/include/detail/chaineable.h:105-107 | no contract; models `end()` over a source |
| DemuxIterator.Eq | code/include/demux.h:104-109 | no contract; models `operator==`; its property is `DemuxIterator.EqEndIffExhausted` |
| DemuxIterator.Deref | code/include/demux.h:115-117 | no contract; models `operator*`, the current element of the staged expansion |
| DemuxIterator.Step | code/include/demux.h:123-135 | no contract; models `plusplus`; its property is `DemuxIterator.StepLosesOnlyCurrent` and `DemuxIterator.StepKeepsSettled` |
| DemuxIterator.Drain | code/include/demux.h:104-135 | no contract; iterates until equal to the end; its property is `DemuxIterator.DrainIsFlatMap` |
| DemuxIterator.Materialise | code/include/detail/chaineable.h:101-107 | no contract; iterates from begin to end; its property is `DemuxIterator.MaterialiseIsFlatMap` |
| DemuxIterator.BeginSkipping | code/include/demux.h:64-75 | no contract; the constructor that skips empty expansions |
| DemuxIterator.StepSkipping | code/include/demux.h:123-135 | no contract; the step that skips empty expansions |
| DemuxIterator.DrainSkipping | code/include/demux.h:123-135 | no contract; iterates the skipping adapter; its property is `DemuxIterator.DrainSkippingIsFlatMap` |
| DemuxIterator.MaterialiseSkipping | code/include/demux.h:64-75 | no contract; iterates the skipping adapter from begin to end; its property is `DemuxIterator.MaterialiseSkippingIsFlatMap` |
| DemuxIterator.MakeExpandsFirst | code/include/demux.h:64-75 | on a non-empty source the constructor stages the first expansion at its start and advances the source; on an empty one begin equals end |
| DemuxIterator.StepKeepsSettled | code/include/demux.h:123-135 | with no empty expansion before the last, a step short of the end leaves a dereferenceable cursor or the end |
| DemuxIterator.StepDecreases | code/include/demux.h:123-135 | every step short of the end consumes a staged element or a source element, so iteration terminates |
| DemuxIterator.StepLosesOnlyCurrent | code/include/demux.h:115-135 | a step from a dereferenceable cursor yields its element, and what is left to flatten afterwards is exactly the rest |
| DemuxIterator.DrainIsFlatMap | code/include/demux.h:115-135 | iterating yields the rest of the staged expansion followed by the expansions of the remaining source elements |
| DemuxIterator.MaterialiseIsFlatMap | code/tests/ut_demux.cc:83-98 | with every expansion but possibly the last non-empty, the output is the one-level flattening of the expansions |
| DemuxIterator.EmptyExpansionNotSkipped | code/include/demux.h:64-75 | as written, an empty first expansion before a non-empty one leaves begin unequal to end yet with nothing to dereference |
| DemuxIterator.Settle | code/include/demux.h:123-135 | skipping exhausted expansions yields a dereferenceable cursor or the end, never loses or adds output, and never increases the work left |
| DemuxIterator.DrainSkippingIsFlatMap | code/include/demux.h:123-135 | with empty expansions skipped, iterating from a settled cursor flattens the rest for every expansion function |
| DemuxIterator.MaterialiseSkippingIsFlatMap | code/include/demux.h:64-75 | with empty expansions skipped, the output is the flattening of the expansions for every expansion function |
| DemuxIterator.SettleKeepsSettled | code/include/demux.h:123-135 | where the written adapter is already dereferenceable, the skipping version changes nothing |
| SequenceIterator.SizeT | code/include/generator.h:94 | the conversion to `size_t` lands in `[0, 2^64)` and is the identity there |
| SequenceIterator.Progression | code/include/generator.h:71-82 | the reference progression has `n` terms, the `i`-th being `init + i*step` |
| SequenceIterator.Begin | code/include/generator.h:140-142 | no contract; models `sequenece_t::begin()` |
| SequenceIterator.Unbounded | code/include/generator.h:136-138 | no contract; models the `SIZE_MAX` default bound of an unbounded sequence |
| SequenceIterator.End | code/include/generator.h:144-146 | no contract; models `sequenece_t::end()`, the default cursor |
| SequenceIterator.Eq | code/include/generator.h:63-65 | no contract; models `operator==`, which compares counts; its property is `SequenceIterator.EqEndAfterExactlyCount` |
| SequenceIterator.Deref | code/include/generator.h:71-73 | no contract; models `operator*`, the current value |
| SequenceIterator.Step | code/include/generator.h:78-83 | no contract; models prefix `operator++` |
| SequenceIterator.StepN | code/include/generator.h:78-83 | no contract; `n` prefix increments; its property is `SequenceIterator.StepNValue` |
| SequenceIterator.PostIncrementAsWritten | code/include/generator.h:84-90 | no contract; models postfix `operator++` as written; its property is `SequenceIterator.PostIncrementAsWrittenReturnsStepped` |
| SequenceIterator.PostIncrement | code/include/generator.h:84-90 | no contract; postfix `operator++` as evidently intended; its property is `SequenceIterator.PostIncrementReturnsPrior` |
| SequenceIterator.At | code/include/generator.h:92-96 | no contract; models `operator[]`; its property is `SequenceIterator.AtAgreesWithStepping` |
| SequenceIterator.PlusAsWritten | code/include/generator.h:98-105 | no contract; models `operator+` as written; its property is `SequenceIterator.PlusAsWrittenGuardIsOffByOne` |
| SequenceIterator.Plus | code/include/generator.h:98-105 | no contract; `operator+` as evidently intended; its property is `SequenceIterator.PlusAgreesWithStepping` |
| SequenceIterator.Minus | code/include/generator.h:107-114 | no contract; models `operator-` by an offset; its property is `SequenceIterator.PlusAgreesWithStepping` |
| SequenceIterator.DistanceAsWritten | code/include/generator.h:116-119 | no contract; models the distance as written; its property is `SequenceIterator.DistanceAsWrittenHasWrongSign` |
| SequenceIterator.Distance | code/include/generator.h:116-119 | no contract; the distance as evidently intended; its property is `SequenceIterator.DistanceCountsSteps` |
| SequenceIterator.Drain | code/include/generator.h:63-83 | no contract; iterates until equal to the end; its property is `SequenceIterator.DrainIsProgression` |
| SequenceIterator.StepNValue | code/include/generator.h:78-82 | after `n` increments the value is `v + n*step` and the count is down by `n` |
| SequenceIterator.EqEndAfterExactlyCount | code/include/generator.h:63-65 | a bound-`n` sequence equals the end after exactly `n` increments and at no earlier point |
| SequenceIterator.DrainIsProgression | code/include/generator.h:63-82 | iterating from a cursor yields as many terms as its count, stepping the value by `step` |
| SequenceIterator.MaterialiseIsProgression | code/include/generator.h:140-146 | iterating from `begin()` to `end()` yields `init + i*step` for `i` below the bound |
| SequenceIterator.AtAgreesWithStepping | code/include/generator.h:92-96 | `it[i]` is the value `i` increments ahead |
| SequenceIterator.PlusAgreesWithStepping | code/include/generator.h:98-114 | the intended `+ i` is `i` increments, can land on the end, is undone by `- i`, and lies `i` steps on |
| SequenceIterator.PostIncrementAsWrittenReturnsStepped | code/include/generator.h:84-90 | as written, postfix `++` on a one-element sequence returns a copy that already equals the end while still holding the element |
| SequenceIterator.PostIncrementReturnsPrior | code/include/generator.h:84-90 | the intended postfix `++` returns the cursor before the step, so `*it++` reads the current value |
| SequenceIterator.PlusAsWrittenGuardIsOffByOne | code/include/generator.h:98-105 | as written, and once the operator is enabled, the guard of `+` refuses `begin + 3` on a bound-3 sequence and admits `begin + 5`, wrapping the count |
| SequenceIterator.DistanceAsWrittenHasWrongSign | code/include/generator.h:116-119 | as written, and once the operator is enabled, the distance from `begin` to `begin + 3` is -3 |
| SequenceIterator.DistanceCountsSteps | code/include/generator.h:116-119 | the intended distance from `begin` to `end` is the bound, and from `begin` to `k` steps on is `k` |
| Reduce.Fold | code/include/reduce.h:28-40 | the result is the left fold of the source from the seed, and an empty source returns the seed |
| Reduce.ToInt8 | code/include/reduce.h:29 | the conversion to a signed 8-bit element type lands in `[-128, 127]` and agrees with its input modulo 256 |
| Reduce.ReduceAsWritten | code/include/reduce.h:28-48 | no contract; models `reduce` as written, with the result returned through the element type; its property is `Reduce.ReduceNarrowsThroughElementType` and `Reduce.ReduceAsWrittenAgreesWhenRepresentable` |
| Reduce.ReduceNarrowsThroughElementType | code/include/reduce.h:28-48 | as written, summing `[100, 100]` of 8-bit elements into an `int` returns -56 although the fold is 200 |
| Reduce.ReduceAsWrittenAgreesWhenRepresentable | code/include/reduce.h:28-48 | summing `int` elements into an `int` through a signed 8-bit element type, the written reduce returns the sum exactly when the sum lies in [-128, 127] |
| Reduce.FoldAppend | code/include/reduce.h:33-36 | folding a concatenation folds the second part from the fold of the first: one pass in source order |
| Reduce.FoldLast | code/include/reduce.h:33-36 | the last element is combined last |
| Chaineable.ChooseStorage | code/include/detail/chaineable.h:127-141 | no contract; models `choose_storage`: an lvalue selects reference storage, an rvalue value storage; its property is `Chaineable.StorageExposesArgument` and `Chaineable.BindingAliasing` |
| Chaineable.BeginBounds | code/include/detail/chaineable.h:101-103 | no contract; models the arguments `begin()` passes to the adapter constructor; its property is `Chaineable.TransformBoundsAreBeginEnd` and `Chaineable.FilterBoundsAreBeginEnd` |
| Chaineable.EndBounds | code/include/detail/chaineable.h:105-107 | no contract; models the arguments `end()` passes to the adapter constructor; its property is `Chaineable.TransformBoundsAreBeginEnd` and `Chaineable.FilterBoundsAreBeginEnd` |
| Chaineable.Container | code/include/detail/chaineable.h:48 | no contract; models the store's `operator*`: the named container looked up now, or the owned contents |
| Chaineable.Transform | code/include/transform.h:131-161 | no contract; models the four `transform` entry points; its property is `Chaineable.TransformChainIsMap` |
| Chaineable.Filter | code/include/filter.h:115-127 | no contract; models the two `filter` entry points; its property is `Chaineable.FilterChainIsFilter` |
| Chaineable.MaterialiseTransform | code/include/detail/chaineable.h:101-107 | no contract; iterates a transform chain from `begin()` to `end()` |
| Chaineable.MaterialiseFilter | code/include/detail/chaineable.h:101-107 | no contract; iterates a filter chain from `begin()` to `end()` |
| Chaineable.StorageExposesArgument | code/include/detail/chaineable.h:35-68 | in both storage modes the chain sees exactly the container the caller passed |
| Chaineable.BindingAliasing | code/include/detail/chaineable.h:35-68 | a reference binding sees a later replacement of the caller's container, and an owned binding sees no change of the environment |
| Chaineable.TransformBoundsAreBeginEnd | code/include/transform.h:125-128 | a transform chain's `begin()` and `end()` are the adapter's begin and end over the stored container |
| Chaineable.FilterBoundsAreBeginEnd | code/include/filter.h:107-113 | a filter chain's `begin()` and `end()` are the adapter's begin and end over the stored container |
| Chaineable.TransformChainIsMap | code/include/transform.h:133-161 | every `transform` entry point yields the map of the container passed, whichever storage it chose |
| Chaineable.FilterChainIsFilter | code/include/filter.h:115-127 | every `filter` entry point yields the filter of the container passed, whichever storage it chose |
| Chaineable.BindingsAgree | code/tests/ut_intrinsics_transform.cc:18-41 | binding a named container by reference, or a copy of it by value, materialises the same result |
| Chaineable.NestedTransformsCompose | code/tests/ut_intrinsics_transform.cc:43-72 | a chain used as the source of another chain yields the composition of the two functions |
| Iterators.Transforms | code/include/detail/iterators.h:47-50 | a stack of `n` transforms is a transform of the given value type when `n` is positive and the base itself when `n` is 0 |
| Iterators.CategoryOf | code/include/detail/iterators.h:43-44 | no contract; models `iterator_category`: a container iterator's own category, and the input category for every adapter |
| Iterators.ParallelAux | code/include/detail/iterators.h:47-65 | no contract; models `iterator_type_aux` with its reachable rules, the same-typed transform rule and the default rule; its property is `Iterators.ParallelIffCapableBottom` |
| Iterators.IsParallel | code/include/detail/iterators.h:42-45 | no contract; models `is_parallel_iterator`, asked with the iterator's own value type |
| Iterators.IntendedAux | code/include/detail/iterators.h:47-65 | no contract; models the classifier with the filter and sequence rules reaching the library's adapters |
| Iterators.Bottom | code/include/detail/iterators.h:47-50 | the first iterator below the same-typed transforms is not itself such a transform |
| Iterators.ParallelIffCapableBottom | code/include/detail/iterators.h:42-65 | a chain is capable exactly when, past the same-typed transforms, it reaches a random-access container iterator |
| Iterators.TransformPassesThrough | code/include/detail/iterators.h:47-50 | a transform is capable exactly when its source is, asked with the transform's value type |
| Iterators.FilterNeverCapable | code/include/detail/iterators.h:62-65 | a filter is never capable: it reaches the default rule with the input category |
| Iterators.SequenceNeverCapable | code/include/detail/iterators.h:57-65 | as written, the generator, and a transform over it, are never capable, because the sequence rule does not reach `func::it::SequenceIterator` |
| Iterators.SequenceCapableIntended | code/include/detail/iterators.h:57-60 | with the sequence rule reaching the generator, the generator and any stack of same-typed transforms over it are capable |
| Iterators.IntendedIffCapableBottom | code/include/detail/iterators.h:47-65 | the intended classifier accepts a chain exactly when, past the same-typed transforms, it reaches a random-access container iterator or a same-typed generator |
| Iterators.IntendedDiffersOnlyAtSequence | code/include/detail/iterators.h:57-60 | the intended classifier accepts everything the written one does, and the two disagree exactly on chains that bottom out in a same-typed generator |
| Iterators.NativeCapableIffRandomAccess | code/include/detail/iterators.h:62-65 | a container iterator is capable exactly when its category is random access |
| Iterators.AdaptersWithoutRuleIncapable | code/include/detail/iterators.h:43-45 | zip, mux and demux fall to the default rule with the input category and are never capable |
| Iterators.TransformStackPassesThrough | code/include/detail/iterators.h:47-50 | any number of same-typed transforms over a base is capable exactly when the base is |
| Iterators.IncapableBaseSpoilsStack | code/include/detail/iterators.h:62-65 | a filter, the generator, zip, mux or demux below any number of same-typed transforms makes the chain incapable |
| Iterators.TypeChangingTransformBlocks | code/include/detail/iterators.h:47-48 | a transform over a transform of a different value type is never capable, whatever lies below |
| Iterators.TransformsOverVectorCapable | code/tests/ut_parallel_transform.cc:43-51 | a transform over a vector, and a transform over that, are both capable |
| Scenarios.FilterAboveFour | code/tests/ut_filter.cc:18-29 | `filter(a > 4)` over 0..9 yields 5..9 |
| Scenarios.FilterThenIncrement | code/tests/ut_integrate.cc:32-39 | `transform(+1, filter(>2))` over 0..5 yields [4, 5, 6] |
| Scenarios.IncrementZeroToFive | code/tests/ut_integrate.cc:41 | `transform(+1)` over 0..5 yields 1..6 |
| Scenarios.AboveTwoOfOneToSix | code/tests/ut_integrate.cc:41-43 | `filter(>2)` over 1..6 yields 3..6 |
| Scenarios.IncrementThenFilter | code/tests/ut_integrate.cc:41-43 | `filter(>2, transform(+1))` over 0..5 yields [3, 4, 5, 6] |
| Scenarios.FourIncrements | code/tests/ut_transform.cc:79-103 | four `+1` stages over 0..5 yield 4..9 |
| Scenarios.NestedChainOverReference | code/tests/ut_intrinsics_transform.cc:43-58 | `2*(1+x)` over a reference-bound [1, 1, 2, 2] yields [4, 4, 6, 6] |
| Scenarios.OddOfOneToSix | code/tests/ut_integrate.cc:261-267 | the odd filter over 1..6 yields [1, 3, 5] |
| Scenarios.ZipTruncatesToShorter | code/tests/ut_integrate.cc:259-277 | zipping six elements with a three-element chain yields three pairs led by 1, 2, 3 |
| Scenarios.ZipWithEmptyIsEmpty | code/tests/ut_integrate.cc:279-293 | zipping with an empty chain yields nothing and begin equals end |
| Scenarios.ZipPairsPositionally | code/tests/ut_zip.cc:54-75 | two equal-length sources are paired position by position |
| Scenarios.MuxTakeTwo | code/tests/ut_mux.cc:62-108 | a take-two consumer yields [2] on [1, 2] and [2, 1] on [1, 2, 3] |
| Scenarios.MuxTakeTwoReturnThird | code/tests/ut_mux.cc:36-60 | the step-two consumer over 0..9 yields [2, 4, 6, 8, 9] |
| Scenarios.MuxEmptySource | code/tests/ut_mux.cc:74-84 | a mux over an empty source yields nothing, even with the test's consumer that never advances and returns -1 |
| Scenarios.LineEnd | code/tests/ut_mux.cc:117-125 | the line scan stops within the range |
| Scenarios.LineEndAt | code/tests/ut_mux.cc:119-122 | the line scan stops at the first newline and nowhere before it |
| Scenarios.SplitSample | code/tests/ut_mux.cc:117-125 | on the three-line input, each call returns one line and resumes just past its newline |
| Scenarios.LineSplitter | code/tests/ut_mux.cc:111-133 | the line-splitting consumer yields the three lines of its input |
| Scenarios.DigitsFlatten | code/tests/ut_demux.cc:83-98 | the digit-letter expansions of [1, 23, 456, 7890] are all non-empty and flatten to the ten letters in order |
| Scenarios.DemuxDigits | code/tests/ut_demux.cc:83-98 | demux with the digit-letter expansion over [1, 23, 456, 7890] yields 'a','b','a','c','b','a','d','c','b','a' |
| Scenarios.DemuxSingleDigit | code/tests/ut_demux.cc:64-79 | demux with the digit-letter expansion over [1] yields the single letter 'a' |
| Scenarios.DigitsOfSample | code/tests/ut_demux.cc:84-93 | the digit-letter expansion (thresholds 1000, 100, 10, 0) gives one letter per decimal digit for 1, 23, 456 and 7890 |
| Scenarios.SumOfSixOnes | code/tests/ut_reduce.cc:14-18 | summing six ones from seed 0 gives 6 |
| Scenarios.SequenceOfEvens | code/tests/ut_generator.cc:34-42 | `sequence(0, 2)` reads `2*i` after `i` increments |

## Left out

- Laziness and call counts are not modelled. Adapters are pure functions here, so a callable invoked on every dereference (transform, filter) cannot be told apart from one invoked once.
- Callables with side effects are not modelled. The consumers of `mux` are modelled as pure functions of (source, position, end).
- Chains are nested through their materialised output. A chain used as another chain's source is modelled by the inner chain's materialised sequence, owned by the outer chain. For pure callables this gives the same values as the source's chain of cursors.
- The binding is modelled for `transform` and `filter` chains only. `Chaineable` ties the storage choice to these two. `mux` and `demux` chains use the same `chaineable_t::begin/end` and are modelled directly over a sequence.
- The classifier is not connected to the adapters. The capability it computes is not a precondition of the random-access members (`TransformIterator.Plus`, `ZipIterator.At`, `SequenceIterator.Plus`, ...). Those are modelled as standalone functions whether or not the classifier would enable them. In particular, the generator's `At`, `Plus`, `Minus` and `Distance` model operators that the written classifier disables, so they describe the generator as the intended classifier would enable it.
- Zip is modelled for two sources. The template recursion that generalises it to N sources (`trf`, `aux`, `unstore`, `get_value_type`) is C++ type machinery.
- ZipIterator.Distance: requires each component of the later cursor to be at or past the earlier one's. The source stores per-component distances as `unsigned`, and a negative one would wrap. That wrap is not modelled.
- ZipIterator.Drain: iterates with the intended equality. Against the end cursor it agrees with the written equality (`EqAgainstEnd`).
- Copy and move constructors, assignment operators, `std::swap` plumbing and the move-only `chaineable_t` are C++ lifetime mechanics, not behaviour.
- The `const` overloads of `begin()` and `end()` in `chaineable_t` are not modelled. They pass two arguments to three-argument constructors, so they can never be instantiated.
- `operator->` is not modelled. It is the same read as `operator*`.
- MuxIterator.Materialise: requires `MuxIterator.Progresses`. The consumer must advance by at least one position and must not pass the end, at every position before the end, not only at the positions iteration reaches. The source never checks this. A consumer that does not advance makes iteration loop forever, and one that passes the end makes `operator==` miss `end()`. So `Groups`, `Drain`, `Materialise`, `DrainIsGroups` and `MaterialiseIsGroups` say nothing about such consumers.
- Reduce.Fold: takes the seed as an argument. The default seed `R def = R()` of the overloads (`reduce.h:46`, `reduce.h:53`) is not modelled, because a value-initialised `R` has no counterpart for an arbitrary Dafny type. A call that relies on the default is modelled by passing that type's zero explicitly.
- The four `reduce` overloads are one member. They differ only in how the callable and the container are received (`std::function` or lambda, lvalue or rvalue), and a Dafny function value and a sequence do not carry that distinction. All four run the same loop, `Reduce.Fold`.
- Element values are unbounded integers. Overflow of `int` element values in transforms, sums and generator values is not modelled. The `size_t` count of the generator is modelled with its wrap-around.
- Floating-point instantiations are not modelled. The tests' `double` sequences, `+0.1` transforms and float zip components become integers.
- The uninitialised value of the generator's default (`end()`) cursor is modelled as 0. Nothing reads it.
- The unbounded `sequence(init, step)` is modelled as a count of `SIZE_MAX`, exactly as in the source. Its materialisation is finite but astronomically long, and the lemmas about it speak of prefixes.
- The type-level helpers in `utils.h` and `detail/utils.h` (return-type deduction, `get_reference`, pair cv-stripping) have no runtime behaviour.
- `main.cpp` is not part of this model. It is a demonstration program that prints.

## Findings

| source | as written | input that shows it | evidently intended | confidence | as-written member | corrected member |
|---|---|---|---|---|---|---|
| code/include/zip.h:215-217 | `finish == o.finish \|\| source == o.source`: any two unfinished cursors compare equal | sources [1,2,3] and [4,5,6]: `begin() == ++begin()` although they read different pairs | equal when both finished or same components, as the filter adapter does | high, not executed | ZipIterator.EqConflatesUnfinished | ZipIterator.EqIntendedIsPosition |
| code/include/generator.h:84-90 | postfix `++` decrements `count` before taking the copy it returns | `sequence(7, 1, 1)`: `it++` returns a copy equal to `end()` that still reads 7 | return the cursor as it was before the step | high, not executed | SequenceIterator.PostIncrementAsWrittenReturnsStepped | SequenceIterator.PostIncrementReturnsPrior |
| code/include/generator.h:98-105 | the guard `count - i > 0` is computed in `size_t`; latent, because the classifier disables `operator+` for the generator (row iterators.h:57-60) | once `+` is enabled, on `sequence(0, 1, 3)`: `begin() + 3` fails the assertion though it is `end()`, and `begin() + 5` passes with a wrapped count of 2^64 - 2 | admit exactly the jumps that stay within `[begin, end]` | low (latent: the operator does not compile for the generator as written), not executed | SequenceIterator.PlusAsWrittenGuardIsOffByOne | SequenceIterator.PlusAgreesWithStepping |
| code/include/generator.h:116-119 | `a - b` returns `count - o.count`, but the count goes down as the cursor advances; latent, because the classifier disables the distance for the generator (row iterators.h:57-60) | once distance is enabled, on `sequence(0, 1, 10)`: `(begin() + 3) - begin()` is -3 | `o.count - count`, the number of steps from `b` to `a` | low (latent: the operator does not compile for the generator as written), not executed | SequenceIterator.DistanceAsWrittenHasWrongSign | SequenceIterator.DistanceCountsSteps |
| code/include/demux.h:64-75 | the constructor and `plusplus` (123-135) re-expand at most once, so an empty expansion is staged as the current one | expansion `0 -> []`, `1 -> ['a']` over [0, 1]: begin is not end, yet `operator*` (`*local_s`, 115-117) reads an empty range | skip empty expansions until a non-empty one or the end | high, not executed | DemuxIterator.EmptyExpansionNotSkipped | DemuxIterator.MaterialiseSkippingIsFlatMap |
| code/include/reduce.h:28-40 | `reduce_aux` returns the element type `N` while folding into the accumulator type `R` | summing a `std::vector<int8_t>` holding [100, 100] into an `int` from seed 0 returns -56 | return `R`, the fold itself | medium, not executed | Reduce.ReduceNarrowsThroughElementType | Reduce.Fold |
| code/include/detail/iterators.h:57-60 | the sequence rule specialises `func::SequenceIterator`, forward-declared at 29-30, but the generator is `func::it::SequenceIterator` (`generator.h:26-30`); the rule never matches, and the generator falls to the default rule with the input category | `sequence(0, 1, 3).begin()`: `is_parallel_iterator` is false, so `[]`, `+`, `-` and distance (`generator.h:92-119`) are removed by their `enable_if` | the sequence rule applies to the generator, making it and same-typed transforms over it capable | medium, not executed | Iterators.SequenceNeverCapable | Iterators.SequenceCapableIntended |
