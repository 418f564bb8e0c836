/** How a chain holds its source (`chaineable_store_t`, `choose_storage`)
    and how it builds its cursors (`chaineable_t::begin/end`).

    A caller's container is a named entry of an environment; a chain built
    from an lvalue keeps the name (a reference that sees later updates of
    that entry), a chain built from an rvalue keeps the contents it was
    given (moved in, independent of the environment).
 */
module Chaineable {
  import Seqs
  import TransformIterator
  import FilterIterator

  /** The collection argument of an entry point: a named lvalue of the
      caller, or an rvalue temporary with its contents. */
  datatype Argument<T> = Lvalue(name: string) | Rvalue(temporary: seq<T>)

  /** The caller's named containers. */
  type Env<T> = map<string, seq<T>>

  /** `Reference_storage` (an alias of a caller's container) or
      `Value_storage` (a container the chain owns). */
  datatype Storage<T> = Reference(name: string) | Owned(contents: seq<T>)

  /** Every name the argument refers to exists in the environment. */
  predicate Defined<T>(a: Argument<T>, env: Env<T>) {
    a.Lvalue? ==> a.name in env
  }

  /** The container an argument denotes at call time. */
  function Denoted<T>(a: Argument<T>, env: Env<T>): seq<T>
    requires Defined(a, env)
  {
    match a
    case Lvalue(name) => env[name]
    case Rvalue(temporary) => temporary
  }

  /** `choose_storage`: an rvalue (`T&&`) selects value storage, an lvalue
      (`T&`) selects reference storage. */
  function ChooseStorage<T>(a: Argument<T>): Storage<T> {
    match a
    case Lvalue(name) => Reference(name)
    case Rvalue(temporary) => Owned(temporary)
  }

  predicate Resolves<T>(st: Storage<T>, env: Env<T>) {
    st.Reference? ==> st.name in env
  }

  /** `operator*` of the store: the container, looked up now for a
      reference, held for an owned store. */
  function Container<T>(st: Storage<T>, env: Env<T>): seq<T>
    requires Resolves(st, env)
  {
    match st
    case Reference(name) => env[name]
    case Owned(contents) => contents
  }

  /** The pair of source positions an adapter cursor is constructed from. */
  datatype Bounds = Bounds(b: nat, e: nat)

  /** `begin()`: the adapter cursor from `(storage.begin(), storage.end())`. */
  function BeginBounds<T>(st: Storage<T>, env: Env<T>): Bounds
    requires Resolves(st, env)
  {
    Bounds(0, |Container(st, env)|)
  }

  /** `end()`: the adapter cursor from `(storage.end(), storage.end())`. */
  function EndBounds<T>(st: Storage<T>, env: Env<T>): Bounds
    requires Resolves(st, env)
  {
    Bounds(|Container(st, env)|, |Container(st, env)|)
  }

  /** A `transform` chain: the mapping function and its store. */
  datatype TransformChain<!T, U> = TransformChain(f: T -> U, store: Storage<T>)

  /** A `filter` chain: the predicate and its store. */
  datatype FilterChain<!T> = FilterChain(p: T -> bool, store: Storage<T>)

  /** The `transform(f, c)` entry points: the storage follows the value
      category of `c`. */
  function Transform<T, U>(f: T -> U, a: Argument<T>): TransformChain<T, U> {
    TransformChain(f, ChooseStorage(a))
  }

  /** The `filter(p, c)` entry points. */
  function Filter<T>(p: T -> bool, a: Argument<T>): FilterChain<T> {
    FilterChain(p, ChooseStorage(a))
  }

  /** Iterate a transform chain from `begin()` until `end()`. */
  function MaterialiseTransform<T, U>(ch: TransformChain<T, U>, env: Env<T>): seq<U>
    requires Resolves(ch.store, env)
  {
    var xs := Container(ch.store, env);
    var bb := BeginBounds(ch.store, env);
    TransformIterator.Drain(ch.f, xs, TransformIterator.Make(bb.b, bb.e))
  }

  /** Iterate a filter chain from `begin()` until `end()`. */
  function MaterialiseFilter<T>(ch: FilterChain<T>, env: Env<T>): seq<T>
    requires Resolves(ch.store, env)
  {
    var xs := Container(ch.store, env);
    var bb := BeginBounds(ch.store, env);
    FilterIterator.Drain(ch.p, xs, FilterIterator.Make(ch.p, xs, bb.b, bb.e))
  }

  /** Whichever storage is chosen, the chain sees exactly the container the
      caller passed. */
  lemma StorageExposesArgument<T>(a: Argument<T>, env: Env<T>)
    requires Defined(a, env)
    ensures Resolves(ChooseStorage(a), env)
    ensures Container(ChooseStorage(a), env) == Denoted(a, env)
  {
  }

  /** A reference binding aliases the caller's container: replacing it in
      the environment changes what the chain sees. An owned binding is
      isolated: no change of the environment reaches it. */
  lemma BindingAliasing<T>(a: Argument<T>, env: Env<T>, name: string, ys: seq<T>)
    requires Defined(a, env)
    ensures a.Lvalue? && a.name == name ==>
              Container(ChooseStorage(a), env[name := ys]) == ys
    ensures a.Rvalue? ==>
              Container(ChooseStorage(a), env[name := ys]) == Container(ChooseStorage(a), env)
  {
  }

  /** `begin()` and `end()` of a transform chain are the adapter's own begin
      and end over the container, in both storage modes. */
  lemma TransformBoundsAreBeginEnd<T, U>(ch: TransformChain<T, U>, env: Env<T>)
    requires Resolves(ch.store, env)
    ensures TransformIterator.Make(BeginBounds(ch.store, env).b, BeginBounds(ch.store, env).e)
              == TransformIterator.Begin(Container(ch.store, env))
    ensures TransformIterator.Make(EndBounds(ch.store, env).b, EndBounds(ch.store, env).e)
              == TransformIterator.End(Container(ch.store, env))
  {
  }

  /** `begin()` and `end()` of a filter chain are the adapter's own begin and
      end over the container, in both storage modes. */
  lemma FilterBoundsAreBeginEnd<T>(ch: FilterChain<T>, env: Env<T>)
    requires Resolves(ch.store, env)
    ensures var xs := Container(ch.store, env);
            FilterIterator.Make(ch.p, xs, BeginBounds(ch.store, env).b, BeginBounds(ch.store, env).e)
              == FilterIterator.Begin(ch.p, xs)
    ensures var xs := Container(ch.store, env);
            FilterIterator.Make(ch.p, xs, EndBounds(ch.store, env).b, EndBounds(ch.store, env).e)
              == FilterIterator.End(ch.p, xs)
  {
  }

  /** A transform chain yields the map of the container the caller passed,
      whether it was bound by reference or by value. */
  lemma TransformChainIsMap<T, U>(f: T -> U, a: Argument<T>, env: Env<T>)
    requires Defined(a, env)
    ensures Resolves(Transform(f, a).store, env)
    ensures MaterialiseTransform(Transform(f, a), env) == Seqs.Map(f, Denoted(a, env))
  {
    TransformIterator.MaterialiseIsMap(f, Denoted(a, env));
  }

  /** A filter chain yields the filtered container the caller passed,
      whether it was bound by reference or by value. */
  lemma FilterChainIsFilter<T>(p: T -> bool, a: Argument<T>, env: Env<T>)
    requires Defined(a, env)
    ensures Resolves(Filter(p, a).store, env)
    ensures MaterialiseFilter(Filter(p, a), env) == Seqs.Filter(p, Denoted(a, env))
  {
    FilterIterator.MaterialiseIsFilter(p, Denoted(a, env));
  }

  /** A reference binding of a named container and a value binding of a
      copy of its contents materialise the same result. */
  lemma BindingsAgree<T, U>(f: T -> U, name: string, env: Env<T>)
    requires name in env
    ensures MaterialiseTransform(Transform(f, Lvalue(name)), env)
              == MaterialiseTransform(Transform(f, Rvalue(env[name])), env)
  {
    TransformChainIsMap(f, Lvalue(name), env);
    TransformChainIsMap(f, Rvalue(env[name]), env);
  }

  /** A chain bound as an rvalue source of another chain: its materialised
      values become the outer chain's owned container, and the two
      functions compose. */
  lemma NestedTransformsCompose<T, U, W>(f: T -> U, g: U -> W, a: Argument<T>, env: Env<T>)
    requires Defined(a, env)
    ensures var inner := MaterialiseTransform(Transform(f, a), env);
            MaterialiseTransform(Transform(g, Rvalue(inner)), map[])
              == Seqs.Map(x => g(f(x)), Denoted(a, env))
  {
    var inner := MaterialiseTransform(Transform(f, a), env);
    TransformChainIsMap(f, a, env);
    TransformChainIsMap(g, Rvalue(inner), map[]);
    Seqs.MapMap(f, g, Denoted(a, env));
  }
}
