/**
 * `Transaction<Context, Wrapped>` (Prelude/Transaction.swift): a function from a context to an
 * `Async`, i.e. a reader over `Async`. Every combinator hands the same context to each stage.
 */
module TransactionMonad {
  import opened StatusMonad
  import Deliveries
  import AsyncMonad

  datatype Transaction<!C, T> = Transaction(transact: C -> AsyncMonad.Async<T>)

  /** `init(_:)` from a synchronous function: its value delivered once, as `convert` does. */
  function FromSync<C, T>(fn: C -> T): Transaction<C, T> {
    Transaction(AsyncMonad.Convert(NonThrowing(fn)))
  }

  /** `run(from:_:)`: the statuses the callback receives. */
  function RunFrom<C, T>(t: Transaction<C, T>, context: C): seq<Status<T>> {
    AsyncMonad.Run(t.transact(context))
  }

  /** `async(with:)`. */
  function AsyncWith<C, T>(t: Transaction<C, T>, context: C): AsyncMonad.Async<T> {
    t.transact(context)
  }

  function Map<C, T, M>(t: Transaction<C, T>, f: T -> Status<M>): Transaction<C, M> {
    Transaction(context => AsyncMonad.Map(t.transact(context), f))
  }

  function Pure<C, T>(v: T): Transaction<C, T> {
    Transaction(_ => AsyncMonad.Pure(v))
  }

  /** `transform <*> transaction`, sequential: the function transaction, then the value
      transaction mapped by the delivered function, both with the same context. */
  function Apply<C, T, M>(tf: Transaction<C, T -> M>, t: Transaction<C, T>): Transaction<C, M> {
    Transaction(context =>
      AsyncMonad.FlatMap(tf.transact(context), fn => Ok(AsyncMonad.Map(t.transact(context), NonThrowing(fn)))))
  }

  /** Run `self`; on `ok(v)` run `transform(v)` with the same context. */
  function FlatMap<C, T, M>(t: Transaction<C, T>, f: T -> Status<Transaction<C, M>>): Transaction<C, M> {
    Transaction(context =>
      AsyncMonad.FlatMap(t.transact(context), v => match f(v)
                                                   case Ok(next) => Ok(next.transact(context))
                                                   case Err(e) => Err(e)))
  }

  /** `run(from:)` delivers what running `async(with:)` for the same context delivers, and a
      transaction built from a synchronous function delivers its value once. */
  lemma RunIsAsyncRun<C, T>(t: Transaction<C, T>, fn: C -> T, context: C)
    ensures RunFrom(t, context) == AsyncMonad.Run(AsyncWith(t, context))
    ensures RunFrom(FromSync(fn), context) == [Ok(fn(context))]
  {
  }

  /** `pure(v)` delivers `ok(v)` whatever the context; `map` delivers the transaction's outcomes
      for the same context, mapped. */
  lemma PureAndMap<C, T, M>(v: T, t: Transaction<C, T>, f: T -> Status<M>, context: C, other: C)
    ensures RunFrom(Pure<C, T>(v), context) == [Ok(v)] == RunFrom(Pure<C, T>(v), other)
    ensures RunFrom(Map(t, f), context) == Deliveries.MapEach(RunFrom(t, context), f)
  {
  }

  /** Sequential `<*>`: when the function transaction fails, that error is delivered and the value
      transaction's outcome plays no part; when it delivers `ok(fn)`, the value transaction for
      the same context is delivered mapped by `fn`. */
  lemma ApplySequential<C, T, M>(tf: Transaction<C, T -> M>, t: Transaction<C, T>, t': Transaction<C, T>, context: C)
    requires AsyncMonad.DeliversOnce(tf.transact(context))
    ensures RunFrom(tf, context)[0].Err? ==>
      RunFrom(Apply(tf, t), context) == [Err(RunFrom(tf, context)[0].error)] == RunFrom(Apply(tf, t'), context)
    ensures RunFrom(tf, context)[0].Ok? ==>
      RunFrom(Apply(tf, t), context) == Deliveries.MapEach(RunFrom(t, context), NonThrowing(RunFrom(tf, context)[0].value))
  {
    var a := tf.transact(context);
    var first := AsyncMonad.Run(a)[0];
    assert a == AsyncMonad.Async([first]);
    var k := (fn: T -> M) => Ok(AsyncMonad.Map(t.transact(context), NonThrowing(fn)));
    var k' := (fn: T -> M) => Ok(AsyncMonad.Map(t'.transact(context), NonThrowing(fn)));
    match first
    case Err(e) =>
      AsyncMonad.FlatMapForwardsError(e, k, k');
    case Ok(fn) =>
      AsyncMonad.FlatMapRunsTransform(fn, k);
  }

  /** `flatMap`: on `ok(v)` it runs `transform(v)` with the same context; an error is forwarded
      whatever the transform; a throw from the transform is delivered as an error. */
  lemma FlatMapSameContext<C, T, M>(t: Transaction<C, T>, f: T -> Status<Transaction<C, M>>, f': T -> Status<Transaction<C, M>>, context: C)
    requires AsyncMonad.DeliversOnce(t.transact(context))
    ensures RunFrom(t, context)[0].Err? ==>
      RunFrom(FlatMap(t, f), context) == [Err(RunFrom(t, context)[0].error)] == RunFrom(FlatMap(t, f'), context)
    ensures var first := RunFrom(t, context)[0];
      first.Ok? && f(first.value).Ok? ==> RunFrom(FlatMap(t, f), context) == RunFrom(f(first.value).value, context)
    ensures var first := RunFrom(t, context)[0];
      first.Ok? && f(first.value).Err? ==> RunFrom(FlatMap(t, f), context) == [Err(f(first.value).error)]
  {
    var a := t.transact(context);
    var first := AsyncMonad.Run(a)[0];
    assert a == AsyncMonad.Async([first]);
    var k := (v: T) => match f(v) case Ok(next) => Ok(next.transact(context)) case Err(e) => Err(e);
    var k' := (v: T) => match f'(v) case Ok(next) => Ok(next.transact(context)) case Err(e) => Err(e);
    match first
    case Err(e) =>
      AsyncMonad.FlatMapForwardsError(e, k, k');
    case Ok(v) =>
      AsyncMonad.FlatMapRunsTransform(v, k);
  }
}
