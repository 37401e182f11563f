/**
 * `Callback<Wrapped>` (Prelude/Callback.swift): the same continuation wrapper as `Async`, whose
 * `<*>` runs its two operands one after the other. Modelled by its trace of deliveries.
 */
module CallbackMonad {
  import opened StatusMonad
  import Deliveries

  datatype Callback<T> = Callback(deliveries: seq<Status<T>>)

  /** `callback.run(yield)`: the statuses `yield` receives, in order. */
  function Run<T>(c: Callback<T>): seq<Status<T>> {
    c.deliveries
  }

  predicate DeliversOnce<T>(c: Callback<T>) {
    |Run(c)| == 1
  }

  function Convert<I, T>(fn: I -> Status<T>): I -> Callback<T> {
    input => Callback([fn(input)])
  }

  function Pure<T>(v: T): Callback<T> {
    Callback([Ok(v)])
  }

  function Map<T, M>(c: Callback<T>, f: T -> Status<M>): Callback<M> {
    Callback(Deliveries.MapEach(c.deliveries, f))
  }

  /** `transform <*> callback`: for each function `transform` delivers, run `callback` and deliver
      `fn <*> value` for each value it delivers. */
  function Apply<T, M>(tf: Callback<T -> Status<M>>, c: Callback<T>): Callback<M> {
    Callback(Deliveries.BindEach(tf.deliveries, fn => ApplyTo(fn, c)))
  }

  /** The inner continuation of `<*>`, for one delivered function. */
  function ApplyTo<T, M>(fn: Status<T -> Status<M>>, c: Callback<T>): seq<Status<M>> {
    Deliveries.BindEach(c.deliveries, Applying(fn))
  }

  /** The innermost continuation of `<*>`: `yield(fn <*> value)`. */
  function Applying<T, M>(fn: Status<T -> Status<M>>): Status<T> -> seq<Status<M>> {
    value => [StatusMonad.Apply(fn, value)]
  }

  function Continue<T, M>(s: Status<T>, f: T -> Status<Callback<M>>): seq<Status<M>> {
    match s
    case Ok(v) =>
      (match f(v)
       case Ok(next) => Run(next)
       case Err(e) => [Err(e)])
    case Err(e) => [Err(e)]
  }

  function FlatMap<T, M>(c: Callback<T>, f: T -> Status<Callback<M>>): Callback<M> {
    Callback(Deliveries.BindEach(c.deliveries, s => Continue(s, f)))
  }

  /** `pure(v)` delivers `ok(v)` once; `convert` wraps a value as `ok` and a throw as `error`. */
  lemma PureAndConvert<I, T>(v: T, fn: I -> Status<T>, input: I)
    ensures Run(Pure(v)) == [Ok(v)]
    ensures DeliversOnce(Convert(fn)(input))
    ensures fn(input).Ok? ==> Run(Convert(fn)(input)) == [Ok(fn(input).value)]
    ensures fn(input).Err? ==> Run(Convert(fn)(input)) == [Err(fn(input).error)]
  {
  }

  /** `map` delivers `f <^> status` for each status `self` delivers. */
  lemma MapDeliveries<T, M>(c: Callback<T>, f: T -> Status<M>)
    ensures |Run(Map(c, f))| == |Run(c)|
    ensures forall i :: 0 <= i < |Run(c)| ==> Run(Map(c, f))[i] == StatusMonad.Map(Run(c)[i], f)
  {
  }

  /** `<*>` runs the value callback once for every delivered function, so it delivers the product
      of the two operands' delivery counts; in particular once when each operand delivers once. */
  lemma ApplyDeliveryCount<T, M>(tf: Callback<T -> Status<M>>, c: Callback<T>)
    ensures |Run(Apply(tf, c))| == |Run(tf)| * |Run(c)|
    ensures DeliversOnce(tf) && DeliversOnce(c) ==> DeliversOnce(Apply(tf, c))
  {
    var k := (fn: Status<T -> Status<M>>) => ApplyTo(fn, c);
    forall i | 0 <= i < |tf.deliveries| ensures |k(tf.deliveries[i])| == |c.deliveries| {
      Deliveries.BindEachLength(c.deliveries, Applying(tf.deliveries[i]), 1);
      assert k(tf.deliveries[i]) == ApplyTo(tf.deliveries[i], c);
    }
    Deliveries.BindEachLength(tf.deliveries, k, |Run(c)|);
  }

  /** With one delivery each, `<*>` delivers `Status`'s `<*>` of the two, so a failed function's
      error wins; the value callback still runs after a failed function, and if it delivers
      nothing, nothing is delivered. */
  lemma ApplySequential<T, M>(fn: Status<T -> Status<M>>, value: Status<T>, e: Error)
    ensures Run(Apply(Callback([fn]), Callback([value]))) == [StatusMonad.Apply(fn, value)]
    ensures Run(Apply(Callback<T -> Status<M>>.Callback([Err(e)]), Callback([value]))) == [Err(e)]
    ensures Run(Apply(Callback<T -> Status<M>>.Callback([Err(e)]), Callback<T>.Callback([]))) == []
  {
    Deliveries.BindEachSingle(value, Applying(fn));
    Deliveries.BindEachSingle(fn, (f: Status<T -> Status<M>>) => ApplyTo(f, Callback([value])));
    var failed: Status<T -> Status<M>> := Err(e);
    Deliveries.BindEachSingle(value, Applying(failed));
    Deliveries.BindEachSingle(failed, (f: Status<T -> Status<M>>) => ApplyTo(f, Callback([value])));
    Deliveries.BindEachSingle(failed, (f: Status<T -> Status<M>>) => ApplyTo(f, Callback<T>.Callback([])));
  }

  /** `flatMap`: an error is forwarded without consulting the transform; on `ok(v)` it runs
      `transform(v)` and forwards its deliveries, and a throw becomes an error. */
  lemma FlatMapSemantics<T, M>(v: T, e: Error, f: T -> Status<Callback<M>>, g: T -> Status<Callback<M>>)
    ensures Run(FlatMap(Callback([Err(e)]), f)) == [Err(e)] == Run(FlatMap(Callback([Err(e)]), g))
    ensures f(v).Ok? ==> Run(FlatMap(Callback([Ok(v)]), f)) == Run(f(v).value)
    ensures f(v).Err? ==> Run(FlatMap(Callback([Ok(v)]), f)) == [Err(f(v).error)]
  {
    Deliveries.BindEachSingle(Err(e), s => Continue(s, f));
    Deliveries.BindEachSingle(Err(e), s => Continue(s, g));
    Deliveries.BindEachSingle(Ok(v), s => Continue(s, f));
  }
}
