/**
 * `Async<Wrapped>` (Prelude/Async.swift), restricted to its sequential combinators. An `Async` is
 * modelled by its trace: the statuses its operation hands to the continuation given to `run`.
 */
module AsyncMonad {
  import opened StatusMonad
  import Deliveries

  datatype Async<T> = Async(deliveries: seq<Status<T>>)

  /** `async.run(callback)`: the statuses `callback` receives, in order. */
  function Run<T>(a: Async<T>): seq<Status<T>> {
    a.deliveries
  }

  predicate DeliversOnce<T>(a: Async<T>) {
    |Run(a)| == 1
  }

  /** `Async.convert(fn)`: an operation that calls `fn(input)` and delivers its value or its throw. */
  function Convert<I, T>(fn: I -> Status<T>): I -> Async<T> {
    input => Async([fn(input)])
  }

  /** Delivers `ok(value)`, without scheduling. */
  function Pure<T>(v: T): Async<T> {
    Async([Ok(v)])
  }

  /** Forwards `transform <^> status` for each status `self` delivers. */
  function Map<T, M>(a: Async<T>, f: T -> Status<M>): Async<M> {
    Async(Deliveries.MapEach(a.deliveries, f))
  }

  /** What `flatMap`'s continuation delivers for one status of `self`. */
  function Continue<T, M>(s: Status<T>, f: T -> Status<Async<M>>): seq<Status<M>> {
    match s
    case Ok(v) =>
      (match f(v)
       case Ok(next) => Run(next)
       case Err(e) => [Err(e)])
    case Err(e) => [Err(e)]
  }

  function FlatMap<T, M>(a: Async<T>, f: T -> Status<Async<M>>): Async<M> {
    Async(Deliveries.BindEach(a.deliveries, s => Continue(s, f)))
  }

  /** `self.then(other)` is `flatMap { _ in other }`. */
  function Then<T, O>(a: Async<T>, other: Async<O>): Async<O> {
    FlatMap(a, (_: T) => Ok(other))
  }

  /** `pure(v)` delivers exactly one `ok(v)`. */
  lemma PureDeliversOnce<T>(v: T)
    ensures DeliversOnce(Pure(v)) && Run(Pure(v))[0] == Ok(v)
  {
  }

  /** `convert(fn)(input)` delivers exactly once: `fn`'s value as `ok`, or its throw as `error`. */
  lemma ConvertDeliversOnce<I, T>(fn: I -> Status<T>, input: I)
    ensures DeliversOnce(Convert(fn)(input))
    ensures fn(input).Ok? ==> Run(Convert(fn)(input)) == [Ok(fn(input).value)]
    ensures fn(input).Err? ==> Run(Convert(fn)(input)) == [Err(fn(input).error)]
  {
  }

  /** `map` delivers once per delivery of `self`, each the mapped status; it keeps single
      delivery, and mapping the identity changes nothing. */
  lemma MapDeliveries<T, M>(a: Async<T>, f: T -> Status<M>)
    ensures |Run(Map(a, f))| == |Run(a)|
    ensures forall i :: 0 <= i < |Run(a)| ==> Run(Map(a, f))[i] == StatusMonad.Map(Run(a)[i], f)
    ensures DeliversOnce(a) ==> DeliversOnce(Map(a, f))
    ensures Map(a, NonThrowing((x: T) => x)) == a
  {
    var id := NonThrowing((x: T) => x);
    assert Run(Map(a, id)) == Run(a) by {
      forall i | 0 <= i < |Run(a)| ensures Run(Map(a, id))[i] == Run(a)[i] {
        StatusMonad.MapFunctorLaws(Run(a)[i], id, id);
      }
    }
  }

  /** When `self` delivers an error, `flatMap` forwards it, whichever transform it was given. */
  lemma FlatMapForwardsError<T, M>(e: Error, f: T -> Status<Async<M>>, g: T -> Status<Async<M>>)
    ensures Run(FlatMap(Async([Err(e)]), f)) == [Err(e)] == Run(FlatMap(Async([Err(e)]), g))
  {
    Deliveries.BindEachSingle(Err(e), s => Continue(s, f));
    Deliveries.BindEachSingle(Err(e), s => Continue(s, g));
  }

  /** When `self` delivers `ok(v)`, `flatMap` runs `f(v)` and forwards what it delivers, or
      delivers the error `f` throws. */
  lemma FlatMapRunsTransform<T, M>(v: T, f: T -> Status<Async<M>>)
    ensures f(v).Ok? ==> Run(FlatMap(Async([Ok(v)]), f)) == Run(f(v).value)
    ensures f(v).Err? ==> Run(FlatMap(Async([Ok(v)]), f)) == [Err(f(v).error)]
  {
    Deliveries.BindEachSingle(Ok(v), s => Continue(s, f));
  }

  /** Single delivery is preserved: if `self` delivers once and every `Async` the transform
      returns delivers once, so does `flatMap`. */
  lemma FlatMapDeliversOnce<T, M>(a: Async<T>, f: T -> Status<Async<M>>)
    requires DeliversOnce(a)
    requires forall v :: f(v).Ok? ==> DeliversOnce(f(v).value)
    ensures DeliversOnce(FlatMap(a, f))
  {
    Deliveries.BindEachLength(a.deliveries, s => Continue(s, f), 1);
  }

  /** `then` discards `self`'s value and delivers `other`'s outcome; an error of `self`
      short-circuits `other`. */
  lemma ThenSemantics<T, O>(v: T, e: Error, other: Async<O>, other': Async<O>)
    ensures Run(Then(Pure(v), other)) == Run(other)
    ensures Run(Then(Async<T>.Async([Err(e)]), other)) == [Err(e)] == Run(Then(Async<T>.Async([Err(e)]), other'))
  {
    FlatMapRunsTransform(v, (_: T) => Ok(other));
    FlatMapForwardsError(e, (_: T) => Ok(other), (_: T) => Ok(other'));
  }

  /** Monad laws: `pure` is a left and a right unit of `flatMap`. */
  lemma {:induction false} FlatMapUnits<T, M>(v: T, f: T -> Async<M>, a: Async<T>)
    ensures FlatMap(Pure(v), NonThrowing(f)) == f(v)
    ensures FlatMap(a, NonThrowing(Pure<T>)) == a
  {
    Deliveries.BindEachSingle(Ok(v), s => Continue(s, NonThrowing(f)));
    RightUnitTrace(a.deliveries);
  }

  lemma {:induction false} RightUnitTrace<T>(t: seq<Status<T>>)
    ensures Deliveries.BindEach(t, s => Continue(s, NonThrowing(Pure<T>))) == t
  {
    if t != [] {
      RightUnitTrace(t[1..]);
      if t[0].Ok? {
        assert NonThrowing(Pure<T>)(t[0].value) == Ok(Pure(t[0].value));
      }
      assert [t[0]] + t[1..] == t;
    }
  }

  /** Monad law: `flatMap` is associative. */
  lemma FlatMapAssociative<T, M, N>(a: Async<T>, f: T -> Status<Async<M>>, g: M -> Status<Async<N>>)
    ensures FlatMap(FlatMap(a, f), g)
         == FlatMap(a, (x: T) => match f(x) case Ok(b) => Ok(FlatMap(b, g)) case Err(e) => Err(e))
  {
    AssociativeTrace(a.deliveries, f, g);
  }

  lemma {:induction false} AssociativeTrace<T, M, N>(t: seq<Status<T>>, f: T -> Status<Async<M>>, g: M -> Status<Async<N>>)
    ensures Deliveries.BindEach(Deliveries.BindEach(t, s => Continue(s, f)), s => Continue(s, g))
         == Deliveries.BindEach(t, s => Continue(s, (x: T) => match f(x) case Ok(b) => Ok(FlatMap(b, g)) case Err(e) => Err(e)))
  {
    var kf := (s: Status<T>) => Continue(s, f);
    var kg := (s: Status<M>) => Continue(s, g);
    var h := (x: T) => match f(x) case Ok(b) => Ok(FlatMap(b, g)) case Err(e) => Err(e);
    if t != [] {
      calc {
        Deliveries.BindEach(Deliveries.BindEach(t, kf), kg);
        Deliveries.BindEach(kf(t[0]) + Deliveries.BindEach(t[1..], kf), kg);
        { Deliveries.BindEachAppend(kf(t[0]), Deliveries.BindEach(t[1..], kf), kg); }
        Deliveries.BindEach(kf(t[0]), kg) + Deliveries.BindEach(Deliveries.BindEach(t[1..], kf), kg);
        { AssociativeTrace(t[1..], f, g); }
        Deliveries.BindEach(kf(t[0]), kg) + Deliveries.BindEach(t[1..], (s: Status<T>) => Continue(s, h));
        { AssociativeStep(t[0], f, g); }
        Continue(t[0], h) + Deliveries.BindEach(t[1..], (s: Status<T>) => Continue(s, h));
      }
    }
  }

  lemma AssociativeStep<T, M, N>(s: Status<T>, f: T -> Status<Async<M>>, g: M -> Status<Async<N>>)
    ensures Deliveries.BindEach(Continue(s, f), (s': Status<M>) => Continue(s', g))
         == Continue(s, (x: T) => match f(x) case Ok(b) => Ok(FlatMap(b, g)) case Err(e) => Err(e))
  {
    var kg := (s': Status<M>) => Continue(s', g);
    match s
    case Err(e) =>
      Deliveries.BindEachSingle(Err(e), kg);
    case Ok(v) =>
      match f(v)
      case Ok(b) =>
      case Err(e) =>
        Deliveries.BindEachSingle(Err(e), kg);
  }
}
