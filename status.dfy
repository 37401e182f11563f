/**
 * The two-case result `Status` (Prelude/Status.swift) and the errors the library raises.
 *
 * A Swift closure `(A) throws -> B` is modelled throughout as a function `A -> Status<B>`:
 * returning normally is `Ok`, throwing `e` is `Err(e)`.
 */
module StatusMonad {

  /** Swift's `Error` is an open protocol. The model names the two errors this library raises
      itself; every other thrown error (a user closure's, the transport's, a decoder's) is
      `Raised` with some code. */
  datatype Error = ResourceLoaderError | JsonReaderError(message: string) | Raised(code: int)

  datatype Status<T> = Ok(value: T) | Err(error: Error)

  /** Swift's implicit conversion of a non-throwing function into a throwing one. */
  function NonThrowing<A, B>(f: A -> B): A -> Status<B> {
    a => Ok(f(a))
  }

  function Pure<T>(v: T): Status<T> {
    Ok(v)
  }

  /** `status.map(transform)`, also spelled `transform <^> status`. */
  function Map<A, B>(s: Status<A>, f: A -> Status<B>): Status<B> {
    match s
    case Ok(v) => f(v)
    case Err(e) => Err(e)
  }

  /** `transform <*> status`. */
  function Apply<A, B>(tf: Status<A -> Status<B>>, s: Status<A>): Status<B> {
    match tf
    case Ok(f) => Map(s, f)
    case Err(e) => Err(e)
  }

  /** `status.flatMap(transform)`: the transform itself returns a `Status`, and may also throw. */
  function FlatMap<A, B>(s: Status<A>, f: A -> Status<Status<B>>): Status<B> {
    match s
    case Ok(v) =>
      (match f(v)
       case Ok(inner) => inner
       case Err(e) => Err(e))
    case Err(e) => Err(e)
  }

  lemma PureIsOk<T>(v: T)
    ensures Pure(v) == Ok(v)
    ensures forall f: T -> Status<T> :: Map(Pure(v), f) == f(v)
  {
  }

  /** `map` passes an error through without consulting the transform, and on `ok` yields what
      the transform returns or throws. */
  lemma MapPassesErrorsThrough<A, B>(s: Status<A>, f: A -> Status<B>, g: A -> Status<B>)
    ensures s.Err? ==> Map(s, f) == Err(s.error) == Map(s, g)
    ensures s.Ok? && f(s.value).Ok? ==> Map(s, f) == Ok(f(s.value).value)
    ensures s.Ok? && f(s.value).Err? ==> Map(s, f) == Err(f(s.value).error)
  {
  }

  /** Functor laws: mapping the identity changes nothing, and mapping twice is mapping the
      composite once. */
  lemma MapFunctorLaws<A, B, C>(s: Status<A>, f: A -> Status<B>, g: B -> Status<C>)
    ensures Map(s, NonThrowing((x: A) => x)) == s
    ensures Map(Map(s, f), g) == Map(s, (x: A) => Map(f(x), g))
  {
  }

  /** `<*>`: an erroneous transform wins and the operand is ignored; an `ok` transform maps. */
  lemma ApplySemantics<A, B>(tf: Status<A -> Status<B>>, s: Status<A>, s': Status<A>)
    ensures tf.Err? ==> Apply(tf, s) == Err(tf.error) == Apply(tf, s')
    ensures tf.Ok? ==> Apply(tf, s) == Map(s, tf.value)
  {
  }

  /** `flatMap` does not double-wrap: on `ok` the transform's own status is the result, a throw
      becomes an error, and an error passes through without consulting the transform. */
  lemma FlatMapSemantics<A, B>(s: Status<A>, f: A -> Status<Status<B>>, g: A -> Status<Status<B>>)
    ensures s.Ok? && f(s.value).Ok? ==> FlatMap(s, f) == f(s.value).value
    ensures s.Ok? && f(s.value).Err? ==> FlatMap(s, f) == Err(f(s.value).error)
    ensures s.Err? ==> FlatMap(s, f) == Err(s.error) == FlatMap(s, g)
  {
  }

  /** Monad laws for `pure` and `flatMap` (a transform that never throws is `NonThrowing`). */
  lemma FlatMapMonadLaws<A, B, C>(v: A, s: Status<A>, f: A -> Status<B>, g: B -> Status<C>)
    ensures FlatMap(Pure(v), NonThrowing(f)) == f(v)
    ensures FlatMap(s, NonThrowing(Pure<A>)) == s
    ensures FlatMap(FlatMap(s, NonThrowing(f)), NonThrowing(g))
         == FlatMap(s, NonThrowing((x: A) => FlatMap(f(x), NonThrowing(g))))
  {
    if s.Ok? {
      assert NonThrowing(Pure<A>)(s.value) == Ok(Pure(s.value));
    }
  }
}
