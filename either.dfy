/** The two-case sum `Either` and its functor/applicative/monad operations (Prelude/Either.swift). */
module EitherMonad {

  datatype Either<L, R> = Left(left: L) | Right(right: R)

  function Map<L, R, M>(e: Either<L, R>, f: R -> M): Either<L, M> {
    match e
    case Left(l) => Left(l)
    case Right(r) => Right(f(r))
  }

  function Pure<L, R>(v: R): Either<L, R> {
    Right(v)
  }

  /** `transform <*> either`. */
  function Apply<L, R, M>(tf: Either<L, R -> M>, e: Either<L, R>): Either<L, M> {
    match tf
    case Left(l) => Left(l)
    case Right(f) => Map(e, f)
  }

  function FlatMap<L, R, M>(e: Either<L, R>, f: R -> Either<L, M>): Either<L, M> {
    match e
    case Left(l) => Left(l)
    case Right(r) => f(r)
  }

  /** `map` leaves a left alone and transforms a right; the functor laws hold. */
  lemma MapSemantics<L, R, M, N>(e: Either<L, R>, f: R -> M, g: M -> N)
    ensures e.Left? ==> Map(e, f) == Left(e.left)
    ensures e.Right? ==> Map(e, f) == Right(f(e.right))
    ensures Map(e, (x: R) => x) == e
    ensures Map(Map(e, f), g) == Map(e, (x: R) => g(f(x)))
  {
  }

  /** `pure` is `right`; `<*>` with a left transform is that left, whatever the operand; with a
      right transform it is `map`. */
  lemma ApplySemantics<L, R, M>(v: R, tf: Either<L, R -> M>, e: Either<L, R>, e': Either<L, R>)
    ensures Pure<L, R>(v) == Right(v)
    ensures tf.Left? ==> Apply(tf, e) == Left(tf.left) == Apply(tf, e')
    ensures tf.Right? ==> Apply(tf, e) == Map(e, tf.right)
  {
  }

  /** `flatMap` keeps a left and hands a right's payload to the transform; monad laws. */
  lemma FlatMapSemantics<L, R, M, N>(v: R, e: Either<L, R>, f: R -> Either<L, M>, g: M -> Either<L, N>)
    ensures e.Left? ==> FlatMap(e, f) == Left(e.left)
    ensures e.Right? ==> FlatMap(e, f) == f(e.right)
    ensures FlatMap(Pure(v), f) == f(v)
    ensures FlatMap(e, Pure<L, R>) == e
    ensures FlatMap(FlatMap(e, f), g) == FlatMap(e, (x: R) => FlatMap(f(x), g))
  {
    if e.Right? {
      assert Pure<L, R>(e.right) == e;
    }
  }
}
