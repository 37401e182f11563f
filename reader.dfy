/**
 * `Reader<Source, Read>` (Prelude/Reader.swift): a throwing function from a source to a value,
 * with functor, applicative, monad, category, contravariant and monoid operations.
 * The monoid instance is taken at `Read = seq<E>`, whose identity is `[]` and whose combine is `+`.
 */
module ReaderMonad {
  import opened StatusMonad
  import Category

  datatype Reader<-S, R> = Reader(read: S -> Status<R>)

  /** `reader.reading(from: source)`. */
  function Reading<S, R>(r: Reader<S, R>, source: S): Status<R> {
    r.read(source)
  }

  /** Read, then apply the (throwing) transform to what was read. */
  function Map<S, R, M>(r: Reader<S, R>, f: R -> Status<M>): Reader<S, M> {
    Reader(source => StatusMonad.Map(r.read(source), f))
  }

  function Pure<S, R>(v: R): Reader<S, R> {
    Reader(_ => Ok(v))
  }

  /** `transform <*> reader`: read the function, then the value, from the same source. */
  function Apply<S, R, M>(tf: Reader<S, R -> Status<M>>, r: Reader<S, R>): Reader<S, M> {
    Reader(source =>
      match tf.read(source)
      case Err(e) => Err(e)
      case Ok(fn) => StatusMonad.Map(r.read(source), fn))
  }

  /** Both stages read the same source. */
  function FlatMap<S, R, M>(r: Reader<S, R>, f: R -> Status<Reader<S, M>>): Reader<S, M> {
    Reader(source =>
      match r.read(source)
      case Err(e) => Err(e)
      case Ok(v) =>
        (match f(v)
         case Err(e) => Err(e)
         case Ok(next) => next.read(source)))
  }

  /** The category identity: read back the source itself. */
  function Identity<R>(): Reader<R, R> {
    Reader(source => Ok(source))
  }

  /** `reader1 >>> reader2`. */
  function Forward<S, R, C>(r1: Reader<S, R>, r2: Reader<R, C>): Reader<S, C> {
    Reader(Category.Forward(r1.read, r2.read))
  }

  /** `reader1 <<< reader2`. */
  function Backward<S, R, C>(r1: Reader<R, C>, r2: Reader<S, R>): Reader<S, C> {
    Forward(r2, r1)
  }

  /** Read from a transformed source. */
  function Contramap<S, R, M>(r: Reader<S, R>, t: M -> Status<S>): Reader<M, R> {
    Reader(source => StatusMonad.Map(t(source), r.read))
  }

  /** The monoid identity: `Read.identity` whatever the source. */
  function MonoidIdentity<S, E>(): Reader<S, seq<E>> {
    Reader(_ => Ok([]))
  }

  /** The monoid combine: read `lhs`, then `rhs`, from the same source and combine the two. */
  function MonoidCombine<S, E>(lhs: Reader<S, seq<E>>, rhs: Reader<S, seq<E>>): Reader<S, seq<E>> {
    Reader(source =>
      match lhs.read(source)
      case Err(e) => Err(e)
      case Ok(a) =>
        (match rhs.read(source)
         case Err(e) => Err(e)
         case Ok(b) => Ok(a + b)))
  }

  /** `pure(v)` reads `v` from any source; `map` reads and then transforms, and a failure of
      either stage surfaces. */
  lemma PureAndMap<S, R, M>(v: R, r: Reader<S, R>, f: R -> Status<M>, source: S)
    ensures Reading(Pure<S, R>(v), source) == Ok(v)
    ensures Reading(r, source).Err? ==> Reading(Map(r, f), source) == Err(Reading(r, source).error)
    ensures Reading(r, source).Ok? ==> Reading(Map(r, f), source) == f(Reading(r, source).value)
  {
  }

  /** `<*>` reads the function first: when it fails, its error is the result whatever the value
      reader would do; otherwise the function is applied to the value read from the same source. */
  lemma ApplyReadsFunctionFirst<S, R, M>(tf: Reader<S, R -> Status<M>>, r: Reader<S, R>, r': Reader<S, R>, source: S)
    ensures Reading(tf, source).Err? ==>
      Reading(Apply(tf, r), source) == Err(Reading(tf, source).error) == Reading(Apply(tf, r'), source)
    ensures Reading(tf, source).Ok? && Reading(r, source).Err? ==>
      Reading(Apply(tf, r), source) == Err(Reading(r, source).error)
    ensures Reading(tf, source).Ok? && Reading(r, source).Ok? ==>
      Reading(Apply(tf, r), source) == Reading(tf, source).value(Reading(r, source).value)
  {
  }

  /** `flatMap` feeds the same source to the reader it obtains. */
  lemma FlatMapSameSource<S, R, M>(r: Reader<S, R>, f: R -> Status<Reader<S, M>>, source: S)
    ensures Reading(r, source).Ok? && f(Reading(r, source).value).Ok? ==>
      Reading(FlatMap(r, f), source) == Reading(f(Reading(r, source).value).value, source)
    ensures Reading(r, source).Ok? && f(Reading(r, source).value).Err? ==>
      Reading(FlatMap(r, f), source) == Err(f(Reading(r, source).value).error)
    ensures Reading(r, source).Err? ==> Reading(FlatMap(r, f), source) == Err(Reading(r, source).error)
  {
  }

  /** The category operations: `identity` returns its source, `>>>` reads the second reader
      from the first one's output, `<<<` is `>>>` flipped, and `identity` is a unit of `>>>`. */
  lemma CategoryLaws<S, R, C>(r1: Reader<S, R>, r2: Reader<R, C>, source: S)
    ensures Reading(Identity<S>(), source) == Ok(source)
    ensures Reading(r1, source).Ok? ==>
      Reading(Forward(r1, r2), source) == Reading(r2, Reading(r1, source).value)
    ensures Reading(r1, source).Err? ==> Reading(Forward(r1, r2), source) == Err(Reading(r1, source).error)
    ensures Reading(Backward(r2, r1), source) == Reading(Forward(r1, r2), source)
    ensures Reading(Forward(Identity<S>(), r1), source) == Reading(r1, source)
    ensures Reading(Forward(r1, Identity<R>()), source) == Reading(r1, source)
  {
  }

  /** `contramap(t)` reads from `t(source)`, and a throw from `t` surfaces. */
  lemma ContramapReadsTransformedSource<S, R, M>(r: Reader<S, R>, t: M -> Status<S>, source: M)
    ensures t(source).Ok? ==> Reading(Contramap(r, t), source) == Reading(r, t(source).value)
    ensures t(source).Err? ==> Reading(Contramap(r, t), source) == Err(t(source).error)
  {
  }

  /** The monoid operations: `combine` is `+` of the two reads (the left failure first, then the
      right one), with
      `identity` as its unit on both sides, and `combine` is associative. */
  lemma MonoidLaws<S, E>(a: Reader<S, seq<E>>, b: Reader<S, seq<E>>, c: Reader<S, seq<E>>, source: S)
    ensures Reading(MonoidIdentity<S, E>(), source) == Ok([])
    ensures Reading(a, source).Ok? && Reading(b, source).Ok? ==>
      Reading(MonoidCombine(a, b), source) == Ok(Reading(a, source).value + Reading(b, source).value)
    ensures Reading(a, source).Err? ==> Reading(MonoidCombine(a, b), source) == Err(Reading(a, source).error)
    ensures Reading(a, source).Ok? && Reading(b, source).Err? ==>
      Reading(MonoidCombine(a, b), source) == Err(Reading(b, source).error)
    ensures Reading(MonoidCombine(MonoidIdentity(), a), source) == Reading(a, source)
    ensures Reading(MonoidCombine(a, MonoidIdentity()), source) == Reading(a, source)
    ensures Reading(MonoidCombine(MonoidCombine(a, b), c), source)
         == Reading(MonoidCombine(a, MonoidCombine(b, c)), source)
  {
    if Reading(a, source).Ok? {
      assert [] + Reading(a, source).value == Reading(a, source).value;
      assert Reading(a, source).value + [] == Reading(a, source).value;
      if Reading(b, source).Ok? && Reading(c, source).Ok? {
        var x, y, z := Reading(a, source).value, Reading(b, source).value, Reading(c, source).value;
        assert (x + y) + z == x + (y + z);
      }
    }
  }
}
