/**
 * `Writer<Written, Wrapped>` (Prelude/Writer.swift): a value paired with a log. The log monoid is
 * taken to be `seq<E>`, whose identity is `[]` and whose combine is `+`.
 */
module WriterMonad {

  datatype Writer<E, T> = Writer(value: T, written: seq<E>)

  function Map<E, T, M>(w: Writer<E, T>, f: T -> M): Writer<E, M> {
    Writer(f(w.value), w.written)
  }

  function Pure<E, T>(v: T): Writer<E, T> {
    Writer(v, [])
  }

  /** `transform <*> writer`: the transform's log comes first in the combined log. */
  function Apply<E, T, M>(tf: Writer<E, T -> M>, w: Writer<E, T>): Writer<E, M> {
    Writer(tf.value(w.value), tf.written + w.written)
  }

  function FlatMap<E, T, M>(w: Writer<E, T>, f: T -> Writer<E, M>): Writer<E, M> {
    var next := f(w.value);
    Writer(next.value, w.written + next.written)
  }

  /** `map` transforms the value and keeps the log; the functor laws hold. */
  lemma MapKeepsLog<E, T, M, N>(w: Writer<E, T>, f: T -> M, g: M -> N)
    ensures Map(w, f).written == w.written && Map(w, f).value == f(w.value)
    ensures Map(w, (x: T) => x) == w
    ensures Map(Map(w, f), g) == Map(w, (x: T) => g(f(x)))
  {
  }

  /** `pure` writes the empty log and `<*>` logs the transform's entries before the operand's. */
  lemma ApplyCombinesLogs<E, T, M>(v: T, tf: Writer<E, T -> M>, w: Writer<E, T>)
    ensures Pure<E, T>(v).written == [] && Pure<E, T>(v).value == v
    ensures Apply(tf, w).value == tf.value(w.value)
    ensures |Apply(tf, w).written| == |tf.written| + |w.written|
    ensures Apply(tf, w).written[..|tf.written|] == tf.written
    ensures Apply(tf, w).written[|tf.written|..] == w.written
    ensures Apply(Pure(tf.value), w) == Map(w, tf.value)
  {
  }

  /** `flatMap` yields the next writer's value under the combined log; monad laws. */
  lemma FlatMapMonadLaws<E, T, M, N>(v: T, w: Writer<E, T>, f: T -> Writer<E, M>, g: M -> Writer<E, N>)
    ensures FlatMap(w, f).value == f(w.value).value
    ensures FlatMap(w, f).written == w.written + f(w.value).written
    ensures FlatMap(Pure(v), f) == f(v)
    ensures FlatMap(w, Pure<E, T>) == w
    ensures FlatMap(FlatMap(w, f), g) == FlatMap(w, (x: T) => FlatMap(f(x), g))
  {
    var x, y, z := w.written, f(w.value).written, g(f(w.value).value).written;
    assert (x + y) + z == x + (y + z);
    assert [] + f(v).written == f(v).written;
    assert w.written + [] == w.written;
  }
}
