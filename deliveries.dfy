/**
 * Traces of deliveries. `Async` and `Callback` (Prelude/Async.swift, Prelude/Callback.swift) wrap an
 * operation that hands `Status` values to a continuation; the model of such an operation is the
 * finite sequence of statuses it hands over, in order. "Delivers exactly once" is a trace of
 * length one. The combinators of both types build their traces with the two functions below.
 */
module Deliveries {
  import opened StatusMonad

  /** A continuation that forwards `transform <^> status` for every status it receives. */
  function MapEach<A, B>(t: seq<Status<A>>, f: A -> Status<B>): (r: seq<Status<B>>)
    ensures |r| == |t|
    ensures forall i :: 0 <= i < |t| ==> r[i] == StatusMonad.Map(t[i], f)
  {
    if t == [] then [] else [StatusMonad.Map(t[0], f)] + MapEach(t[1..], f)
  }

  /** A continuation that, for every status it receives, runs a further operation `k(status)` and
      forwards everything that operation delivers. */
  function BindEach<A, B>(t: seq<Status<A>>, k: Status<A> -> seq<Status<B>>): seq<Status<B>> {
    if t == [] then [] else k(t[0]) + BindEach(t[1..], k)
  }

  /** A single delivery is answered by exactly what its continuation delivers. */
  lemma BindEachSingle<A, B>(s: Status<A>, k: Status<A> -> seq<Status<B>>)
    ensures BindEach([s], k) == k(s)
  {
    assert [s][1..] == [];
  }

  /** Binding distributes over concatenated traces. */
  lemma {:induction false} BindEachAppend<A, B>(t1: seq<Status<A>>, t2: seq<Status<A>>, k: Status<A> -> seq<Status<B>>)
    ensures BindEach(t1 + t2, k) == BindEach(t1, k) + BindEach(t2, k)
  {
    if t1 == [] {
      assert t1 + t2 == t2;
    } else {
      assert (t1 + t2)[1..] == t1[1..] + t2;
      BindEachAppend(t1[1..], t2, k);
    }
  }

  /** When every continuation delivers exactly `n` times, the whole delivers `n` times per
      delivery of the first stage. */
  lemma {:induction false} BindEachLength<A, B>(t: seq<Status<A>>, k: Status<A> -> seq<Status<B>>, n: nat)
    requires forall i :: 0 <= i < |t| ==> |k(t[i])| == n
    ensures |BindEach(t, k)| == |t| * n
  {
    if t != [] {
      BindEachLength(t[1..], k, n);
    }
  }
}
