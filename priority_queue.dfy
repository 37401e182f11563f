/**
 * `PriorityQueue` (Prelude/PriorityQueue.swift): a mutable wrapper around one leftist heap.
 * The Swift value type with `mutating` methods is a class whose single field the methods
 * reassign.
 */
module PriorityQueues {
  import opened Optional
  import opened LeftistHeap

  /** `sequence.reduce(Leftist()) { $0.inserting($1) }`: insert the elements front to back. */
  function Queued(s: seq<int>): (h: Leftist)
    ensures Elements(h) == multiset(s)
  {
    if s == [] then Empty()
    else
      assert s == s[..|s| - 1] + [s[|s| - 1]];
      Inserting(Queued(s[..|s| - 1]), s[|s| - 1])
  }

  /** The heap built from a sequence is a valid leftist heap. */
  lemma {:induction false} QueuedValid(s: seq<int>)
    ensures Valid(Queued(s))
  {
    if s != [] {
      QueuedValid(s[..|s| - 1]);
      InsertingValid(Queued(s[..|s| - 1]), s[|s| - 1]);
    }
  }

  /** Dequeuing everything from a queue built from `s` hands out the elements of `s`, each as
      often as it occurs, least first. */
  lemma QueuedDrainsSorted(s: seq<int>)
    ensures multiset(Drained(Queued(s))) == multiset(s)
    ensures Sorted(Drained(Queued(s)))
  {
    QueuedValid(s);
    DrainedIsSorted(Queued(s));
  }

  class PriorityQueue {
    var leftist: Leftist

    ghost predicate Valid()
      reads this
    {
      LeftistHeap.Valid(leftist)
    }

    /** The elements waiting in the queue, with multiplicity. */
    function Contents(): multiset<int>
      reads this
    {
      Elements(leftist)
    }

    /** `init()`: an empty queue. */
    constructor ()
      ensures Valid() && Contents() == multiset{}
    {
      leftist := Empty();
    }

    /** `init(_ sequence:)`: a queue holding the elements of the sequence. */
    constructor FromSequence(s: seq<int>)
      ensures Valid() && Contents() == multiset(s)
      ensures leftist == Queued(s)
    {
      leftist := Queued(s);
      QueuedValid(s);
    }

    /** `peek`: nil for an empty queue, otherwise the least element waiting. */
    function Peek(): (x: Option<int>)
      reads this
      requires Valid()
      ensures x.None? <==> Contents() == multiset{}
      ensures x.Some? ==> x.value in Contents() && forall y | y in Contents() :: x.value <= y
    {
      ViewIsMinimum(leftist);
      View(leftist)
    }

    /** `enqueue(_:)`: one more occurrence of the element is waiting. */
    method Enqueue(x: int)
      requires Valid()
      modifies this
      ensures Valid() && Contents() == old(Contents()) + multiset{x}
      ensures leftist == Inserting(old(leftist), x)
    {
      InsertingValid(leftist, x);
      leftist := Inserting(leftist, x);
    }

    /** `dequeue()`: nil on an empty queue, which stays empty; otherwise the least element, and
        one occurrence of it leaves the queue. */
    method Dequeue() returns (x: Option<int>)
      requires Valid()
      modifies this
      ensures Valid()
      ensures x == old(Peek())
      ensures x.None? ==> leftist == old(leftist)
      ensures x.Some? ==> Contents() == old(Contents()) - multiset{x.value}
      ensures x.Some? ==> forall y | y in Contents() :: x.value <= y
    {
      NextTakesMinimum(leftist);
      NextKeepsRest(leftist);
      match Next(leftist)
      case None =>
        x := None;
      case Some((element, newLeftist)) =>
        leftist := newLeftist;
        x := Some(element);
    }
  }
}
