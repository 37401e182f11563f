/**
 * The persistent leftist heap `Leftist` (Prelude/Leftist.swift), a min-heap. Elements are `int`
 * (the Swift type is generic over `Comparable`); ranks are unbounded integers.
 */
module LeftistHeap {
  import opened Optional

  datatype Leftist = Leaf | Branch(left: Leftist, element: int, right: Leftist, rank: int)

  /** `rank`: the rank stored at a branch, 0 for a leaf. */
  function Rank(h: Leftist): int {
    match h
    case Leaf => 0
    case Branch(_, _, _, r) => r
  }

  /** `init(left:element:right:)`: a branch whose stored rank is one more than its right child's. */
  function Node(left: Leftist, element: int, right: Leftist): Leftist {
    Branch(left, element, right, Rank(right) + 1)
  }

  /** `init()`. */
  function Empty(): (h: Leftist)
    ensures Elements(h) == multiset{} && Valid(h)
  {
    Leaf
  }

  /** `init(_ value:)`. */
  function Singleton(x: int): (h: Leftist)
    ensures Elements(h) == multiset{x} && Valid(h)
  {
    Node(Leaf, x, Leaf)
  }

  /** The elements held, with multiplicity. */
  function Elements(h: Leftist): multiset<int> {
    match h
    case Leaf => multiset{}
    case Branch(l, x, r, _) => Elements(l) + multiset{x} + Elements(r)
  }

  function Size(h: Leftist): nat {
    match h
    case Leaf => 0
    case Branch(l, _, r, _) => Size(l) + 1 + Size(r)
  }

  /** Heap order: every branch's element is at most every element below it. */
  ghost predicate HeapOrdered(h: Leftist) {
    match h
    case Leaf => true
    case Branch(l, x, r, _) =>
      (forall y | y in Elements(l) :: x <= y) &&
      (forall y | y in Elements(r) :: x <= y) &&
      HeapOrdered(l) && HeapOrdered(r)
  }

  /** The leftist invariant: every stored rank is one more than the right child's rank, and no
      right child outranks its left sibling. */
  ghost predicate RankInvariant(h: Leftist) {
    match h
    case Leaf => true
    case Branch(l, _, r, rank) =>
      rank == Rank(r) + 1 && Rank(l) >= Rank(r) && RankInvariant(l) && RankInvariant(r)
  }

  ghost predicate Valid(h: Leftist) {
    HeapOrdered(h) && RankInvariant(h)
  }

  /** Every operand of a recursive call to `merged` is strictly smaller, except for the swap
      taken when the left root is the larger, which happens at most once before a smaller call. */
  function SwapPending(a: Leftist, b: Leftist): nat {
    if a.Branch? && b.Branch? && a.element > b.element then 1 else 0
  }

  /** The last step of `merged`: the branch over `element` whose children are `x` and `y`, the
      one of higher rank on the left. */
  function Joined(x: Leftist, element: int, y: Leftist): (r: Leftist)
    ensures Elements(r) == Elements(x) + multiset{element} + Elements(y)
    ensures Size(r) == Size(x) + 1 + Size(y)
  {
    if Rank(x) >= Rank(y) then Node(x, element, y) else Node(y, element, x)
  }

  /** `merged(with:)`: the union of two heaps. */
  function Merged(a: Leftist, b: Leftist): (r: Leftist)
    ensures Elements(r) == Elements(a) + Elements(b)
    decreases Size(a) + Size(b), SwapPending(a, b)
  {
    if a.Leaf? then b
    else if b.Leaf? then a
    else if a.element > b.element then Merged(b, a)
    else Joined(a.left, a.element, Merged(a.right, b))
  }

  /** Merging adds the sizes. */
  lemma {:induction false} MergedSize(a: Leftist, b: Leftist)
    ensures Size(Merged(a, b)) == Size(a) + Size(b)
    decreases Size(a) + Size(b), SwapPending(a, b)
  {
    if a.Leaf? || b.Leaf? {
    } else if a.element > b.element {
      MergedSize(b, a);
    } else {
      MergedSize(a.right, b);
      assert Merged(a, b) == Joined(a.left, a.element, Merged(a.right, b));
    }
  }

  /** `merged` keeps heap order and the leftist invariant. */
  lemma {:induction false} MergedValid(a: Leftist, b: Leftist)
    requires Valid(a) && Valid(b)
    ensures Valid(Merged(a, b))
    decreases Size(a) + Size(b), SwapPending(a, b)
  {
    if a.Leaf? || b.Leaf? {
    } else if a.element > b.element {
      MergedValid(b, a);
    } else {
      var newRight := Merged(a.right, b);
      MergedValid(a.right, b);
      RootIsMinimum(b);
      assert forall y | y in Elements(newRight) :: a.element <= y;
      JoinedValid(a.left, a.element, newRight);
      assert Merged(a, b) == Joined(a.left, a.element, newRight);
    }
  }

  /** A branch over two valid heaps whose elements are all at least its own is valid. */
  lemma JoinedValid(x: Leftist, element: int, y: Leftist)
    requires Valid(x) && Valid(y)
    requires forall z | z in Elements(x) :: element <= z
    requires forall z | z in Elements(y) :: element <= z
    ensures Valid(Joined(x, element, y))
  {
    JoinedOrdered(x, element, y);
    JoinedRanked(x, element, y);
  }

  lemma JoinedOrdered(x: Leftist, element: int, y: Leftist)
    requires HeapOrdered(x) && HeapOrdered(y)
    requires forall z | z in Elements(x) :: element <= z
    requires forall z | z in Elements(y) :: element <= z
    ensures HeapOrdered(Joined(x, element, y))
  {
  }

  lemma JoinedRanked(x: Leftist, element: int, y: Leftist)
    requires RankInvariant(x) && RankInvariant(y)
    ensures RankInvariant(Joined(x, element, y))
  {
  }

  /** `inserting(_:)`. */
  function Inserting(h: Leftist, x: int): (r: Leftist)
    ensures Elements(r) == Elements(h) + multiset{x}
  {
    Merged(h, Singleton(x))
  }

  /** `inserting` keeps heap order and the leftist invariant. */
  lemma InsertingValid(h: Leftist, x: int)
    requires Valid(h)
    ensures Valid(Inserting(h, x))
  {
    MergedValid(h, Singleton(x));
  }

  /** `next()`: the element at the root and the merge of its two children. */
  function Next(h: Leftist): Option<(int, Leftist)> {
    match h
    case Leaf => None
    case Branch(l, e, r, _) => Some((e, Merged(l, r)))
  }

  /** `view`: the element at the root. */
  function View(h: Leftist): Option<int> {
    match h
    case Leaf => None
    case Branch(_, e, _, _) => Some(e)
  }

  /** Merging with an empty heap on either side returns the other heap itself. */
  lemma MergedWithLeaf(h: Leftist)
    ensures Merged(Leaf, h) == h && Merged(h, Leaf) == h
  {
  }

  /** In a heap-ordered heap every element is at least the root's. */
  lemma RootIsMinimum(h: Leftist)
    requires HeapOrdered(h) && h.Branch?
    ensures h.element in Elements(h)
    ensures forall y | y in Elements(h) :: h.element <= y
  {
  }

  /** `view` is nil exactly for an empty heap, and otherwise it is the heap's least element. */
  lemma ViewIsMinimum(h: Leftist)
    requires Valid(h)
    ensures View(h).None? <==> Elements(h) == multiset{}
    ensures View(h).Some? ==>
      View(h).value in Elements(h) && forall y | y in Elements(h) :: View(h).value <= y
  {
    if h.Branch? {
      RootIsMinimum(h);
    }
  }

  /** `next` is nil exactly for an empty heap; otherwise it yields the least element, ... */
  lemma NextTakesMinimum(h: Leftist)
    requires Valid(h)
    ensures Next(h).None? <==> h.Leaf?
    ensures Next(h).Some? ==> Some(Next(h).value.0) == View(h)
    ensures Next(h).Some? ==> forall y | y in Elements(h) :: Next(h).value.0 <= y
  {
    if h.Branch? {
      RootIsMinimum(h);
    }
  }

  /** ... and a valid heap holding exactly the remaining elements. */
  lemma NextKeepsRest(h: Leftist)
    requires Valid(h)
    ensures Next(h).Some? ==> Elements(Next(h).value.1) == Elements(h) - multiset{Next(h).value.0}
    ensures Next(h).Some? ==> Size(Next(h).value.1) + 1 == Size(h) && Valid(Next(h).value.1)
  {
    if h.Branch? {
      DrainStep(h);
      MergedValid(h.left, h.right);
      MergedSize(h.left, h.right);
      assert Next(h).value == (h.element, Merged(h.left, h.right));
    }
  }

  /** `rank` of a leaf is 0, and in a leftist heap every rank is the length of the right spine. */
  lemma {:induction false} RankIsRightSpine(h: Leftist)
    requires RankInvariant(h)
    ensures Rank(h) == RightSpine(h)
  {
    if h.Branch? {
      RankIsRightSpine(h.right);
    }
  }

  /** The number of branches on the path that always goes right. */
  function RightSpine(h: Leftist): nat {
    match h
    case Leaf => 0
    case Branch(_, _, r, _) => RightSpine(r) + 1
  }

  function Pow2(n: nat): nat {
    if n == 0 then 1 else 2 * Pow2(n - 1)
  }

  /** Why the invariant matters: a leftist heap of rank `k` holds at least `2^k - 1` elements, so
      the right spine along which `merged` recurses is logarithmic in the size. */
  lemma {:induction false} RankBoundsSize(h: Leftist)
    requires RankInvariant(h)
    ensures Rank(h) >= 0
    ensures Pow2(Rank(h)) <= Size(h) + 1
  {
    if h.Branch? {
      RankBoundsSize(h.left);
      RankBoundsSize(h.right);
      PowMonotone(Rank(h.right), Rank(h.left));
    }
  }

  lemma {:induction false} PowMonotone(i: nat, j: nat)
    requires i <= j
    ensures Pow2(i) <= Pow2(j)
  {
    if i < j {
      PowMonotone(i, j - 1);
    }
  }

  /** Repeatedly taking `next` until the heap is empty, collecting the elements taken. */
  function Drained(h: Leftist): seq<int>
    decreases Size(h)
  {
    match h
    case Leaf => []
    case Branch(l, e, r, _) =>
      MergedSize(l, r);
      [e] + Drained(Merged(l, r))
  }

  ghost predicate Sorted(s: seq<int>) {
    forall i, j | 0 <= i < j < |s| :: s[i] <= s[j]
  }

  lemma SortedCons(x: int, s: seq<int>)
    requires Sorted(s)
    requires forall y | y in multiset(s) :: x <= y
    ensures Sorted([x] + s)
  {
    forall j | 0 <= j < |s| ensures x <= s[j] {
      assert s[j] in multiset(s);
    }
  }

  /** One step of draining: the elements other than the root, none below it, are what `next`
      leaves. */
  lemma DrainStep(h: Leftist)
    requires HeapOrdered(h) && h.Branch?
    ensures Elements(h) == multiset{h.element} + Elements(Merged(h.left, h.right))
    ensures forall y | y in Elements(Merged(h.left, h.right)) :: h.element <= y
  {
    var m := Merged(h.left, h.right);
    assert Elements(m) == Elements(h.left) + Elements(h.right);
    forall y | y in Elements(m) ensures h.element <= y {
      assert y in Elements(h.left) || y in Elements(h.right);
    }
  }

  /** Draining a valid heap yields exactly its elements, in non-decreasing order. */
  lemma {:induction false} DrainedIsSorted(h: Leftist)
    requires Valid(h)
    ensures multiset(Drained(h)) == Elements(h)
    ensures Sorted(Drained(h))
    decreases Size(h)
  {
    if h.Branch? {
      var rest := Merged(h.left, h.right);
      DrainStep(h);
      MergedValid(h.left, h.right);
      MergedSize(h.left, h.right);
      DrainedIsSorted(rest);
      assert Drained(h) == [h.element] + Drained(rest);
      SortedCons(h.element, Drained(rest));
    }
  }
}
