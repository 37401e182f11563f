# Prelude, modelled in Dafny

This project models the sequential core of the Swift library *Prelude*, and proves properties of that model:

- **Result and effect types.** The result type `Status` (`ok`/`error`); `Either`; `Reader`, a throwing function from a source; `State`, a throwing function over an `inout` context; `Writer`, a value with a log; `Store`, a comonad; and the Kleisli composition operators `>>>`/`<<<`.
- **Continuation types.** `Async`, `Callback` and `Transaction`, each with its sequential combinators.
- **Leftist heap.** The persistent min-heap `Leftist`, and the `PriorityQueue` built on it.
- **Json.** The `Json` value with its readers, its equality and its `traverse` helpers.
- **Resource loaders.** `ResourceLoader` tiers: the failing `identity`, the fallback combinator `combine`/`??` with write-back, the in-memory `cache` tier and the network tier.

## How the model reads the Swift

- **Throwing closures.** A closure `(A) throws -> B` is a Dafny function `A -> Status<B>`. Returning is `Ok` and throwing `e` is `Err(e)`. The errors the library raises itself are `ResourceLoaderError` and `JsonReaderError(message)`. Every other error is `Raised(code)`.
- **Continuation types as traces.** An `Async`, a `Callback`, or the `Async` a `Transaction` returns for a context, is modelled by its *trace*: the statuses, in order, that one `run` hands to its continuation.
  - `pure` and `convert` deliver exactly once.
  - The lemmas show that `map`, `flatMap`, `then`, the sequential `<*>` of `Callback` and the `Transaction` combinators deliver exactly once whenever their inputs do.
  - They also compute what is delivered.
- **State.** A `State` operation is a function from a context to a `Step`: a result together with the new context. The context is written back even when the operation throws, as Swift's `inout` is.
- **Heap elements.** The heap holds `int`s. The leftist invariant and heap order are predicates preserved by `merged`, `inserting` and `next`.
- **PriorityQueue.** `PriorityQueue` is a class whose field `leftist` is reassigned by `enqueue` and `dequeue`.
- **Json numbers.** The `Double` payload of a Json number is opaque (its 64 bits). The number comparison used by `==` is a parameter, since IEEE equality is not reflexive on NaN. With bitwise comparison, `==` is proved to be structural equality of the model's values. Text payloads and object keys are compared code point by code point (see "## Left out").
- **Json `traverse`.** Both `traverse` helpers are methods with loops and an early return. The dictionary one visits keys in no fixed order.
- **Resource loaders.**
  - A loader is a `Loader` value: `Identity`, `CacheTier(id)`, `Custom(load, store)` or `Combine(lhs, rhs)`. `Custom` stands for `init(load:set:)` with stateless closures, and `store` is its `set`.
  - The network tier is a `Custom` loader over a `fetch` function.
  - All cache dictionaries live in one *world*, a map from cache identity to a URL-keyed dictionary. Each access to the Swift `cache` property captures a fresh dictionary, so the class `Tiers` hands out a new identity with an empty dictionary each time.
  - `LoadOutcome` and `SetOutcome` give the delivered status and the new world. The methods `Tiers.Load` and `Tiers.Set` update the world in place against them.
- **Monoid laws of loaders.**
  - Left identity holds.
  - Right identity holds except that a failing loader's error is replaced by `ResourceLoaderError`.
  - Associativity of `load` holds when no `set` can fail. There is a concrete counterexample when one can.
  - Associativity of `set` always holds.

`Transaction.init(_: (Context) -> Wrapped)` calls `Async.converting`, which the library does not define; the model reads it as `Async.convert` of the non-throwing function.

## Model

| member | source | states |
|---|---|---|
| StatusMonad.PureIsOk | Prelude/Status.swift:16-18 | `pure(v)` is `ok(v)`, and mapping it applies the transform to `v` |
| StatusMonad.MapPassesErrorsThrough | Prelude/Status.swift:20-32 | `map` passes an error through without consulting the transform; on `ok` it yields the transform's value or its thrown error |
| StatusMonad.MapFunctorLaws | Prelude/Status.swift:20-36 | mapping the identity changes nothing; mapping twice is mapping the composite |
| StatusMonad.ApplySemantics | Prelude/Status.swift:38-45 | `<*>` with an erroneous transform is that error whatever the operand; with `ok(f)` it is `map(f)` |
| StatusMonad.FlatMapSemantics | Prelude/Status.swift:47-59 | `flatMap` yields the transform's own status, turns a throw into an error, and passes an error through |
| StatusMonad.FlatMapMonadLaws | Prelude/Status.swift:16-59 | left unit, right unit and associativity of `pure`/`flatMap` |
| Category.ForwardApplies | Prelude/Category.swift:17-19 | `f >>> g` applies `g` to what `f` returns; a throw in `f` is the result and `g` does not matter |
| Category.BackwardIsFlippedForward | Prelude/Category.swift:21-23 | `g <<< f` is `f >>> g` |
| Category.CategoryLaws | Prelude/Category.swift:17-27 | `identity` is a unit on both sides of `>>>`, and `>>>` is associative |
| EitherMonad.MapSemantics | Prelude/Either.swift:16-27 | `map` keeps a left and transforms a right; functor laws |
| EitherMonad.ApplySemantics | Prelude/Either.swift:33-44 | `pure` is `right`; a left transform wins over any operand; a right transform maps |
| EitherMonad.FlatMapSemantics | Prelude/Either.swift:33-57 | `flatMap` keeps a left and otherwise is the transform's result; monad laws |
| ReaderMonad.PureAndMap | Prelude/Reader.swift:23-37 | `pure(v)` reads `v` from any source; `map` transforms what is read and passes a read error through |
| ReaderMonad.ApplyReadsFunctionFirst | Prelude/Reader.swift:39-44 | `<*>` reads the function first and stops on its error, then reads the value from the same source and applies |
| ReaderMonad.FlatMapSameSource | Prelude/Reader.swift:50-52 | both stages of `flatMap` read the same source; errors of either stage or of the transform are the result |
| ReaderMonad.CategoryLaws | Prelude/Reader.swift:58-68 | `identity` reads the source itself; `>>>` feeds the first reader's value to the second; `<<<` is flipped `>>>`; unit laws |
| ReaderMonad.ContramapReadsTransformedSource | Prelude/Reader.swift:73-75 | `contramap` reads from the transformed source, and a throw of the transform is the result |
| ReaderMonad.MonoidLaws | Prelude/Reader.swift:78-88 | the monoid `identity` reads `[]`; `combine` concatenates both reads, left first; a failing left read is the result, and after a successful left read a failing right read is; unit and associativity laws |
| StateMonad.PureKeepsContext | Prelude/State.swift:38-40 | `pure(v)` yields `v` and leaves the context as it was |
| StateMonad.MapKeepsStateEffect | Prelude/State.swift:23-28 | `map` changes the context exactly as the mapped state does, and transforms its result or passes its error |
| StateMonad.ApplyThreadsContext | Prelude/State.swift:42-47 | when the transform state succeeds, `<*>` runs the value state on the context it left and applies the produced function to its value |
| StateMonad.ApplyStopsOnError | Prelude/State.swift:42-47 | when the transform state throws, `<*>` fails with that error and the context it left, whatever the value state |
| StateMonad.FlatMapThreadsContext | Prelude/State.swift:53-59 | `flatMap` runs the first state, then the transform's state on the updated context; errors carry the context reached |
| StateMonad.FlatMapLeftUnit | Prelude/State.swift:38-59 | `pure(v).flatMap(f)` runs as `f(v)` |
| StateMonad.FlatMapRightUnit | Prelude/State.swift:38-59 | `st.flatMap(pure)` runs as `st` |
| StateMonad.FlatMapAssociative | Prelude/State.swift:53-59 | `flatMap` is associative on results and contexts |
| WriterMonad.MapKeepsLog | Prelude/Writer.swift:15-21 | `map` transforms the value and keeps the log; functor laws |
| WriterMonad.ApplyCombinesLogs | Prelude/Writer.swift:25-34 | `pure` logs nothing; `<*>` applies and logs the transform's log followed by the operand's |
| WriterMonad.FlatMapMonadLaws | Prelude/Writer.swift:25-41 | `flatMap` appends the transform's log to the writer's; monad laws |
| StoreComonad.MapKeepsIndex | Prelude/Store.swift:16-18 | `map` keeps the index and transforms every inspected value |
| StoreComonad.ExtendRefocuses | Prelude/Store.swift:24-33 | `extract` inspects the index; `extend` keeps the index and at `i` resolves the store refocused at `i` |
| StoreComonad.ExtendByExtract | Prelude/Store.swift:24-33 | extending by `extract` inspects as the original store does |
| Deliveries.MapEach | Prelude/Async.swift:57-63 | the trace of `map`: as many deliveries as the input, each the input status mapped |
| Deliveries.BindEachAppend | Prelude/Async.swift:107-124 | continuing a trace split in two is continuing each part |
| Deliveries.BindEachLength | Prelude/Callback.swift:69-77 | when every delivery continues with `n` deliveries, the trace has `n` times as many |
| AsyncMonad.PureDeliversOnce | Prelude/Async.swift:73-75 | `pure(v)` delivers `ok(v)` exactly once |
| AsyncMonad.ConvertDeliversOnce | Prelude/Async.swift:25-37 | `convert(fn)(input)` delivers exactly once: `ok` of the result, or the thrown error |
| AsyncMonad.MapDeliveries | Prelude/Async.swift:57-67 | `map` delivers once per delivery of the input, the mapped status; mapping the identity changes nothing |
| AsyncMonad.FlatMapForwardsError | Prelude/Async.swift:119-120 | `flatMap` forwards an error once, without consulting the transform |
| AsyncMonad.FlatMapRunsTransform | Prelude/Async.swift:109-118 | on `ok(v)`, `flatMap` delivers what the transform's `Async` delivers, or the transform's thrown error |
| AsyncMonad.FlatMapDeliversOnce | Prelude/Async.swift:107-124 | `flatMap` delivers exactly once when the input and every `Async` the transform returns do |
| AsyncMonad.ThenSemantics | Prelude/Async.swift:126-128 | `then` delivers what the other `Async` delivers after an `ok`, and forwards an error without running the other |
| AsyncMonad.FlatMapUnits | Prelude/Async.swift:73-124 | left and right unit laws of `pure`/`flatMap` |
| AsyncMonad.RightUnitTrace | Prelude/Async.swift:107-124 | continuing every delivery with `pure` reproduces the trace |
| AsyncMonad.FlatMapAssociative | Prelude/Async.swift:107-124 | `flatMap` is associative |
| AsyncMonad.AssociativeTrace | Prelude/Async.swift:107-124 | associativity at the level of traces |
| AsyncMonad.AssociativeStep | Prelude/Async.swift:107-124 | associativity for one delivery |
| CallbackMonad.PureAndConvert | Prelude/Callback.swift:25-55 | `pure(v)` delivers `ok(v)`; `convert` delivers once, the result or the thrown error |
| CallbackMonad.MapDeliveries | Prelude/Callback.swift:57-67 | `map` delivers once per input delivery, the mapped status |
| CallbackMonad.ApplyDeliveryCount | Prelude/Callback.swift:69-77 | sequential `<*>` delivers once per pair of transform and value deliveries, so exactly once when both operands deliver once |
| CallbackMonad.ApplySequential | Prelude/Callback.swift:69-77 | `<*>` delivers `fn <*> value` for one transform and one value; an erroneous transform is delivered; no value delivery means no delivery |
| CallbackMonad.FlatMapSemantics | Prelude/Callback.swift:79-96 | `flatMap` forwards an error, delivers the transform's callback on `ok`, and delivers the transform's throw |
| TransactionMonad.RunIsAsyncRun | Prelude/Transaction.swift:16-26 | `run(from:)` delivers what `async(with:)` delivers; a transaction from a plain function delivers its value once |
| TransactionMonad.PureAndMap | Prelude/Transaction.swift:31-43 | `pure(v)` delivers `ok(v)` whatever the context; `map` maps every delivery |
| TransactionMonad.ApplySequential | Prelude/Transaction.swift:45-54 | `<*>` runs the transform's transaction, forwards its error without using the operand, and otherwise maps the operand's deliveries with it in the same context |
| TransactionMonad.FlatMapSameContext | Prelude/Transaction.swift:60-80 | `flatMap` runs the transform's transaction in the same context, and forwards errors of the first stage and of the transform |
| LeftistHeap.Empty | Prelude/Leftist.swift:16-18 | the empty heap has no elements and is valid |
| LeftistHeap.Singleton | Prelude/Leftist.swift:20-26 | the one-element heap holds exactly that element and is valid |
| LeftistHeap.Joined | Prelude/Leftist.swift:36-48 | the branch `merged` builds holds its two children's elements and its own, whichever child goes left |
| LeftistHeap.Merged | Prelude/Leftist.swift:28-53 | `merged` holds the union of the two multisets of elements, and its recursion terminates |
| LeftistHeap.MergedSize | Prelude/Leftist.swift:28-53 | the size of a merge is the sum of the sizes |
| LeftistHeap.MergedValid | Prelude/Leftist.swift:28-53 | `merged` keeps heap order and the leftist rank invariant |
| LeftistHeap.Inserting | Prelude/Leftist.swift:55-57 | `inserting(x)` adds one occurrence of `x` |
| LeftistHeap.InsertingValid | Prelude/Leftist.swift:55-57 | `inserting` keeps the heap valid |
| LeftistHeap.MergedWithLeaf | Prelude/Leftist.swift:30-31 | merging with an empty heap on either side returns the other heap |
| LeftistHeap.RootIsMinimum | Prelude/Leftist.swift:28-53 | in a heap-ordered heap the root is an element and at most every element |
| LeftistHeap.ViewIsMinimum | Prelude/Leftist.swift:64-67 | `view` is nil exactly for the empty heap, and otherwise the least element |
| LeftistHeap.NextTakesMinimum | Prelude/Leftist.swift:59-62 | `next` is nil exactly for a leaf, and otherwise yields `view`, the least element |
| LeftistHeap.NextKeepsRest | Prelude/Leftist.swift:59-62 | the heap `next` leaves is valid, one smaller, and holds the elements minus the one taken |
| LeftistHeap.RankIsRightSpine | Prelude/Leftist.swift:69-72 | in a leftist heap the stored rank is the length of the right spine |
| LeftistHeap.RankBoundsSize | Prelude/Leftist.swift:24-53 | a heap of rank `k` has at least `2^k - 1` elements, so `merged` recurses along a logarithmic spine |
| LeftistHeap.DrainStep | Prelude/Leftist.swift:59-62 | the heap `next` leaves holds all elements but the root, none below the root |
| LeftistHeap.DrainedIsSorted | Prelude/Leftist.swift:59-62 | taking `next` until empty yields exactly the heap's elements in non-decreasing order |
| PriorityQueues.Queued | Prelude/PriorityQueue.swift:19-21 | the heap reduced from a sequence holds exactly the sequence's elements |
| PriorityQueues.QueuedValid | Prelude/PriorityQueue.swift:19-21 | the heap reduced from a sequence is valid |
| PriorityQueues.QueuedDrainsSorted | Prelude/PriorityQueue.swift:19-35 | dequeuing everything from a queue built from `s` yields `s` sorted: a permutation, in non-decreasing order |
| PriorityQueues.PriorityQueue.constructor | Prelude/PriorityQueue.swift:15-17 | `init()` gives a valid empty queue |
| PriorityQueues.PriorityQueue.FromSequence | Prelude/PriorityQueue.swift:19-21 | `init(_:)` gives a valid queue holding the sequence's elements |
| PriorityQueues.PriorityQueue.Peek | Prelude/PriorityQueue.swift:23-25 | `peek` is nil exactly for an empty queue, and otherwise the least element waiting |
| PriorityQueues.PriorityQueue.Enqueue | Prelude/PriorityQueue.swift:27-29 | `enqueue` adds one occurrence of the element and keeps the queue valid |
| PriorityQueues.PriorityQueue.Dequeue | Prelude/PriorityQueue.swift:31-35 | `dequeue` returns the old `peek`; on an empty queue nothing changes; otherwise one occurrence of the least element leaves |
| JsonReading.IsNull | Prelude/Json.swift:45-48 | `isNull` is true exactly for `null` |
| JsonReading.StringReaderReadsText | Prelude/Json.swift:79-84 | `string` reads `s` exactly from `text(s)`, and fails with "expected string" on every other case |
| JsonReading.BoolReaderReadsBoolean | Prelude/Json.swift:101-106 | `bool` reads `b` exactly from `boolean(b)`, and fails with "expected bool" on every other case |
| JsonReading.DictionaryReaderLooksUp | Prelude/Json.swift:108-114 | `dictionary(key:)` succeeds exactly on an object holding the key (code-point equal), with its value; the two failures have their own messages |
| JsonReading.ArrayReaderIndexes | Prelude/Json.swift:116-122 | `array(at:)` succeeds exactly when the value is a list and the index is within `[0, count)`, with that item; the two failures have their own messages |
| JsonReading.OptionalNeverFails | Prelude/Json.swift:64-66 | `optional` never fails, and reads nil exactly when the inner reader fails |
| JsonReading.NullableSkipsNull | Prelude/Json.swift:68-73 | `nullable` reads nil from `null` whatever the inner reader; elsewhere it reads and fails as the inner reader does |
| JsonReading.NatStringRoundTrip | Prelude/Json.swift:119 | the decimal rendering in the out-of-bounds message is a nonempty digit string that reads back as the number, with no leading zero |
| JsonReading.IntStringRoundTrip | Prelude/Json.swift:119 | a negative index renders as a minus sign followed by the digits of its magnitude |
| JsonReading.EqualWithinCase | Prelude/Json.swift:126-138 | `==` is false between values of different cases |
| JsonReading.EqualReflexive | Prelude/Json.swift:126-138 | `==` is reflexive whenever number comparison is |
| JsonReading.EqualSymmetric | Prelude/Json.swift:126-138 | `==` is symmetric whenever number comparison is |
| JsonReading.EqualIsStructural | Prelude/Json.swift:126-138 | with bitwise number comparison, `==` holds exactly for identical model values (strings compared code point by code point) |
| JsonReading.TraverseArray | Prelude/Json.swift:151-161 | the array `traverse` is nil exactly when some element transforms to nil; otherwise the same number of items, item `i` being element `i` transformed |
| JsonReading.TraverseDictionary | Prelude/Json.swift:140-149 | the dictionary `traverse` is nil exactly when some value transforms to nil; otherwise the same keys, each value transformed |
| ResourceLoading.FailAlwaysFails | Prelude/ResourceLoader.swift:34-44 | `identity` (and `fail`) fails every load with `ResourceLoaderError`; its `set` succeeds and changes nothing |
| ResourceLoading.NetworkReadsFetch | Prelude/ResourceLoader.swift:117-142 | the network tier reads the fetched bytes with the resource's reader, delivers a transport error, and its `set` changes nothing |
| ResourceLoading.CacheLoadAfterSet | Prelude/ResourceLoader.swift:96-115 | a cache load after `set(v)` delivers `v`; a fresh cache misses with `ResourceLoaderError`; a set touches only its own tier and URL, and succeeds |
| ResourceLoading.CombinePrimaryHit | Prelude/ResourceLoader.swift:48-53 | when the primary hits, `combine` delivers its answer and world, whatever the secondary |
| ResourceLoading.CombineWritesBack | Prelude/ResourceLoader.swift:54-65 | primary miss, secondary hit: the primary's `set` runs; the load delivers the value if it succeeds and the write-back's error otherwise |
| ResourceLoading.CombineBothFail | Prelude/ResourceLoader.swift:54-69 | when both miss, the secondary's error is delivered and nothing is written back |
| ResourceLoading.CombineSetSequential | Prelude/ResourceLoader.swift:74-77 | `combine`'s `set` runs the primary's then the secondary's; a failing primary `set` is the result and the secondary's never runs |
| ResourceLoading.CachePromotes | Prelude/ResourceLoader.swift:55-115 | `cache ?? other`, when the cache misses and `other` answers: the answer is delivered and stored in the cache, and the next load hits without consulting `other` |
| ResourceLoading.LeftIdentity | Prelude/ResourceLoader.swift:32-78 | `combine(identity, a)` loads and sets exactly as `a` |
| ResourceLoading.RightIdentity | Prelude/ResourceLoader.swift:32-78 | `combine(a, identity)` sets as `a` and loads as `a`, except that `a`'s error becomes `ResourceLoaderError` |
| ResourceLoading.RightIdentityReplacesError | Prelude/ResourceLoader.swift:32-78 | a loader failing with its own error, combined with `identity`, fails with `ResourceLoaderError` instead |
| ResourceLoading.SetWritesAll | Prelude/ResourceLoader.swift:74-115 | a `set` that cannot fail writes the value under the URL into each cache tier of the loader and nothing else |
| ResourceLoading.SetLocal | Prelude/ResourceLoader.swift:46-115 | each cache tier's dictionary is private: a `set` reports the same status from any two worlds agreeing on the loader's own tiers, leaves them agreeing there, and changes no other tier |
| ResourceLoading.LoadLocal | Prelude/ResourceLoader.swift:46-115 | the same privacy for `load`, write-back included: same status, agreeing own tiers afterwards, every other tier untouched |
| ResourceLoading.FreshTierInvisible | Prelude/ResourceLoader.swift:96-115 | a newly created empty cache tier changes nothing that a loader not holding it reports or does to its own tiers |
| ResourceLoading.WriteAllTwice | Prelude/ResourceLoader.swift:109-112 | writing a value into two groups of tiers in turn is writing it into their union |
| ResourceLoading.WriteBackCommutes | Prelude/ResourceLoader.swift:74-77 | when no `set` can fail, writing back through `combine(a, b)` leaves the same world as writing through `b` and then `a` |
| ResourceLoading.AssociativeAfterTwoMisses | Prelude/ResourceLoader.swift:46-78 | associativity of `load` in the case where the first two loaders miss |
| ResourceLoading.LoadAssociative | Prelude/ResourceLoader.swift:46-78 | when no `set` of the first two loaders can fail, both groupings of `combine` deliver the same and leave the same world |
| ResourceLoading.SetAssociative | Prelude/ResourceLoader.swift:74-77 | `set` is associative under `combine` for all loaders |
| ResourceLoading.LoadNotAssociative | Prelude/ResourceLoader.swift:46-78 | with a primary whose write-back fails, the two groupings of `combine` deliver different errors |
| ResourceLoading.Tiers.constructor | Prelude/ResourceLoader.swift:96-97 | no cache tier exists yet |
| ResourceLoading.Tiers.NewCache | Prelude/ResourceLoader.swift:96-97 | each access to `cache` makes a new tier whose dictionary starts empty, leaving the other tiers as they were |
| ResourceLoading.Tiers.Load | Prelude/ResourceLoader.swift:46-115 | running a load in place delivers what `LoadOutcome` says and leaves the world it says |
| ResourceLoading.Tiers.Set | Prelude/ResourceLoader.swift:74-115 | running a set in place delivers what `SetOutcome` says and leaves the world it says |

## Left out

- `Atom` is not part of this model. It is a lock-protected box whose behaviour is only concurrency.
- The parallel `<*>` of `Async` is not modelled. Its meaning depends on dispatch queues and groups.
- `transferred(to:)` and `transferredToMainQueue` of `Async` and `Callback` are not modelled. They only re-dispatch a delivery to a queue.
- The body of the network tier is `URLSession`; the model takes the transport as a function `fetch`. The `fatalError` on a response with neither data nor error is not modelled. Prelude/Resource.swift and Prelude/JsonResource.swift are not part of this model.
- `Json.init(data:)` is not modelled. It calls `JSONSerialization` and inspects `NSNumber` type codes.
- `Json.double` and `Json.int` are not modelled, because they depend on floating-point values and `Int(exactly:)`. The `Double` payload is kept opaque.
- `Weak`, `Monoid`, `BusinessModel` and `Applicative` declare types, protocols and operators only. They have no behaviour to state.
- Running an `Async` twice runs its operation twice. A trace describes one run; the model does not represent the repetition.
- The model assumes every tier's `load` and `set` deliver exactly once. A `Custom` loader returns a single status.
- `Custom` loaders keep no state of their own. Only the cache tiers hold state.
- EitherMonad.Map and EitherMonad.FlatMap take non-throwing transforms. The Swift versions are `rethrows`; a throwing transform simply propagates out.
- WriterMonad.Map and WriterMonad.FlatMap take non-throwing transforms, for the same `rethrows` reason.
- JsonReading.TraverseArray and JsonReading.TraverseDictionary take non-throwing transforms. They are `rethrows` helpers, and their only caller passes a non-throwing function.
- JsonReading.TraverseDictionary visits the keys in an unspecified order, as a Swift dictionary does. Its result does not depend on the order.
- JsonReading.Equal takes the comparison of two doubles as a parameter instead of IEEE equality.
- StoreComonad.ExtendByExtract is stated pointwise. The law that extending twice equals extending once by the composite is not stated, because equality of the resulting closures cannot be expressed.
- `Int` is unbounded in the model: heap ranks, array indices and the rendering of an index. The Swift `Int` is 64 bits; no rank or valid index comes near that bound.
- The heap and the priority queue hold `int` elements rather than an arbitrary `Comparable`.
- JsonReading.EqualIsStructural: text payloads and object keys are compared code point by code point, while Swift's `String` `==` is Unicode canonical equivalence, so two canonically equivalent but differently encoded texts are equal in Swift and not in the model.
- JsonReading.DictionaryReaderLooksUp: the key lookup compares strings code point by code point, while Swift's `Dictionary<String, Json>` hashes and compares keys by canonical equivalence and so also finds a differently encoded equivalent key.
- PriorityQueues.PriorityQueue: Swift's `PriorityQueue` is a struct with value semantics, so a copy and the original change independently; the Dafny class is a reference, and copy semantics are not modelled.
