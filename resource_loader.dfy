/**
 * `ResourceLoader` (Prelude/ResourceLoader.swift): a pair of `load` and `set` operations, with a
 * failing identity loader, the fallback combinator `combine`/`??`, and an in-memory `cache` tier.
 *
 * A loader is described by the `Loader` datatype. Every cache tier's dictionary lives in one
 * world, a map from cache identities to URL-keyed dictionaries: each access to the Swift `cache`
 * property captures a fresh dictionary, so each `CacheTier` names its own. `LoadOutcome` and
 * `SetOutcome` give what a load or set reports and the world after it; the class `Tiers` holds
 * the world as a field and runs loads and sets in place against those two functions.
 * Each `Async` that a tier returns delivers exactly one status, so a status stands for it.
 */
module ResourceLoading {
  import opened StatusMonad

  type Url = string
  type Bytes = seq<bv8>

  /** A resource: where to fetch it, and how to read a value from the fetched bytes. */
  datatype Resource<V> = Resource(url: Url, reader: Bytes -> Status<V>)

  type CacheId = nat
  type World<V> = map<CacheId, map<Url, V>>

  datatype Loader<!V> =
    | Identity
    | CacheTier(id: CacheId)
      /** `init(load:set:)` with closures that keep no state of their own; `store` is `set`. */
    | Custom(load: Resource<V> -> Status<V>, store: (Resource<V>, V) -> Status<()>)
    | Combine(lhs: Loader<V>, rhs: Loader<V>)

  datatype Outcome<T, V> = Outcome(status: Status<T>, world: World<V>)

  /** `fail` is `identity`. */
  function Fail<V>(): Loader<V> {
    Identity
  }

  /** `lhs ?? rhs` is `combine(lhs, rhs)`. */
  function Coalesce<V>(lhs: Loader<V>, rhs: Loader<V>): Loader<V> {
    Combine(lhs, rhs)
  }

  /** The network tier, with the transport as a parameter: fetch the URL's bytes, read them with
      the resource's reader; its `set` does nothing. */
  function Network<V>(fetch: Url -> Status<Bytes>): Loader<V> {
    Custom((r: Resource<V>) => StatusMonad.Map(fetch(r.url), r.reader), (_, _) => Ok(()))
  }

  /** The dictionary of one cache tier; a tier never written to is empty. */
  function CacheOf<V>(w: World<V>, id: CacheId): map<Url, V> {
    if id in w then w[id] else map[]
  }

  /** What `load(resource)` delivers, and the world after it. */
  function LoadOutcome<V>(l: Loader<V>, r: Resource<V>, w: World<V>): Outcome<V, V>
    decreases l
  {
    match l
    case Identity => Outcome(Err(ResourceLoaderError), w)
    case CacheTier(id) =>
      if r.url in CacheOf(w, id) then Outcome(Ok(CacheOf(w, id)[r.url]), w)
      else Outcome(Err(ResourceLoaderError), w)
    case Custom(load, _) => Outcome(load(r), w)
    case Combine(lhs, rhs) =>
      var first := LoadOutcome(lhs, r, w);
      if first.status.Ok? then first
      else
        var second := LoadOutcome(rhs, r, first.world);
        if second.status.Err? then second
        else
          var back := SetOutcome(lhs, r, second.status.value, second.world);
          Outcome(if back.status.Ok? then second.status else Err(back.status.error), back.world)
  }

  /** What `set(value, for: resource)` delivers, and the world after it. */
  function SetOutcome<V>(l: Loader<V>, r: Resource<V>, v: V, w: World<V>): Outcome<(), V>
    decreases l
  {
    match l
    case Identity => Outcome(Ok(()), w)
    case CacheTier(id) => Outcome(Ok(()), w[id := CacheOf(w, id)[r.url := v]])
    case Custom(_, store) => Outcome(store(r, v), w)
    case Combine(lhs, rhs) =>
      var first := SetOutcome(lhs, r, v, w);
      if first.status.Err? then first else SetOutcome(rhs, r, v, first.world)
  }

  /** The cache tiers a loader consults. */
  function CacheIds<V>(l: Loader<V>): set<CacheId> {
    match l
    case CacheTier(id) => {id}
    case Combine(lhs, rhs) => CacheIds(lhs) + CacheIds(rhs)
    case _ => {}
  }

  /** Every `set` of this loader succeeds (a custom tier's `set` never throws). */
  ghost predicate NoFailingSet<V(!new)>(l: Loader<V>) {
    match l
    case Custom(_, store) => forall r, v :: store(r, v).Ok?
    case Combine(lhs, rhs) => NoFailingSet(lhs) && NoFailingSet(rhs)
    case _ => true
  }

  /** Writing `v` under `url` into each of the cache tiers `ids`. */
  function WriteAll<V>(w: World<V>, ids: set<CacheId>, url: Url, v: V): World<V> {
    map id | id in w.Keys + ids :: if id in ids then CacheOf(w, id)[url := v] else w[id]
  }

  /** The mutable state of the cache tiers, and loads and sets run against it in place. */
  class Tiers<V> {
    var caches: World<V>
    var next: CacheId

    /** Every dictionary in the world belongs to a cache tier already handed out. */
    ghost predicate Valid()
      reads this
    {
      forall id | id in caches :: id < next
    }

    /** The tiers a loader uses have all been handed out. */
    ghost predicate Owns(l: Loader<V>)
      reads this
    {
      forall id | id in CacheIds(l) :: id < next
    }

    constructor ()
      ensures Valid() && caches == map[] && next == 0
    {
      caches := map[];
      next := 0;
    }

    /** An access to `ResourceLoader.cache`: a new tier whose dictionary starts empty. */
    method NewCache() returns (l: Loader<V>)
      requires Valid()
      modifies this
      ensures Valid() && Owns(l)
      ensures l == CacheTier(old(next)) && old(next) !in old(caches)
      ensures caches == old(caches)[old(next) := map[]] && next == old(next) + 1
    {
      l := CacheTier(next);
      caches := caches[next := map[]];
      next := next + 1;
    }

    /** `loader.load(resource).run`, delivering `s`. */
    method Load(l: Loader<V>, r: Resource<V>) returns (s: Status<V>)
      requires Valid() && Owns(l)
      modifies this
      ensures Valid() && next == old(next)
      ensures Outcome(s, caches) == LoadOutcome(l, r, old(caches))
      decreases l
    {
      match l
      case Identity =>
        s := Err(ResourceLoaderError);
      case CacheTier(id) =>
        var cache := CacheOf(caches, id);
        if r.url in cache {
          s := Ok(cache[r.url]);
        } else {
          s := Err(ResourceLoaderError);
        }
      case Custom(load, _) =>
        s := load(r);
      case Combine(lhs, rhs) =>
        assert CacheIds(l) == CacheIds(lhs) + CacheIds(rhs);
        s := Load(lhs, r);
        if s.Err? {
          s := Load(rhs, r);
          if s.Ok? {
            var value := s.value;
            var written := Set(lhs, r, value);
            if written.Err? {
              s := Err(written.error);
            }
          }
        }
    }

    /** `loader.set(value, for: resource).run`, delivering `s`. */
    method Set(l: Loader<V>, r: Resource<V>, v: V) returns (s: Status<()>)
      requires Valid() && Owns(l)
      modifies this
      ensures Valid() && next == old(next)
      ensures Outcome(s, caches) == SetOutcome(l, r, v, old(caches))
      decreases l
    {
      match l
      case Identity =>
        s := Ok(());
      case CacheTier(id) =>
        assert id in CacheIds(l);
        caches := caches[id := CacheOf(caches, id)[r.url := v]];
        s := Ok(());
      case Custom(_, store) =>
        s := store(r, v);
      case Combine(lhs, rhs) =>
        assert CacheIds(l) == CacheIds(lhs) + CacheIds(rhs);
        s := Set(lhs, r, v);
        if s.Ok? {
          s := Set(rhs, r, v);
        }
    }
  }

  /** A successful `Async<()>` delivers the one value of its type. */
  lemma UnitStatus(s: Status<()>)
    requires s.Ok?
    ensures s == Ok(())
  {
    var u: () := s.value;
    assert u == ();
  }

  /** `identity` (and `fail`) fails every load with `ResourceLoaderError`; its `set` succeeds
      and changes nothing. */
  lemma FailAlwaysFails<V>(r: Resource<V>, v: V, w: World<V>)
    ensures LoadOutcome(Fail(), r, w) == Outcome(Err(ResourceLoaderError), w)
    ensures SetOutcome(Fail(), r, v, w) == Outcome(Ok(()), w)
  {
  }

  /** The network tier reads the fetched bytes, passes a transport error through, and its `set`
      changes nothing. */
  lemma NetworkReadsFetch<V>(fetch: Url -> Status<Bytes>, r: Resource<V>, v: V, w: World<V>)
    ensures fetch(r.url).Ok? ==> LoadOutcome(Network(fetch), r, w) == Outcome(r.reader(fetch(r.url).value), w)
    ensures fetch(r.url).Err? ==> LoadOutcome(Network(fetch), r, w) == Outcome(Err(fetch(r.url).error), w)
    ensures SetOutcome(Network(fetch), r, v, w) == Outcome(Ok(()), w)
  {
  }

  /** A cache tier answers a load with what was last set under the URL, fails on a miss, and a
      set touches only its own dictionary and only that URL. */
  lemma CacheLoadAfterSet<V>(id: CacheId, r: Resource<V>, r': Resource<V>, v: V, w: World<V>)
    ensures LoadOutcome(CacheTier(id), r, SetOutcome(CacheTier(id), r, v, w).world)
         == Outcome(Ok(v), SetOutcome(CacheTier(id), r, v, w).world)
    ensures LoadOutcome(CacheTier(id), r, w[id := map[]]).status == Err(ResourceLoaderError)
    ensures r'.url != r.url ==>
      LoadOutcome(CacheTier(id), r', SetOutcome(CacheTier(id), r, v, w).world).status
        == LoadOutcome(CacheTier(id), r', w).status
    ensures forall other | other != id ::
      CacheOf(SetOutcome(CacheTier(id), r, v, w).world, other) == CacheOf(w, other)
    ensures SetOutcome(CacheTier(id), r, v, w).status == Ok(())
  {
  }

  /** `combine`, primary hit: the primary's answer and world, whatever the secondary is. */
  lemma CombinePrimaryHit<V>(lhs: Loader<V>, rhs: Loader<V>, rhs': Loader<V>, r: Resource<V>, w: World<V>)
    requires LoadOutcome(lhs, r, w).status.Ok?
    ensures LoadOutcome(Combine(lhs, rhs), r, w) == LoadOutcome(lhs, r, w)
    ensures LoadOutcome(Combine(lhs, rhs), r, w) == LoadOutcome(Combine(lhs, rhs'), r, w)
  {
  }

  /** `combine`, primary miss and secondary hit `v`: the primary's `set(v)` runs, and the load
      reports `v` if that write-back succeeds and the write-back's error otherwise. */
  lemma CombineWritesBack<V>(lhs: Loader<V>, rhs: Loader<V>, r: Resource<V>, w: World<V>)
    requires LoadOutcome(lhs, r, w).status.Err?
    requires LoadOutcome(rhs, r, LoadOutcome(lhs, r, w).world).status.Ok?
    ensures
      var second := LoadOutcome(rhs, r, LoadOutcome(lhs, r, w).world);
      var back := SetOutcome(lhs, r, second.status.value, second.world);
      LoadOutcome(Combine(lhs, rhs), r, w).world == back.world &&
      (back.status.Ok? ==> LoadOutcome(Combine(lhs, rhs), r, w).status == second.status) &&
      (back.status.Err? ==> LoadOutcome(Combine(lhs, rhs), r, w).status == Err(back.status.error))
  {
  }

  /** `combine`, both miss: the secondary's error, and nothing is written back. */
  lemma CombineBothFail<V>(lhs: Loader<V>, rhs: Loader<V>, r: Resource<V>, w: World<V>)
    requires LoadOutcome(lhs, r, w).status.Err?
    requires LoadOutcome(rhs, r, LoadOutcome(lhs, r, w).world).status.Err?
    ensures LoadOutcome(Combine(lhs, rhs), r, w) == LoadOutcome(rhs, r, LoadOutcome(lhs, r, w).world)
  {
  }

  /** `combine`'s `set` runs the primary's, then the secondary's; a failing primary `set` is the
      result and the secondary's `set` does not run. */
  lemma CombineSetSequential<V>(lhs: Loader<V>, rhs: Loader<V>, rhs': Loader<V>, r: Resource<V>, v: V, w: World<V>)
    ensures SetOutcome(lhs, r, v, w).status.Err? ==>
      SetOutcome(Combine(lhs, rhs), r, v, w) == SetOutcome(lhs, r, v, w) == SetOutcome(Combine(lhs, rhs'), r, v, w)
    ensures SetOutcome(lhs, r, v, w).status.Ok? ==>
      SetOutcome(Combine(lhs, rhs), r, v, w) == SetOutcome(rhs, r, v, SetOutcome(lhs, r, v, w).world)
  {
  }

  /** Promotion: when the cache misses and `other` answers, the answer is delivered and stored
      in the cache, so the next load through `cache ?? other` is a hit that does not consult
      `other`. */
  lemma CachePromotes<V>(id: CacheId, other: Loader<V>, other': Loader<V>, r: Resource<V>, w: World<V>)
    requires r.url !in CacheOf(w, id)
    requires LoadOutcome(other, r, w).status.Ok?
    ensures
      var v := LoadOutcome(other, r, w).status.value;
      var after := LoadOutcome(Coalesce(CacheTier(id), other), r, w);
      after.status == Ok(v) &&
      r.url in CacheOf(after.world, id) && CacheOf(after.world, id)[r.url] == v &&
      LoadOutcome(Coalesce(CacheTier(id), other'), r, after.world) == Outcome(Ok(v), after.world)
  {
  }

  /** Monoid left identity: `combine(identity, a)` loads and sets exactly as `a` does. */
  lemma LeftIdentity<V>(a: Loader<V>, r: Resource<V>, v: V, w: World<V>)
    ensures LoadOutcome(Combine(Identity, a), r, w) == LoadOutcome(a, r, w)
    ensures SetOutcome(Combine(Identity, a), r, v, w) == SetOutcome(a, r, v, w)
  {
  }

  /** Monoid right identity, as far as it holds: `combine(a, identity)` sets as `a` does and
      loads as `a` does, except that `a`'s error becomes `ResourceLoaderError`. */
  lemma RightIdentity<V>(a: Loader<V>, r: Resource<V>, v: V, w: World<V>)
    ensures LoadOutcome(Combine(a, Identity), r, w).world == LoadOutcome(a, r, w).world
    ensures LoadOutcome(a, r, w).status.Ok? ==>
      LoadOutcome(Combine(a, Identity), r, w).status == LoadOutcome(a, r, w).status
    ensures LoadOutcome(a, r, w).status.Err? ==>
      LoadOutcome(Combine(a, Identity), r, w).status == Err(ResourceLoaderError)
    ensures SetOutcome(Combine(a, Identity), r, v, w) == SetOutcome(a, r, v, w)
  {
    var first := SetOutcome(a, r, v, w);
    if first.status.Ok? {
      UnitStatus(first.status);
    }
  }

  /** A loader that always fails with its own error. */
  function Failing(code: int): Loader<int> {
    Custom(_ => Err(Raised(code)), (_, _) => Ok(()))
  }

  /** Right identity fails as an equation: the loader's own error is replaced. */
  lemma RightIdentityReplacesError(r: Resource<int>, w: World<int>)
    ensures LoadOutcome(Failing(1), r, w).status == Err(Raised(1))
    ensures LoadOutcome(Combine(Failing(1), Identity), r, w).status == Err(ResourceLoaderError)
  {
  }

  /** A `set` that cannot fail writes the value under the URL into each cache tier of the loader
      and does nothing else. */
  lemma {:induction false} SetWritesAll<V(!new)>(l: Loader<V>, r: Resource<V>, v: V, w: World<V>)
    requires NoFailingSet(l)
    ensures SetOutcome(l, r, v, w) == Outcome(Ok(()), WriteAll(w, CacheIds(l), r.url, v))
    decreases l
  {
    match l
    case Identity =>
      assert WriteAll(w, {}, r.url, v) == w;
    case CacheTier(id) =>
    case Custom(_, store) =>
      UnitStatus(store(r, v));
      assert WriteAll(w, {}, r.url, v) == w;
    case Combine(lhs, rhs) =>
      SetWritesAll(lhs, r, v, w);
      var mid := WriteAll(w, CacheIds(lhs), r.url, v);
      SetWritesAll(rhs, r, v, mid);
      WriteAllTwice(w, CacheIds(lhs), CacheIds(rhs), r.url, v);
  }

  /** Which tiers a write touches, and what each tier's dictionary becomes. */
  lemma WriteAllAt<V>(w: World<V>, ids: set<CacheId>, url: Url, v: V, id: CacheId)
    ensures id in WriteAll(w, ids, url, v) <==> id in w || id in ids
    ensures CacheOf(WriteAll(w, ids, url, v), id)
         == if id in ids then CacheOf(w, id)[url := v] else CacheOf(w, id)
  {
  }

  /** Writing the same value under the same URL into two groups of tiers is writing it into
      their union once. */
  lemma WriteAllTwice<V>(w: World<V>, a: set<CacheId>, b: set<CacheId>, url: Url, v: V)
    ensures WriteAll(WriteAll(w, a, url, v), b, url, v) == WriteAll(w, a + b, url, v)
  {
    var mid := WriteAll(w, a, url, v);
    var ab := WriteAll(mid, b, url, v);
    var u := WriteAll(w, a + b, url, v);
    forall id
      ensures (id in ab <==> id in u) && (id in u ==> ab[id] == u[id])
    {
      WriteAllAt(w, a, url, v, id);
      WriteAllAt(mid, b, url, v, id);
      WriteAllAt(w, a + b, url, v, id);
      if id in a && id in b {
        assert CacheOf(w, id)[url := v][url := v] == CacheOf(w, id)[url := v];
      }
    }
    assert ab.Keys == u.Keys;
  }

  /** Writing back through `combine(a, b)` and writing back through `b`, then `a`, succeed
      alike and leave the same world when no `set` can fail. */
  lemma WriteBackCommutes<V(!new)>(a: Loader<V>, b: Loader<V>, r: Resource<V>, u: V, w: World<V>)
    requires NoFailingSet(a) && NoFailingSet(b)
    ensures SetOutcome(b, r, u, w).status == Ok(())
    ensures SetOutcome(Combine(a, b), r, u, w) == SetOutcome(a, r, u, SetOutcome(b, r, u, w).world)
  {
    SetWritesAll(a, r, u, w);
    SetWritesAll(b, r, u, w);
    SetWritesAll(b, r, u, WriteAll(w, CacheIds(a), r.url, u));
    SetWritesAll(a, r, u, WriteAll(w, CacheIds(b), r.url, u));
    WriteAllTwice(w, CacheIds(a), CacheIds(b), r.url, u);
    WriteAllTwice(w, CacheIds(b), CacheIds(a), r.url, u);
    assert CacheIds(a) + CacheIds(b) == CacheIds(b) + CacheIds(a);
  }

  /** Monoid associativity of `load`, when no `set` can fail: both groupings deliver the same
      status and leave the same world. */
  lemma LoadAssociative<V(!new)>(a: Loader<V>, b: Loader<V>, c: Loader<V>, r: Resource<V>, w: World<V>)
    requires NoFailingSet(a) && NoFailingSet(b)
    ensures LoadOutcome(Combine(Combine(a, b), c), r, w) == LoadOutcome(Combine(a, Combine(b, c)), r, w)
  {
    var first := LoadOutcome(a, r, w);
    if first.status.Err? {
      var second := LoadOutcome(b, r, first.world);
      if second.status.Ok? {
        SetWritesAll(a, r, second.status.value, second.world);
      } else {
        AssociativeAfterTwoMisses(a, b, c, r, w);
      }
    }
  }

  /** Associativity in the case where the first two loaders miss. */
  lemma AssociativeAfterTwoMisses<V(!new)>(a: Loader<V>, b: Loader<V>, c: Loader<V>, r: Resource<V>, w: World<V>)
    requires NoFailingSet(a) && NoFailingSet(b)
    requires LoadOutcome(a, r, w).status.Err?
    requires LoadOutcome(b, r, LoadOutcome(a, r, w).world).status.Err?
    ensures LoadOutcome(Combine(Combine(a, b), c), r, w) == LoadOutcome(Combine(a, Combine(b, c)), r, w)
  {
    var second := LoadOutcome(b, r, LoadOutcome(a, r, w).world);
    assert LoadOutcome(Combine(a, b), r, w) == second;
    var third := LoadOutcome(c, r, second.world);
    assert LoadOutcome(Combine(b, c), r, LoadOutcome(a, r, w).world).world
        == if third.status.Ok? then SetOutcome(b, r, third.status.value, third.world).world else third.world;
    if third.status.Ok? {
      WriteBackCommutes(a, b, r, third.status.value, third.world);
    }
  }

  /** Associativity of `set` holds for every loader: both groupings run the three sets in order
      and stop at the first failure. */
  lemma SetAssociative<V>(a: Loader<V>, b: Loader<V>, c: Loader<V>, r: Resource<V>, v: V, w: World<V>)
    ensures SetOutcome(Combine(Combine(a, b), c), r, v, w) == SetOutcome(Combine(a, Combine(b, c)), r, v, w)
  {
  }

  /** A loader that always misses and whose `set` always fails. */
  function Unwritable(code: int, setCode: int): Loader<int> {
    Custom(_ => Err(Raised(code)), (_, _) => Err(Raised(setCode)))
  }

  /** A loader that always answers `v` and accepts every `set`. */
  function Constant(v: int): Loader<int> {
    Custom(_ => Ok(v), (_, _) => Ok(()))
  }

  /** Associativity of `load` fails once a `set` may fail: with a primary whose write-back fails,
      `(a ?? b) ?? c` reports the third tier's miss, while `a ?? (b ?? c)` reports the failed
      write-back. */
  lemma LoadNotAssociative(r: Resource<int>, w: World<int>)
    ensures LoadOutcome(Combine(Combine(Unwritable(5, 7), Constant(0)), Failing(3)), r, w).status
         == Err(Raised(3))
    ensures LoadOutcome(Combine(Unwritable(5, 7), Combine(Constant(0), Failing(3))), r, w).status
         == Err(Raised(7))
  {
  }

  /** Two worlds hold the same dictionary for each of the tiers `ids`. */
  ghost predicate Agree<V>(w1: World<V>, w2: World<V>, ids: set<CacheId>) {
    forall id | id in ids :: CacheOf(w1, id) == CacheOf(w2, id)
  }

  /** Going from `w` to `w'` leaves every tier outside `ids` exactly as it was. */
  ghost predicate Keeps<V>(w: World<V>, w': World<V>, ids: set<CacheId>) {
    forall id | id !in ids :: (id in w <==> id in w') && (id in w ==> w'[id] == w[id])
  }

  /** Agreement on `more` survives two steps that agree on `ids` and keep everything else. */
  lemma Carry<V>(w1: World<V>, w2: World<V>, w1': World<V>, w2': World<V>, ids: set<CacheId>, more: set<CacheId>)
    requires Agree(w1, w2, more) && Agree(w1', w2', ids)
    requires Keeps(w1, w1', ids) && Keeps(w2, w2', ids)
    ensures Agree(w1', w2', ids + more)
  {
    forall id | id in ids + more && id !in ids
      ensures CacheOf(w1', id) == CacheOf(w2', id)
    {
      assert CacheOf(w1', id) == CacheOf(w1, id);
      assert CacheOf(w2', id) == CacheOf(w2, id);
    }
  }

  /** Two steps that each keep everything outside their own tiers keep everything outside both. */
  lemma KeepsChain<V>(w: World<V>, w': World<V>, w'': World<V>, a: set<CacheId>, b: set<CacheId>, ids: set<CacheId>)
    requires Keeps(w, w', a) && Keeps(w', w'', b) && a + b <= ids
    ensures Keeps(w, w'', ids)
  {
  }

  /** Each cache tier is private to the loaders holding it: a `set` reads and writes only the
      tiers of its own loader. From two worlds that agree on those tiers it reports the same
      status and leaves worlds that still agree on them, and every other tier is untouched. */
  lemma {:induction false} SetLocal<V>(l: Loader<V>, r: Resource<V>, v: V, w1: World<V>, w2: World<V>)
    requires Agree(w1, w2, CacheIds(l))
    ensures SetOutcome(l, r, v, w1).status == SetOutcome(l, r, v, w2).status
    ensures Agree(SetOutcome(l, r, v, w1).world, SetOutcome(l, r, v, w2).world, CacheIds(l))
    ensures Keeps(w1, SetOutcome(l, r, v, w1).world, CacheIds(l))
    ensures Keeps(w2, SetOutcome(l, r, v, w2).world, CacheIds(l))
    decreases l
  {
    match l
    case Identity =>
    case CacheTier(id) =>
      assert id in CacheIds(l);
    case Custom(_, _) =>
    case Combine(lhs, rhs) =>
      var ids := CacheIds(l);
      assert ids == CacheIds(lhs) + CacheIds(rhs);
      SetLocal(lhs, r, v, w1, w2);
      var f1, f2 := SetOutcome(lhs, r, v, w1), SetOutcome(lhs, r, v, w2);
      if f1.status.Ok? {
        Carry(w1, w2, f1.world, f2.world, CacheIds(lhs), ids);
        SetLocal(rhs, r, v, f1.world, f2.world);
        var g1, g2 := SetOutcome(rhs, r, v, f1.world), SetOutcome(rhs, r, v, f2.world);
        assert SetOutcome(l, r, v, w1) == g1 && SetOutcome(l, r, v, w2) == g2;
        Carry(f1.world, f2.world, g1.world, g2.world, CacheIds(rhs), CacheIds(lhs) + ids);
        KeepsChain(w1, f1.world, g1.world, CacheIds(lhs), CacheIds(rhs), ids);
        KeepsChain(w2, f2.world, g2.world, CacheIds(lhs), CacheIds(rhs), ids);
      } else {
        assert SetOutcome(l, r, v, w1) == f1 && SetOutcome(l, r, v, w2) == f2;
      }
  }

  /** A `load`, write-back included, likewise reads and writes only its loader's own tiers. */
  lemma {:induction false} LoadLocal<V>(l: Loader<V>, r: Resource<V>, w1: World<V>, w2: World<V>)
    requires Agree(w1, w2, CacheIds(l))
    ensures LoadOutcome(l, r, w1).status == LoadOutcome(l, r, w2).status
    ensures Agree(LoadOutcome(l, r, w1).world, LoadOutcome(l, r, w2).world, CacheIds(l))
    ensures Keeps(w1, LoadOutcome(l, r, w1).world, CacheIds(l))
    ensures Keeps(w2, LoadOutcome(l, r, w2).world, CacheIds(l))
    decreases l
  {
    match l
    case Identity =>
    case CacheTier(id) =>
      assert id in CacheIds(l);
    case Custom(_, _) =>
    case Combine(lhs, rhs) =>
      var ids := CacheIds(l);
      assert ids == CacheIds(lhs) + CacheIds(rhs);
      LoadLocal(lhs, r, w1, w2);
      var f1, f2 := LoadOutcome(lhs, r, w1), LoadOutcome(lhs, r, w2);
      if f1.status.Ok? {
        assert LoadOutcome(l, r, w1) == f1 && LoadOutcome(l, r, w2) == f2;
      } else {
        Carry(w1, w2, f1.world, f2.world, CacheIds(lhs), ids);
        LoadLocal(rhs, r, f1.world, f2.world);
        var g1, g2 := LoadOutcome(rhs, r, f1.world), LoadOutcome(rhs, r, f2.world);
        Carry(f1.world, f2.world, g1.world, g2.world, CacheIds(rhs), CacheIds(lhs) + ids);
        KeepsChain(w1, f1.world, g1.world, CacheIds(lhs), CacheIds(rhs), ids);
        KeepsChain(w2, f2.world, g2.world, CacheIds(lhs), CacheIds(rhs), ids);
        if g1.status.Err? {
          assert LoadOutcome(l, r, w1) == g1 && LoadOutcome(l, r, w2) == g2;
        } else {
          var value := g1.status.value;
          SetLocal(lhs, r, value, g1.world, g2.world);
          var b1, b2 := SetOutcome(lhs, r, value, g1.world), SetOutcome(lhs, r, value, g2.world);
          assert LoadOutcome(l, r, w1).world == b1.world && LoadOutcome(l, r, w2).world == b2.world;
          Carry(g1.world, g2.world, b1.world, b2.world, CacheIds(lhs), CacheIds(rhs) + CacheIds(lhs) + ids);
          KeepsChain(w1, g1.world, b1.world, ids, CacheIds(lhs), ids);
          KeepsChain(w2, g2.world, b2.world, ids, CacheIds(lhs), ids);
        }
      }
  }

  /** A new cache tier is invisible to a loader that does not hold it: handing out a fresh,
      empty tier changes neither what the loader's `load` and `set` report nor what they do to
      its own tiers. */
  lemma FreshTierInvisible<V>(l: Loader<V>, r: Resource<V>, v: V, w: World<V>, id: CacheId)
    requires id !in CacheIds(l)
    ensures LoadOutcome(l, r, w[id := map[]]).status == LoadOutcome(l, r, w).status
    ensures SetOutcome(l, r, v, w[id := map[]]).status == SetOutcome(l, r, v, w).status
    ensures Agree(LoadOutcome(l, r, w[id := map[]]).world, LoadOutcome(l, r, w).world, CacheIds(l))
    ensures Agree(SetOutcome(l, r, v, w[id := map[]]).world, SetOutcome(l, r, v, w).world, CacheIds(l))
  {
    var w' := w[id := map[]];
    assert Agree(w', w, CacheIds(l)) by {
      forall i | i in CacheIds(l) ensures CacheOf(w', i) == CacheOf(w, i) {
        assert i != id;
      }
    }
    LoadLocal(l, r, w', w);
    SetLocal(l, r, v, w', w);
  }
}
