/** `Store<Index, Wrapped>` (Prelude/Store.swift): a focus index and an inspection function. */
module StoreComonad {

  datatype Store<!I, T> = Store(index: I, inspect: I -> T)

  /** Inspect, then transform, keeping the focus. */
  function Map<I, T, M>(st: Store<I, T>, f: T -> M): Store<I, M> {
    Store(st.index, i => f(st.inspect(i)))
  }

  /** The value at the focus. */
  function Extract<I, T>(st: Store<I, T>): T {
    st.inspect(st.index)
  }

  /** Inspecting the extended store at `i` resolves the store refocused at `i`. */
  function Extend<I, T, X>(st: Store<I, T>, resolve: Store<I, T> -> X): Store<I, X> {
    Store(st.index, i => resolve(Store(i, st.inspect)))
  }

  /** `map` keeps the focus and `map(f).extract == f(extract)`. */
  lemma MapKeepsIndex<I, T, M>(st: Store<I, T>, f: T -> M, i: I)
    ensures Map(st, f).index == st.index
    ensures Extract(Map(st, f)) == f(Extract(st))
    ensures Map(st, f).inspect(i) == f(st.inspect(i))
  {
  }

  /** `extend` keeps the focus, its extract is `resolve(self)`, and at any index it resolves the
      store refocused there over the same inspection. */
  lemma ExtendRefocuses<I, T, X>(st: Store<I, T>, resolve: Store<I, T> -> X, i: I)
    ensures Extend(st, resolve).index == st.index
    ensures Extract(Extend(st, resolve)) == resolve(st)
    ensures Extend(st, resolve).inspect(i) == resolve(Store(i, st.inspect))
  {
  }

  /** Comonad law, pointwise: extending by `extract` changes no inspection. */
  lemma ExtendByExtract<I, T>(st: Store<I, T>, i: I)
    ensures Extend(st, Extract<I, T>).inspect(i) == st.inspect(i)
  {
    assert Extend(st, Extract<I, T>).inspect(i) == Extract(Store(i, st.inspect));
  }
}
