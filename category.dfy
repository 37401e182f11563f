/**
 * Function composition over throwing functions (Prelude/Category.swift):
 * `>>>` runs left to right, `<<<` right to left, and `identity` is the unit.
 */
module Category {
  import opened StatusMonad

  /** `f >>> g`: feed what `f` returns to `g`; a throw from `f` is the result and `g` never runs. */
  function Forward<A, B, C>(f: A -> Status<B>, g: B -> Status<C>): A -> Status<C> {
    a => match f(a)
         case Ok(b) => g(b)
         case Err(e) => Err(e)
  }

  /** `g <<< f`. */
  function Backward<A, B, C>(g: B -> Status<C>, f: A -> Status<B>): A -> Status<C> {
    Forward(f, g)
  }

  function Identity<A>(a: A): A {
    a
  }

  /** `(f >>> g)(a) == g(f(a))`, and a throw in `f` makes the choice of `g` irrelevant. */
  lemma ForwardApplies<A, B, C>(f: A -> Status<B>, g: B -> Status<C>, g': B -> Status<C>, a: A)
    ensures f(a).Ok? ==> Forward(f, g)(a) == g(f(a).value)
    ensures f(a).Err? ==> Forward(f, g)(a) == Err(f(a).error) == Forward(f, g')(a)
  {
  }

  /** `g <<< f` is `f >>> g`. */
  lemma BackwardIsFlippedForward<A, B, C>(g: B -> Status<C>, f: A -> Status<B>, a: A)
    ensures Backward(g, f)(a) == Forward(f, g)(a)
  {
  }

  /** `identity` is a unit on both sides of `>>>`, and `>>>` is associative. */
  lemma CategoryLaws<A, B, C, D>(f: A -> Status<B>, g: B -> Status<C>, h: C -> Status<D>, a: A)
    ensures Identity(a) == a
    ensures Forward(NonThrowing(Identity<A>), f)(a) == f(a)
    ensures Forward(f, NonThrowing(Identity<B>))(a) == f(a)
    ensures Forward(Forward(f, g), h)(a) == Forward(f, Forward(g, h))(a)
  {
    assert NonThrowing(Identity<A>)(a) == Ok(a);
    if f(a).Ok? {
      var b := f(a).value;
      assert NonThrowing(Identity<B>)(b) == Ok(Identity(b));
    }
  }
}
