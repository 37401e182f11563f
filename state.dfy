/**
 * `State<Context, Wrapped>` (Prelude/State.swift): an operation that may throw and that updates an
 * `inout` context. The model passes the context explicitly: running a state on a context gives the
 * outcome and the context as the operation left it. Swift writes an `inout` argument back also
 * when the callee throws, so the context after a failed stage is the one that stage left.
 */
module StateMonad {
  import opened StatusMonad

  /** What one run produces: the outcome and the context afterwards. */
  datatype Step<C, T> = Step(result: Status<T>, context: C)

  datatype State<!C, T> = State(operation: C -> Step<C, T>)

  /** `state.run(&context)`. */
  function Run<C, T>(st: State<C, T>, context: C): Step<C, T> {
    st.operation(context)
  }

  /** Run, then apply the (throwing) transform to the value; the context is the operation's. */
  function Map<C, T, M>(st: State<C, T>, f: T -> Status<M>): State<C, M> {
    State(context =>
      var step := st.operation(context);
      Step(StatusMonad.Map(step.result, f), step.context))
  }

  function Pure<C, T>(v: T): State<C, T> {
    State(context => Step(Ok(v), context))
  }

  /** `transform <*> state`: the function state runs first, the value state on what it left. */
  function Apply<C, T, M>(tf: State<C, T -> M>, st: State<C, T>): State<C, M> {
    State(context =>
      var first := tf.operation(context);
      match first.result
      case Err(e) => Step(Err(e), first.context)
      case Ok(fn) => Run(Map(st, NonThrowing(fn)), first.context))
  }

  /** Run `st`, obtain the next state from its value, and run that on the updated context. */
  function FlatMap<C, T, M>(st: State<C, T>, f: T -> Status<State<C, M>>): State<C, M> {
    State(context => RunFlatMap(st, f, context))
  }

  /** The body of the closure `flatMap` builds. */
  function RunFlatMap<C, T, M>(st: State<C, T>, f: T -> Status<State<C, M>>, context: C): Step<C, M> {
    var first := st.operation(context);
    match first.result
    case Err(e) => Step(Err(e), first.context)
    case Ok(v) =>
      (match f(v)
       case Err(e) => Step(Err(e), first.context)
       case Ok(next) => next.operation(first.context))
  }

  /** `pure(v)` returns `v` and leaves the context as it was. */
  lemma PureKeepsContext<C, T>(v: T, context: C)
    ensures Run(Pure<C, T>(v), context) == Step(Ok(v), context)
  {
  }

  /** `map` changes the context exactly as the underlying state does and transforms its value;
      a failure of the underlying state is the result. */
  lemma MapKeepsStateEffect<C, T, M>(st: State<C, T>, f: T -> Status<M>, context: C)
    ensures Run(Map(st, f), context).context == Run(st, context).context
    ensures Run(st, context).result.Ok? ==> Run(Map(st, f), context).result == f(Run(st, context).result.value)
    ensures Run(st, context).result.Err? ==> Run(Map(st, f), context).result == Err(Run(st, context).result.error)
  {
  }

  /** `<*>` runs the function state, then the value state on the context the function state
      left, and applies the function it produced to the value ... */
  lemma ApplyThreadsContext<C, T, M>(tf: State<C, T -> M>, st: State<C, T>, context: C)
    requires Run(tf, context).result.Ok?
    ensures var first := Run(tf, context);
      var second := Run(st, first.context);
      Run(Apply(tf, st), context).context == second.context &&
      Run(Apply(tf, st), context).result == StatusMonad.Map(second.result, NonThrowing(first.result.value))
  {
  }

  /** ... while a failing function state stops there, whatever the value state is. */
  lemma ApplyStopsOnError<C, T, M>(tf: State<C, T -> M>, st: State<C, T>, st': State<C, T>, context: C)
    requires Run(tf, context).result.Err?
    ensures Run(Apply(tf, st), context) == Step(Err(Run(tf, context).result.error), Run(tf, context).context)
    ensures Run(Apply(tf, st), context) == Run(Apply(tf, st'), context)
  {
  }

  /** `flatMap` runs `st`, then the state obtained from its value on the updated context; an error
      of the first stage, or a throw while obtaining the next state, stops there. */
  lemma FlatMapThreadsContext<C, T, M>(st: State<C, T>, f: T -> Status<State<C, M>>, context: C)
    ensures var first := Run(st, context);
      first.result.Ok? && f(first.result.value).Ok? ==>
        Run(FlatMap(st, f), context) == Run(f(first.result.value).value, first.context)
    ensures var first := Run(st, context);
      first.result.Ok? && f(first.result.value).Err? ==>
        Run(FlatMap(st, f), context) == Step(Err(f(first.result.value).error), first.context)
    ensures var first := Run(st, context);
      first.result.Err? ==> Run(FlatMap(st, f), context) == Step(Err(first.result.error), first.context)
  {
  }

  /** Monad laws, stated on runs, for transforms that never throw: `pure` is a left unit of
      `flatMap`, ... */
  lemma FlatMapLeftUnit<C, T, M>(v: T, f: T -> State<C, M>, context: C)
    ensures Run(FlatMap(Pure(v), NonThrowing(f)), context) == Run(f(v), context)
  {
  }

  /** ... a right unit, ... */
  lemma FlatMapRightUnit<C, T>(st: State<C, T>, context: C)
    ensures Run(FlatMap(st, NonThrowing(Pure<C, T>)), context) == Run(st, context)
  {
    var first := Run(st, context);
    if first.result.Ok? {
      assert NonThrowing(Pure<C, T>)(first.result.value) == Ok(Pure(first.result.value));
    }
  }

  /** ... and `flatMap` is associative. */
  lemma FlatMapAssociative<C, T, M, N>(st: State<C, T>, f: T -> State<C, M>, g: M -> State<C, N>, context: C)
    ensures Run(FlatMap(FlatMap(st, NonThrowing(f)), NonThrowing(g)), context)
         == Run(FlatMap(st, NonThrowing((x: T) => FlatMap(f(x), NonThrowing(g)))), context)
  {
    var first := Run(st, context);
    if first.result.Ok? {
      var v := first.result.value;
      var h := (x: T) => FlatMap(f(x), NonThrowing(g));
      calc {
        Run(FlatMap(FlatMap(st, NonThrowing(f)), NonThrowing(g)), context);
        RunFlatMap(FlatMap(st, NonThrowing(f)), NonThrowing(g), context);
        { assert Run(FlatMap(st, NonThrowing(f)), context) == Run(f(v), first.context); }
        RunFlatMap(f(v), NonThrowing(g), first.context);
        Run(h(v), first.context);
        RunFlatMap(st, NonThrowing(h), context);
      }
    }
  }
}
