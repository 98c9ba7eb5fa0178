/**
 * `useMutation`: a reducer over four states and the `mutate` routine that
 * drives it. The outcome of `perform` is an input: a response (ok or not)
 * or a thrown value.
 */
module UseMutation {
  import opened Js

  datatype MutationState = Idle | Loading | Error | Done

  /** The reducer state; `error` is `null` (None) or what was dispatched with ERROR. */
  datatype Mutation<E> = Mutation(state: MutationState, error: Option<E>)

  /** The four actions START, ERROR, DONE and RESET. */
  datatype Action<E> = StartAction | ErrorAction(error: Option<E>) | DoneAction | ResetAction

  function Initial<E>(): Mutation<E>
  {
    Mutation(Idle, None)
  }

  /** The error is non-null only in the error state. */
  predicate WellFormed<E>(m: Mutation<E>)
  {
    m.state != Error ==> m.error == None
  }

  /** `mutationReducer`: the result depends on the action alone. */
  function Reduce<E>(m: Mutation<E>, a: Action<E>): (r: Mutation<E>)
    ensures WellFormed(r)
    ensures r.state == Error <==> a.ErrorAction?
    ensures a.ErrorAction? ==> r.error == a.error
    ensures a.StartAction? ==> r == Mutation(Loading, None)
    ensures a.DoneAction? ==> r == Mutation(Done, None)
    ensures a.ResetAction? ==> r == Mutation(Idle, None)
  {
    match a
    case StartAction => Mutation(Loading, None)
    case ErrorAction(e) => Mutation(Error, e)
    case DoneAction => Mutation(Done, None)
    case ResetAction => Mutation(Idle, None)
  }

  /** The reducer ignores the state it is given. */
  lemma ReduceIgnoresState<E>(m: Mutation<E>, other: Mutation<E>, a: Action<E>)
    ensures Reduce(m, a) == Reduce(other, a)
  {
  }

  /** The state after dispatching `actions` in order. */
  function Run<E>(m: Mutation<E>, actions: seq<Action<E>>): Mutation<E>
    decreases |actions|
  {
    if actions == [] then m else Run(Reduce(m, actions[0]), actions[1..])
  }

  /** Dispatching one more action reduces the state reached so far. */
  lemma {:induction false} RunSnoc<E>(m: Mutation<E>, actions: seq<Action<E>>, a: Action<E>)
    ensures Run(m, actions + [a]) == Reduce(Run(m, actions), a)
    decreases |actions|
  {
    if actions == [] {
      assert [] + [a] == [a];
      assert [a][1..] == [];
    } else {
      assert (actions + [a])[1..] == actions[1..] + [a];
      RunSnoc(Reduce(m, actions[0]), actions[1..], a);
    }
  }

  /** Every reachable state is well formed. */
  lemma {:induction false} RunKeepsWellFormed<E>(m: Mutation<E>, actions: seq<Action<E>>)
    requires WellFormed(m)
    ensures WellFormed(Run(m, actions))
    decreases |actions|
  {
    if actions != [] {
      RunKeepsWellFormed(Reduce(m, actions[0]), actions[1..]);
    }
  }

  datatype Flags = Flags(isIdle: bool, isLoading: bool, isError: bool, isDone: bool)

  function CountTrue(f: Flags): nat
  {
    (if f.isIdle then 1 else 0) + (if f.isLoading then 1 else 0)
    + (if f.isError then 1 else 0) + (if f.isDone then 1 else 0)
  }

  /** The `isIdle` / `isLoading` / `isError` / `isDone` flags: exactly one holds. */
  function FlagsOf<E>(m: Mutation<E>): (f: Flags)
    ensures CountTrue(f) == 1
    ensures f.isIdle <==> m.state == Idle
    ensures f.isLoading <==> m.state == Loading
    ensures f.isError <==> m.state == Error
    ensures f.isDone <==> m.state == Done
  {
    Flags(m.state == Idle, m.state == Loading, m.state == Error, m.state == Done)
  }

  datatype Response = Response(ok: bool)

  /** How `await options.perform()` ended. */
  datatype Performed<E> = Resolved(response: Response) | Rejected(thrown: E)

  /** What `mutate` dispatches after START for a given outcome of `perform`. */
  function AfterStart<E>(p: Performed<E>): (actions: seq<Action<E>>)
    ensures |actions| == 1
    ensures actions[0] == DoneAction <==> p.Resolved? && p.response.ok
    ensures actions[0] != DoneAction ==> actions[0] == ErrorAction(if p.Rejected? then Some(p.thrown) else None)
  {
    match p
    case Resolved(response) => if response.ok then [DoneAction] else [ErrorAction(None)]
    case Rejected(e) => [ErrorAction(Some(e))]
  }

  /** Where a mutation ends: done on an ok response, error otherwise, with the thrown value if any. */
  lemma MutationEnds<E>(m: Mutation<E>, p: Performed<E>)
    ensures var end := Run(m, [StartAction] + AfterStart(p));
      && (p.Resolved? && p.response.ok ==> end == Mutation(Done, None))
      && (p.Resolved? && !p.response.ok ==> end == Mutation(Error, None))
      && (p.Rejected? ==> end == Mutation(Error, Some(p.thrown)))
  {
    var actions := [StartAction] + AfterStart(p);
    var last := AfterStart(p)[0];
    assert actions == [StartAction, last];
    calc {
      Run(m, actions);
      Run(Reduce(m, StartAction), [last]);
      Run(Reduce(Reduce(m, StartAction), last), []);
      Reduce(Mutation(Loading, None), last);
    }
  }

  class MutationHook<E> {
    /** The reducer state. */
    var mutation: Mutation<E>

    constructor ()
      ensures mutation == Initial()
    {
      mutation := Initial();
    }

    method Dispatch(a: Action<E>)
      modifies this
      ensures mutation == Reduce(old(mutation), a)
    {
      mutation := Reduce(mutation, a);
    }

    /**
     * `mutate`. `dispatched` is the sequence of actions it sends, so the
     * intermediate loading state is visible to the caller; `result` is the
     * returned response, or None for `undefined`.
     */
    method Mutate(performed: Performed<E>) returns (result: Option<Response>, dispatched: seq<Action<E>>)
      modifies this
      ensures old(mutation).state == Loading ==> dispatched == [] && result == None
      ensures old(mutation).state != Loading ==> dispatched == [StartAction] + AfterStart(performed)
      ensures mutation == Run(old(mutation), dispatched)
      ensures result.Some? <==> old(mutation).state != Loading && performed.Resolved? && performed.response.ok
      ensures result.Some? ==> result.value == performed.response
    {
      if mutation.state == Loading {
        return None, [];
      }
      ghost var start := mutation;
      Dispatch(StartAction);
      dispatched := [StartAction];
      RunSnoc(start, [], StartAction);
      match performed
      case Resolved(response) =>
        if !response.ok {
          Dispatch(ErrorAction(None));
          RunSnoc(start, dispatched, ErrorAction(None));
          dispatched := dispatched + [ErrorAction(None)];
          return None, dispatched;
        }
        Dispatch(DoneAction);
        RunSnoc(start, dispatched, DoneAction);
        dispatched := dispatched + [DoneAction];
        return Some(response), dispatched;
      case Rejected(e) =>
        Dispatch(ErrorAction(Some(e)));
        RunSnoc(start, dispatched, ErrorAction(Some(e)));
        dispatched := dispatched + [ErrorAction(Some(e))];
        result := None;
    }

    method Reset()
      modifies this
      ensures mutation == Mutation(Idle, None)
    {
      Dispatch(ResetAction);
    }

    function Flags(): (f: Flags)
      reads this
      ensures f == FlagsOf(mutation)
    {
      FlagsOf(mutation)
    }
  }
}
