/**
 * PlaceholderSpecializationMiddleware: while the host is a placeholder, every
 * request first checks whether specialization can start (standby mode over,
 * container ready) and, if so, waits for it; the first completed
 * specialization swaps the request handler for the next middleware, after
 * which the check is never run again.
 */
module PlaceholderSpecialization {
  import opened Common

  /** The delegate `_invoke` refers to. */
  datatype Handler = InvokeSpecializationCheck | Next

  /** The fields `_invoke` and `_specialized` (a double holding 0 or 1). */
  datatype MiddlewareState = MiddlewareState(invoke: Handler, specialized: int)

  const Initial := MiddlewareState(InvokeSpecializationCheck, 0)

  /** The two states the middleware can be in. */
  predicate ValidState(s: MiddlewareState)
  {
    s == Initial || s == MiddlewareState(Next, 1)
  }

  /** What a request finds when it runs the check. */
  datatype RequestConditions = RequestConditions(
    inStandbyMode: bool,            // IScriptWebHostEnvironment.InStandbyMode
    containerReady: bool,           // IEnvironment.IsContainerReady()
    specializeThrows: bool)         // whether awaiting SpecializeHostAsync throws

  /** The observable calls of one request. */
  datatype Effect = SpecializeHost(completed: bool) | CallNext

  /** Invoke(httpContext): the new state and the calls, in order. */
  function Handle(s: MiddlewareState, c: RequestConditions): (r: (MiddlewareState, seq<Effect>))
    ensures ValidState(s) ==> ValidState(r.0)
    ensures s.invoke == Next ==> r == (s, [CallNext])
    ensures s.invoke == InvokeSpecializationCheck && (c.inStandbyMode || !c.containerReady) ==> r == (s, [CallNext])
    ensures s.invoke == InvokeSpecializationCheck && !c.inStandbyMode && c.containerReady ==>
              (c.specializeThrows ==> r == (s, [SpecializeHost(false)]))
              && (!c.specializeThrows ==>
                    r.1 == [SpecializeHost(true), CallNext]
                    && r.0 == if s.specialized == 0 then MiddlewareState(Next, 1) else s)
    ensures s.specialized == 1 ==> r.0.specialized == 1
    ensures s.invoke == Next ==> r.0.invoke == Next
  {
    match s.invoke
    case Next => (s, [CallNext])
    case InvokeSpecializationCheck =>
      if !c.inStandbyMode && c.containerReady then
        if c.specializeThrows then (s, [SpecializeHost(false)])
        else
          var swapped := if s.specialized == 0 then MiddlewareState(Next, 1) else s;
          (swapped, [SpecializeHost(true), CallNext])
      else (s, [CallNext])
  }

  /** A sequence of requests handled one after another. */
  function HandleAll(s: MiddlewareState, cs: seq<RequestConditions>): (MiddlewareState, seq<Effect>)
    decreases |cs|
  {
    if cs == [] then (s, [])
    else
      var first := Handle(s, cs[0]);
      var rest := HandleAll(first.0, cs[1..]);
      (rest.0, first.1 + rest.1)
  }

  function CountCompleted(es: seq<Effect>): nat
  {
    if es == [] then 0 else (if es[0] == SpecializeHost(true) then 1 else 0) + CountCompleted(es[1..])
  }

  function CountSpecializeCalls(es: seq<Effect>): nat
  {
    if es == [] then 0 else (if es[0].SpecializeHost? then 1 else 0) + CountSpecializeCalls(es[1..])
  }

  lemma {:induction false} CountsAppend(a: seq<Effect>, b: seq<Effect>)
    ensures CountCompleted(a + b) == CountCompleted(a) + CountCompleted(b)
    ensures CountSpecializeCalls(a + b) == CountSpecializeCalls(a) + CountSpecializeCalls(b)
    decreases |a|
  {
    if a == [] {
      assert a + b == b;
    } else {
      assert (a + b)[1..] == a[1..] + b;
      CountsAppend(a[1..], b);
    }
  }

  /** Once `_invoke` is `_next`, nothing changes and SpecializeHostAsync is never called again. */
  lemma {:induction false} NextIsFinal(s: MiddlewareState, cs: seq<RequestConditions>)
    requires s.invoke == Next
    ensures HandleAll(s, cs).0 == s
    ensures CountSpecializeCalls(HandleAll(s, cs).1) == 0
    decreases |cs|
  {
    if cs != [] {
      NextIsFinal(s, cs[1..]);
      CountsAppend([CallNext], HandleAll(s, cs[1..]).1);
    }
  }

  /**
   * Over any sequence of requests, at most one specialization completes, and
   * once one has completed the handler is `_next` for good.
   */
  lemma {:induction false} SpecializesOnce(s: MiddlewareState, cs: seq<RequestConditions>)
    requires ValidState(s)
    ensures ValidState(HandleAll(s, cs).0)
    ensures CountCompleted(HandleAll(s, cs).1) <= if s.invoke == Next then 0 else 1
    ensures CountCompleted(HandleAll(s, cs).1) == 1 ==> HandleAll(s, cs).0.invoke == Next
    decreases |cs|
  {
    if cs != [] {
      var first := Handle(s, cs[0]);
      SpecializesOnce(first.0, cs[1..]);
      CountsAppend(first.1, HandleAll(first.0, cs[1..]).1);
      if first.0.invoke == Next && s.invoke == InvokeSpecializationCheck {
        NextIsFinal(first.0, cs[1..]);
      }
      assert CountCompleted(first.1) <= 1;
      if s.invoke == Next {
        NextIsFinal(s, cs);
        assert CountCompleted(first.1) == 0;
      }
    }
  }

  class PlaceholderSpecializationMiddleware {
    var invoke: Handler
    var specialized: int
    /** The calls made by the requests handled so far. */
    ghost var effects: seq<Effect>

    function State(): MiddlewareState
      reads this
    {
      MiddlewareState(invoke, specialized)
    }

    /** Initially every request runs the specialization check. */
    constructor ()
      ensures State() == Initial && effects == []
    {
      invoke := InvokeSpecializationCheck;
      specialized := 0;
      effects := [];
    }

    /** Invoke(httpContext): an Err is the exception from SpecializeHostAsync, when `_next` is not called. */
    method Invoke(c: RequestConditions) returns (r: Result<()>)
      modifies this
      ensures (State(), effects) == (Handle(old(State()), c).0, old(effects) + Handle(old(State()), c).1)
      ensures r.Ok? <==> CallNext in Handle(old(State()), c).1
    {
      if invoke == Next {
        effects := effects + [CallNext];
        return Ok(());
      }
      r := InvokeSpecializationCheckFor(c);
    }

    method InvokeSpecializationCheckFor(c: RequestConditions) returns (r: Result<()>)
      requires invoke == InvokeSpecializationCheck
      modifies this
      ensures (State(), effects) == (Handle(old(State()), c).0, old(effects) + Handle(old(State()), c).1)
      ensures r.Ok? <==> CallNext in Handle(old(State()), c).1
    {
      if !c.inStandbyMode && c.containerReady {
        if c.specializeThrows {
          effects := effects + [SpecializeHost(false)];
          return Err(CollaboratorFailure);
        }
        if specialized == 0 {
          specialized := 1;
          invoke := Next;
        }
        effects := effects + [SpecializeHost(true), CallNext];
        return Ok(());
      }
      effects := effects + [CallNext];
      r := Ok(());
    }
  }
}
