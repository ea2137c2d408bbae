/**
 * The execution engine as a specification: what running a graph (the runner
 * returned by `bootstrap(graph)`) computes from an input value and a context.
 *
 * Awaiting is modelled as a plain call. `Promise.all` over the elements of a
 * map step is modelled as a left-to-right pass; when several elements fail,
 * the error of the lowest failing index is the one reported. This departs
 * from the source when a step function throws synchronously on some element:
 * `map` then stops there, and that element's error wins even over an earlier
 * element's rejected promise.
 */
module Engine {
  import opened Results
  import opened Values
  import opened Graphs

  /** The errors a run can end with. */
  datatype Error =
    | InvalidInput(stepName: string, received: Value)  // the step's schema rejected its input
    | NotAnArray(received: Value)                      // a map step received a non-array
    | Thrown(message: string)                          // a step function threw or rejected

  /** The runner `bootstrap(graph)` applied to `input` and `context`. */
  function Run(graph: Graph, input: Value, context: Context): Result<Value, Error>
    decreases graph, 0
  {
    RunSteps(graph.executionSteps, input, context)
  }

  /** The `for` loop over the steps, threading the current value from one step to the next. */
  function RunSteps(steps: seq<Step>, current: Value, context: Context): Result<Value, Error>
    decreases steps, 0
  {
    if |steps| == 0 then Ok(current)
    else Continue(RunStep(steps[0], current, context), steps[1..], context)
  }

  /** Go on with `steps` from the outcome of the steps before them. */
  function Continue(outcome: Result<Value, Error>, steps: seq<Step>, context: Context): Result<Value, Error>
    decreases steps, 1
  {
    match outcome
    case Err(e) => Err(e)
    case Ok(w) => RunSteps(steps, w, context)
  }

  /** One iteration of the loop: the validation gate, then dispatch on the step's type. */
  function RunStep(step: Step, current: Value, context: Context): Result<Value, Error>
    decreases step, 0
  {
    if !Accepts(step.inputSchema, current) then Err(InvalidInput(step.name, current))
    else if step.stepType == Map then
      if !current.Array? then Err(NotAnArray(current))
      else
        match MapAll(step.fn, current.elems, context)
        case Err(e) => Err(e)
        case Ok(results) => Ok(Array(results))
    else Apply(step.fn, current, context)
  }

  /**
   * Invoking a body on one value: a step function receives `{ context }`,
   * a nested graph's runner receives the context itself.
   */
  function Apply(body: Body, input: Value, context: Context): Result<Value, Error>
    decreases body, 0
  {
    match body
    case CallbackBody(f) => Lift(f(input, Options(context)))
    case GraphBody(g) => Run(g, input, context)
  }

  /** A step function's outcome as an outcome of the run. */
  function Lift(outcome: Result<Value, string>): Result<Value, Error>
  {
    match outcome
    case Ok(v) => Ok(v)
    case Err(message) => Err(Thrown(message))
  }

  /** `Promise.all(elems.map(x => body(x)))`, with the lowest failing index reported. */
  function MapAll(body: Body, elems: seq<Value>, context: Context): Result<seq<Value>, Error>
    decreases body, |elems| + 1
  {
    if |elems| == 0 then Ok([])
    else
      match Apply(body, elems[0], context)
      case Err(e) => Err(e)
      case Ok(first) =>
        match MapAll(body, elems[1..], context)
        case Err(e) => Err(e)
        case Ok(rest) => Ok([first] + rest)
  }
}
