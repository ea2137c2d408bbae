/**
 * The runner returned by `bootstrap(graph)`, written as the loop it is:
 * `currentData` is reassigned step by step, each map step loops over the
 * elements, and a nested graph is run by a recursive call. Each method is
 * proved to compute exactly what the specification in `Engine` says.
 */
module Runner {
  import opened Results
  import opened Values
  import opened Graphs
  import opened Engine
  import opened EngineProperties

  /** `bootstrap(graph)(initialInput, context)`. */
  method Run(graph: Graph, initialInput: Value, context: Context) returns (r: Result<Value, Error>)
    ensures r == Engine.Run(graph, initialInput, context)
    decreases graph, 0
  {
    var steps := graph.executionSteps;
    var currentData := initialInput;
    for i := 0 to |steps|
      invariant RunSteps(steps[..i], initialInput, context) == Ok(currentData)
    {
      var step := steps[i];
      RunOneMore(steps, i, initialInput, context);
      if !Accepts(step.inputSchema, currentData) {
        r := Err(InvalidInput(step.name, currentData));
        FailureIsFinal(steps, i + 1, initialInput, context);
        return;
      }
      var next;
      if step.stepType == Map {
        if !currentData.Array? {
          r := Err(NotAnArray(currentData));
          FailureIsFinal(steps, i + 1, initialInput, context);
          return;
        }
        var results := MapElements(step.fn, currentData.elems, context);
        next := match results
          case Err(e) => Err(e)
          case Ok(values) => Ok(Array(values));
      } else {
        next := Invoke(step.fn, currentData, context);
      }
      if next.Err? {
        r := next;
        FailureIsFinal(steps, i + 1, initialInput, context);
        return;
      }
      currentData := next.value;
    }
    assert steps[..|steps|] == steps;
    r := Ok(currentData);
  }

  /** Invoke a body on one value: call the step function, or run the nested graph. */
  method Invoke(body: Body, input: Value, context: Context) returns (r: Result<Value, Error>)
    ensures r == Apply(body, input, context)
    decreases body, 0
  {
    match body
    case CallbackBody(f) =>
      var outcome := f(input, Options(context));
      r := match outcome
        case Ok(v) => Ok(v)
        case Err(message) => Err(Thrown(message));
    case GraphBody(g) =>
      r := Run(g, input, context);
  }

  /** `Promise.all(elems.map(...))`: the body on every element, results in input order. */
  method MapElements(body: Body, elems: seq<Value>, context: Context) returns (r: Result<seq<Value>, Error>)
    ensures r == MapAll(body, elems, context)
    decreases body, 1
  {
    var results := [];
    for i := 0 to |elems|
      invariant |results| == i
      invariant forall j :: 0 <= j < i ==> Apply(body, elems[j], context) == Ok(results[j])
    {
      var outcome := Invoke(body, elems[i], context);
      if outcome.Err? {
        MapAllFirstFailure(body, elems, context, i);
        r := Err(outcome.error);
        return;
      }
      results := results + [outcome.value];
    }
    MapAllSucceeds(body, elems, context);
    assert results == MapAll(body, elems, context).value;
    r := Ok(results);
  }

  /** Running one more step extends the prefix run by that step. */
  lemma RunOneMore(steps: seq<Step>, i: nat, input: Value, context: Context)
    requires i < |steps|
    ensures RunSteps(steps[..i + 1], input, context) ==
              match RunSteps(steps[..i], input, context)
              case Err(e) => Err(e)
              case Ok(w) => RunStep(steps[i], w, context)
  {
    assert steps[..i + 1] == steps[..i] + [steps[i]];
    RunStepsAppend(steps[..i], [steps[i]], input, context);
    match RunSteps(steps[..i], input, context)
    case Err(e) =>
    case Ok(w) =>
      assert [steps[i]][1..] == [];
      ContinueNothing(RunStep(steps[i], w, context), context);
  }

  /** Once a prefix of the steps fails, the whole run fails the same way. */
  lemma FailureIsFinal(steps: seq<Step>, k: nat, input: Value, context: Context)
    requires k <= |steps|
    requires RunSteps(steps[..k], input, context).Err?
    ensures RunSteps(steps, input, context) == RunSteps(steps[..k], input, context)
  {
    assert steps == steps[..k] + steps[k..];
    RunStepsAppend(steps[..k], steps[k..], input, context);
  }
}
