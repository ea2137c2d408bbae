/** What the engine guarantees about a run, stated over the specification in `Engine`. */
module EngineProperties {
  import opened Results
  import opened Values
  import opened Graphs
  import opened Engine

  /** Running a graph without steps returns the initial input unchanged. */
  lemma RunEmpty(input: Value, context: Context)
    ensures Run(Graph([]), input, context) == Ok(input)
  {
  }

  /**
   * Running `first + second` is running `first`, then running `second` on its
   * output; a failure in `first` is the failure of the whole.
   */
  lemma {:induction false} RunStepsAppend(first: seq<Step>, second: seq<Step>, input: Value, context: Context)
    ensures RunSteps(first + second, input, context) == Continue(RunSteps(first, input, context), second, context)
    decreases first
  {
    if |first| == 0 {
      assert first + second == second;
    } else {
      assert (first + second)[0] == first[0];
      assert (first + second)[1..] == first[1..] + second;
      match RunStep(first[0], input, context)
      case Err(e) =>
      case Ok(w) =>
        RunStepsAppend(first[1..], second, w, context);
    }
  }

  /** Continuing with no steps leaves the outcome as it is. */
  lemma ContinueNothing(outcome: Result<Value, Error>, context: Context)
    ensures Continue(outcome, [], context) == outcome
  {
  }

  /** The graph-level form of `RunStepsAppend`: concatenated graphs run one after the other. */
  lemma RunSequential(g1: Graph, g2: Graph, input: Value, context: Context)
    ensures Run(Graph(g1.executionSteps + g2.executionSteps), input, context) ==
              match Run(g1, input, context)
              case Err(e) => Err(e)
              case Ok(w) => Run(g2, w, context)
  {
    RunStepsAppend(g1.executionSteps, g2.executionSteps, input, context);
  }

  /**
   * The validation gate: when the value reaching a step is rejected by the
   * step's schema, the run fails with an error naming that step and value,
   * whatever the step's body and whatever steps follow it.
   */
  lemma GateStopsRun(before: seq<Step>, step: Step, after: seq<Step>, input: Value, context: Context, reaching: Value)
    requires RunSteps(before, input, context) == Ok(reaching)
    requires !Accepts(step.inputSchema, reaching)
    ensures RunSteps(before + [step] + after, input, context) == Err(InvalidInput(step.name, reaching))
  {
    RunStepsAppend(before + [step], after, input, context);
    RunStepsAppend(before, [step], input, context);
    assert RunSteps([step], reaching, context) == Err(InvalidInput(step.name, reaching));
  }

  /** In a run that succeeds, every step's schema accepted the value that reached it. */
  lemma SuccessPassedEveryGate(steps: seq<Step>, input: Value, context: Context, k: nat)
    requires RunSteps(steps, input, context).Ok?
    requires k < |steps|
    ensures exists reaching :: RunSteps(steps[..k], input, context) == Ok(reaching)
                               && Accepts(steps[k].inputSchema, reaching)
  {
    assert steps == steps[..k] + steps[k..];
    RunStepsAppend(steps[..k], steps[k..], input, context);
    var reaching := RunSteps(steps[..k], input, context).value;
    assert RunSteps(steps[k..], reaching, context).Ok?;
    assert steps[k..][0] == steps[k];
  }

  /** A map step succeeds exactly when its body succeeds on every element. */
  lemma {:induction false} MapAllSucceeds(body: Body, elems: seq<Value>, context: Context)
    ensures MapAll(body, elems, context).Ok? <==>
              forall i :: 0 <= i < |elems| ==> Apply(body, elems[i], context).Ok?
    ensures MapAll(body, elems, context).Ok? ==>
              var results := MapAll(body, elems, context).value;
              |results| == |elems| &&
              forall i :: 0 <= i < |elems| ==> results[i] == Apply(body, elems[i], context).value
    decreases elems
  {
    if |elems| > 0 {
      MapAllSucceeds(body, elems[1..], context);
      assert forall i :: 1 <= i < |elems| ==> elems[1..][i - 1] == elems[i];
    }
  }

  /**
   * When the body fails on element `k` and on no earlier element, the map
   * fails with element `k`'s error (no partial array is produced).
   */
  lemma {:induction false} MapAllFirstFailure(body: Body, elems: seq<Value>, context: Context, k: nat)
    requires k < |elems|
    requires Apply(body, elems[k], context).Err?
    requires forall j :: 0 <= j < k ==> Apply(body, elems[j], context).Ok?
    ensures MapAll(body, elems, context) == Err(Apply(body, elems[k], context).error)
    decreases k
  {
    if k > 0 {
      assert Apply(body, elems[0], context).Ok?;
      assert forall j :: 0 <= j < k - 1 ==> elems[1..][j] == elems[j + 1];
      MapAllFirstFailure(body, elems[1..], context, k - 1);
    }
  }

  /**
   * A map step whose gate passed on an array: the result is an array of the
   * same length whose element `i` is the body's result on input element `i`,
   * and the step fails when the body fails on any element.
   */
  lemma MapStepResult(step: Step, current: Value, context: Context)
    requires step.stepType == Map
    requires Accepts(step.inputSchema, current) && current.Array?
    ensures RunStep(step, current, context).Ok? <==>
              forall i :: 0 <= i < |current.elems| ==> Apply(step.fn, current.elems[i], context).Ok?
    ensures RunStep(step, current, context).Ok? ==>
              var out := RunStep(step, current, context).value;
              out.Array? && |out.elems| == |current.elems| &&
              forall i :: 0 <= i < |current.elems| ==>
                out.elems[i] == Apply(step.fn, current.elems[i], context).value
  {
    MapAllSucceeds(step.fn, current.elems, context);
  }

  /**
   * For a map step whose schema is an array schema (as the builder always
   * stores), a non-array input is stopped by the gate: the separate
   * non-array error is never reached.
   */
  lemma WrappedMapRejectsNonArray(step: Step, current: Value, context: Context)
    requires step.stepType == Map && step.inputSchema.ArrayOf?
    requires !current.Array?
    ensures RunStep(step, current, context) == Err(InvalidInput(step.name, current))
  {
  }

  predicate IsNotAnArray(outcome: Result<Value, Error>)
  {
    outcome.Err? && outcome.error.NotAnArray?
  }

  /**
   * When every map step, at every depth, carries an array schema, no run of
   * the graph ends with the non-array error.
   */
  lemma {:induction false} WellFormedNeverNotAnArray(g: Graph, input: Value, context: Context)
    requires WellFormedGraph(g)
    ensures !IsNotAnArray(Run(g, input, context))
    decreases g, 0
  {
    StepsNeverNotAnArray(g.executionSteps, input, context);
  }

  lemma {:induction false} StepsNeverNotAnArray(steps: seq<Step>, input: Value, context: Context)
    requires WellFormedSteps(steps)
    ensures !IsNotAnArray(RunSteps(steps, input, context))
    decreases steps, 0
  {
    if |steps| > 0 {
      assert WellFormedStep(steps[0]);
      StepNeverNotAnArray(steps[0], input, context);
      match RunStep(steps[0], input, context)
      case Err(e) =>
      case Ok(w) =>
        assert forall i :: 0 <= i < |steps[1..]| ==> steps[1..][i] == steps[i + 1];
        StepsNeverNotAnArray(steps[1..], w, context);
    }
  }

  lemma {:induction false} StepNeverNotAnArray(step: Step, input: Value, context: Context)
    requires WellFormedStep(step)
    ensures !IsNotAnArray(RunStep(step, input, context))
    decreases step, 0
  {
    if Accepts(step.inputSchema, input) {
      if step.stepType == Map {
        MapNeverNotAnArray(step.fn, input.elems, context);
      } else {
        BodyNeverNotAnArray(step.fn, input, context);
      }
    }
  }

  lemma {:induction false} BodyNeverNotAnArray(body: Body, input: Value, context: Context)
    requires WellFormedBody(body)
    ensures !IsNotAnArray(Apply(body, input, context))
    decreases body, 0
  {
    if body.GraphBody? {
      WellFormedNeverNotAnArray(body.graph, input, context);
    }
  }

  lemma {:induction false} MapNeverNotAnArray(body: Body, elems: seq<Value>, context: Context)
    requires WellFormedBody(body)
    ensures MapAll(body, elems, context).Err? ==> !MapAll(body, elems, context).error.NotAnArray?
    decreases body, |elems| + 1
  {
    if |elems| > 0 {
      BodyNeverNotAnArray(body, elems[0], context);
      MapNeverNotAnArray(body, elems[1..], context);
    }
  }

  /**
   * Nesting is transparent: a non-map step whose body is a graph, once its
   * gate passes, gives exactly what running that graph directly gives.
   */
  lemma NestedStepRunsGraph(step: Step, current: Value, context: Context)
    requires step.fn.GraphBody? && step.stepType != Map
    requires Accepts(step.inputSchema, current)
    ensures RunStep(step, current, context) == Run(step.fn.graph, current, context)
  {
  }

  /**
   * Inlining: replacing a non-map step that wraps graph `inner` behind a
   * schema accepting everything by the steps of `inner` changes no run.
   */
  lemma InlineNestedGraph(before: seq<Step>, name: string, inner: Graph, schema: Schema, kind: StepType,
                          after: seq<Step>, input: Value, context: Context)
    requires kind != Map
    requires forall v :: Accepts(schema, v)
    ensures Run(Graph(before + [Step(name, GraphBody(inner), schema, kind)] + after), input, context) ==
              Run(Graph(before + inner.executionSteps + after), input, context)
  {
    var step := Step(name, GraphBody(inner), schema, kind);
    assert before + [step] + after == before + ([step] + after);
    assert before + inner.executionSteps + after == before + (inner.executionSteps + after);
    RunStepsAppend(before, [step] + after, input, context);
    RunStepsAppend(before, inner.executionSteps + after, input, context);
    match RunSteps(before, input, context)
    case Err(e) =>
    case Ok(w) =>
      RunStepsAppend([step], after, w, context);
      RunStepsAppend(inner.executionSteps, after, w, context);
      assert Accepts(schema, w);
      assert RunStep(step, w, context) == Apply(GraphBody(inner), w, context);
      assert Apply(GraphBody(inner), w, context) == Run(inner, w, context);
      assert RunStep(step, w, context) == RunSteps(inner.executionSteps, w, context);
      assert [step][1..] == [];
      ContinueNothing(RunStep(step, w, context), context);
  }

  /** A graph made of one unvalidated step wrapping `inner` runs exactly as `inner`. */
  lemma SingleNestedStep(name: string, inner: Graph, kind: StepType, input: Value, context: Context)
    requires kind != Map
    ensures Run(Graph([Step(name, GraphBody(inner), AnySchema, kind)]), input, context) ==
              Run(inner, input, context)
  {
    InlineNestedGraph([], name, inner, AnySchema, kind, [], input, context);
    assert [] + [Step(name, GraphBody(inner), AnySchema, kind)] + [] == [Step(name, GraphBody(inner), AnySchema, kind)];
    assert [] + inner.executionSteps + [] == inner.executionSteps;
  }

  /** `task` and `effect` steps are dispatched identically: retagging one as the other changes no run. */
  lemma TaskEffectAlike(steps: seq<Step>, k: nat, kind: StepType, input: Value, context: Context)
    requires k < |steps|
    requires steps[k].stepType != Map && kind != Map
    ensures RunSteps(steps[k := steps[k].(stepType := kind)], input, context) == RunSteps(steps, input, context)
  {
    var retagged := steps[k := steps[k].(stepType := kind)];
    assert steps == steps[..k] + ([steps[k]] + steps[k + 1..]);
    assert retagged == steps[..k] + ([retagged[k]] + steps[k + 1..]);
    RunStepsAppend(steps[..k], [steps[k]] + steps[k + 1..], input, context);
    RunStepsAppend(steps[..k], [retagged[k]] + steps[k + 1..], input, context);
    match RunSteps(steps[..k], input, context)
    case Err(e) =>
    case Ok(w) =>
      RunStepsAppend([steps[k]], steps[k + 1..], w, context);
      RunStepsAppend([retagged[k]], steps[k + 1..], w, context);
      assert RunStep(retagged[k], w, context) == RunStep(steps[k], w, context);
  }

  /*
   * The context reaches every body unchanged. `Bound(g, c)` is `g` with each
   * step function replaced by one that ignores the options it is given and
   * uses `{ context: c }` instead; running `g` with context `c` is the same as
   * running `Bound(g, c)` with any context at all. So the engine hands every
   * step function, at every depth and for every map element, exactly
   * `{ context: c }`, and every nested runner exactly `c`.
   */

  function Bound(g: Graph, context: Context): Graph
    decreases g
  {
    Graph(BoundSteps(g.executionSteps, context))
  }

  function BoundSteps(steps: seq<Step>, context: Context): seq<Step>
    decreases steps
  {
    if |steps| == 0 then [] else [BoundStep(steps[0], context)] + BoundSteps(steps[1..], context)
  }

  function BoundStep(step: Step, context: Context): Step
    decreases step
  {
    step.(fn := BoundBody(step.fn, context))
  }

  function BoundBody(body: Body, context: Context): Body
    decreases body
  {
    match body
    case CallbackBody(f) => CallbackBody((v: Value, o: Options) => f(v, Options(context)))
    case GraphBody(g) => GraphBody(Bound(g, context))
  }

  lemma {:induction false} ContextPassedThrough(g: Graph, input: Value, context: Context, other: Context)
    ensures Run(g, input, context) == Run(Bound(g, context), input, other)
    decreases g, 0
  {
    StepsContextPassedThrough(g.executionSteps, input, context, other);
  }

  lemma {:induction false} StepsContextPassedThrough(steps: seq<Step>, input: Value, context: Context, other: Context)
    ensures RunSteps(steps, input, context) == RunSteps(BoundSteps(steps, context), input, other)
    decreases steps, 0
  {
    if |steps| > 0 {
      var bound := BoundSteps(steps, context);
      assert bound[0] == BoundStep(steps[0], context);
      assert bound[1..] == BoundSteps(steps[1..], context);
      StepContextPassedThrough(steps[0], input, context, other);
      match RunStep(steps[0], input, context)
      case Err(e) =>
      case Ok(w) =>
        StepsContextPassedThrough(steps[1..], w, context, other);
    }
  }

  lemma {:induction false} StepContextPassedThrough(step: Step, input: Value, context: Context, other: Context)
    ensures RunStep(step, input, context) == RunStep(BoundStep(step, context), input, other)
    decreases step, 0
  {
    if Accepts(step.inputSchema, input) {
      if step.stepType == Map {
        if input.Array? {
          MapContextPassedThrough(step.fn, input.elems, context, other);
        }
      } else {
        BodyContextPassedThrough(step.fn, input, context, other);
      }
    }
  }

  lemma {:induction false} BodyContextPassedThrough(body: Body, input: Value, context: Context, other: Context)
    ensures Apply(body, input, context) == Apply(BoundBody(body, context), input, other)
    decreases body, 0
  {
    match body
    case CallbackBody(f) =>
    case GraphBody(g) =>
      ContextPassedThrough(g, input, context, other);
  }

  lemma {:induction false} MapContextPassedThrough(body: Body, elems: seq<Value>, context: Context, other: Context)
    ensures MapAll(body, elems, context) == MapAll(BoundBody(body, context), elems, other)
    decreases body, |elems| + 1
  {
    if |elems| > 0 {
      BodyContextPassedThrough(body, elems[0], context, other);
      MapContextPassedThrough(body, elems[1..], context, other);
    }
  }
}
