/**
 * The pipeline builder returned by `createTwine()`: an accumulator of
 * execution steps with the chainable `task`, `effect` and `map` calls and `build`.
 */
module Builder {
  import opened Results
  import opened Values
  import opened Graphs

  /**
   * The `fn` argument as the builder sees it at run time. `null` and
   * `undefined` have no properties to read. Any other value may or may not
   * have an `executionSteps` property (taken here to be a step list when
   * present) and may or may not be a function (typeof "function").
   */
  datatype Candidate =
    | Nullish
    | Defined(executionSteps: Option<seq<Step>>, callable: Option<FunctionCallback>)

  /** Errors thrown while registering a step. */
  datatype BuildError =
    | PropertyReadOnNullish  // reading `executionSteps` of null or undefined throws a TypeError
    | InvalidStepBody        // "Invalid function or graph passed to addExecutionStep"

  /** `isGraph(fn)`: whether `fn.executionSteps !== undefined`; throws on null or undefined. */
  function IsGraph(fn: Candidate): Result<bool, BuildError>
  {
    match fn
    case Nullish => Err(PropertyReadOnNullish)
    case Defined(steps, _) => Ok(steps.Some?)
  }

  /** `isFunctionCallback(fn)`: whether `typeof fn === "function"`. */
  function IsFunctionCallback(fn: Candidate): bool
  {
    fn.Defined? && fn.callable.Some?
  }

  /**
   * `createExecutionStep(fn, name, inputSchema, type)`: classify the body
   * (a graph first, then a function, otherwise throw) and build the record.
   */
  function CreateExecutionStep(fn: Candidate, name: string, inputSchema: Schema, stepType: StepType): (r: Result<Step, BuildError>)
    ensures fn.Nullish? ==> r == Err(PropertyReadOnNullish)
    ensures fn.Defined? ==> (r.Ok? <==> fn.executionSteps.Some? || fn.callable.Some?)
    ensures r.Err? && fn.Defined? ==> r.error == InvalidStepBody
    ensures r.Ok? ==> r.value.name == name && r.value.inputSchema == inputSchema && r.value.stepType == stepType
    ensures r.Ok? && fn.executionSteps.Some? ==> r.value.fn == GraphBody(Graph(fn.executionSteps.value))
    ensures r.Ok? && fn.executionSteps.None? ==> r.value.fn == CallbackBody(fn.callable.value)
  {
    match IsGraph(fn)
    case Err(e) => Err(e)
    case Ok(isGraph) =>
      if isGraph then Ok(Step(name, GraphBody(Graph(fn.executionSteps.value)), inputSchema, stepType))
      else if IsFunctionCallback(fn) then Ok(Step(name, CallbackBody(fn.callable.value), inputSchema, stepType))
      else Err(InvalidStepBody)
  }

  /** The builder object; `executionSteps` is the closure-held `graph.executionSteps` array. */
  class Twine {
    var executionSteps: seq<Step>

    /** Every map step stored so far validates its input with an array schema. */
    ghost predicate Valid()
      reads this
    {
      MapSchemasWrapped(executionSteps)
    }

    /** `createTwine()`: a builder with no steps. */
    constructor ()
      ensures Valid() && executionSteps == []
    {
      executionSteps := [];
    }

    /**
     * `addExecutionStep`: push the record `createExecutionStep` builds; when
     * that throws, nothing is pushed.
     */
    method AddExecutionStep(name: string, fn: Candidate, inputSchema: Schema, stepType: StepType)
      returns (r: Result<(), BuildError>)
      requires Valid()
      requires stepType == StepType.Map ==> inputSchema.ArrayOf?
      modifies this
      ensures Valid()
      ensures match CreateExecutionStep(fn, name, inputSchema, stepType)
              case Ok(step) => r == Ok(()) && executionSteps == old(executionSteps) + [step]
              case Err(e) => r == Err(e) && executionSteps == old(executionSteps)
    {
      var created := CreateExecutionStep(fn, name, inputSchema, stepType);
      match created
      case Err(e) =>
        r := Err(e);
      case Ok(step) =>
        executionSteps := executionSteps + [step];
        r := Ok(());
    }

    /** `task(name, inputSchema, fn)`: append one task step and return this builder. */
    method Task(name: string, inputSchema: Schema, fn: Candidate) returns (r: Result<Twine, BuildError>)
      requires Valid()
      modifies this
      ensures Valid()
      ensures match CreateExecutionStep(fn, name, inputSchema, StepType.Task)
              case Ok(step) => r == Ok(this) && executionSteps == old(executionSteps) + [step]
              case Err(e) => r == Err(e) && executionSteps == old(executionSteps)
    {
      var added := AddExecutionStep(name, fn, inputSchema, StepType.Task);
      r := if added.Ok? then Ok(this) else Err(added.error);
    }

    /** `effect(name, inputSchema, fn)`: append one effect step and return this builder. */
    method Effect(name: string, inputSchema: Schema, fn: Candidate) returns (r: Result<Twine, BuildError>)
      requires Valid()
      modifies this
      ensures Valid()
      ensures match CreateExecutionStep(fn, name, inputSchema, StepType.Effect)
              case Ok(step) => r == Ok(this) && executionSteps == old(executionSteps) + [step]
              case Err(e) => r == Err(e) && executionSteps == old(executionSteps)
    {
      var added := AddExecutionStep(name, fn, inputSchema, StepType.Effect);
      r := if added.Ok? then Ok(this) else Err(added.error);
    }

    /**
     * `map(name, inputSchema, fn)`: append one map step whose stored schema is
     * `z.array(inputSchema)`, and return this builder.
     */
    method Map(name: string, inputSchema: Schema, fn: Candidate) returns (r: Result<Twine, BuildError>)
      requires Valid()
      modifies this
      ensures Valid()
      ensures match CreateExecutionStep(fn, name, ArrayOf(inputSchema), StepType.Map)
              case Ok(step) => r == Ok(this) && executionSteps == old(executionSteps) + [step]
              case Err(e) => r == Err(e) && executionSteps == old(executionSteps)
      ensures r.Ok? ==> executionSteps[|executionSteps| - 1].inputSchema == ArrayOf(inputSchema)
    {
      var schema := ArrayOf(inputSchema);
      var added := AddExecutionStep(name, fn, schema, StepType.Map);
      r := if added.Ok? then Ok(this) else Err(added.error);
    }

    /**
     * `build()`: the graph of the steps added so far. When every nested graph
     * among them is well formed, so is the built graph.
     */
    method Build() returns (g: Graph)
      requires Valid()
      ensures g.executionSteps == executionSteps
      ensures (forall i :: 0 <= i < |executionSteps| ==> WellFormedBody(executionSteps[i].fn)) ==> WellFormedGraph(g)
    {
      g := Graph(executionSteps);
    }
  }
}
