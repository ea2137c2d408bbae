/**
 * Execution steps and graphs: what the builder accumulates and the engine walks.
 *
 * A `Graph` here is an immutable snapshot. In the library, `build()` hands out
 * the builder's live object, so steps added afterwards show up in graphs built
 * earlier, and a graph can even be made to contain itself; neither aliasing nor
 * such cycles can be expressed by this inductive datatype.
 */
module Graphs {
  import opened Results
  import opened Values

  /**
   * A step function `(input, { context }) => output`. A thrown exception (or a
   * rejected promise) is the `Err` outcome, carrying the exception's message.
   */
  type FunctionCallback = (Value, Options) -> Result<Value, string>

  /** The `type` tag of a step. */
  datatype StepType = Task | Effect | Map

  /** What a step runs: a step function, or a nested graph. */
  datatype Body = CallbackBody(callback: FunctionCallback) | GraphBody(graph: Graph)

  /** One execution step record `{ fn, name, inputSchema, type }`. */
  datatype Step = Step(name: string, fn: Body, inputSchema: Schema, stepType: StepType)

  /** A graph `{ executionSteps }`: the ordered list of steps. */
  datatype Graph = Graph(executionSteps: seq<Step>)

  /** Every map step of `steps` (at top level) validates its input with an array schema. */
  ghost predicate MapSchemasWrapped(steps: seq<Step>)
  {
    forall i :: 0 <= i < |steps| && steps[i].stepType == Map ==> steps[i].inputSchema.ArrayOf?
  }

  /** Every map step, at every depth of nesting, validates its input with an array schema. */
  ghost predicate WellFormedGraph(g: Graph)
    decreases g
  {
    WellFormedSteps(g.executionSteps)
  }

  ghost predicate WellFormedSteps(steps: seq<Step>)
    decreases steps
  {
    forall i :: 0 <= i < |steps| ==> WellFormedStep(steps[i])
  }

  ghost predicate WellFormedStep(step: Step)
    decreases step
  {
    (step.stepType == Map ==> step.inputSchema.ArrayOf?) && WellFormedBody(step.fn)
  }

  ghost predicate WellFormedBody(body: Body)
    decreases body
  {
    body.GraphBody? ==> WellFormedGraph(body.graph)
  }
}
