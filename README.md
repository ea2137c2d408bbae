# twine-core in Dafny

A model of `twine-core`, a small TypeScript library for building linear
data-processing pipelines ("graphs") out of named, schema-validated steps and
running them. It has two parts:

- **The builder** (`createTwine`): an object that holds one list of execution
  steps. `task`, `effect` and `map` each append one step record and return the
  same builder. `build` returns the graph. Before storing a step,
  `createExecutionStep` decides whether its body is a nested graph (its
  `executionSteps` property is not `undefined`) or a step function
  (`typeof fn === "function"`),
  checking in that order, and throws otherwise. A `map` step stores
  `z.array(schema)` instead of the element schema it was given.
- **The engine** (`bootstrap(graph)` returns `run`): a loop over the steps that
  threads one current value through them. Before each step runs, its schema
  must accept the current value; otherwise the run fails with an error naming
  the step. A `map` step requires an array and applies its body to every
  element, keeping results in input order. Any other step calls its function
  with `{ context }`, or runs its nested graph with the bare context.

## Files

- `results.dfy` (`Results`): `Result` (value or thrown error) and `Option` (property present or `undefined`).
- `values.dfy` (`Values`): runtime values (arrays, and a distinct stand-in for every other value), schemas as a
  datatype (`Check` wraps a caller-supplied acceptance test; `ArrayOf` is `z.array`),
  `Accepts` (what `safeParse(v).success` answers), the context, and the `{ context }` options record.
- `graph.dfy` (`Graphs`): step records, bodies, graphs, and the well-formedness
  predicates saying that map steps carry array schemas.
- `builder.dfy` (`Builder`): `isGraph`, `isFunctionCallback`, `createExecutionStep`,
  and the builder as the class `Twine`, whose field `executionSteps` is the list
  the source mutates with `push`.
- `engine.dfy` (`Engine`): the run as recursive functions (`Run`, `RunSteps`,
  `RunStep`, `Apply`, `MapAll`). This is the specification the loop is proved against.
- `engine_properties.dfy` (`EngineProperties`): what a run guarantees.
- `runner.dfy` (`Runner`): the runner as the source writes it. A `for` loop
  reassigns `currentData`, a map step loops over the elements, and a nested graph
  is run by a recursive call. Each method is proved equal to its `Engine` function.

Modelling choices:
- Awaiting is a plain call.
- `Promise.all` is a left-to-right pass. When several elements fail, the error of the lowest failing index is reported.
- A step function is a total function from a value and `{ context }` to a result or a thrown message.
- The context is a value the engine passes along and never changes.
- The default context `{}` is the constant `Values.EmptyContext`, which callers pass explicitly.

Where the design description and the code differ, the model follows the code:
- The non-array error of a map step does not carry the step's name.
- Registering `null` or `undefined` as a body throws a `TypeError` from reading `executionSteps`. It does not throw the library's "invalid function or graph" error. This is `PropertyReadOnNullish`.
- `task` and `effect` accept a nested graph as well as a function. Their TypeScript signatures say only "function", but the runtime check accepts both.

## Model

| member | source | states |
|---|---|---|
| Values.Accepts | packages/twine-core/src/index.ts:107 | definition, no contract: whether `schema.safeParse(v).success` (the gate at line 126); its `ArrayOf` case is the `z.array(s)` built at line 107, accepting exactly the arrays whose every element `s` accepts. Its property is EngineProperties.WrappedMapRejectsNonArray |
| Builder.IsGraph | packages/twine-core/src/index.ts:35-37 | definition, no contract: `fn.executionSteps !== undefined`, throwing on null or undefined; its properties are stated by Builder.CreateExecutionStep |
| Builder.IsFunctionCallback | packages/twine-core/src/index.ts:28-32 | definition, no contract: `typeof fn === "function"`; its properties are stated by Builder.CreateExecutionStep |
| Builder.CreateExecutionStep | packages/twine-core/src/index.ts:28-67 | null/undefined throws on the property read. A body with `executionSteps` becomes a nested graph even if it is also callable. Otherwise a function becomes a callback. Anything else throws the invalid-body error. The stored name, schema and type equal the arguments |
| Builder.Twine.constructor | packages/twine-core/src/index.ts:69-72 | a new builder has no steps and satisfies the builder invariant |
| Builder.Twine.AddExecutionStep | packages/twine-core/src/index.ts:74-81 | on success exactly the created record is appended at the end, earlier steps unchanged; when creation throws, the step list is unchanged and the error is returned |
| Builder.Twine.Task | packages/twine-core/src/index.ts:84-91 | appends exactly one `task` record and returns the same builder, or throws and changes nothing; keeps the invariant that map steps carry array schemas |
| Builder.Twine.Effect | packages/twine-core/src/index.ts:93-100 | appends exactly one `effect` record and returns the same builder, or throws and changes nothing; keeps the builder invariant |
| Builder.Twine.Map | packages/twine-core/src/index.ts:102-110 | appends exactly one `map` record whose schema is `z.array(inputSchema)` and returns the same builder, or throws and changes nothing; keeps the builder invariant |
| Builder.Twine.Build | packages/twine-core/src/index.ts:112-114 | the built graph holds the builder's steps in order; it is well formed (every map step at every depth has an array schema) when the nested graphs in it are |
| Engine.Run | packages/twine-core/src/index.ts:118-164 | definition, no contract: the runner `bootstrap(graph)` applied to an input and a context; Runner.Run is proved equal to it, and its properties are EngineProperties.RunEmpty, RunSequential and ContextPassedThrough |
| Engine.RunSteps | packages/twine-core/src/index.ts:123-163 | definition, no contract: the `for` loop threading the current value through the steps; its properties are EngineProperties.RunStepsAppend, GateStopsRun, SuccessPassedEveryGate and TaskEffectAlike |
| Engine.RunStep | packages/twine-core/src/index.ts:126-160 | definition, no contract: one loop iteration, the validation gate and then dispatch on the step type; its properties are EngineProperties.MapStepResult, WrappedMapRejectsNonArray and NestedStepRunsGraph |
| Engine.Apply | packages/twine-core/src/index.ts:152-159 | definition, no contract: invoking a body, a step function with `{ context }` or a nested graph's runner with the bare context; Runner.Invoke is proved equal to it, and its property is EngineProperties.BodyContextPassedThrough |
| Engine.MapAll | packages/twine-core/src/index.ts:139-150 | definition, no contract: `Promise.all` over the elements, modelled left to right; Runner.MapElements is proved equal to it, and its properties are EngineProperties.MapAllSucceeds and MapAllFirstFailure |
| EngineProperties.RunEmpty | packages/twine-core/src/index.ts:123-163 | a graph with no steps returns its initial input |
| EngineProperties.ContinueNothing | packages/twine-core/src/index.ts:161-163 | after the last step the current outcome is the result |
| EngineProperties.RunStepsAppend | packages/twine-core/src/index.ts:123-163 | running `first + second` equals running `second` on the output of `first`; a failure in `first` is the failure of the whole |
| EngineProperties.RunSequential | packages/twine-core/src/index.ts:123-163 | the same composition stated for two graphs whose steps are concatenated |
| EngineProperties.GateStopsRun | packages/twine-core/src/index.ts:126-130 | if a step's schema rejects the value reaching it, the run fails with an error naming that step and value. The result does not depend on the step's body or on any later step |
| EngineProperties.SuccessPassedEveryGate | packages/twine-core/src/index.ts:125-130 | in a successful run, every step's schema accepted the value that reached it |
| EngineProperties.MapAllSucceeds | packages/twine-core/src/index.ts:139-150 | the element-wise map succeeds exactly when the body succeeds on every element; its output has the input's length and element `i` is the body's result on input element `i` |
| EngineProperties.MapAllFirstFailure | packages/twine-core/src/index.ts:141-149 | if element `k` is the first element on which the body fails, the map fails with that element's error and no partial array is returned |
| EngineProperties.MapStepResult | packages/twine-core/src/index.ts:132-150 | a map step whose gate passed on an array succeeds exactly when every element succeeds. The result is then an array of the same length whose element `i` is the body's result on input element `i` |
| EngineProperties.WrappedMapRejectsNonArray | packages/twine-core/src/index.ts:126-137 | for a map step with an array schema (as `map` stores it), a non-array input fails at the gate with the step-naming error, so the non-array branch is never taken |
| EngineProperties.WellFormedNeverNotAnArray | packages/twine-core/src/index.ts:132-137 | if every map step at every depth has an array schema, no run of the graph ends with the non-array error |
| EngineProperties.StepsNeverNotAnArray | packages/twine-core/src/index.ts:125-161 | the same for a list of well-formed steps |
| EngineProperties.StepNeverNotAnArray | packages/twine-core/src/index.ts:126-160 | the same for one well-formed step |
| EngineProperties.BodyNeverNotAnArray | packages/twine-core/src/index.ts:152-159 | the same for invoking a well-formed body |
| EngineProperties.MapNeverNotAnArray | packages/twine-core/src/index.ts:139-150 | the same for the element-wise map over a well-formed body |
| EngineProperties.NestedStepRunsGraph | packages/twine-core/src/index.ts:152-154 | a non-map step with a graph body whose gate passes gives exactly what running that graph directly on the same value and context gives |
| EngineProperties.InlineNestedGraph | packages/twine-core/src/index.ts:152-154 | replacing a non-map, accept-everything step that wraps a graph by that graph's own steps, in any surrounding pipeline, changes no run |
| EngineProperties.SingleNestedStep | packages/twine-core/src/index.ts:152-154 | a graph consisting of one `z.any()` step wrapping `inner` runs exactly as `inner` |
| EngineProperties.TaskEffectAlike | packages/twine-core/src/index.ts:132 | changing any non-map step's type to another non-map type (task to effect or back) changes no run |
| EngineProperties.ContextPassedThrough | packages/twine-core/src/index.ts:139-158 | running with context `c` equals running, under any other context, the graph in which every step function has `{ context: c }` fixed as its options. So at every depth and for every map element, each step function receives exactly `{ context: c }` and each nested runner receives `c` |
| EngineProperties.StepsContextPassedThrough | packages/twine-core/src/index.ts:125-161 | the same for a list of steps |
| EngineProperties.StepContextPassedThrough | packages/twine-core/src/index.ts:132-160 | the same for one step |
| EngineProperties.BodyContextPassedThrough | packages/twine-core/src/index.ts:152-158 | the same for invoking one body: a step function gets `{ context }`, a nested graph the bare context |
| EngineProperties.MapContextPassedThrough | packages/twine-core/src/index.ts:139-149 | the same for every element of a map step |
| Runner.Run | packages/twine-core/src/index.ts:118-164 | the `for` loop that reassigns `currentData` returns exactly `Engine.Run(graph, input, context)` |
| Runner.Invoke | packages/twine-core/src/index.ts:152-159 | calling the step function with `{ context }` or running the nested graph returns exactly `Engine.Apply` on that body |
| Runner.MapElements | packages/twine-core/src/index.ts:139-150 | the loop over the elements returns exactly `Engine.MapAll`: all results in input order, or the first element's failure |
| Runner.RunOneMore | packages/twine-core/src/index.ts:125-160 | one more loop iteration extends the run of the step prefix by exactly that step |
| Runner.FailureIsFinal | packages/twine-core/src/index.ts:126-160 | once a prefix of the steps has failed, the whole run fails with that error (the loop exits by throwing) |

## Left out

- Asynchrony: `await` is a plain call and `Promise.all` a sequential pass. Which rejection wins in `Promise.all` depends on timing; the model reports the lowest failing index. One case is not timing: a step function called by `currentData.map(...)` (lines 145-149) that throws synchronously on element `k` stops the map at once. Later elements never start, and the run rejects with `k`'s error even when an earlier element's promise rejects. For example, if element 0 returns a rejected promise "a" and element 1 throws "b" synchronously, the source rejects with "b" while the model reports "a". It also does not capture that concurrently started elements keep running after one fails.
- Context mutation: in the library, step bodies may write to the shared context, and later steps and map siblings see those writes. Here a step function is a pure function of its inputs, so writes, visibility and races are not modelled. The model only shows that the engine itself hands every body the one context, unchanged.
- Zod: `safeParse` is an arbitrary acceptance test (`Values.Check`). `z.array` is `Values.ArrayOf`. Zod's parsed output, coercion and error objects are not modelled. The engine ignores the parsed output.
- Error messages: errors keep the step's name and the offending value, not the rendered message text.
- Rendering the offending value: the messages at lines 128 and 135 interpolate it into a template string. For a Symbol, or an object without a usable `toString` (such as a null-prototype object), that interpolation throws a `TypeError` in place of the library's error. The model always produces the library's error.
- Object identity and mutation of values: `Other(id)` tells any two non-array values apart, but values are immutable here. The model does not capture a step function mutating its input object or array in place, or two steps sharing one object by reference.
- `build()` returns the builder's live graph object. So steps added after `build` appear in graphs built earlier, and a graph can be made to contain itself, which makes runs that never end. A graph here is an immutable snapshot, and nesting is finite.
- Hand-written graph objects: the engine can be given any object with an `executionSteps` array. Its steps may have a `fn` that is neither a function nor a graph, or an `executionSteps` property that is not an array. The `Body` and `Candidate` types admit only step lists and functions, so the `TypeError`s such objects raise at run time are not modelled.
- Detached builder methods: `task`, `effect` and `map` return `this`. Calling one detached from the builder is not modelled.
- The TypeScript generic parameters `I` and `O` are erased; all values have type `Value`.
- `packages/twine-core/examples/basic.ts` (an HTTP fetch and console output that exercise the API) and `packages/eslint-config-twine/index.js` (lint configuration) are not part of this model.
