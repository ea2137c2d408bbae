/**
 * The data that flows through a pipeline, the validation schemas that gate
 * each step, and the shared context handed to every step body.
 */
module Values {

  /**
   * A runtime value: an array (`Array.isArray` holds) with its elements, or
   * any other value. `Other(id)` stands for one particular non-array value
   * (a number, a string, an object, ...); distinct values have distinct ids,
   * so schemas and step functions, which see the whole value, can tell any
   * two of them apart.
   */
  datatype Value = Array(elems: seq<Value>) | Other(id: nat)

  /**
   * An input schema. `Check` is an arbitrary schema supplied by the caller,
   * known only through whether it accepts a value (`safeParse(v).success`);
   * `ArrayOf(s)` is the schema `z.array(s)` built from an element schema.
   */
  datatype Schema = Check(test: Value -> bool) | ArrayOf(element: Schema)

  /** Whether `schema.safeParse(v)` succeeds. */
  predicate Accepts(schema: Schema, v: Value)
    decreases schema
  {
    match schema
    case Check(test) => test(v)
    case ArrayOf(element) =>
      v.Array? && forall i :: 0 <= i < |v.elems| ==> Accepts(element, v.elems[i])
  }

  /** The schema `z.any()`, which accepts every value. */
  const AnySchema: Schema := Check(v => true)

  /** The shared context: a record of string keys, passed by reference to every body. */
  datatype Context = Context(entries: map<string, Value>)

  /** The default context `{}` used when a run is started without one. */
  const EmptyContext: Context := Context(map[])

  /** The second argument a step function receives: `{ context }`. */
  datatype Options = Options(context: Context)
}
