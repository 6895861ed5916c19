/**
 * The JavaScript values the runner of util/run.js looks at, and the Option type
 * used for "a value or `undefined`" throughout the model.
 */
module JsValues {

  /** A value, or JavaScript's `undefined`. */
  datatype Option<+T> = None | Some(value: T)

  /**
   * A JavaScript value, distinguished only as far as the runner distinguishes
   * values: strings (`typeof v === 'string'`), arrays (`Array.isArray(v)`), the
   * `Error` objects the runner builds itself, and every other value (numbers,
   * `undefined`, plain objects, exceptions thrown by callers, process errors),
   * told apart from one another by an opaque tag.
   */
  datatype Value =
    | Str(s: string)
    | Arr(items: seq<Value>)
    | ErrorObj(message: string)
    | Other(tag: nat)
}
