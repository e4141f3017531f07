/**
 * The loosely typed values that provider SDKs hand back for durations and view
 * counts: absent, null, a number, a string, or an object. Of an object only the two
 * fields the formatters read are kept.
 */
module JsValue {
  import opened Wrappers

  datatype Value =
    | Undefined
    | Null
    | Num(n: int)
    | Str(s: string)
      /** An object; `timestamp` and `seconds` are its fields of those names. */
    | Record(timestamp: Option<string>, seconds: Option<int>)

  /** JavaScript truthiness: undefined, null, 0 and "" are falsy; every object is truthy. */
  predicate Truthy(v: Value)
  {
    match v
    case Undefined => false
    case Null => false
    case Num(n) => n != 0
    case Str(s) => s != ""
    case Record(_, _) => true
  }
}
