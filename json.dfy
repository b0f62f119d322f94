/**
 * The dynamic payload a callable cloud function receives: a JavaScript value as
 * decoded from the request's JSON, plus `undefined`, which is what reading a
 * missing property yields.
 */
module Json {

  datatype Value =
    | Undefined
    | Null
    | Bool(b: bool)
    | Number(n: real)
    | Str(s: string)
    | Array(items: seq<Value>)
    | Object(fields: map<string, Value>)

  /** `null` and `undefined`: the values on which reading a property throws a TypeError. */
  predicate Nullish(v: Value) {
    v.Undefined? || v.Null?
  }

  /** JavaScript truthiness (NaN is not representable here). */
  predicate Truthy(v: Value) {
    match v
    case Undefined => false
    case Null => false
    case Bool(b) => b
    case Number(n) => n != 0.0
    case Str(s) => s != ""
    case Array(_) => true
    case Object(_) => true
  }

  /**
   * Property access `v.key` on a value that is not null or undefined. Only objects
   * have own properties in this model; the built-in properties of strings and arrays
   * (such as `length`) are never read by the handlers.
   */
  function Member(v: Value, key: string): Value
    requires !Nullish(v)
  {
    if v.Object? && key in v.fields then v.fields[key] else Undefined
  }
}
