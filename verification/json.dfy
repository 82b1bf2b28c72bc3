/**
 JavaScript values as they flow through the handlers: request bodies, query
 parameters, parsed JSON and thrown errors.
 */
module Json {
  import opened Wrappers

  /** A JavaScript value. Numbers are modelled as integers. */
  datatype Value =
    | Undefined
    | Null
    | Bool(b: bool)
    | Num(n: int)
    | Str(s: string)
    | Arr(items: seq<Value>)
    | Obj(fields: map<string, Value>)

  /** JavaScript truthiness: `undefined`, `null`, `false`, `0` and `""` are falsy. */
  predicate Truthy(v: Value) {
    match v
    case Undefined => false
    case Null => false
    case Bool(b) => b
    case Num(n) => n != 0
    case Str(s) => s != ""
    case Arr(_) => true
    case Obj(_) => true
  }

  predicate Nullish(v: Value) {
    v.Undefined? || v.Null?
  }

  /** `v[key]` on a value that is not null or undefined: an own field of an
      object, `undefined` for anything else. */
  function Get(v: Value, key: string): (r: Value)
    ensures r != Undefined ==> v.Obj? && key in v.fields && v.fields[key] == r
  {
    if v.Obj? && key in v.fields then v.fields[key] else Undefined
  }

  /** The message V8 gives the TypeError raised by reading a property of null or undefined. */
  function ReadErrorMessage(v: Value, key: string): string
    requires Nullish(v)
  {
    "Cannot read properties of " + (if v.Null? then "null" else "undefined") + " (reading '" + key + "')"
  }


  /** The object `new Error(message)`, seen through its `message` property. */
  function ErrorObject(message: string): (e: Value)
    ensures Get(e, "message") == Str(message)
  {
    Obj(map["message" := Str(message)])
  }

  /** A truthiness-guarded copy: `if (x) target = x`. */
  function IfTruthy(v: Value): (r: Option<Value>)
    ensures r.Some? <==> Truthy(v)
    ensures r.Some? ==> r.value == v
  {
    if Truthy(v) then Some(v) else None
  }
}
