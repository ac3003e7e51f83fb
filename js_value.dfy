/** The JavaScript values the core inspects: what `JSON.parse` produces, plus
    `undefined` (an absent property) and the non-finite numbers. */
module JsValue {
  import opened JsNumber

  datatype Value =
    | Undefined
    | Null
    | Bool(b: bool)
    | Num(n: Number)
    | Str(s: string)
    | Arr(items: seq<Value>)
    | Obj(props: map<string, Value>)

  /** Property access `v[key]`: `undefined` when `v` is not an object or lacks the key. */
  function Get(v: Value, key: string): (r: Value)
    ensures !v.Obj? ==> r == Undefined
    ensures v.Obj? && key in v.props ==> r == v.props[key]
  {
    if v.Obj? && key in v.props then v.props[key] else Undefined
  }

  /** JavaScript truthiness: `undefined`, `null`, `false`, 0, NaN and `""` are falsy. */
  predicate Truthy(v: Value) {
    match v
    case Undefined => false
    case Null => false
    case Bool(b) => b
    case Num(n) => !(n == NaN || n == Finite(0.0))
    case Str(s) => s != []
    case Arr(_) => true
    case Obj(_) => true
  }

  /** The name of a value's type as the validation library reports it in messages. */
  function TypeName(v: Value): string {
    match v
    case Undefined => "undefined"
    case Null => "null"
    case Bool(_) => "boolean"
    case Num(n) => if n == NaN then "NaN" else "number"
    case Str(_) => "string"
    case Arr(_) => "array"
    case Obj(_) => "object"
  }
}
