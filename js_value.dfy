/**
 * JavaScript values as they arrive in a socket.io payload or a parsed
 * request body, with JavaScript's notion of truthiness and property access.
 * Numbers are integers here: NaN and fractions are not modelled.
 */
module JsValue {
  import opened Wrappers

  datatype Value =
    | Undefined
    | Null
    | Bool(b: bool)
    | Num(n: int)
    | Str(s: string)
    | Arr(items: seq<Value>)
    | Obj(fields: map<string, Value>)

  /** `!!v` in JavaScript: everything is truthy except undefined, null, false, 0 and "". */
  predicate Truthy(v: Value) {
    match v
    case Undefined => false
    case Null => false
    case Bool(b) => b
    case Num(n) => n != 0
    case Str(s) => s != []
    case Arr(_) => true
    case Obj(_) => true
  }

  /**
   * Reading own property `key` of `v`, as `const { key } = v` does for a
   * key that no prototype defines (such as `name`): None when the access
   * throws a TypeError (v is null or undefined), otherwise the property's
   * value, which is undefined when `v` has no such own property.
   */
  function Property(v: Value, key: string): (r: Option<Value>)
    ensures r.None? <==> v.Undefined? || v.Null?
    ensures r.Some? && r.value != Undefined ==> v.Obj? && key in v.fields && v.fields[key] == r.value
    ensures v.Obj? && key in v.fields ==> r == Some(v.fields[key])
  {
    match v
    case Undefined => None
    case Null => None
    case Obj(fields) => Some(if key in fields then fields[key] else Undefined)
    case _ => Some(Undefined)
  }
}
