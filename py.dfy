/** Python values as the plugin reads them: attributes of test contexts and of the
    framework's settings object, and the usual Option/Result wrappers. */
module Py {

  /** A Python value, as far as the plugin inspects it. */
  datatype Value = NoneValue | Bool(b: bool) | Int(i: int) | Str(s: string) | List(items: seq<Value>)

  datatype Option<+T> = None | Some(value: T)

  /** Ok, or the Python exception that would have been raised. */
  datatype Result<+T> = Ok(value: T) | Err(error: string)

  /** The attributes of an object (a test context, the settings module). */
  type Attrs = map<string, Value>

  /** Python truthiness. */
  predicate Truthy(v: Value)
  {
    match v
    case NoneValue => false
    case Bool(b) => b
    case Int(i) => i != 0
    case Str(s) => s != []
    case List(items) => items != []
  }

  /** `getattr(obj, name, default)` */
  function GetAttr(a: Attrs, name: string, default: Value): Value
  {
    if name in a then a[name] else default
  }

  /** The framework's settings object, which several plugins update in place. */
  class Settings {
    var attrs: Attrs

    constructor (attrs: Attrs)
      ensures this.attrs == attrs
    {
      this.attrs := attrs;
    }
  }
}
