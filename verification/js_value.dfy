/** The slice of JavaScript's value model that the library's entry points
    observe in their arguments: the `typeof` operator, own-property lookup
    and truthiness (`!!v`). */
module JsValues {

  /** A JavaScript value as a caller can pass it. Numbers are restricted to
      integers; an object is its own enumerable properties. */
  datatype JsValue =
    | Undefined
    | Null
    | Bool(b: bool)
    | Num(n: int)
    | Str(s: string)
    | Obj(props: map<string, JsValue>)
    | Func

  /** The string the `typeof` operator yields (`typeof null` is "object"). */
  function TypeOf(v: JsValue): string {
    match v
    case Undefined => "undefined"
    case Null => "object"
    case Bool(_) => "boolean"
    case Num(_) => "number"
    case Str(_) => "string"
    case Obj(_) => "object"
    case Func => "function"
  }

  /** JavaScript truthiness: what `!!v` and a condition position make of `v`. */
  predicate Truthy(v: JsValue) {
    match v
    case Undefined => false
    case Null => false
    case Bool(b) => b
    case Num(n) => n != 0
    case Str(s) => s != []
    case Obj(_) => true
    case Func => true
  }

  /** `v.hasOwnProperty(key)` on a value that has properties. */
  predicate HasOwn(v: JsValue, key: string) {
    v.Obj? && key in v.props
  }
}
