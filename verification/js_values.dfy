/** The JavaScript values an option field of a request may hold, reduced to
    what the request helper looks at: its type and its truthiness. */
module JsValues {

  /** A JavaScript value. Numbers are integers here; objects, arrays and
      non-callable values with identity are told apart only by an id. */
  datatype Value =
    | Undefined
    | Null
    | Bool(b: bool)
    | Number(n: int)
    | Str(s: string)
    | Object(id: nat)

  /** JavaScript's ToBoolean: `undefined`, `null`, `false`, `0` and `""` are
      falsy, everything else is truthy. */
  predicate Truthy(v: Value) {
    match v
    case Undefined => false
    case Null => false
    case Bool(b) => b
    case Number(n) => n != 0
    case Str(s) => s != ""
    case Object(_) => true
  }

  /** `a || b`: the first operand when it is truthy, otherwise the second. */
  function Or(a: Value, b: Value): (r: Value)
    ensures Truthy(a) ==> r == a
    ensures !Truthy(a) ==> r == b
    ensures Truthy(r) <==> Truthy(a) || Truthy(b)
  {
    if Truthy(a) then a else b
  }
}
