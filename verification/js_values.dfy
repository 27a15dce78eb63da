/**
 * The JavaScript values that travel through the item API: request bodies,
 * query parameters, token claims and stored documents. A document or a JSON
 * body is a map from field name to value; a field that is absent from the
 * map is JavaScript's `undefined`.
 */
module JsValues {

  datatype Option<+T> = None | Some(value: T)

  datatype Value =
    | Str(s: string)
    | Num(n: real)       // a JavaScript number; NaN and the infinities are not modelled
    | Bool(b: bool)
    | Null
    | Date(stamp: int)   // a timestamp taken from the clock; its value is opaque to the model
    | Compound           // a nested object or array, whose contents are never inspected

  type Record = map<string, Value>

  /** Reading `obj.field`: `None` stands for `undefined`. */
  function Get(r: Record, field: string): (v: Option<Value>)
    ensures v.Some? <==> field in r
    ensures field in r ==> v.value == r[field]
  {
    if field in r then Some(r[field]) else None
  }

  /**
   * JavaScript truthiness: `undefined`, `null`, `false`, `0` and the empty
   * string are falsy; every other value, objects and dates included, is truthy.
   */
  predicate Truthy(v: Option<Value>) {
    match v
    case None => false
    case Some(Str(s)) => s != ""
    case Some(Num(n)) => n != 0.0
    case Some(Bool(b)) => b
    case Some(Null) => false
    case Some(Date(_)) => true
    case Some(Compound) => true
  }

  /** Truthiness of a value that is a string whenever it is present (a query parameter, a filter). */
  predicate TruthyText(s: Option<string>) {
    Truthy(if s.Some? then Some(Str(s.value)) else None)
  }

  /** JavaScript's `v || fallback`. */
  function Or(v: Option<Value>, fallback: Value): (r: Value)
    ensures Truthy(v) ==> Some(r) == v
    ensures !Truthy(v) ==> r == fallback
  {
    if Truthy(v) then v.value else fallback
  }
}
