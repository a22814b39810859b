/** JavaScript values as the ticket logic sees them: properties that may be
    `undefined`, JSON payloads, and JavaScript truthiness. */
module JsValues {

  /** A property that may be `undefined` (None). */
  datatype Option<+T> = None | Some(value: T)

  /** A JSON value, as carried in `ext.public` and `ext.private`.
      Numbers are integers in this model. */
  datatype Json =
    | JNull
    | JBool(b: bool)
    | JNum(n: int)
    | JStr(s: string)
    | JArr(items: seq<Json>)
    | JObj(fields: map<string, Json>)

  /** JavaScript truthiness of a defined value: `null`, `false`, `0` and `""`
      are falsy; every array and every object (even an empty one) is truthy. */
  predicate IsTruthy(j: Json) {
    match j
    case JNull => false
    case JBool(b) => b
    case JNum(n) => n != 0
    case JStr(s) => s != ""
    case JArr(_) => true
    case JObj(_) => true
  }

  /** `if (x)` on a property holding JSON. */
  predicate TruthyJson(o: Option<Json>) {
    o.Some? && IsTruthy(o.value)
  }

  /** `if (x)` on a string property: `undefined` and `""` are falsy. */
  predicate TruthyStr(o: Option<string>) {
    o.Some? && o.value != ""
  }

  /** `if (x)` on a numeric property: `undefined` and `0` are falsy. */
  predicate TruthyNum(o: Option<int>) {
    o.Some? && o.value != 0
  }

  /** Property read `j.k`; only objects have properties here. */
  function Field(j: Json, k: string): Option<Json>
  {
    if j.JObj? && k in j.fields then Some(j.fields[k]) else None
  }

  /** What `if (src) { dst = src; }` leaves in a fresh `dst`. */
  function IfTruthy(o: Option<string>): (r: Option<string>)
    ensures TruthyStr(r) == TruthyStr(o)
    ensures r.Some? ==> r == o
  {
    if TruthyStr(o) then o else None
  }
}
