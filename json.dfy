/**
 * JSON values as the JavaScript handlers see them after `JSON.parse`, with the
 * truthiness the handlers' `!x` and `x || y` tests use.
 */
module Json {

  /**
   * A JSON value, or `undefined` for a field that is absent. Numbers are
   * integers here; objects and arrays are one case, since every handler only
   * tests them for truthiness (always true).
   */
  datatype JsonValue =
    | Undefined
    | Null
    | Bool(b: bool)
    | Num(n: int)
    | Str(s: string)
    | Compound

  /** JavaScript truthiness: `undefined`, `null`, `false`, `0` and `""` are falsy. */
  predicate Truthy(v: JsonValue) {
    match v
    case Undefined => false
    case Null => false
    case Bool(b) => b
    case Num(n) => n != 0
    case Str(s) => s != ""
    case Compound => true
  }

  /**
   * A request body after `await req.json()` and destructuring: `Malformed` when
   * parsing throws or the body is `null` (destructuring `null` throws), else the
   * own fields of the parsed value (none for a number, a string or an array).
   */
  datatype RequestBody = Malformed | Fields(fields: map<string, JsonValue>)

  /** `body[name]` on parsed fields: `undefined` when absent. */
  function Field(fields: map<string, JsonValue>, name: string): JsonValue {
    if name in fields then fields[name] else Undefined
  }
}
