/** Values that cross the boundary between the HTTP clients and JavaScript
    itself: optional values, results of calls that may throw, JSON values,
    plain header objects, and the JSON codec the clients call into. */
module JsValues {

  datatype Option<+T> = None | Some(value: T)

  /** A thrown JavaScript value (or the reason a promise rejects with),
      recorded by its constructor name and its message. */
  datatype JsError = JsError(name: string, message: string)

  /** Either the value a call produced or the error it threw. */
  datatype Result<+T> = Ok(value: T) | Err(error: JsError)

  /** A JSON value. Object members are a list of pairs. Nothing rules out
      duplicate keys or enforces JavaScript's key order: values only come
      from the codec, which the model leaves unconstrained. Numbers are
      integers (see README, "Left out"). */
  datatype Json =
    | JNull
    | JBool(b: bool)
    | JNum(n: int)
    | JStr(s: string)
    | JArr(items: seq<Json>)
    | JObj(members: seq<(string, Json)>)

  /** JavaScript truthiness of a JSON value: `if (payload)`. */
  predicate JsonTruthy(j: Json) {
    match j
    case JNull => false
    case JBool(b) => b
    case JNum(n) => n != 0
    case JStr(s) => s != ""
    case JArr(_) => true
    case JObj(_) => true
  }

  /** A header set as a plain JavaScript object: keys are compared exactly,
      so `Content-Type` and `content-type` are different keys. */
  type Headers = map<string, string>

  /** `JSON.stringify` and `JSON.parse`, which the model does not define:
      stringify is total on JSON values, parse may throw (a SyntaxError). */
  datatype JsonCodec = JsonCodec(stringify: Json -> string, parse: string -> Result<Json>)
}
