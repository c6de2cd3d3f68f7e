/** Values shared by the back end and the front end: an optional value, the
    JSON payload the portal returns, and the JavaScript values a request body
    field can hold. */
module Values {

  datatype Option<+T> = None | Some(value: T)

  /** A parsed JSON document. The payload is opaque to the service; only its
      JavaScript truthiness matters (`if (cached)`), so compound values are
      kept as their source text. Numbers are integers here. */
  datatype Json =
    | JNull
    | JBool(b: bool)
    | JNumber(n: int)
    | JString(s: string)
    | JArray(text: string)
    | JObject(text: string)

  /** JavaScript truthiness of a parsed JSON value. */
  function Truthy(j: Json): (t: bool)
    // exactly null, false, 0 and "" are falsy
    ensures !t <==> j in {JNull, JBool(false), JNumber(0), JString("")}
    // so an array or object is truthy even when empty
    ensures j.JArray? || j.JObject? ==> t
  {
    match j
    case JNull => false
    case JBool(b) => b
    case JNumber(n) => n != 0
    case JString(s) => s != ""
    case JArray(_) => true
    case JObject(_) => true
  }

  /** A JSON value that is not a string: strings are always `Str`. */
  type NonStringJson = j: Json | !j.JString? witness JNull

  /** A field of a parsed request body: absent, a string, or any other JSON
      value. */
  datatype JsValue =
    | Undefined
    | Str(s: string)
    | NonString(j: NonStringJson)
}
