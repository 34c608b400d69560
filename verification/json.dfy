/**
 The JSON values the two serverless functions read and write, with the
 JavaScript notions they rely on: truthiness, `data.key` on a parsed body,
 and `x || default`.
 */
module Json {
  import opened Common

  /** A JSON value; numbers are kept to integers (only their truthiness matters here). */
  datatype Json =
    | JNull
    | JBool(b: bool)
    | JNumber(n: int)
    | JString(s: string)
    | JArray(items: seq<Json>)
    | JObject(fields: map<string, Json>)

  /** The result of `JSON.parse(event.body)`. */
  datatype Parse = Unparseable | Parsed(value: Json)

  predicate Truthy(j: Json)
  {
    match j
    case JNull => false
    case JBool(b) => b
    case JNumber(n) => n != 0
    case JString(s) => s != ""
    case _ => true
  }

  /** `x` is present and truthy. */
  predicate Given(x: Option<Json>)
  {
    x.Some? && Truthy(x.value)
  }

  /**
   `data.key` for a parsed value other than `null`: an object's own field,
   otherwise `undefined` (none of the keys read here is a property of
   strings, numbers, booleans or arrays).
   */
  function Get(data: Json, key: string): (r: Option<Json>)
    ensures data.JObject? && key in data.fields ==> r == Some(data.fields[key])
    ensures !(data.JObject? && key in data.fields) ==> r == None
  {
    if data.JObject? && key in data.fields then Some(data.fields[key]) else None
  }

  /** `x || d`. */
  function Or(x: Option<Json>, d: Json): (r: Json)
    ensures Given(x) ==> r == x.value
    ensures !Given(x) ==> r == d
  {
    if Given(x) then x.value else d
  }

  /** `{ success: false, message }`. */
  function Failure(message: string): Json
  {
    JObject(map["success" := JBool(false), "message" := JString(message)])
  }
}
