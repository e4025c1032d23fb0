/** The JSON values the server receives, as Python's json module decodes
    them, with Python's truth test. */
module Json {

  /** Numbers are modelled as integers; the payloads of this system carry
      strings, lists and objects. */
  datatype Json =
    | JNull
    | JBool(b: bool)
    | JNumber(n: int)
    | JString(s: string)
    | JArray(items: seq<Json>)
    | JObject(fields: map<string, Json>)

  /** Python's bool(v): None, False, 0, '' and empty containers are false. */
  predicate Truthy(v: Json)
  {
    match v
    case JNull => false
    case JBool(b) => b
    case JNumber(n) => n != 0
    case JString(s) => s != ""
    case JArray(items) => items != []
    case JObject(fields) => fields != map[]
  }
}
