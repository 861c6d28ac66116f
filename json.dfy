/** A decoded JSON document, in the shape Python's json module hands it over. */
module Json {

  /** A JSON value; an object decodes to a Python dict, here a map from keys to values. */
  datatype Json =
    | JNull
    | JBool(b: bool)
    | JNumber(n: real)
    | JString(s: string)
    | JArray(items: seq<Json>)
    | JObject(fields: map<string, Json>)
}
