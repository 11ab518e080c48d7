/** A JSON value, the data model of the persisted cache file (its text form is not modelled). */
module Json {

  datatype Json =
    | JNull
    | JBool(b: bool)
    | JNumber(n: int)
    | JString(s: string)
    | JArray(items: seq<Json>)
    | JObject(entries: seq<(string, Json)>)   // in the order they are written or read
}
