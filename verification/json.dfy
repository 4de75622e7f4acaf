/** The JSON values the application builds and inspects (`serde_json::Value`).
    Objects are maps: `serde_json::Map` keeps its keys sorted, so only the
    key-to-value association is observable. Numbers are integers here. */
module Json {

  datatype Json =
    | JNull
    | JBool(b: bool)
    | JNumber(n: int)
    | JString(s: string)
    | JArray(items: seq<Json>)
    | JObject(fields: map<string, Json>)
}
