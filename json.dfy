/** The values that travel in MQTT payloads and in the configuration file. */
module Json {

  datatype Json =
    | JNull
    | JBool(b: bool)
    | JNumber(n: real)
    | JString(s: string)
    | JArray(items: seq<Json>)
    | JObject(fields: map<string, Json>)

  /** A payload is a JSON object, seen as its table of fields. */
  type Payload = map<string, Json>
}
