/**
 * The MQTT exchange between the A-client (RL/test_RL_network.py) and the B-client
 * (RL/simulated_b_client.py): the seven topics of one station, the published messages, and the
 * dictionary reads both sides make on a decoded payload.
 */
module Protocol {
  import opened Json

  /** `v1/{ID}/ctrl/start`, `…/ctrl/end`, `…/ctrl/stop`, `…/cmd/point`, `…/telemetry/result`,
      `…/config/setting` and `…/status`. */
  datatype Topic = CtrlStart | CtrlEnd | CtrlStop | CmdPoint | TelemetryResult | ConfigSetting | Status

  /** One call of `client.publish`: topic, decoded payload and the retain flag. */
  datatype Publish = Publish(topic: Topic, payload: Payload, retain: bool)

  /** `data.get(k)`: a missing key and a JSON `null` both read as `None`. */
  function Get(data: Payload, k: string): Json {
    if k in data then data[k] else JNull
  }

  /** Python's truth value of a decoded JSON value. */
  predicate Truthy(j: Json) {
    match j
    case JNull => false
    case JBool(b) => b
    case JNumber(n) => n != 0.0
    case JString(s) => |s| > 0
    case JArray(items) => |items| > 0
    case JObject(fields) => |fields| > 0
  }

  /** `data.get("type") == t`. */
  predicate HasType(data: Payload, t: string) {
    Get(data, "type") == JString(t)
  }
}
