/**
 * The peer side of the point-query protocol: `SimulatedBClient` of RL/simulated_b_client.py.
 * A `move_point` command sets the busy flag `processing_points` and, when it is well formed,
 * starts a measurement; the end of that measurement is a separate event that publishes a
 * result (or an error) echoing the command's `req_id` and clears the flag.
 */
module BClient {
  import opened Wrappers
  import opened Json
  import opened Protocol
  import opened Scoring
  import AClientSpec

  /** The simulation parameters echoed in every result. */
  const OffsetDeg: real := 10.0
  const SampleRate: int := 150

  /** The arguments the measurement thread is started with. */
  datatype Job = Job(x: Json, y: Json, reqId: Json)

  /**
   * What the measurement function produced: a feature dictionary, as its entries in insertion
   * order, or an exception with its message.
   */
  datatype Measurement = Measured(entries: seq<(string, real)>) | Failed(message: string)

  /** The fields of the client the handlers change; `outbox` lists every publish in order. */
  datatype BState = BState(connected: bool, busy: bool, outbox: seq<Publish>)

  /** A value the `:.3f` format of the log line accepts: a number (a Python bool is an int). */
  predicate Formattable(j: Json) { j.JNumber? || j.JBool? }

  /** The new busy flag after `handle_point_command`, and the measurement it starts. */
  datatype Handling = Handling(busy: bool, job: Option<Job>)

  /**
   * `handle_point_command(data)`: ignored while busy; otherwise the flag is set first. A `point`
   * that is not an object, or coordinates the log line cannot format, raise and clear the flag
   * again; a missing or null `req_id`, `x` or `y` returns early and leaves it set.
   */
  function HandleCommand(busy: bool, data: Payload): (h: Handling)
    ensures busy ==> h == Handling(true, None)
    ensures h.job.Some? ==> h.busy && !busy
    ensures h.job.Some? ==> h.job.value.reqId == Get(data, "req_id") && !h.job.value.reqId.JNull?
    ensures h.job.Some? ==> Formattable(h.job.value.x) && Formattable(h.job.value.y)
  {
    if busy then Handling(true, None)
    else
      var point := if "point" in data then data["point"] else JObject(map[]);
      if !point.JObject? then Handling(false, None)
      else
        var reqId := Get(data, "req_id");
        var x := Get(point.fields, "x");
        var y := Get(point.fields, "y");
        if reqId.JNull? || x.JNull? || y.JNull? then Handling(true, None)
        else if !Formattable(x) || !Formattable(y) then Handling(false, None)
        else Handling(true, Some(Job(x, y, reqId)))
  }

  /** A command whose `point` is an object but which lacks `req_id`, `x` or `y` (or holds null there). */
  predicate LacksField(data: Payload) {
    var point := if "point" in data then data["point"] else JObject(map[]);
    point.JObject?
    && (Get(data, "req_id").JNull? || Get(point.fields, "x").JNull? || Get(point.fields, "y").JNull?)
  }

  /**
   * A command without `req_id` or without a coordinate leaves the flag set, so from then on
   * every command is dropped.
   */
  lemma MalformedCommandBlocks(data: Payload, later: Payload)
    requires LacksField(data)
    ensures HandleCommand(false, data) == Handling(true, None)
    ensures HandleCommand(HandleCommand(false, data).busy, later) == Handling(true, None)
  {
  }

  /** Exactly the commands lacking a field leave an idle client busy with nothing started. */
  lemma StuckIffLacksField(data: Payload)
    ensures HandleCommand(false, data) == Handling(true, None) <==> LacksField(data)
  {
  }

  /** A well-formed command while idle starts exactly the measurement it names. */
  lemma WellFormedCommandStarts(x: real, y: real, reqId: string)
    ensures HandleCommand(false, AClientSpec.PointPayload(x, y, reqId))
            == Handling(true, Some(Job(JNumber(x), JNumber(y), JString(reqId))))
  {
  }

  function Keys(entries: seq<(string, real)>): seq<string> {
    seq(|entries|, i requires 0 <= i < |entries| => entries[i].0)
  }

  function Values(entries: seq<(string, real)>): seq<real> {
    seq(|entries|, i requires 0 <= i < |entries| => entries[i].1)
  }

  function PositionJson(job: Job): Json { JObject(map["x" := job.x, "y" := job.y]) }

  /** The result message of a completed measurement. */
  function ResultPayload(job: Job, entries: seq<(string, real)>): Payload {
    map["type" := JString("result_feature_set"), "req_id" := job.reqId, "position" := PositionJson(job),
        "features" := JArray(seq(|entries|, i requires 0 <= i < |entries| => JString(entries[i].0))),
        "values" := JArray(seq(|entries|, i requires 0 <= i < |entries| => JNumber(entries[i].1))),
        "parameters" := JObject(map["offset_deg" := JNumber(OffsetDeg), "sample_rate" := JNumber(SampleRate as real)]),
        "sender" := JString("B")]
  }

  /** The error message of a failed measurement. */
  function ErrorPayload(job: Job, message: string): Payload {
    map["type" := JString("error"), "req_id" := job.reqId, "position" := PositionJson(job),
        "error_message" := JString(message), "sender" := JString("B")]
  }

  /** What `process_point_measurement` publishes on the result topic. */
  function Report(job: Job, m: Measurement): (p: Publish)
    ensures p.topic == TelemetryResult && !p.retain
    ensures Get(p.payload, "req_id") == job.reqId
    ensures m.Measured? <==> HasType(p.payload, "result_feature_set")
    ensures m.Failed? <==> HasType(p.payload, "error")
  {
    match m
    case Measured(entries) => Publish(TelemetryResult, ResultPayload(job, entries), false)
    case Failed(message) => Publish(TelemetryResult, ErrorPayload(job, message), false)
  }

  /** `on_message`: only a `move_point` command is handled; an end signal is only logged. */
  function Dispatch(s: BState, m: AClientSpec.Inbound): (r: (BState, Option<Job>))
    ensures r.0.connected == s.connected && r.0.outbox == s.outbox
    ensures r.1.Some? ==> m.topic == CmdPoint && !s.busy && r.0.busy
  {
    if m.body.Some? && m.topic == CmdPoint && HasType(m.body.value, "move_point") then
      var h := HandleCommand(s.busy, m.body.value);
      (s.(busy := h.busy), h.job)
    else (s, None)
  }

  /** Nothing but a `move_point` command changes the client or starts a measurement. */
  lemma DispatchOnlyCommands(s: BState, m: AClientSpec.Inbound)
    requires !(m.topic == CmdPoint && m.body.Some? && HasType(m.body.value, "move_point"))
    ensures Dispatch(s, m) == (s, None)
  {
  }

  /** The end of a measurement: publish its report and clear the busy flag. */
  function Finish(s: BState, job: Job, m: Measurement): (r: BState)
    ensures !r.busy && r.connected == s.connected
    ensures r.outbox == s.outbox + [Report(job, m)]
  {
    s.(busy := false, outbox := s.outbox + [Report(job, m)])
  }

  // ---------------------------------------------------------------- the exchange with the A-client

  predicate DistinctKeys(entries: seq<(string, real)>) {
    forall i, j :: 0 <= i < j < |entries| ==> entries[i].0 != entries[j].0
  }

  /** The dictionary a measurement produced, rebuilt from its entries. */
  function DictOf(entries: seq<(string, real)>): (d: Feats)
    ensures forall k :: k in d <==> exists i :: 0 <= i < |entries| && entries[i].0 == k
  {
    if |entries| == 0 then map[]
    else
      var n := |entries| - 1;
      var d := DictOf(entries[..n]);
      assert forall i :: 0 <= i < n ==> entries[..n][i] == entries[i];
      d[entries[n].0 := entries[n].1]
  }

  /** Zipping the two lists of a result rebuilds the measured dictionary. */
  lemma {:induction false} ZipRebuilds(entries: seq<(string, real)>)
    ensures AClientSpec.ZipDict(Keys(entries), Values(entries)) == DictOf(entries)
  {
    if |entries| > 0 {
      var n := |entries| - 1;
      ZipRebuilds(entries[..n]);
      assert Keys(entries)[..n] == Keys(entries[..n]);
      assert Values(entries)[..n] == Values(entries[..n]);
    }
  }

  /** With distinct keys, each entry of the measured dictionary keeps its own value. */
  lemma {:induction false} DictOfDistinct(entries: seq<(string, real)>)
    requires DistinctKeys(entries)
    ensures forall i :: 0 <= i < |entries| ==> DictOf(entries)[entries[i].0] == entries[i].1
  {
    if |entries| > 0 {
      var n := |entries| - 1;
      var init := entries[..n];
      assert forall i :: 0 <= i < n ==> init[i] == entries[i];
      assert DistinctKeys(init);
      DictOfDistinct(init);
      var d := DictOf(init);
      assert DictOf(entries) == d[entries[n].0 := entries[n].1];
      forall i | 0 <= i < |entries| ensures DictOf(entries)[entries[i].0] == entries[i].1 {
        if i < n {
          assert entries[i].0 != entries[n].0;
          assert d[init[i].0] == init[i].1;
        }
      }
    }
  }

  /**
   * The A-client reads a B result back as the measured dictionary, with the missing required
   * keys filled in.
   */
  lemma ResultRoundTrip(job: Job, entries: seq<(string, real)>)
    ensures AClientSpec.ParseResult(Some(ResultPayload(job, entries))) == Ok(AClientSpec.WithDefaults(DictOf(entries)))
  {
    var p := ResultPayload(job, entries);
    var names := AClientSpec.Strings(p["features"].items);
    var nums := AClientSpec.Numbers(p["values"].items);
    assert names.value == Keys(entries);
    assert nums.value == Values(entries);
    ZipRebuilds(entries);
  }

  /**
   * A B result for a pending query resolves that query on the A side; a B error report leaves
   * the A-client unchanged.
   */
  lemma ReportResolves(s: AClientSpec.ClientState, job: Job, m: Measurement, id: string)
    requires job.reqId == JString(id) && |id| > 0 && id in s.pending
    ensures var h := AClientSpec.Dispatch(s, AClientSpec.Inbound(TelemetryResult, Some(Report(job, m).payload)));
      (m.Measured? ==> h == AClientSpec.Handled(s.(pending := s.pending[id := AClientSpec.Waiter(true, Some(Report(job, m).payload))]), false))
      && (m.Failed? ==> h == AClientSpec.Handled(s, false))
  {
  }

  /** The settings the B-client announces when it connects (retained). */
  const InitialSettings: Payload := map[
    "start_x" := JNumber(22.0), "start_y" := JNumber(-28.0),
    "x_min" := JNumber(17.0), "x_max" := JNumber(27.0),
    "y_min" := JNumber(-33.0), "y_max" := JNumber(-23.0),
    "sig_x_min" := JNumber(0.0008), "sig_y_min" := JNumber(0.0008),
    "sender" := JString("B")]

  /** The A-client takes over all eight announced settings and none of the other keys. */
  lemma InitialSettingsMerge(settings: map<string, Json>)
    ensures var r := AClientSpec.MergeSettings(settings, InitialSettings);
      (forall k :: k in AClientSpec.SettingKeys ==> k in r && r[k] == InitialSettings[k])
      && ("sender" in r <==> "sender" in settings)
  {
  }

  class SimulatedBClient {
    var isConnected: bool
    var processingPoints: bool
    /** Every message this client has published, in order. */
    ghost var outbox: seq<Publish>

    ghost function State(): BState
      reads this
    {
      BState(isConnected, processingPoints, outbox)
    }

    constructor ()
      ensures State() == BState(false, false, [])
    {
      isConnected := false;
      processingPoints := false;
      outbox := [];
    }

    /** `on_connect`: on success, announce `ready` and the initial settings, both retained. */
    method OnConnect(rc: int)
      modifies this
      ensures rc == 0 ==> State() == BState(true, old(processingPoints), old(outbox) + [
                Publish(Status, map["online" := JBool(true), "sender" := JString("B"), "state" := JString("ready")], true),
                Publish(ConfigSetting, InitialSettings, true)])
      ensures rc != 0 ==> State() == old(State())
    {
      if rc == 0 {
        isConnected := true;
        outbox := outbox + [Publish(Status, map["online" := JBool(true), "sender" := JString("B"),
                                                "state" := JString("ready")], true)];
        outbox := outbox + [Publish(ConfigSetting, InitialSettings, true)];
      }
    }

    /** `on_disconnect`. */
    method OnDisconnect()
      modifies this
      ensures State() == old(State()).(connected := false)
    {
      isConnected := false;
    }

    /** `handle_point_command(data)`; the result is the measurement thread it starts. */
    method HandlePointCommand(data: Payload) returns (job: Option<Job>)
      modifies this
      ensures Handling(processingPoints, job) == HandleCommand(old(processingPoints), data)
      ensures isConnected == old(isConnected) && outbox == old(outbox)
    {
      if processingPoints {
        return None;
      }
      processingPoints := true;
      var point := if "point" in data then data["point"] else JObject(map[]);
      if !point.JObject? {
        processingPoints := false;
        return None;
      }
      var reqId := Get(data, "req_id");
      var x := Get(point.fields, "x");
      var y := Get(point.fields, "y");
      if reqId.JNull? || x.JNull? || y.JNull? {
        return None;
      }
      if !Formattable(x) || !Formattable(y) {
        processingPoints := false;
        return None;
      }
      return Some(Job(x, y, reqId));
    }

    /** `on_message` for one message. */
    method OnMessage(m: AClientSpec.Inbound) returns (job: Option<Job>)
      modifies this
      ensures (State(), job) == Dispatch(old(State()), m)
    {
      job := None;
      if m.body.Some? && m.topic == CmdPoint && Get(m.body.value, "type") == JString("move_point") {
        job := HandlePointCommand(m.body.value);
      }
    }

    /** `process_point_measurement(x, y, req_id)` once the measurement produced `m`. */
    method ProcessPointMeasurement(job: Job, m: Measurement)
      modifies this
      ensures State() == Finish(old(State()), job, m)
    {
      match m {
        case Measured(entries) =>
          var features := seq(|entries|, i requires 0 <= i < |entries| => JString(entries[i].0));
          var values := seq(|entries|, i requires 0 <= i < |entries| => JNumber(entries[i].1));
          var payload := map["type" := JString("result_feature_set"), "req_id" := job.reqId,
            "position" := PositionJson(job), "features" := JArray(features), "values" := JArray(values),
            "parameters" := JObject(map["offset_deg" := JNumber(OffsetDeg), "sample_rate" := JNumber(SampleRate as real)]),
            "sender" := JString("B")];
          outbox := outbox + [Publish(TelemetryResult, payload, false)];
        case Failed(message) =>
          outbox := outbox + [Publish(TelemetryResult, ErrorPayload(job, message), false)];
      }
      processingPoints := false;
    }
  }
}
