/**
 * The A-client object `RLMQTTClient` of RL/test_RL_network.py. Its connection flag, correlation
 * table, run flags and settings are fields that the MQTT callbacks and the session update in
 * place; `outbox` records every publish. Each method is proved to leave the object in the state
 * that the functions of `AClientSpec` compute from the old one.
 */
module AClient {
  import opened Wrappers
  import opened Json
  import opened Protocol
  import opened Scoring
  import opened OptimizerSpec
  import opened Optimizer
  import opened AClientSpec

  /** The retained status the client publishes before it disconnects. */
  const OfflineMsg: Publish := Publish(Status, map["online" := JBool(false), "sender" := JString("A"),
    "state" := JString("disconnected")], true)

  class RLMqttClient {
    var isConnected: bool
    var pending: Pending
    var isRunning: bool
    var stopRequested: bool
    var settings: map<string, Json>
    var optimizer: Top1of3?
    /** Every message this client has published, in order. */
    ghost var outbox: seq<Publish>

    ghost function State(): ClientState
      reads this
    {
      ClientState(isConnected, pending, isRunning, stopRequested, settings, outbox)
    }

    constructor ()
      ensures State() == ClientState(false, map[], false, false, DefaultSettings, [])
      ensures optimizer == null
    {
      isConnected := false;
      pending := map[];
      optimizer := null;
      isRunning := false;
      stopRequested := false;
      settings := DefaultSettings;
      outbox := [];
    }

    /** `on_connect`: on success, mark connected and announce `idle` (retained). */
    method OnConnect(rc: int)
      modifies this
      ensures rc == 0 ==> State() == old(State()).(connected := true, outbox := old(outbox) + [StatusMsg("idle")])
      ensures rc != 0 ==> State() == old(State())
      ensures optimizer == old(optimizer)
    {
      if rc == 0 {
        isConnected := true;
        outbox := outbox + [StatusMsg("idle")];
      }
    }

    /** `on_disconnect`. */
    method OnDisconnect()
      modifies this
      ensures State() == old(State()).(connected := false)
      ensures optimizer == old(optimizer)
    {
      isConnected := false;
    }

    /** `disconnect()`: announce going offline when connected; the broker's callback follows. */
    method Disconnect()
      modifies this
      ensures State() == if old(isConnected) then old(State()).(outbox := old(outbox) + [OfflineMsg])
                         else old(State())
      ensures optimizer == old(optimizer)
    {
      if isConnected {
        outbox := outbox + [OfflineMsg];
      }
    }

    /** `update_settings(data)`. */
    method UpdateSettings(data: Payload)
      modifies this
      ensures State() == old(State()).(settings := MergeSettings(old(settings), data))
      ensures optimizer == old(optimizer)
    {
      var i := 0;
      while i < |SettingKeys|
        invariant i <= |SettingKeys|
        invariant settings == MergeKeys(old(settings), data, SettingKeys[..i])
        invariant isConnected == old(isConnected) && pending == old(pending) && isRunning == old(isRunning)
        invariant stopRequested == old(stopRequested) && outbox == old(outbox) && optimizer == old(optimizer)
      {
        var key := SettingKeys[i];
        assert SettingKeys[..i + 1][..i] == SettingKeys[..i] && SettingKeys[..i + 1][i] == key;
        if key in data {
          settings := settings[key := data[key]];
        }
        i := i + 1;
      }
      assert SettingKeys[..i] == SettingKeys;
    }

    /** `on_message` for one message; the result says whether a run thread was started. */
    method OnMessage(m: Inbound) returns (startRun: bool)
      modifies this
      ensures Handled(State(), startRun) == Dispatch(old(State()), m)
      ensures optimizer == old(optimizer)
    {
      startRun := false;
      if m.body.None? {
        return;
      }
      var data := m.body.value;
      if m.topic == ConfigSetting {
        UpdateSettings(data);
      } else if m.topic == CtrlStart && Get(data, "type") == JString("start") {
        if isRunning {
          outbox := outbox + [AlreadyRunningMsg];
          return;
        }
        stopRequested := false;
        startRun := true;
      } else if m.topic == CtrlStop && Get(data, "type") == JString("stop") {
        stopRequested := true;
        if isRunning {
          outbox := outbox + [StatusMsg("stopping")];
        }
      } else if m.topic == TelemetryResult && Get(data, "type") == JString("result_feature_set") {
        var reqId := Get(data, "req_id");
        if !Truthy(reqId) {
          return;
        }
        if reqId.JString? && reqId.s in pending {
          pending := pending[reqId.s := Waiter(true, Some(data))];
        }
      }
    }

    /** The messages of `msgs` handled one after another. */
    method OnMessages(msgs: seq<Inbound>)
      modifies this
      ensures State() == DispatchAll(old(State()), msgs)
      ensures optimizer == old(optimizer)
    {
      var i := 0;
      while i < |msgs|
        invariant i <= |msgs|
        invariant State() == DispatchAll(old(State()), msgs[..i])
        invariant optimizer == old(optimizer)
      {
        assert msgs[..i + 1][..i] == msgs[..i];
        var _ := OnMessage(msgs[i]);
        i := i + 1;
      }
      assert msgs[..i] == msgs;
    }

    /** The payloads of `msgs` arriving on the result topic, one after another. */
    method OnResults(msgs: seq<Payload>)
      modifies this
      ensures State() == old(State()).(pending := DeliverAll(old(pending), msgs))
      ensures optimizer == old(optimizer)
    {
      var i := 0;
      while i < |msgs|
        invariant i <= |msgs|
        invariant State() == old(State()).(pending := DeliverAll(old(pending), msgs[..i]))
        invariant optimizer == old(optimizer)
      {
        assert msgs[..i + 1][..i] == msgs[..i];
        var _ := OnMessage(Inbound(TelemetryResult, Some(msgs[i])));
        i := i + 1;
      }
      assert msgs[..i] == msgs;
    }

    /**
     * `send_point_and_wait(x, y, timeout, retries)` with `reqId` as the fresh identifier;
     * `deliver(a)` is what arrives on the result topic within the timeout of attempt `a`.
     */
    method SendPointAndWait(x: real, y: real, retries: int, reqId: string, deliver: nat -> seq<Payload>)
      returns (r: Result<Option<Payload>>)
      modifies this
      ensures Sent(State(), r) == SendSpec(old(State()), x, y, retries, reqId, deliver)
      ensures optimizer == old(optimizer)
    {
      if !isConnected {
        return Ok(None);
      }
      var msg := PointMsg(x, y, reqId);
      pending := pending[reqId := Waiter(false, None)];
      var attempt := 0;
      while attempt <= retries
        invariant attempt >= 0
        invariant WaitLoop(State(), reqId, msg, attempt, retries, deliver)
                  == SendSpec(old(State()), x, y, retries, reqId, deliver)
        invariant optimizer == old(optimizer)
        decreases retries - attempt + 1
      {
        attempt := attempt + 1;
        outbox := outbox + [msg];
        OnResults(deliver(attempt - 1));
        if reqId in pending && pending[reqId].isSet {
          var result := pending[reqId].result;
          pending := pending - {reqId};
          return Ok(result);
        }
      }
      pending := pending - {reqId};
      return Err(TimeoutError);
    }

    /** The filling of the missing required keys in `run_control`. */
    static method FillDefaults(d0: Feats) returns (d: Feats)
      ensures d == WithDefaults(d0)
    {
      d := d0;
      var i := 0;
      while i < |RequiredKeys|
        invariant i <= |RequiredKeys|
        invariant forall k :: k in d <==> k in d0 || k in RequiredKeys[..i]
        invariant forall k :: k in d ==> d[k] == if k in d0 then d0[k] else 0.0
      {
        var key := RequiredKeys[i];
        assert forall k :: k in RequiredKeys[..i + 1] <==> k in RequiredKeys[..i] || k == key;
        if key !in d {
          d := d[key := 0.0];
        }
        i := i + 1;
      }
      assert RequiredKeys[..i] == RequiredKeys;
      var want := WithDefaults(d0);
      assert d.Keys == want.Keys;
    }

    /** `run_control(x, y)`: query the B-client three times over, then build the feature row. */
    method RunControl(x: real, y: real, reqId: string, deliver: nat -> seq<Payload>) returns (r: Result<Feats>)
      modifies this
      ensures (State(), r) == RunControlSpec(old(State()), x, y, reqId, deliver)
      ensures optimizer == old(optimizer)
    {
      if !isConnected {
        return Err(ConnectionError);
      }
      var sent := SendPointAndWait(x, y, 3, reqId, deliver);
      if sent.Err? {
        return Err(sent.error);
      }
      var result := sent.value;
      if result.None? || |result.value| == 0 || "features" !in result.value || "values" !in result.value {
        return Err(ValueError);
      }
      var fs := result.value["features"];
      var vs := result.value["values"];
      if !fs.JArray? || !vs.JArray? {
        return Err(TypeError);
      }
      if |fs.items| != |vs.items| {
        return Err(ValueError);
      }
      var names := Strings(fs.items);
      var nums := Numbers(vs.items);
      if names.None? || nums.None? {
        return Err(TypeError);
      }
      var d := FillDefaults(ZipDict(names.value, nums.value));
      return Ok(d);
    }

    /** The bookkeeping of `run_with_stop_check` after `iterate()` returned `o` in iteration `i`. */
    static method RecordIteration(opt: Top1of3, i: nat, o: IterOut)
      modifies opt
      ensures opt.State() == AfterIterate(old(opt.State()), o, opt.cfg.epsilon)
      ensures opt.history == old(opt.history) + [StopCheckEntry(i, o.pos, o.best, o.debug)]
    {
      opt.x, opt.y := o.pos.x, o.pos.y;
      opt.history := opt.history + [StopCheckEntry(i, o.pos, o.best, o.debug)];
      if ExtGreater(o.best, opt.bestReward, opt.cfg.epsilon) {
        opt.bestReward := o.best;
        opt.noImproveCnt := 0;
      } else {
        opt.noImproveCnt := opt.noImproveCnt + 1;
      }
    }

    /** `run_with_stop_check()` on the session's optimizer; returns its position and best reward. */
    method RunWithStopCheck(opt: Top1of3, inbound: nat -> seq<Inbound>) returns (r: RunOut)
      modifies this, opt
      ensures LoopState(State(), opt.State(), opt.history)
              == StopLoop(IterateFn(opt.Env()), opt.cfg.maxIters, opt.cfg.patience, opt.cfg.epsilon, inbound,
                          0, LoopState(old(State()), old(opt.State()), old(opt.history)))
      ensures r == RunOut(opt.State().pos, opt.bestReward)
      ensures optimizer == old(optimizer)
    {
      var i: nat := 0;
      while i < opt.cfg.maxIters
        invariant StopLoop(IterateFn(opt.Env()), opt.cfg.maxIters, opt.cfg.patience, opt.cfg.epsilon, inbound,
                           i, LoopState(State(), opt.State(), opt.history))
                  == StopLoop(IterateFn(opt.Env()), opt.cfg.maxIters, opt.cfg.patience, opt.cfg.epsilon, inbound,
                              0, LoopState(old(State()), old(opt.State()), old(opt.history)))
        invariant optimizer == old(optimizer)
        decreases opt.cfg.maxIters - i
      {
        OnMessages(inbound(i));
        if stopRequested {
          break;
        }
        ghost var before := opt.State();
        var o := opt.Iterate();
        assert IterateFn(opt.Env())(before) == IterStep(o, opt.State());
        if o.Err? {
          break;
        }
        RecordIteration(opt, i, o.value);
        if opt.noImproveCnt >= opt.cfg.patience {
          break;
        }
        i := i + 1;
      }
      return RunOut(opt.State().pos, opt.bestReward);
    }

    /**
     * `run_rl_optimization()`: `measure(n, p)` is the `n`-th reading the session takes, and
     * `inbound(i)` the messages handled before the stop check of iteration `i`, `late` those
     * handled after the loop returns and before the stop flag is read.
     */
    method RunRLOptimization(measure: RunFn, inbound: nat -> seq<Inbound>, late: seq<Inbound>, ln: real -> real)
      modifies this
      ensures State() == Session(old(State()), measure, inbound, late, ln)
    {
      if isRunning {
        return;
      }
      isRunning := true;
      outbox := outbox + [StatusMsg("running")];
      ghost var s1 := State();
      assert Session(old(State()), measure, inbound, late, ln) == SessionBody(s1, measure, inbound, late, ln).(running := false);
      var params := ReadParams(settings);
      if params.Err? {
        outbox := outbox + [ErrorMsg(params.error)];
        isRunning := false;
        return;
      }
      var p := params.value;
      var env := SessionEnv(measure, p, ln);
      var opt := new Top1of3(env.run, p.start, env.lim, p.steps, env.cfg, env.w, env.thr, env.refs, env.ln);
      optimizer := opt;
      var before := measure(0, p.start);
      if before.Err? {
        outbox := outbox + [ErrorMsg(before.error)];
        isRunning := false;
        return;
      }
      var best := RunWithStopCheck(opt, inbound);
      ghost var ls := StopLoop(IterateFn(env), SessionRL.maxIters, SessionRL.patience, SessionRL.epsilon,
                               inbound, 0, LoopState(s1, OptState(p.start, p.steps, NegInf, 0, []), []));
      assert ls == LoopState(State(), opt.State(), opt.history);
      FinishSession(measure, p.start, before.value, opt, best, late);
    }

    /**
     * The end of `run_rl_optimization` once the loop has returned `best`: the messages that
     * arrived meanwhile, then the stop flag, the reading after and the end message.
     */
    method FinishSession(measure: RunFn, start: Point, before: Feats, opt: Top1of3, best: RunOut,
                         late: seq<Inbound>)
      requires best == RunOut(opt.State().pos, opt.State().best)
      modifies this
      ensures State() == SessionEnd(DispatchAll(old(State()), late), measure, start, before, opt.State(),
                                    |opt.history|).(running := false)
    {
      OnMessages(late);
      if stopRequested {
        outbox := outbox + [StoppedMsg, StatusMsg("stopped")];
        isRunning := false;
        return;
      }
      var after := measure(1 + |opt.probes|, best.pos);
      if after.Err? {
        outbox := outbox + [ErrorMsg(after.error)];
        isRunning := false;
        return;
      }
      outbox := outbox + [EndMsg(start, best.pos, best.best, |opt.history|, before, after.value),
                          StatusMsg("completed")];
      isRunning := false;
    }
  }
}
