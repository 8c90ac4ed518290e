/**
 * `ConfigManager` of RL/config_manager.py: a nested JSON configuration with a path lookup that
 * answers `None` as soon as the path leaves the dictionaries, and a path assignment that creates
 * the missing levels as empty dictionaries.
 *
 * The configuration is a JSON value; Python's `None` and a stored JSON `null` are both `JNull`.
 * The in-place writes of `set` into the nested dictionaries become a walk down the path that
 * records each level, followed by a write-back up the path.
 */
module Config {
  import opened Wrappers
  import opened Json

  // ---------------------------------------------------------------- specification

  /** `get(*keys)`: follow the keys through the nested dictionaries. */
  function Lookup(v: Json, keys: seq<string>): (r: Json)
    decreases |keys|
    ensures |keys| > 0 && r != JNull ==> v.JObject? && keys[0] in v.fields
  {
    if |keys| == 0 then v
    else if v.JObject? && keys[0] in v.fields then Lookup(v.fields[keys[0]], keys[1..])
    else JNull
  }

  /**
   * `set(*keys, value=value)` as a function: the new configuration, or the exception. An empty
   * path raises `IndexError`; an existing level on the path that is not a dictionary raises
   * `TypeError` (before any level is created); a path that is new from some level on always
   * succeeds.
   */
  function SetPath(v: Json, keys: seq<string>, value: Json): (r: Result<Json>)
    decreases |keys|
    ensures r.Err? ==> r.error == (if |keys| == 0 then IndexError else TypeError)
    ensures r.Ok? ==> r.value.JObject?
    ensures v.JObject? && |keys| > 0 && (|keys| == 1 || keys[0] !in v.fields) ==> r.Ok?
  {
    if |keys| == 0 then Err(IndexError)
    else if !v.JObject? then Err(TypeError)
    else if |keys| == 1 then Ok(JObject(v.fields[keys[0] := value]))
    else
      var child := if keys[0] in v.fields then v.fields[keys[0]] else JObject(map[]);
      var c :- SetPath(child, keys[1..], value);
      Ok(JObject(v.fields[keys[0] := c]))
  }

  /** A lookup with no keys returns the whole configuration. */
  lemma LookupEmpty(v: Json)
    ensures Lookup(v, []) == v
  {
  }

  /** Once a level is not a dictionary, or lacks the next key, the lookup answers `None`. */
  lemma {:induction false} LookupStops(v: Json, keys: seq<string>, i: nat)
    requires i < |keys|
    requires var u := Lookup(v, keys[..i]); !u.JObject? || keys[i] !in u.fields
    requires forall j :: 0 <= j < i ==> Lookup(v, keys[..j]).JObject? && keys[j] in Lookup(v, keys[..j]).fields
    ensures Lookup(v, keys) == JNull
  {
    if i == 0 {
      assert keys[..0] == [];
    } else {
      assert keys[..1] == [keys[0]];
      assert Lookup(v, keys[..1]) == Lookup(v.fields[keys[0]], []);
      var w := v.fields[keys[0]];
      var rest := keys[1..];
      forall j | 0 <= j <= i - 1 ensures Lookup(w, rest[..j]) == Lookup(v, keys[..j + 1]) {
        assert keys[..j + 1][1..] == rest[..j];
      }
      LookupStops(w, rest, i - 1);
    }
  }

  /** After `set(*keys, value=v)`, `get(*keys)` returns `v`, and paths below it read inside `v`. */
  lemma {:induction false} SetThenGet(v: Json, keys: seq<string>, value: Json, rest: seq<string>)
    requires SetPath(v, keys, value).Ok?
    decreases |keys|
    ensures Lookup(SetPath(v, keys, value).value, keys) == value
    ensures Lookup(SetPath(v, keys, value).value, keys + rest) == Lookup(value, rest)
  {
    var r := SetPath(v, keys, value).value;
    assert (keys + rest)[0] == keys[0] && (keys + rest)[1..] == keys[1..] + rest;
    if |keys| > 1 {
      var child := if keys[0] in v.fields then v.fields[keys[0]] else JObject(map[]);
      SetThenGet(child, keys[1..], value, rest);
    }
  }

  /**
   * `set` changes nothing off its path: a path that leaves the set path at some position reads
   * the same before and after.
   */
  lemma {:induction false} SetKeepsSiblings(v: Json, keys: seq<string>, value: Json, q: seq<string>, j: nat)
    requires SetPath(v, keys, value).Ok?
    requires j < |keys| && j < |q| && keys[..j] == q[..j] && keys[j] != q[j]
    decreases j
    ensures Lookup(SetPath(v, keys, value).value, q) == Lookup(v, q)
  {
    if j > 0 {
      assert keys[0] == keys[..j][0] == q[..j][0] == q[0];
      var child := if keys[0] in v.fields then v.fields[keys[0]] else JObject(map[]);
      assert keys[1..][..j - 1] == keys[..j][1..] == q[..j][1..] == q[1..][..j - 1];
      SetKeepsSiblings(child, keys[1..], value, q[1..], j - 1);
    }
  }

  /** The configuration used when the file is missing or malformed. */
  const DefaultConfig: Json := JObject(map[
    "gear_parameters" := JObject(map[
      "pinion" := JObject(map["teeth" := JNumber(20.0), "module" := JNumber(2.0), "rpm" := JNumber(1800.0)]),
      "gear" := JObject(map["teeth" := JNumber(20.0), "module" := JNumber(2.0), "rpm" := JNumber(1800.0)])]),
    "analysis_parameters" := JObject(map[
      "default_sample_rate" := JNumber(5.0),
      "interference_thresholds" := JObject(map[
        "severe_interference" := JNumber(2.0), "medium_interference" := JNumber(1.0),
        "mild_interference" := JNumber(0.5), "contact_threshold" := JNumber(2.0),
        "near_contact_threshold" := JNumber(5.0)])]),
    "vibration_parameters" := JObject(map[
      "sampling_frequency" := JNumber(10000.0), "signal_duration" := JNumber(2.0),
      "harmonics" := JObject(map[
        "pinion_harmonics" := JNumber(8.0), "gear_harmonics" := JNumber(8.0),
        "mesh_harmonics" := JNumber(6.0), "sideband_orders" := JNumber(4.0)])])])

  function Threshold(config: Json, name: string): Json {
    Lookup(config, ["analysis_parameters", "interference_thresholds", name])
  }

  /** The default thresholds are ordered: mild < medium < severe and contact < near contact. */
  lemma DefaultThresholdsOrdered()
    ensures Threshold(DefaultConfig, "mild_interference") == JNumber(0.5)
    ensures Threshold(DefaultConfig, "medium_interference") == JNumber(1.0)
    ensures Threshold(DefaultConfig, "severe_interference") == JNumber(2.0)
    ensures Threshold(DefaultConfig, "contact_threshold") == JNumber(2.0)
    ensures Threshold(DefaultConfig, "near_contact_threshold") == JNumber(5.0)
    ensures Threshold(DefaultConfig, "mild_interference").n < Threshold(DefaultConfig, "medium_interference").n
            < Threshold(DefaultConfig, "severe_interference").n
    ensures Threshold(DefaultConfig, "contact_threshold").n < Threshold(DefaultConfig, "near_contact_threshold").n
  {
    assert ["analysis_parameters", "interference_thresholds", "mild_interference"][1..]
           == ["interference_thresholds", "mild_interference"];
    assert ["analysis_parameters", "interference_thresholds", "medium_interference"][1..]
           == ["interference_thresholds", "medium_interference"];
    assert ["analysis_parameters", "interference_thresholds", "severe_interference"][1..]
           == ["interference_thresholds", "severe_interference"];
    assert ["analysis_parameters", "interference_thresholds", "contact_threshold"][1..]
           == ["interference_thresholds", "contact_threshold"];
    assert ["analysis_parameters", "interference_thresholds", "near_contact_threshold"][1..]
           == ["interference_thresholds", "near_contact_threshold"];
  }

  /** The default configuration has no position or visualization section. */
  lemma DefaultSections()
    ensures Lookup(DefaultConfig, ["position_parameters"]) == JNull
    ensures Lookup(DefaultConfig, ["visualization_parameters"]) == JNull
    ensures Lookup(DefaultConfig, ["gear_parameters"]).JObject?
  {
  }

  // ---------------------------------------------------------------- the object

  class ConfigManager {
    var config: Json

    /** `loaded` is the parsed file, or `None` when it is missing or not valid JSON. */
    constructor (loaded: Option<Json>)
      ensures config == if loaded.Some? then loaded.value else DefaultConfig
    {
      config := if loaded.Some? then loaded.value else DefaultConfig;
    }

    /** `get(*keys)`. */
    method Get(keys: seq<string>) returns (r: Json)
      ensures r == Lookup(config, keys)
    {
      var value := config;
      var i := 0;
      while i < |keys|
        invariant i <= |keys|
        invariant Lookup(value, keys[i..]) == Lookup(config, keys)
      {
        assert keys[i..][1..] == keys[i + 1..];
        if value.JObject? && keys[i] in value.fields {
          value := value.fields[keys[i]];
        } else {
          return JNull;
        }
        i := i + 1;
      }
      return value;
    }

    /**
     * `set(*keys, value=value)`: walk down the path creating missing levels, assign the leaf,
     * then write each level back into its parent. On an exception nothing has changed.
     */
    method Set(keys: seq<string>, value: Json) returns (r: Result<()>)
      modifies this
      ensures var s := SetPath(old(config), keys, value);
        (s.Ok? ==> r == Ok(()) && config == s.value) && (s.Err? ==> r == Err(s.error) && config == old(config))
    {
      if |keys| == 0 {
        return Err(IndexError);
      }
      var cur := config;
      var levels: seq<map<string, Json>> := [];
      var i := 0;
      assert keys[0..] == keys && keys[..0] == [];
      while i < |keys| - 1
        invariant i <= |keys| - 1 && |levels| == i && config == old(config)
        invariant SetPath(config, keys, value) == Wrapped(levels, keys[..i], SetPath(cur, keys[i..], value))
      {
        if !cur.JObject? {
          return Err(TypeError);
        }
        assert keys[i..][0] == keys[i] && keys[i..][1..] == keys[i + 1..];
        var child := if keys[i] in cur.fields then cur.fields[keys[i]] else JObject(map[]);
        assert (levels + [cur.fields])[..i] == levels && keys[..i + 1][..i] == keys[..i];
        levels := levels + [cur.fields];
        cur := child;
        i := i + 1;
      }
      if !cur.JObject? {
        return Err(TypeError);
      }
      assert keys[i..] == [keys[i]];
      var acc := JObject(cur.fields[keys[i] := value]);
      var j := |levels|;
      assert levels[..j] == levels;
      while j > 0
        invariant 0 <= j <= |levels| && |levels| == i && i == |keys| - 1
        invariant Wrap(levels[..j], keys[..j], acc) == Wrap(levels, keys[..i], JObject(cur.fields[keys[i] := value]))
      {
        assert levels[..j][..j - 1] == levels[..j - 1] && keys[..j][..j - 1] == keys[..j - 1];
        j := j - 1;
        acc := JObject(levels[j][keys[j] := acc]);
      }
      assert levels[..0] == [] && keys[..0] == [];
      config := acc;
      return Ok(());
    }

    method GetGearParams() returns (r: Json)
      ensures r == Lookup(config, ["gear_parameters"])
    {
      r := Get(["gear_parameters"]);
    }

    method GetPositionParams() returns (r: Json)
      ensures r == Lookup(config, ["position_parameters"])
    {
      r := Get(["position_parameters"]);
    }

    method GetAnalysisParams() returns (r: Json)
      ensures r == Lookup(config, ["analysis_parameters"])
    {
      r := Get(["analysis_parameters"]);
    }

    method GetVibrationParams() returns (r: Json)
      ensures r == Lookup(config, ["vibration_parameters"])
    {
      r := Get(["vibration_parameters"]);
    }

    method GetVisualizationParams() returns (r: Json)
      ensures r == Lookup(config, ["visualization_parameters"])
    {
      r := Get(["visualization_parameters"]);
    }
  }

  /** The dictionaries `levels` along the path `ks`, with `leaf` written back through them. */
  function Wrap(levels: seq<map<string, Json>>, ks: seq<string>, leaf: Json): Json
    requires |levels| == |ks|
    decreases |levels|
  {
    if |levels| == 0 then leaf
    else
      var n := |levels| - 1;
      Wrap(levels[..n], ks[..n], JObject(levels[n][ks[n] := leaf]))
  }

  function Wrapped(levels: seq<map<string, Json>>, ks: seq<string>, r: Result<Json>): Result<Json>
    requires |levels| == |ks|
  {
    if r.Err? then r else Ok(Wrap(levels, ks, r.value))
  }
}
