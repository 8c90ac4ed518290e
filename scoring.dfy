/**
 * Feature-vector arithmetic of the top-1-of-3 optimizer (RL/Control/control_test.py):
 * clamping, log compression, the per-axis maximum, the safety gate, the five normalised
 * vibration components and the continuous reward.
 *
 * Floats are modelled as reals. `math.log1p` is `1 + x` fed to an uninterpreted natural
 * logarithm `ln`, of which only `IsLn` (ln(1) = 0, strictly increasing) is assumed.
 */
module Scoring {
  import opened Wrappers

  /** A flat feature dictionary as returned by the measurement function. */
  type Feats = map<string, real>

  datatype CVIWeights = CVIWeights(wTrms: real, wTcf: real, wFrms: real, wFsk: real, wFkurt: real)

  datatype SpecRefs = SpecRefs(timeRms: real, timeCf: real, frms: real, fskew: real, fkurt: real)

  datatype SafetyThresholds = SafetyThresholds(timeRmsMax: real, timeCfMax: real)

  /** The five normalised, log-compressed components (trms_n, tcf_n, frms_n, fsk_n, fkurt_n). */
  datatype Comps = Comps(trms: real, tcf: real, frms: real, fsk: real, fkurt: real)

  const DefaultWeights: CVIWeights := CVIWeights(1.0, 0.5, 0.6, 0.2, 0.3)
  const DefaultRefs: SpecRefs := SpecRefs(2.0, 5.0, 0.02, 10.0, 1000.0)
  const DefaultSafety: SafetyThresholds := SafetyThresholds(5.0, 10.0)

  /** The `eps` that keeps a reference baseline away from zero. */
  const RefFloor: real := 0.000000000001

  /** The x-channel keys every feature dictionary must carry. */
  const RequiredKeys: seq<string> := [
    "Time_skewness_x", "Time_kurtosis_x", "Time_rms_x", "Time_crestfactor_x",
    "Powerspectrum_skewness_x", "Powerspectrum_kurtosis_x", "Powerspectrum_rms_x",
    "Powerspectrum_crestfactor_x"]

  /** What is assumed of the natural logarithm behind `math.log1p` and `np.log`. */
  ghost predicate IsLn(ln: real -> real) {
    ln(1.0) == 0.0 && forall a: real, b: real :: 0.0 < a < b ==> ln(a) < ln(b)
  }

  predicate NonNegWeights(w: CVIWeights) {
    w.wTrms >= 0.0 && w.wTcf >= 0.0 && w.wFrms >= 0.0 && w.wFsk >= 0.0 && w.wFkurt >= 0.0
  }

  function Max(a: real, b: real): real { if a >= b then a else b }

  function Min(a: real, b: real): real { if a <= b then a else b }

  /** `winsor(x, lo, hi)`: a bound that is not given does not clamp. */
  function Winsor(x: real, lo: Option<real>, hi: Option<real>): (r: real)
    ensures lo.Some? && hi.Some? && lo.value <= hi.value ==> lo.value <= r <= hi.value
    ensures (lo.None? || lo.value <= x) && (hi.None? || x <= hi.value) ==> r == x
    ensures lo.None? && hi.None? ==> r == x
  {
    if lo.Some? && x < lo.value then lo.value
    else if hi.Some? && x > hi.value then hi.value
    else x
  }

  /** `math.log1p(x)`, written as the logarithm of `1 + x`. */
  function Log1p(ln: real -> real, x: real): real { ln(1.0 + x) }

  /** `log1p_compress`: the log1p of the non-negative part, so negative inputs are compressed as 0. */
  function Log1pCompress(ln: real -> real, x: real): (r: real)
    ensures x <= 0.0 ==> r == Log1p(ln, 0.0)
    ensures x >= 0.0 ==> r == Log1p(ln, x)
  {
    Log1p(ln, Max(x, 0.0))
  }

  lemma Log1pCompressNonNeg(ln: real -> real, x: real)
    requires IsLn(ln)
    ensures Log1pCompress(ln, x) >= 0.0
    ensures x <= 0.0 ==> Log1pCompress(ln, x) == 0.0
  {
    if x > 0.0 {
      assert ln(1.0) < ln(1.0 + x);
    }
  }

  lemma Log1pCompressMonotone(ln: real -> real, a: real, b: real)
    requires IsLn(ln) && a <= b
    ensures Log1pCompress(ln, a) <= Log1pCompress(ln, b)
  {
    var ma, mb := Max(a, 0.0), Max(b, 0.0);
    if ma < mb {
      assert ln(1.0 + ma) < ln(1.0 + mb);
    }
  }

  function AxisKey(base: string, axis: string): string { base + "_" + axis }

  /** `_max_axis(d, base)`: the maximum over the x, y and z channels; KeyError if one is absent. */
  function MaxAxis(d: Feats, base: string): (r: Result<real>)
    ensures r.Ok? <==> AxisKey(base, "x") in d && AxisKey(base, "y") in d && AxisKey(base, "z") in d
    ensures r.Ok? ==> r.value >= d[AxisKey(base, "x")] && r.value >= d[AxisKey(base, "y")]
                      && r.value >= d[AxisKey(base, "z")]
    ensures r.Ok? ==> r.value == d[AxisKey(base, "x")] || r.value == d[AxisKey(base, "y")]
                      || r.value == d[AxisKey(base, "z")]
    ensures r.Err? ==> r.error == KeyError
  {
    var kx, ky, kz := AxisKey(base, "x"), AxisKey(base, "y"), AxisKey(base, "z");
    if kx in d && ky in d && kz in d then Ok(Max(Max(d[kx], d[ky]), d[kz])) else Err(KeyError)
  }

  /** `_step_cost`: the squared distance between the previous position and a candidate. */
  function StepCost(px: real, py: real, cx: real, cy: real): (r: real)
    ensures r >= 0.0
    ensures px == cx && py == cy ==> r == 0.0
  {
    var dx, dy := cx - px, cy - py;
    SquareNonNeg(dx);
    SquareNonNeg(dy);
    dx * dx + dy * dy
  }

  /** A square is never negative. */
  lemma SquareNonNeg(d: real)
    ensures d * d >= 0.0
  {
    if d < 0.0 {
      assert d * d == (-d) * (-d);
    }
  }

  /** `_unsafe`: the time-domain RMS is checked first, the crest factor only when RMS passes. */
  function Unsafe(f: Feats, thr: SafetyThresholds): (r: Result<bool>)
    ensures MaxAxis(f, "Time_rms").Err? ==> r == Err(KeyError)
    ensures HasSafetyKeys(f) ==> r.Ok?
    ensures r.Err? ==> r.error == KeyError
  {
    var trms :- MaxAxis(f, "Time_rms");
    if trms > thr.timeRmsMax then Ok(true)
    else
      var tcf :- MaxAxis(f, "Time_crestfactor");
      Ok(tcf > thr.timeCfMax)
  }

  /** The six axis values the safety gate reads. */
  predicate HasSafetyKeys(f: Feats) {
    MaxAxis(f, "Time_rms").Ok? && MaxAxis(f, "Time_crestfactor").Ok?
  }

  /** Unsafe exactly when some channel strictly exceeds a threshold; equality is safe. */
  lemma UnsafeIff(f: Feats, thr: SafetyThresholds)
    requires "Time_rms_x" in f && "Time_rms_y" in f && "Time_rms_z" in f
    requires "Time_crestfactor_x" in f && "Time_crestfactor_y" in f && "Time_crestfactor_z" in f
    ensures Unsafe(f, thr).Ok?
    ensures Unsafe(f, thr).value <==>
      (f["Time_rms_x"] > thr.timeRmsMax || f["Time_rms_y"] > thr.timeRmsMax
       || f["Time_rms_z"] > thr.timeRmsMax
       || f["Time_crestfactor_x"] > thr.timeCfMax || f["Time_crestfactor_y"] > thr.timeCfMax
       || f["Time_crestfactor_z"] > thr.timeCfMax)
  {
    assert AxisKey("Time_rms", "x") == "Time_rms_x";
    assert AxisKey("Time_rms", "y") == "Time_rms_y";
    assert AxisKey("Time_rms", "z") == "Time_rms_z";
    assert AxisKey("Time_crestfactor", "x") == "Time_crestfactor_x";
    assert AxisKey("Time_crestfactor", "y") == "Time_crestfactor_y";
    assert AxisKey("Time_crestfactor", "z") == "Time_crestfactor_z";
  }

  /** A reading that lacks any one of the three RMS channels raises before anything is compared. */
  lemma UnsafeNeedsRmsAxes(f: Feats, thr: SafetyThresholds)
    requires "Time_rms_x" !in f || "Time_rms_y" !in f || "Time_rms_z" !in f
    ensures Unsafe(f, thr) == Err(KeyError)
  {
    assert AxisKey("Time_rms", "x") == "Time_rms_x";
    assert AxisKey("Time_rms", "y") == "Time_rms_y";
    assert AxisKey("Time_rms", "z") == "Time_rms_z";
  }

  predicate HasRequiredKeys(f: Feats) {
    forall i :: 0 <= i < |RequiredKeys| ==> RequiredKeys[i] in f
  }

  /** `value / max(ref, eps)`. */
  function Normalise(value: real, reference: real): real { value / Max(reference, RefFloor) }

  /** `cvi_components_normalized`: the required keys are checked first, then five axis maxima. */
  function Components(f: Feats, refs: SpecRefs, ln: real -> real): (r: Result<Comps>)
    ensures r.Err? ==> r.error == KeyError
  {
    if !HasRequiredKeys(f) then Err(KeyError)
    else
      var trms :- MaxAxis(f, "Time_rms");
      var tcf :- MaxAxis(f, "Time_crestfactor");
      var frms :- MaxAxis(f, "Powerspectrum_rms");
      var fsk :- MaxAxis(f, "Powerspectrum_skewness");
      var fkurt :- MaxAxis(f, "Powerspectrum_kurtosis");
      Ok(Comps(
        Log1pCompress(ln, Normalise(trms, refs.timeRms)),
        Log1pCompress(ln, Normalise(tcf, refs.timeCf)),
        Log1pCompress(ln, Normalise(frms, refs.frms)),
        Log1pCompress(ln, Winsor(Normalise(fsk, refs.fskew), Some(0.0), Some(100.0))),
        Log1pCompress(ln, Winsor(Normalise(fkurt, refs.fkurt), Some(0.0), Some(100.0)))))
  }

  /** The keys `Components` reads: the required list and the three channels of five metrics. */
  predicate HasComponentKeys(f: Feats) {
    HasRequiredKeys(f)
    && MaxAxis(f, "Time_rms").Ok? && MaxAxis(f, "Time_crestfactor").Ok?
    && MaxAxis(f, "Powerspectrum_rms").Ok? && MaxAxis(f, "Powerspectrum_skewness").Ok?
    && MaxAxis(f, "Powerspectrum_kurtosis").Ok?
  }

  lemma ComponentsDefinedIff(f: Feats, refs: SpecRefs, ln: real -> real)
    ensures Components(f, refs, ln).Ok? <==> HasComponentKeys(f)
  {
  }

  /** Every component is non-negative; skewness and kurtosis are capped at log1p(100). */
  lemma ComponentsBounds(f: Feats, refs: SpecRefs, ln: real -> real)
    requires IsLn(ln) && Components(f, refs, ln).Ok?
    ensures var c := Components(f, refs, ln).value;
      c.trms >= 0.0 && c.tcf >= 0.0 && c.frms >= 0.0 && 0.0 <= c.fsk <= ln(101.0)
      && 0.0 <= c.fkurt <= ln(101.0)
  {
    var c := Components(f, refs, ln).value;
    var fsk := Winsor(Normalise(MaxAxis(f, "Powerspectrum_skewness").value, refs.fskew), Some(0.0), Some(100.0));
    var fkurt := Winsor(Normalise(MaxAxis(f, "Powerspectrum_kurtosis").value, refs.fkurt), Some(0.0), Some(100.0));
    Log1pCompressNonNeg(ln, Normalise(MaxAxis(f, "Time_rms").value, refs.timeRms));
    Log1pCompressNonNeg(ln, Normalise(MaxAxis(f, "Time_crestfactor").value, refs.timeCf));
    Log1pCompressNonNeg(ln, Normalise(MaxAxis(f, "Powerspectrum_rms").value, refs.frms));
    Log1pCompressNonNeg(ln, fsk);
    Log1pCompressNonNeg(ln, fkurt);
    Log1pCompressMonotone(ln, fsk, 100.0);
    Log1pCompressMonotone(ln, fkurt, 100.0);
  }

  /** The weighted sum of the components, the CVI. */
  function WeightedSum(w: CVIWeights, c: Comps): real {
    w.wTrms * c.trms + w.wTcf * c.tcf + w.wFrms * c.frms + w.wFsk * c.fsk + w.wFkurt * c.fkurt
  }

  /** `composite_vibration_index_A`: the negated CVI. */
  function CompositeIndexA(f: Feats, w: CVIWeights, refs: SpecRefs, ln: real -> real): (r: Result<real>)
    ensures r.Ok? <==> Components(f, refs, ln).Ok?
    ensures r.Ok? ==> r.value == -WeightedSum(w, Components(f, refs, ln).value)
  {
    var c :- Components(f, refs, ln);
    Ok(-WeightedSum(w, c))
  }

  /** `reward_from_feats_A`: the negated CVI plus the move penalty. */
  function RewardFromFeats(f: Feats, w: CVIWeights, refs: SpecRefs, ln: real -> real,
                           movePenalty: real): (r: Result<real>)
    ensures r.Ok? <==> Components(f, refs, ln).Ok?
    ensures r.Ok? ==> r.value == CompositeIndexA(f, w, refs, ln).value + movePenalty
  {
    var cvi :- CompositeIndexA(f, w, refs, ln);
    Ok(cvi + movePenalty)
  }

  /** The reward of a safe candidate, written out in terms of its components and its move. */
  lemma RewardFormula(f: Feats, w: CVIWeights, refs: SpecRefs, ln: real -> real,
                      lambdaMove: real, px: real, py: real, cx: real, cy: real)
    requires Components(f, refs, ln).Ok?
    ensures var c := Components(f, refs, ln).value;
      RewardFromFeats(f, w, refs, ln, lambdaMove * StepCost(px, py, cx, cy)).value
      == -(w.wTrms * c.trms + w.wTcf * c.tcf + w.wFrms * c.frms + w.wFsk * c.fsk
           + w.wFkurt * c.fkurt)
         + lambdaMove * ((cx - px) * (cx - px) + (cy - py) * (cy - py))
  {
  }

  /** With non-negative weights the CVI never decreases when a component grows. */
  lemma WeightedSumMonotone(w: CVIWeights, c1: Comps, c2: Comps)
    requires NonNegWeights(w)
    requires c1.trms <= c2.trms && c1.tcf <= c2.tcf && c1.frms <= c2.frms
    requires c1.fsk <= c2.fsk && c1.fkurt <= c2.fkurt
    ensures WeightedSum(w, c1) <= WeightedSum(w, c2)
  {
    assert w.wTrms * c1.trms <= w.wTrms * c2.trms;
    assert w.wTcf * c1.tcf <= w.wTcf * c2.tcf;
    assert w.wFrms * c1.frms <= w.wFrms * c2.frms;
    assert w.wFsk * c1.fsk <= w.wFsk * c2.fsk;
    assert w.wFkurt * c1.fkurt <= w.wFkurt * c2.fkurt;
  }

  lemma NormaliseMonotone(a: real, b: real, reference: real)
    requires a <= b
    ensures Normalise(a, reference) <= Normalise(b, reference)
  {
    var d := Max(reference, RefFloor);
    assert a / d <= b / d by {
      assert b / d - a / d == (b - a) / d;
    }
  }

  lemma WinsorMonotone(a: real, b: real, lo: Option<real>, hi: Option<real>)
    requires a <= b
    requires lo.Some? && hi.Some? && lo.value <= hi.value
    ensures Winsor(a, lo, hi) <= Winsor(b, lo, hi)
  {
  }

  /** One channel-wise comparison: every key of `f2` is in `f1` and not smaller there. */
  predicate Dominates(f1: Feats, f2: Feats) {
    f1.Keys == f2.Keys && forall k :: k in f2 ==> f2[k] <= f1[k]
  }

  lemma MaxAxisMonotone(f1: Feats, f2: Feats, base: string)
    requires Dominates(f1, f2) && MaxAxis(f2, base).Ok?
    ensures MaxAxis(f1, base).Ok? && MaxAxis(f2, base).value <= MaxAxis(f1, base).value
  {
  }

  /** Reward is non-increasing in vibration: a reading that is larger on every channel scores lower. */
  lemma RewardMonotone(f1: Feats, f2: Feats, w: CVIWeights, refs: SpecRefs, ln: real -> real,
                       movePenalty: real)
    requires IsLn(ln) && NonNegWeights(w)
    requires Dominates(f1, f2) && Components(f2, refs, ln).Ok?
    ensures RewardFromFeats(f1, w, refs, ln, movePenalty).Ok?
    ensures RewardFromFeats(f1, w, refs, ln, movePenalty).value
            <= RewardFromFeats(f2, w, refs, ln, movePenalty).value
  {
    MaxAxisMonotone(f1, f2, "Time_rms");
    MaxAxisMonotone(f1, f2, "Time_crestfactor");
    MaxAxisMonotone(f1, f2, "Powerspectrum_rms");
    MaxAxisMonotone(f1, f2, "Powerspectrum_skewness");
    MaxAxisMonotone(f1, f2, "Powerspectrum_kurtosis");
    assert HasComponentKeys(f1);
    ComponentsDefinedIff(f1, refs, ln);
    var c1, c2 := Components(f1, refs, ln).value, Components(f2, refs, ln).value;
    NormaliseMonotone(MaxAxis(f2, "Time_rms").value, MaxAxis(f1, "Time_rms").value, refs.timeRms);
    Log1pCompressMonotone(ln, Normalise(MaxAxis(f2, "Time_rms").value, refs.timeRms),
                              Normalise(MaxAxis(f1, "Time_rms").value, refs.timeRms));
    NormaliseMonotone(MaxAxis(f2, "Time_crestfactor").value, MaxAxis(f1, "Time_crestfactor").value,
                      refs.timeCf);
    Log1pCompressMonotone(ln, Normalise(MaxAxis(f2, "Time_crestfactor").value, refs.timeCf),
                              Normalise(MaxAxis(f1, "Time_crestfactor").value, refs.timeCf));
    NormaliseMonotone(MaxAxis(f2, "Powerspectrum_rms").value, MaxAxis(f1, "Powerspectrum_rms").value,
                      refs.frms);
    Log1pCompressMonotone(ln, Normalise(MaxAxis(f2, "Powerspectrum_rms").value, refs.frms),
                              Normalise(MaxAxis(f1, "Powerspectrum_rms").value, refs.frms));
    var s1 := Normalise(MaxAxis(f1, "Powerspectrum_skewness").value, refs.fskew);
    var s2 := Normalise(MaxAxis(f2, "Powerspectrum_skewness").value, refs.fskew);
    NormaliseMonotone(MaxAxis(f2, "Powerspectrum_skewness").value,
                      MaxAxis(f1, "Powerspectrum_skewness").value, refs.fskew);
    WinsorMonotone(s2, s1, Some(0.0), Some(100.0));
    Log1pCompressMonotone(ln, Winsor(s2, Some(0.0), Some(100.0)), Winsor(s1, Some(0.0), Some(100.0)));
    var k1 := Normalise(MaxAxis(f1, "Powerspectrum_kurtosis").value, refs.fkurt);
    var k2 := Normalise(MaxAxis(f2, "Powerspectrum_kurtosis").value, refs.fkurt);
    NormaliseMonotone(MaxAxis(f2, "Powerspectrum_kurtosis").value,
                      MaxAxis(f1, "Powerspectrum_kurtosis").value, refs.fkurt);
    WinsorMonotone(k2, k1, Some(0.0), Some(100.0));
    Log1pCompressMonotone(ln, Winsor(k2, Some(0.0), Some(100.0)), Winsor(k1, Some(0.0), Some(100.0)));
    WeightedSumMonotone(w, c2, c1);
  }
}
