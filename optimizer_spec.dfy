/**
 * What one step of the top-1-of-3 optimizer (class `Top1of3WithRunAnalysis` in
 * RL/Control/control_test.py) does, as functions of the optimizer's state: the triangle of
 * candidates, the repeated measurement of a candidate, the round over the three candidates,
 * the safety and step-size decision, the low-pass move, and the `run` loop.
 *
 * The measurement function `run_fn(x, y)` is the oracle `run`: its n-th call at a point gives a
 * reading or an exception. The points it has been called at are kept in `probes`, so the n-th
 * call is `run(|probes|, p)`.
 */
module OptimizerSpec {
  import opened Wrappers
  import opened Scoring
  import opened Stats
  import opened Selection

  datatype Limits = Limits(xMin: real, xMax: real, yMin: real, yMax: real)

  datatype StepConfig = StepConfig(sigX: real, sigY: real, sigXMin: real, sigYMin: real,
                                   sigXMax: real, sigYMax: real, upScale: real, downScale: real)

  datatype RLConfig = RLConfig(alpha: real, k: int, epsilon: real, lambdaMove: real,
                               maxIters: int, patience: int, useRank: bool, breakTies: bool)

  const DefaultSteps: StepConfig := StepConfig(0.05, 0.05, 0.005, 0.005, 0.3, 0.3, 1.2, 0.8)
  const DefaultRL: RLConfig := RLConfig(0.3, 1, 0.001, 0.0, 60, 6, false, true)

  datatype Point = Point(x: real, y: real)

  /** `best_reward`, which starts at minus infinity. */
  datatype ExtReal = NegInf | Finite(v: real)

  predicate ExtLe(a: ExtReal, b: ExtReal) {
    a.NegInf? || (b.Finite? && a.v <= b.v)
  }

  /** The n-th call of the measurement function at a point. */
  type RunFn = (nat, Point) -> Result<Feats>

  /** What the optimizer object holds fixed. */
  datatype Env = Env(run: RunFn, lim: Limits, cfg: RLConfig, w: CVIWeights,
                     thr: SafetyThresholds, refs: SpecRefs, ln: real -> real)

  /** What the optimizer object changes: position, step sizes, best reward, counter, probes. */
  datatype OptState = OptState(pos: Point, steps: StepConfig, best: ExtReal, cnt: int,
                               probes: seq<Point>)

  /** The reward recorded for an unsafe candidate. */
  const UnsafeReward: real := -1000000000.0

  datatype Measured = Measured(feats: Feats, unsafe: bool)
  datatype Cand = Cand(p: Point, feats: Feats, unsafe: bool, reward: real)
  datatype Chosen = Chosen(p: Point, index: nat)
  /** `debug_info`: every candidate, and the chosen one when there is one. */
  datatype Debug = Debug(cands: seq<Cand>, chosen: Option<Chosen>)
  /** What `iterate` returns: the new position, `best_reward` and the debug record. */
  datatype IterOut = IterOut(pos: Point, best: ExtReal, debug: Debug)
  /**
   * One record of `self.history`: the one `run()` appends, and the shorter one that the A-client's
   * stop-checking loop appends (RL/test_RL_network.py) to the same list.
   */
  datatype HistoryEntry =
    | HistoryEntry(iteration: int, pos: Point, best: ExtReal, sigX: real, sigY: real, cnt: int,
                   debug: Debug)
    | StopCheckEntry(iteration: int, pos: Point, reward: ExtReal, debug: Debug)

  /** A result together with the probes made so far. */
  datatype Step<T> = Step(res: Result<T>, probes: seq<Point>)
  datatype IterStep = IterStep(res: Result<IterOut>, st: OptState)
  /** What `run()` returns: the final position and `best_reward`. */
  datatype RunOut = RunOut(pos: Point, best: ExtReal)
  datatype RunStep = RunStep(res: Result<RunOut>, st: OptState, history: seq<HistoryEntry>)

  // ---------------------------------------------------------------- geometry

  predicate ValidLimits(lim: Limits) { lim.xMin <= lim.xMax && lim.yMin <= lim.yMax }

  predicate InLimits(lim: Limits, p: Point) {
    lim.xMin <= p.x <= lim.xMax && lim.yMin <= p.y <= lim.yMax
  }

  /** `_clip_xy`: `max(lo, min(hi, v))` on each coordinate. */
  function Clip(lim: Limits, p: Point): (r: Point)
    ensures ValidLimits(lim) ==> InLimits(lim, r)
    ensures InLimits(lim, p) ==> r == p
    ensures ValidLimits(lim) && lim.xMin <= p.x <= lim.xMax ==> r.x == p.x
    ensures ValidLimits(lim) && lim.yMin <= p.y <= lim.yMax ==> r.y == p.y
  {
    Point(Max(lim.xMin, Min(lim.xMax, p.x)), Max(lim.yMin, Min(lim.yMax, p.y)))
  }

  /** `_triangle_perturbations`. */
  function Perturbations(sx: real, sy: real): seq<Point> {
    [Point(sx, 0.0), Point(-0.5 * sx, 0.866 * sy), Point(-0.5 * sx, -0.866 * sy)]
  }

  /** The three candidates of a round, each offset clipped on its own. */
  function Candidates(lim: Limits, pos: Point, steps: StepConfig): (r: seq<Point>)
    ensures |r| == 3
    ensures forall i :: 0 <= i < 3 ==> ValidLimits(lim) ==> InLimits(lim, r[i])
  {
    var d := Perturbations(steps.sigX, steps.sigY);
    seq(3, i requires 0 <= i < 3 => Clip(lim, Point(pos.x + d[i].x, pos.y + d[i].y)))
  }

  /** Inside wide enough limits the candidates are the triangle offsets themselves. */
  lemma CandidatesUnclipped(lim: Limits, pos: Point, steps: StepConfig)
    requires ValidLimits(lim)
    requires InLimits(lim, Point(pos.x + steps.sigX, pos.y))
    requires InLimits(lim, Point(pos.x - 0.5 * steps.sigX, pos.y + 0.866 * steps.sigY))
    requires InLimits(lim, Point(pos.x - 0.5 * steps.sigX, pos.y - 0.866 * steps.sigY))
    ensures Candidates(lim, pos, steps) == [
      Point(pos.x + steps.sigX, pos.y),
      Point(pos.x - 0.5 * steps.sigX, pos.y + 0.866 * steps.sigY),
      Point(pos.x - 0.5 * steps.sigX, pos.y - 0.866 * steps.sigY)]
  {
    var r := Candidates(lim, pos, steps);
    assert r[0] == Point(pos.x + steps.sigX, pos.y);
    assert r[1] == Point(pos.x - 0.5 * steps.sigX, pos.y + 0.866 * steps.sigY);
    assert r[2] == Point(pos.x - 0.5 * steps.sigX, pos.y - 0.866 * steps.sigY);
  }

  // ---------------------------------------------------------------- measurement

  /**
   * The rest of `_measure_feats_at` once `batch` holds the safe readings so far: another call
   * while fewer than `k` were made, stopping at the first unsafe reading; then the single
   * reading itself or the per-key median.
   */
  function MeasureLoop(env: Env, p: Point, k: int, batch: seq<Feats>, probes: seq<Point>)
    : (r: Step<Measured>)
    decreases k - |batch|
    ensures |probes| <= |r.probes| && r.probes[..|probes|] == probes
    ensures forall i :: |probes| <= i < |r.probes| ==> r.probes[i] == p
    ensures |r.probes| - |probes| <= if k - |batch| < 0 then 0 else k - |batch|
  {
    if |batch| >= k then Step(Finish(batch), probes)
    else
      var next := probes + [p];
      match env.run(|probes|, p)
      case Err(e) => Step(Err(e), next)
      case Ok(f) =>
        match Unsafe(f, env.thr)
        case Err(e) => Step(Err(e), next)
        case Ok(bad) =>
          if bad then Step(Ok(Measured(f, true)), next)
          else MeasureLoop(env, p, k, batch + [f], next)
  }

  /** `batch[0] if len(batch) == 1 else _median_feats(batch)`. */
  function Finish(batch: seq<Feats>): (r: Result<Measured>)
    ensures r.Ok? ==> !r.value.unsafe
  {
    if |batch| == 1 then Ok(Measured(batch[0], false))
    else
      var m :- PerKeyMedian(batch);
      Ok(Measured(m, false))
  }

  /** `_measure_feats_at(p, k)`. */
  function Measure(env: Env, p: Point, k: int, probes: seq<Point>): (r: Step<Measured>)
    ensures |probes| <= |r.probes| <= |probes| + (if k < 0 then 0 else k) && r.probes[..|probes|] == probes
    ensures forall i :: |probes| <= i < |r.probes| ==> r.probes[i] == p
  {
    MeasureLoop(env, p, k, [], probes)
  }

  /** With no measurement to make, the per-key median of nothing fails on `batch[0]`. */
  lemma MeasureNoCalls(env: Env, p: Point, k: int, probes: seq<Point>)
    requires k <= 0
    ensures Measure(env, p, k, probes) == Step(Err(IndexError), probes)
  {
  }

  /** One safe reading is returned unchanged. */
  lemma MeasureSingle(env: Env, p: Point, probes: seq<Point>, f: Feats)
    requires env.run(|probes|, p) == Ok(f) && Unsafe(f, env.thr) == Ok(false)
    ensures Measure(env, p, 1, probes) == Step(Ok(Measured(f, false)), probes + [p])
  {
  }

  /** An unsafe result is the latest reading itself, and it is unsafe. */
  lemma {:induction false} MeasureUnsafeIsReading(env: Env, p: Point, k: int, batch: seq<Feats>,
                                                  probes: seq<Point>)
    requires MeasureLoop(env, p, k, batch, probes).res.Ok?
    requires MeasureLoop(env, p, k, batch, probes).res.value.unsafe
    decreases k - |batch|
    ensures var r := MeasureLoop(env, p, k, batch, probes);
      |probes| < |r.probes|
      && env.run(|r.probes| - 1, p) == Ok(r.res.value.feats)
      && Unsafe(r.res.value.feats, env.thr) == Ok(true)
  {
    if |batch| < k {
      var next := probes + [p];
      var f := env.run(|probes|, p).value;
      if Unsafe(f, env.thr) == Ok(false) {
        MeasureUnsafeIsReading(env, p, k, batch + [f], next);
      }
    }
  }

  /** A safe result comes from exactly `k` calls that each gave a safe reading. */
  lemma {:induction false} MeasureSafeUsesAllCalls(env: Env, p: Point, k: int, batch: seq<Feats>,
                                                   probes: seq<Point>)
    requires |batch| <= k
    requires MeasureLoop(env, p, k, batch, probes).res.Ok?
    requires !MeasureLoop(env, p, k, batch, probes).res.value.unsafe
    decreases k - |batch|
    ensures var r := MeasureLoop(env, p, k, batch, probes);
      |r.probes| - |probes| == k - |batch|
      && forall i :: |probes| <= i < |r.probes| ==>
           env.run(i, p).Ok? && Unsafe(env.run(i, p).value, env.thr) == Ok(false)
  {
    if |batch| < k {
      var next := probes + [p];
      var f := env.run(|probes|, p).value;
      MeasureSafeUsesAllCalls(env, p, k, batch + [f], next);
    }
  }

  // ---------------------------------------------------------------- one round

  /** `lambda_move * _step_cost(prev, c)`, added to the reward of a safe candidate. */
  function MovePenalty(env: Env, prev: Point, c: Point): real {
    env.cfg.lambdaMove * StepCost(prev.x, prev.y, c.x, c.y)
  }

  /** What a candidate record says about the candidate it was measured at. */
  predicate CandFor(env: Env, prev: Point, c: Point, cand: Cand) {
    cand.p == c
    && (cand.unsafe ==> cand.reward == UnsafeReward && Unsafe(cand.feats, env.thr) == Ok(true))
    && (!cand.unsafe ==>
          RewardFromFeats(cand.feats, env.w, env.refs, env.ln,
                          MovePenalty(env, prev, c))
          == Ok(cand.reward))
  }

  /**
   * One pass of the measuring loop of `iterate`: measure the candidate; an unsafe one gets
   * `UnsafeReward`, a safe one the reward with the move penalty (which may raise a KeyError).
   */
  function MeasureCand(env: Env, prev: Point, c: Point, probes: seq<Point>): (r: Step<Cand>)
    ensures |probes| <= |r.probes| && r.probes[..|probes|] == probes
    ensures forall i :: |probes| <= i < |r.probes| ==> r.probes[i] == c
    ensures r.res.Ok? ==> CandFor(env, prev, c, r.res.value)
  {
    var m := Measure(env, c, env.cfg.k, probes);
    match m.res
    case Err(e) => Step(Err(e), m.probes)
    case Ok(ms) =>
      if ms.unsafe then
        MeasureUnsafeIsReading(env, c, env.cfg.k, [], probes);
        Step(Ok(Cand(c, ms.feats, true, UnsafeReward)), m.probes)
      else
        match RewardFromFeats(ms.feats, env.w, env.refs, env.ln,
                              MovePenalty(env, prev, c))
        case Err(e) => Step(Err(e), m.probes)
        case Ok(reward) => Step(Ok(Cand(c, ms.feats, false, reward)), m.probes)
  }

  /** The rest of the measuring loop of `iterate` once `acc` holds the first candidates. */
  function RoundLoop(env: Env, prev: Point, cands: seq<Point>, acc: seq<Cand>, probes: seq<Point>)
    : (r: Step<seq<Cand>>)
    requires |acc| <= |cands|
    decreases |cands| - |acc|
    ensures |probes| <= |r.probes| && r.probes[..|probes|] == probes
    ensures forall i :: |probes| <= i < |r.probes| ==> r.probes[i] in cands[|acc|..]
    ensures r.res.Ok? ==> |r.res.value| == |cands| && r.res.value[..|acc|] == acc
    ensures r.res.Ok? ==> forall i :: |acc| <= i < |cands| ==> CandFor(env, prev, cands[i], r.res.value[i])
  {
    if |acc| == |cands| then Step(Ok(acc), probes)
    else
      var s := MeasureCand(env, prev, cands[|acc|], probes);
      match s.res
      case Err(e) => Step(Err(e), s.probes)
      case Ok(cand) =>
        var r := RoundLoop(env, prev, cands, acc + [cand], s.probes);
        assert r.res.Ok? ==> r.res.value[|acc|] == r.res.value[..|acc| + 1][|acc|];
        r
  }

  // ---------------------------------------------------------------- the decision

  /** `max(sig * down_scale, sig_min)` on both axes. */
  function Shrink(s: StepConfig): StepConfig {
    s.(sigX := Max(s.sigX * s.downScale, s.sigXMin), sigY := Max(s.sigY * s.downScale, s.sigYMin))
  }

  /** `min(sig * up_scale, sig_max)` on both axes. */
  function Grow(s: StepConfig): StepConfig {
    s.(sigX := Min(s.sigX * s.upScale, s.sigXMax), sigY := Min(s.sigY * s.upScale, s.sigYMax))
  }

  /** `r_best > best_reward + epsilon`; every finite reward beats minus infinity. */
  predicate Improves(r: real, best: ExtReal, eps: real) {
    best.NegInf? || r > best.v + eps
  }

  /** `(1 - alpha) * a + alpha * b`. */
  function Blend(alpha: real, a: real, b: real): real { (1.0 - alpha) * a + alpha * b }

  function Flags(cs: seq<Cand>): (r: seq<bool>)
    ensures |r| == |cs| && forall i :: 0 <= i < |cs| ==> r[i] == cs[i].unsafe
  {
    seq(|cs|, i requires 0 <= i < |cs| => cs[i].unsafe)
  }

  function Rewards(cs: seq<Cand>): (r: seq<real>)
    ensures |r| == |cs| && forall i :: 0 <= i < |cs| ==> r[i] == cs[i].reward
  {
    seq(|cs|, i requires 0 <= i < |cs| => cs[i].reward)
  }

  function FeatsOf(cs: seq<Cand>): (r: seq<Feats>)
    ensures |r| == |cs| && forall i :: 0 <= i < |cs| ==> r[i] == cs[i].feats
  {
    seq(|cs|, i requires 0 <= i < |cs| => cs[i].feats)
  }

  predicate AnyUnsafe(cs: seq<Cand>) { exists i :: 0 <= i < |cs| && cs[i].unsafe }
  predicate AllUnsafe(cs: seq<Cand>) { forall i :: 0 <= i < |cs| ==> cs[i].unsafe }

  /** The winner's index: the largest reward, or the rank rule (which may raise a KeyError). */
  function Choose(env: Env, cs: seq<Cand>): (r: Result<nat>)
    requires !AllUnsafe(cs)
    ensures r.Ok? ==> r.value < |cs| && !cs[r.value].unsafe
    ensures r.Err? ==> env.cfg.useRank && r.error == KeyError
  {
    var safe := SafeIdxs(Flags(cs));
    var i :| 0 <= i < |cs| && !cs[i].unsafe;
    assert i in safe;
    var rewards := Rewards(cs);
    if env.cfg.useRank then
      var scores :- RankAggregate(FeatsOf(cs), env.w, env.refs, env.ln);
      Ok(RankWinner(env.cfg.breakTies, rewards, scores, safe))
    else Ok(RewardWinner(rewards, safe))
  }
  /**
   * Rank mode: a safe candidate strictly better than every other candidate on all five
   * normalised components is the one chosen, with or without tie-breaking, when the weights are
   * non-negative and sum to at least the tie tolerance.
   */
  lemma ChooseRankStrictBest(env: Env, cs: seq<Cand>, i: nat)
    requires env.cfg.useRank && NonNegWeights(env.w) && WeightTotal(env.w) >= TieTol
    requires i < |cs| && !cs[i].unsafe
    requires AllComponents(FeatsOf(cs), env.refs, env.ln).Ok?
    requires StrictlyBest(AllComponents(FeatsOf(cs), env.refs, env.ln).value, i)
    ensures Choose(env, cs) == Ok(i)
  {
    var comps := AllComponents(FeatsOf(cs), env.refs, env.ln).value;
    var safe := SafeIdxs(Flags(cs));
    assert i in safe;
    StrictBestWins(env.cfg.breakTies, Rewards(cs), comps, env.w, safe, i);
  }


  /**
   * The part of `iterate` after the three measurements: shrink on any unsafe candidate; stay
   * and count when all are unsafe; otherwise choose, adapt the step sizes on the continuous
   * reward, and move by the low-pass filter, clipped.
   */
  function Decide(env: Env, st: OptState, cs: seq<Cand>): (r: IterStep)
    ensures r.st.probes == st.probes
  {
    var st1 := if AnyUnsafe(cs) then st.(steps := Shrink(st.steps)) else st;
    if AllUnsafe(cs) then // every candidate unsafe, or no safe index at all
      IterStep(Ok(IterOut(st1.pos, st1.best, Debug(cs, None))), st1.(cnt := st1.cnt + 1))
    else
      match Choose(env, cs)
      case Err(e) => IterStep(Err(e), st1)
      case Ok(i) =>
        var st2 := Adapt(env, st1, cs[i].reward);
        var pos := MoveTowards(env.cfg.alpha, env.lim, st1.pos, cs[i].p);
        IterStep(Ok(IterOut(pos, st2.best, Debug(cs, Some(Chosen(cs[i].p, i))))), st2.(pos := pos))
  }

  /**
   * Step-size adaptation on the winner's continuous reward: an improvement by more than epsilon
   * becomes the best reward, resets the counter and grows the steps; anything else counts and
   * shrinks them.
   */
  function Adapt(env: Env, st: OptState, reward: real): (r: OptState)
    ensures r.pos == st.pos && r.probes == st.probes
    ensures r.cnt == 0 || r.cnt == st.cnt + 1
  {
    if Improves(reward, st.best, env.cfg.epsilon) then
      st.(best := Finite(reward), cnt := 0, steps := Grow(st.steps))
    else st.(cnt := st.cnt + 1, steps := Shrink(st.steps))
  }

  /** The low-pass move towards `target`, clipped to the limits. */
  function MoveTowards(alpha: real, lim: Limits, pos: Point, target: Point): Point {
    Clip(lim, Point(Blend(alpha, pos.x, target.x), Blend(alpha, pos.y, target.y)))
  }

  /** `iterate()`. */
  function Iterate(env: Env, st: OptState): (r: IterStep) {
    var cands := Candidates(env.lim, st.pos, st.steps);
    var rd := RoundLoop(env, st.pos, cands, [], st.probes);
    match rd.res
    case Err(e) => IterStep(Err(e), st.(probes := rd.probes))
    case Ok(cs) => Decide(env, st.(probes := rd.probes), cs)
  }

  /** The candidates of a completed round, when the round completes. */
  function RoundOf(env: Env, st: OptState): Step<seq<Cand>> {
    RoundLoop(env, st.pos, Candidates(env.lim, st.pos, st.steps), [], st.probes)
  }

  // ---------------------------------------------------------------- run

  /** The history record `run()` appends after iteration number `it`. */
  function Entry(it: int, o: IterOut, st: OptState): HistoryEntry {
    HistoryEntry(it, o.pos, o.best, st.steps.sigX, st.steps.sigY, st.cnt, o.debug)
  }

  /** `iterate()` as a step from one optimizer state to the next. */
  function IterateFn(env: Env): OptState -> IterStep {
    st => Iterate(env, st)
  }

  /**
   * The rest of `run()` after `it` iterations, over the iteration step `step`: iterate while
   * `it < maxIters` and the counter is below `patience`, appending one history entry per
   * iteration. An exception from the step propagates and leaves that iteration out of the history.
   */
  function RunLoop(maxIters: int, patience: int, step: OptState -> IterStep, st: OptState, it: int,
                   history: seq<HistoryEntry>): (r: RunStep)
    decreases maxIters - it
    ensures |history| <= |r.history| && r.history[..|history|] == history
    ensures |r.history| - |history| <= if maxIters - it < 0 then 0 else maxIters - it
    ensures forall j :: |history| <= j < |r.history| ==>
      r.history[j].HistoryEntry? && r.history[j].iteration == it + 1 + (j - |history|)
      && (j < |r.history| - 1 ==> r.history[j].cnt < patience)
    ensures r.res.Ok? ==> r.res.value == RunOut(r.st.pos, r.st.best)
    ensures r.res.Ok? ==> r.st.cnt >= patience || it + (|r.history| - |history|) >= maxIters
    ensures st.cnt >= patience ==> r == RunStep(Ok(RunOut(st.pos, st.best)), st, history)
    ensures r.res.Ok? && |history| < |r.history| ==> r.history[|r.history| - 1].cnt == r.st.cnt
  {
    if it < maxIters && st.cnt < patience then
      var s := step(st);
      match s.res
      case Err(e) => RunStep(Err(e), s.st, history)
      case Ok(o) =>
        var h := history + [Entry(it + 1, o, s.st)];
        var r := RunLoop(maxIters, patience, step, s.st, it + 1, h);
        assert r.history[|history|] == r.history[..|h|][|history|];
        r
    else RunStep(Ok(RunOut(st.pos, st.best)), st, history)
  }

  /** `run()`. */
  function Run(env: Env, st: OptState): (r: RunStep)
    ensures |r.history| <= if env.cfg.maxIters < 0 then 0 else env.cfg.maxIters
    ensures r.res.Ok? ==> r.res.value == RunOut(r.st.pos, r.st.best)
    ensures st.cnt >= env.cfg.patience ==> r.history == [] && r.st == st
  {
    RunLoop(env.cfg.maxIters, env.cfg.patience, IterateFn(env), st, 0, [])
  }

  /**
   * Over a whole run the step sizes stay within their bounds and the best reward never drops,
   * for any step that keeps both.
   */
  lemma {:induction false} RunLoopInvariants(maxIters: int, patience: int, step: OptState -> IterStep,
                                             st: OptState, it: int, history: seq<HistoryEntry>)
    requires forall s: OptState :: StepsValid(s.steps) ==> StepsValid(step(s).st.steps)
    requires forall s: OptState :: ExtLe(s.best, step(s).st.best)
    requires StepsValid(st.steps)
    decreases maxIters - it
    ensures var r := RunLoop(maxIters, patience, step, st, it, history);
      StepsValid(r.st.steps) && ExtLe(st.best, r.st.best)
  {
    if it < maxIters && st.cnt < patience {
      var s := step(st);
      if s.res.Ok? {
        RunLoopInvariants(maxIters, patience, step, s.st, it + 1,
                          history + [Entry(it + 1, s.res.value, s.st)]);
      }
    }
  }

  // ---------------------------------------------------------------- properties

  /** The step sizes lie within their bounds and the scales do not flip shrinking and growing. */
  predicate StepsValid(s: StepConfig) {
    0.0 <= s.sigXMin <= s.sigX <= s.sigXMax && 0.0 <= s.sigYMin <= s.sigY <= s.sigYMax
    && s.downScale <= 1.0 && 1.0 <= s.upScale
  }

  /** The product `s * a`, no larger than `s` when `a <= 1`. */
  lemma ScaleDown(s: real, a: real) returns (t: real)
    requires s >= 0.0 && a <= 1.0
    ensures t == s * a && t <= s
  {
    t := s * a;
    assert s - s * a == s * (1.0 - a);
  }

  /** The product `s * a`, no smaller than `s` when `a >= 1`. */
  lemma ScaleUp(s: real, a: real) returns (t: real)
    requires s >= 0.0 && a >= 1.0
    ensures t == s * a && t >= s
  {
    t := s * a;
    assert s * a - s == s * (a - 1.0);
  }

  lemma ShrinkValid(s: StepConfig)
    requires StepsValid(s)
    ensures StepsValid(Shrink(s))
    ensures Shrink(s).sigX <= s.sigX && Shrink(s).sigY <= s.sigY
  {
    var tx := ScaleDown(s.sigX, s.downScale);
    var ty := ScaleDown(s.sigY, s.downScale);
  }

  lemma GrowValid(s: StepConfig)
    requires StepsValid(s)
    ensures StepsValid(Grow(s))
    ensures s.sigX <= Grow(s).sigX && s.sigY <= Grow(s).sigY
  {
    var tx := ScaleUp(s.sigX, s.upScale);
    var ty := ScaleUp(s.sigY, s.upScale);
  }

  /** The step sizes chosen by `Decide` stay within their bounds. */
  lemma DecideStepsValid(env: Env, st: OptState, cs: seq<Cand>)
    requires StepsValid(st.steps)
    ensures StepsValid(Decide(env, st, cs).st.steps)
  {
    ShrinkValid(st.steps);
    ShrinkValid(Shrink(st.steps));
    GrowValid(st.steps);
    GrowValid(Shrink(st.steps));
  }

  /** Both step sizes stay within [min, max] through every iteration, even one that raises. */
  lemma IterateStepsValid(env: Env, st: OptState)
    requires StepsValid(st.steps)
    ensures StepsValid(Iterate(env, st).st.steps)
  {
    var rd := RoundOf(env, st);
    if rd.res.Ok? {
      DecideStepsValid(env, st.(probes := rd.probes), rd.res.value);
    }
  }

  /** With a non-negative epsilon, `best_reward` never decreases. */
  lemma AdaptBestMonotone(env: Env, st: OptState, reward: real)
    requires env.cfg.epsilon >= 0.0
    ensures ExtLe(st.best, Adapt(env, st, reward).best)
  {
  }

  lemma DecideBestMonotone(env: Env, st: OptState, cs: seq<Cand>)
    requires env.cfg.epsilon >= 0.0
    ensures ExtLe(st.best, Decide(env, st, cs).st.best)
  {
    var st1 := if AnyUnsafe(cs) then st.(steps := Shrink(st.steps)) else st;
    if !AllUnsafe(cs) && Choose(env, cs).Ok? {
      AdaptBestMonotone(env, st1, cs[Choose(env, cs).value].reward);
    }
  }

  lemma IterateBestMonotone(env: Env, st: OptState)
    requires env.cfg.epsilon >= 0.0
    ensures ExtLe(st.best, Iterate(env, st).st.best)
  {
    var rd := RoundOf(env, st);
    if rd.res.Ok? {
      DecideBestMonotone(env, st.(probes := rd.probes), rd.res.value);
    }
  }

  /**
   * What a decision returns is the optimizer's own new position and best reward, and the
   * counter never goes negative.
   */
  lemma DecideReturnsState(env: Env, st: OptState, cs: seq<Cand>)
    ensures var r := Decide(env, st, cs);
      r.res.Ok? ==> r.res.value.pos == r.st.pos && r.res.value.best == r.st.best
    ensures st.cnt >= 0 ==> Decide(env, st, cs).st.cnt >= 0
  {
    var st1 := if AnyUnsafe(cs) then st.(steps := Shrink(st.steps)) else st;
    if !AllUnsafe(cs) && Choose(env, cs).Ok? {
      var st2 := Adapt(env, st1, cs[Choose(env, cs).value].reward);
      assert st1.cnt >= 0 ==> st2.cnt >= 0;
    }
  }

  lemma IterateReturnsState(env: Env, st: OptState)
    ensures var r := Iterate(env, st);
      r.res.Ok? ==> r.res.value.pos == r.st.pos && r.res.value.best == r.st.best
    ensures st.cnt >= 0 ==> Iterate(env, st).st.cnt >= 0
  {
    var rd := RoundOf(env, st);
    if rd.res.Ok? {
      DecideReturnsState(env, st.(probes := rd.probes), rd.res.value);
    }
  }

  /** When every candidate is unsafe: no move, same best reward, both sigmas shrunk, counter + 1. */
  lemma DecideAllUnsafe(env: Env, st: OptState, cs: seq<Cand>)
    requires |cs| > 0 && AllUnsafe(cs)
    ensures var r := Decide(env, st, cs);
      r.res == Ok(IterOut(st.pos, st.best, Debug(cs, None)))
      && r.st == st.(steps := Shrink(st.steps), cnt := st.cnt + 1)
  {
    assert cs[0].unsafe;
  }

  lemma IterateAllUnsafe(env: Env, st: OptState)
    requires RoundOf(env, st).res.Ok? && AllUnsafe(RoundOf(env, st).res.value)
    ensures var r := Iterate(env, st);
      r.res.Ok? && r.res.value.debug.chosen.None?
      && r.st == st.(steps := Shrink(st.steps), cnt := st.cnt + 1, probes := RoundOf(env, st).probes)
  {
    var rd := RoundOf(env, st);
    DecideAllUnsafe(env, st.(probes := rd.probes), rd.res.value);
  }

  /**
   * When a winner is chosen: the counter resets exactly when its reward beats the best by more
   * than epsilon, which then becomes the best; otherwise the counter rises by one and the best
   * stays. The sigmas are shrunk first if any candidate was unsafe.
   */
  lemma DecideCounter(env: Env, st: OptState, cs: seq<Cand>)
    requires Decide(env, st, cs).res.Ok? && Decide(env, st, cs).res.value.debug.chosen.Some?
    ensures var r := Decide(env, st, cs);
      var i := r.res.value.debug.chosen.value.index;
      var pre := if AnyUnsafe(cs) then Shrink(st.steps) else st.steps;
      i < |cs| && !cs[i].unsafe && r.res.value.debug.chosen.value.p == cs[i].p
      && !AllUnsafe(cs) && Choose(env, cs) == Ok(i)
      && (Improves(cs[i].reward, st.best, env.cfg.epsilon) ==>
            r.st.cnt == 0 && r.st.best == Finite(cs[i].reward) && r.st.steps == Grow(pre))
      && (!Improves(cs[i].reward, st.best, env.cfg.epsilon) ==>
            r.st.cnt == st.cnt + 1 && r.st.best == st.best && r.st.steps == Shrink(pre))
  {
  }

  /** A chosen winner moves the position by the low-pass filter towards it, then clips. */
  lemma DecideMove(env: Env, st: OptState, cs: seq<Cand>)
    requires Decide(env, st, cs).res.Ok? && Decide(env, st, cs).res.value.debug.chosen.Some?
    ensures var r := Decide(env, st, cs);
      var c := r.res.value.debug.chosen.value.p;
      r.st.pos == Clip(env.lim, Point(Blend(env.cfg.alpha, st.pos.x, c.x),
                                      Blend(env.cfg.alpha, st.pos.y, c.y)))
      && r.res.value.pos == r.st.pos && r.res.value.best == r.st.best
  {
  }

  /** In continuous mode the winner has the largest reward of the safe candidates, the first on ties. */
  lemma ChooseRewardWinner(env: Env, cs: seq<Cand>)
    requires !env.cfg.useRank && !AllUnsafe(cs)
    ensures var i := Choose(env, cs).value;
      (forall j :: 0 <= j < |cs| && !cs[j].unsafe ==> cs[j].reward <= cs[i].reward)
      && (forall j :: 0 <= j < i && !cs[j].unsafe ==> cs[j].reward < cs[i].reward)
  {
    var safe := SafeIdxs(Flags(cs));
    var rewards := Rewards(cs);
    var i := Choose(env, cs).value;
    assert i == RewardWinner(rewards, safe);
    forall j | 0 <= j < |cs| && !cs[j].unsafe ensures cs[j].reward <= cs[i].reward {
      assert j in safe;
      var q :| 0 <= q < |safe| && safe[q] == j;
      assert rewards[safe[q]] <= rewards[i];
    }
    forall j | 0 <= j < i && !cs[j].unsafe ensures cs[j].reward < cs[i].reward {
      assert j in safe;
      var q :| 0 <= q < |safe| && safe[q] == j;
      assert rewards[safe[q]] < rewards[i];
    }
  }

  /** Whatever the iteration does, a position inside the limits stays inside them. */
  lemma DecideKeepsInsideLimits(env: Env, st: OptState, cs: seq<Cand>)
    requires ValidLimits(env.lim) && InLimits(env.lim, st.pos)
    ensures InLimits(env.lim, Decide(env, st, cs).st.pos)
  {
  }

  lemma IterateKeepsInsideLimits(env: Env, st: OptState)
    requires ValidLimits(env.lim) && InLimits(env.lim, st.pos)
    ensures InLimits(env.lim, Iterate(env, st).st.pos)
  {
    var rd := RoundOf(env, st);
    if rd.res.Ok? {
      DecideKeepsInsideLimits(env, st.(probes := rd.probes), rd.res.value);
    }
  }

  /** Every point the measurement function is called at is a clipped candidate: inside the limits. */
  lemma IterateProbesInsideLimits(env: Env, st: OptState)
    requires ValidLimits(env.lim)
    requires forall i :: 0 <= i < |st.probes| ==> InLimits(env.lim, st.probes[i])
    ensures var ps := Iterate(env, st).st.probes;
      |st.probes| <= |ps| && forall i :: 0 <= i < |ps| ==> InLimits(env.lim, ps[i])
  {
    var cands := Candidates(env.lim, st.pos, st.steps);
    var rd := RoundOf(env, st);
    var ps := rd.probes;
    forall i | 0 <= i < |ps| ensures InLimits(env.lim, ps[i]) {
      if i < |st.probes| {
        assert ps[i] == ps[..|st.probes|][i];
      } else {
        var j :| 0 <= j < 3 && cands[j] == ps[i];
      }
    }
    if rd.res.Ok? {
      assert Iterate(env, st).st.probes == ps;
    }
  }

  /** An iteration that raises keeps position, best reward and counter; only sigmas and probes moved. */
  lemma IterateErrorKeeps(env: Env, st: OptState)
    requires Iterate(env, st).res.Err?
    ensures var r := Iterate(env, st).st;
      r.pos == st.pos && r.best == st.best && r.cnt == st.cnt
      && (r.steps == st.steps || r.steps == Shrink(st.steps))
  {
    var rd := RoundOf(env, st);
    if rd.res.Ok? {
      assert Iterate(env, st) == Decide(env, st.(probes := rd.probes), rd.res.value);
    }
  }

  /** `run()` keeps the step sizes within their bounds and never lowers the best reward. */
  lemma RunInvariants(env: Env, st: OptState)
    requires StepsValid(st.steps) && env.cfg.epsilon >= 0.0
    ensures StepsValid(Run(env, st).st.steps) && ExtLe(st.best, Run(env, st).st.best)
  {
    var step := IterateFn(env);
    forall s: OptState | StepsValid(s.steps) ensures StepsValid(step(s).st.steps) {
      IterateStepsValid(env, s);
    }
    forall s: OptState ensures ExtLe(s.best, step(s).st.best) {
      IterateBestMonotone(env, s);
    }
    RunLoopInvariants(env.cfg.maxIters, env.cfg.patience, step, st, 0, []);
  }
}
