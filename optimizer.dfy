/**
 * The optimizer object `Top1of3WithRunAnalysis` of RL/Control/control_test.py: its position,
 * step sizes, best reward, no-improvement counter and history are fields that `iterate` and
 * `run` update in place. Every method is proved to leave the object in the state that the
 * functions of `OptimizerSpec` compute from the old one.
 */
module Optimizer {
  import opened Wrappers
  import opened Scoring
  import opened Stats
  import opened Selection
  import opened OptimizerSpec

  class Top1of3 {
    const run: RunFn
    const lim: Limits
    const cfg: RLConfig
    const w: CVIWeights
    const thr: SafetyThresholds
    const refs: SpecRefs
    const ln: real -> real

    var x: real
    var y: real
    var steps: StepConfig
    var bestReward: ExtReal
    var noImproveCnt: int
    var history: seq<HistoryEntry>
    /** The points the measurement function has been called at, in order. */
    var probes: seq<Point>

    function Env(): Env {
      OptimizerSpec.Env(run, lim, cfg, w, thr, refs, ln)
    }

    function State(): OptState
      reads this
    {
      OptState(Point(x, y), steps, bestReward, noImproveCnt, probes)
    }

    /** The start position is taken as given, not clipped; the best reward starts at minus infinity. */
    constructor (run: RunFn, start: Point, lim: Limits, steps: StepConfig, cfg: RLConfig,
                 w: CVIWeights, thr: SafetyThresholds, refs: SpecRefs, ln: real -> real)
      ensures Env() == OptimizerSpec.Env(run, lim, cfg, w, thr, refs, ln)
      ensures State() == OptState(start, steps, NegInf, 0, [])
      ensures history == []
    {
      this.run := run;
      this.lim := lim;
      this.cfg := cfg;
      this.w := w;
      this.thr := thr;
      this.refs := refs;
      this.ln := ln;
      x := start.x;
      y := start.y;
      this.steps := steps;
      bestReward := NegInf;
      noImproveCnt := 0;
      history := [];
      probes := [];
    }

    /** `_measure_feats_at(p, k)`: up to `k` readings, median of the safe ones. */
    method MeasureFeatsAt(p: Point, k: int) returns (r: Result<Measured>)
      modifies this
      ensures Step(r, probes) == Measure(Env(), p, k, old(probes))
      ensures x == old(x) && y == old(y) && steps == old(steps) && bestReward == old(bestReward)
      ensures noImproveCnt == old(noImproveCnt) && history == old(history)
    {
      var batch: seq<Feats> := [];
      while |batch| < k
        invariant MeasureLoop(Env(), p, k, batch, probes) == Measure(Env(), p, k, old(probes))
        invariant x == old(x) && y == old(y) && steps == old(steps) && bestReward == old(bestReward)
        invariant noImproveCnt == old(noImproveCnt) && history == old(history)
        decreases k - |batch|
      {
        var feats := run(|probes|, p);
        probes := probes + [p];
        if feats.Err? {
          return Err(feats.error);
        }
        var bad := Unsafe(feats.value, thr);
        if bad.Err? {
          return Err(bad.error);
        }
        if bad.value {
          return Ok(Measured(feats.value, true));
        }
        batch := batch + [feats.value];
      }
      if |batch| == 1 {
        return Ok(Measured(batch[0], false));
      }
      var med := MedianFeats(batch);
      if med.Err? {
        return Err(med.error);
      }
      return Ok(Measured(med.value, false));
    }

    /** One pass of the measuring loop of `iterate`: measure the candidate, then score it. */
    method MeasureCandidate(prev: Point, c: Point) returns (r: Result<Cand>)
      modifies this
      ensures Step(r, probes) == MeasureCand(Env(), prev, c, old(probes))
      ensures x == old(x) && y == old(y) && steps == old(steps) && bestReward == old(bestReward)
      ensures noImproveCnt == old(noImproveCnt) && history == old(history)
    {
      var env := Env();
      var m := MeasureFeatsAt(c, env.cfg.k);
      if m.Err? {
        return Err(m.error);
      }
      if m.value.unsafe {
        return Ok(Cand(c, m.value.feats, true, UnsafeReward));
      }
      var reward := RewardFromFeats(m.value.feats, env.w, env.refs, env.ln,
                                    MovePenalty(env, prev, c));
      if reward.Err? {
        return Err(reward.error);
      }
      return Ok(Cand(c, m.value.feats, false, reward.value));
    }

    /** The part of `iterate` after the measurements: safety, choice, step sizes and move. */
    method Decide(cs: seq<Cand>) returns (r: Result<IterOut>)
      modifies this
      ensures IterStep(r, State()) == OptimizerSpec.Decide(Env(), old(State()), cs)
      ensures history == old(history)
    {
      if AnyUnsafe(cs) {
        steps := Shrink(steps);
        if AllUnsafe(cs) {
          noImproveCnt := noImproveCnt + 1;
          return Ok(IterOut(Point(x, y), bestReward, Debug(cs, None)));
        }
      }
      if AllUnsafe(cs) { // no safe index
        noImproveCnt := noImproveCnt + 1;
        return Ok(IterOut(Point(x, y), bestReward, Debug(cs, None)));
      }
      var chosen := Choose(Env(), cs);
      if chosen.Err? {
        return Err(chosen.error);
      }
      var c := cs[chosen.value];
      AdaptSteps(c.reward);
      var pos := MoveTowards(cfg.alpha, lim, Point(x, y), c.p);
      x, y := pos.x, pos.y;
      return Ok(IterOut(pos, bestReward, Debug(cs, Some(Chosen(c.p, chosen.value)))));
    }

    /** The step-size adaptation of `iterate` on the winner's continuous reward. */
    method AdaptSteps(reward: real)
      modifies this
      ensures State() == Adapt(Env(), old(State()), reward)
      ensures history == old(history)
    {
      if Improves(reward, bestReward, cfg.epsilon) {
        bestReward := Finite(reward);
        noImproveCnt := 0;
        steps := Grow(steps);
      } else {
        noImproveCnt := noImproveCnt + 1;
        steps := Shrink(steps);
      }
    }

    /** `iterate()`: measure the three candidates of the triangle, then decide. */
    method Iterate() returns (r: Result<IterOut>)
      modifies this
      ensures IterStep(r, State()) == OptimizerSpec.Iterate(Env(), old(State()))
      ensures history == old(history)
    {
      var prev := Point(x, y);
      var cands := Candidates(lim, prev, steps);
      var cs: seq<Cand> := [];
      while |cs| < 3
        invariant |cs| <= 3
        invariant x == old(x) && y == old(y) && steps == old(steps) && bestReward == old(bestReward)
        invariant noImproveCnt == old(noImproveCnt) && history == old(history)
        invariant RoundLoop(Env(), prev, cands, cs, probes) == RoundOf(Env(), old(State()))
        decreases 3 - |cs|
      {
        var cand := MeasureCandidate(prev, cands[|cs|]);
        if cand.Err? {
          return Err(cand.error);
        }
        cs := cs + [cand.value];
      }
      ghost var measured := State();
      r := Decide(cs);
      assert OptimizerSpec.Iterate(Env(), old(State()))
             == OptimizerSpec.Decide(Env(), measured, cs);
    }

    /** `run()`: iterate until `max_iters` or the patience runs out, recording each iteration. */
    method Run() returns (r: Result<RunOut>)
      modifies this
      ensures RunStep(r, State(), history)
              == RunLoop(cfg.maxIters, cfg.patience, IterateFn(Env()), old(State()), 0, old(history))
    {
      var it := 0;
      while it < cfg.maxIters && noImproveCnt < cfg.patience
        invariant RunLoop(cfg.maxIters, cfg.patience, IterateFn(Env()), State(), it, history)
                  == RunLoop(cfg.maxIters, cfg.patience, IterateFn(Env()), old(State()), 0, old(history))
        decreases cfg.maxIters - it
      {
        ghost var before := State();
        var o := Iterate();
        assert IterateFn(Env())(before) == IterStep(o, State());
        if o.Err? {
          assert RunLoop(cfg.maxIters, cfg.patience, IterateFn(Env()), before, it, history)
                 == RunStep(Err(o.error), State(), history);
          return Err(o.error);
        }
        assert RunLoop(cfg.maxIters, cfg.patience, IterateFn(Env()), before, it, history)
               == RunLoop(cfg.maxIters, cfg.patience, IterateFn(Env()), State(), it + 1,
                          history + [Entry(it + 1, o.value, State())]);
        it := it + 1;
        history := history + [Entry(it, o.value, State())];
      }
      assert RunLoop(cfg.maxIters, cfg.patience, IterateFn(Env()), State(), it, history)
             == RunStep(Ok(RunOut(Point(x, y), bestReward)), State(), history);
      return Ok(RunOut(Point(x, y), bestReward));
    }
  }
}
