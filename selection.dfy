/**
 * Choosing the winner among the three candidates of one round (RL/Control/control_test.py):
 * Python's `max`/`min` with a key, the column ranks `v.argsort().argsort()`, the weighted rank
 * sum of `rank_aggregate_for_candidates`, and the selection rule of `iterate`.
 */
module Selection {
  import opened Wrappers
  import opened Scoring

  /** Index sequences whose entries all address `key`. */
  predicate Addresses(idxs: seq<nat>, n: nat) {
    forall q :: 0 <= q < |idxs| ==> idxs[q] < n
  }

  predicate StrictlyIncreasing(idxs: seq<nat>) {
    forall p, q :: 0 <= p < q < |idxs| ==> idxs[p] < idxs[q]
  }

  /**
   * The position in `idxs` of `max(idxs, key=lambda i: key[i])`: a largest key, and the first
   * one, since `max` only replaces its candidate on a strictly larger key.
   */
  function ArgMaxFirst(idxs: seq<nat>, key: seq<real>): (p: nat)
    requires |idxs| > 0 && Addresses(idxs, |key|)
    ensures p < |idxs|
    ensures forall q :: 0 <= q < |idxs| ==> key[idxs[q]] <= key[idxs[p]]
    ensures forall q :: 0 <= q < p ==> key[idxs[q]] < key[idxs[p]]
  {
    if |idxs| == 1 then 0
    else
      var p := ArgMaxFirst(idxs[..|idxs| - 1], key);
      if key[idxs[|idxs| - 1]] > key[idxs[p]] then |idxs| - 1 else p
  }

  /** The position in `idxs` of `min(idxs, key=lambda i: key[i])`: the first smallest key. */
  function ArgMinFirst(idxs: seq<nat>, key: seq<real>): (p: nat)
    requires |idxs| > 0 && Addresses(idxs, |key|)
    ensures p < |idxs|
    ensures forall q :: 0 <= q < |idxs| ==> key[idxs[p]] <= key[idxs[q]]
    ensures forall q :: 0 <= q < p ==> key[idxs[p]] < key[idxs[q]]
  {
    if |idxs| == 1 then 0
    else
      var p := ArgMinFirst(idxs[..|idxs| - 1], key);
      if key[idxs[|idxs| - 1]] < key[idxs[p]] then |idxs| - 1 else p
  }

  // ---------------------------------------------------------------- ranks

  /**
   * Element `j` comes before element `i` in the ascending order that `argsort` produces. On
   * three entries numpy sorts by insertion, which is stable, so ties keep index order.
   */
  predicate Before(v: seq<real>, j: nat, i: nat)
    requires j < |v| && i < |v|
  {
    v[j] < v[i] || (v[j] == v[i] && j < i)
  }

  /** How many of the first `m` elements come before element `i`. */
  function CountBefore(v: seq<real>, i: nat, m: nat): nat
    requires i < |v| && m <= |v|
  {
    if m == 0 then 0 else CountBefore(v, i, m - 1) + (if Before(v, m - 1, i) then 1 else 0)
  }

  /** `v.argsort().argsort()[i]`: the position of element `i` in the sorted order. */
  function Rank(v: seq<real>, i: nat): nat
    requires i < |v|
  {
    CountBefore(v, i, |v|)
  }

  lemma {:induction false} CountBeforeBound(v: seq<real>, i: nat, m: nat)
    requires i < |v| && m <= |v|
    ensures CountBefore(v, i, m) + (if i < m then 1 else 0) <= m
  {
    if m > 0 {
      CountBeforeBound(v, i, m - 1);
    }
  }

  /** An element that comes before another is counted before strictly fewer elements. */
  lemma {:induction false} CountBeforeMonotone(v: seq<real>, i: nat, j: nat, m: nat)
    requires i < |v| && j < |v| && m <= |v| && Before(v, i, j)
    ensures CountBefore(v, i, m) + (if i < m then 1 else 0) <= CountBefore(v, j, m)
  {
    if m > 0 {
      CountBeforeMonotone(v, i, j, m - 1);
    }
  }

  lemma {:induction false} CountBeforeNone(v: seq<real>, i: nat, m: nat)
    requires i < |v| && m <= |v|
    requires forall j :: 0 <= j < |v| && j != i ==> v[i] < v[j]
    ensures CountBefore(v, i, m) == 0
  {
    if m > 0 {
      CountBeforeNone(v, i, m - 1);
    }
  }

  /** Ranks run from 0 to n - 1. */
  lemma RankBound(v: seq<real>, i: nat)
    requires i < |v|
    ensures Rank(v, i) < |v|
  {
    CountBeforeBound(v, i, |v|);
  }

  /** A strictly smaller entry has a strictly smaller rank. */
  lemma RankMonotone(v: seq<real>, i: nat, j: nat)
    requires i < |v| && j < |v| && v[i] < v[j]
    ensures Rank(v, i) < Rank(v, j)
  {
    CountBeforeMonotone(v, i, j, |v|);
  }

  /** Ranks are distinct, ties included: the ranks form a permutation. */
  lemma RankDistinct(v: seq<real>, i: nat, j: nat)
    requires i < |v| && j < |v| && i != j
    ensures Rank(v, i) != Rank(v, j)
  {
    if Before(v, i, j) {
      CountBeforeMonotone(v, i, j, |v|);
    } else {
      CountBeforeMonotone(v, j, i, |v|);
    }
  }

  /** A strictly smallest entry has rank 0. */
  lemma RankStrictMin(v: seq<real>, i: nat)
    requires i < |v|
    requires forall j :: 0 <= j < |v| && j != i ==> v[i] < v[j]
    ensures Rank(v, i) == 0
  {
    CountBeforeNone(v, i, |v|);
  }

  /** Over three candidates every column's ranks are exactly {0, 1, 2}. */
  lemma RankPermutation3(v: seq<real>)
    requires |v| == 3
    ensures {Rank(v, 0), Rank(v, 1), Rank(v, 2)} == {0, 1, 2}
  {
    RankBound(v, 0);
    RankBound(v, 1);
    RankBound(v, 2);
    RankDistinct(v, 0, 1);
    RankDistinct(v, 0, 2);
    RankDistinct(v, 1, 2);
  }

  // ---------------------------------------------------------------- rank aggregate

  /** `[cvi_components_normalized(f, refs) for f in feats_list]`. */
  function AllComponents(fs: seq<Feats>, refs: SpecRefs, ln: real -> real): (r: Result<seq<Comps>>)
    ensures r.Ok? <==> forall i :: 0 <= i < |fs| ==> Components(fs[i], refs, ln).Ok?
    ensures r.Ok? ==> |r.value| == |fs|
                      && forall i :: 0 <= i < |fs| ==> r.value[i] == Components(fs[i], refs, ln).value
    ensures r.Err? ==> r.error == KeyError
  {
    if |fs| == 0 then Ok([])
    else
      var c :- Components(fs[0], refs, ln);
      var rest :- AllComponents(fs[1..], refs, ln);
      Ok([c] + rest)
  }

  function TrmsColumn(cs: seq<Comps>): seq<real> { seq(|cs|, i requires 0 <= i < |cs| => cs[i].trms) }
  function TcfColumn(cs: seq<Comps>): seq<real> { seq(|cs|, i requires 0 <= i < |cs| => cs[i].tcf) }
  function FrmsColumn(cs: seq<Comps>): seq<real> { seq(|cs|, i requires 0 <= i < |cs| => cs[i].frms) }
  function FskColumn(cs: seq<Comps>): seq<real> { seq(|cs|, i requires 0 <= i < |cs| => cs[i].fsk) }
  function FkurtColumn(cs: seq<Comps>): seq<real> { seq(|cs|, i requires 0 <= i < |cs| => cs[i].fkurt) }

  /** The ranks of candidate `i` in the five component columns. */
  function RankComps(cs: seq<Comps>, i: nat): (r: Comps)
    requires i < |cs|
  {
    Comps(Rank(TrmsColumn(cs), i) as real, Rank(TcfColumn(cs), i) as real,
          Rank(FrmsColumn(cs), i) as real, Rank(FskColumn(cs), i) as real,
          Rank(FkurtColumn(cs), i) as real)
  }

  /** The weighted rank sum of candidate `i` (smaller is better). */
  function RankScore(cs: seq<Comps>, w: CVIWeights, i: nat): real
    requires i < |cs|
  {
    WeightedSum(w, RankComps(cs, i))
  }

  /**
   * `rank_aggregate_for_candidates`: the components of every candidate (a KeyError if one of
   * them lacks a key), ranked column by column, then the weighted sum of the ranks.
   */
  function RankAggregate(fs: seq<Feats>, w: CVIWeights, refs: SpecRefs, ln: real -> real)
    : (r: Result<seq<real>>)
    ensures r.Ok? <==> forall i :: 0 <= i < |fs| ==> Components(fs[i], refs, ln).Ok?
    ensures r.Ok? ==> |r.value| == |fs|
    ensures r.Err? ==> r.error == KeyError
  {
    var cs :- AllComponents(fs, refs, ln);
    Ok(RankScores(cs, w))
  }

  /** The weighted rank sum of every candidate. */
  function RankScores(cs: seq<Comps>, w: CVIWeights): (r: seq<real>)
    ensures |r| == |cs| && forall i :: 0 <= i < |cs| ==> r[i] == RankScore(cs, w, i)
  {
    seq(|cs|, i requires 0 <= i < |cs| => RankScore(cs, w, i))
  }

  /** Over (at most) three candidates every rank lies in [0, 2]. */
  lemma RankCompsBound(cs: seq<Comps>, i: nat)
    requires i < |cs| <= 3
    ensures var c := RankComps(cs, i);
      0.0 <= c.trms <= 2.0 && 0.0 <= c.tcf <= 2.0 && 0.0 <= c.frms <= 2.0
      && 0.0 <= c.fsk <= 2.0 && 0.0 <= c.fkurt <= 2.0
  {
    RankBound(TrmsColumn(cs), i);
    RankBound(TcfColumn(cs), i);
    RankBound(FrmsColumn(cs), i);
    RankBound(FskColumn(cs), i);
    RankBound(FkurtColumn(cs), i);
  }

  /** Over three candidates and non-negative weights every rank score lies in [0, 2·(sum of the weights)]. */
  lemma RankScoreBounds(cs: seq<Comps>, w: CVIWeights, i: nat)
    requires i < |cs| <= 3 && NonNegWeights(w)
    ensures 0.0 <= RankScore(cs, w, i) <= 2.0 * (w.wTrms + w.wTcf + w.wFrms + w.wFsk + w.wFkurt)
  {
    RankCompsBound(cs, i);
    WeightedSumBound2(w, RankComps(cs, i));
  }

  lemma WeightedSumBound2(w: CVIWeights, c: Comps)
    requires NonNegWeights(w)
    requires 0.0 <= c.trms <= 2.0 && 0.0 <= c.tcf <= 2.0 && 0.0 <= c.frms <= 2.0
    requires 0.0 <= c.fsk <= 2.0 && 0.0 <= c.fkurt <= 2.0
    ensures 0.0 <= WeightedSum(w, c) <= 2.0 * (w.wTrms + w.wTcf + w.wFrms + w.wFsk + w.wFkurt)
  {
    var t1 := ScaledBound(w.wTrms, c.trms);
    var t2 := ScaledBound(w.wTcf, c.tcf);
    var t3 := ScaledBound(w.wFrms, c.frms);
    var t4 := ScaledBound(w.wFsk, c.fsk);
    var t5 := ScaledBound(w.wFkurt, c.fkurt);
    assert WeightedSum(w, c) == t1 + t2 + t3 + t4 + t5;
    SumBound5(t1, t2, t3, t4, t5, w.wTrms, w.wTcf, w.wFrms, w.wFsk, w.wFkurt);
  }

  /** The product `a * b`, bounded by `2 * a`. */
  lemma ScaledBound(a: real, b: real) returns (t: real)
    requires a >= 0.0 && 0.0 <= b <= 2.0
    ensures t == a * b
    ensures 0.0 <= t <= 2.0 * a
  {
    t := a * b;
    assert 2.0 * a - a * b == a * (2.0 - b);
  }

  lemma SumBound5(p1: real, p2: real, p3: real, p4: real, p5: real,
                  a1: real, a2: real, a3: real, a4: real, a5: real)
    requires 0.0 <= p1 <= 2.0 * a1 && 0.0 <= p2 <= 2.0 * a2 && 0.0 <= p3 <= 2.0 * a3
    requires 0.0 <= p4 <= 2.0 * a4 && 0.0 <= p5 <= 2.0 * a5
    ensures 0.0 <= p1 + p2 + p3 + p4 + p5 <= 2.0 * (a1 + a2 + a3 + a4 + a5)
  {
  }

  /** Candidate `i` is strictly smaller than every other candidate on all five components. */
  predicate StrictlyBest(cs: seq<Comps>, i: nat)
    requires i < |cs|
  {
    forall j :: 0 <= j < |cs| && j != i ==>
      cs[i].trms < cs[j].trms && cs[i].tcf < cs[j].tcf && cs[i].frms < cs[j].frms
      && cs[i].fsk < cs[j].fsk && cs[i].fkurt < cs[j].fkurt
  }

  function WeightTotal(w: CVIWeights): real { w.wTrms + w.wTcf + w.wFrms + w.wFsk + w.wFkurt }

  /** A candidate strictly smallest on all five components scores 0. */
  lemma RankScoreStrictBest(cs: seq<Comps>, w: CVIWeights, i: nat)
    requires i < |cs| && StrictlyBest(cs, i)
    ensures RankScore(cs, w, i) == 0.0
  {
    RankStrictMin(TrmsColumn(cs), i);
    RankStrictMin(TcfColumn(cs), i);
    RankStrictMin(FrmsColumn(cs), i);
    RankStrictMin(FskColumn(cs), i);
    RankStrictMin(FkurtColumn(cs), i);
  }

  /** A candidate strictly better than another on all five components scores no higher. */
  lemma RankScoreDominance(cs: seq<Comps>, w: CVIWeights, i: nat, j: nat)
    requires i < |cs| && j < |cs| && NonNegWeights(w)
    requires cs[i].trms < cs[j].trms && cs[i].tcf < cs[j].tcf && cs[i].frms < cs[j].frms
    requires cs[i].fsk < cs[j].fsk && cs[i].fkurt < cs[j].fkurt
    ensures RankScore(cs, w, i) <= RankScore(cs, w, j)
  {
    RankMonotone(TrmsColumn(cs), i, j);
    RankMonotone(TcfColumn(cs), i, j);
    RankMonotone(FrmsColumn(cs), i, j);
    RankMonotone(FskColumn(cs), i, j);
    RankMonotone(FkurtColumn(cs), i, j);
    WeightedSumMonotone(w, RankComps(cs, i), RankComps(cs, j));
  }

  /**
   * Beside a strictly best candidate every other candidate ranks at least 1 in each column, so with
   * non-negative weights it scores at least the sum of the weights.
   */
  lemma RankScoreStrictGap(cs: seq<Comps>, w: CVIWeights, i: nat, j: nat)
    requires i < |cs| && j < |cs| && j != i && StrictlyBest(cs, i) && NonNegWeights(w)
    ensures RankScore(cs, w, j) >= WeightTotal(w)
  {
    RankMonotone(TrmsColumn(cs), i, j);
    RankMonotone(TcfColumn(cs), i, j);
    RankMonotone(FrmsColumn(cs), i, j);
    RankMonotone(FskColumn(cs), i, j);
    RankMonotone(FkurtColumn(cs), i, j);
    WeightedSumAtLeastTotal(w, RankComps(cs, j));
  }

  lemma WeightedSumAtLeastTotal(w: CVIWeights, c: Comps)
    requires NonNegWeights(w)
    requires c.trms >= 1.0 && c.tcf >= 1.0 && c.frms >= 1.0 && c.fsk >= 1.0 && c.fkurt >= 1.0
    ensures WeightedSum(w, c) >= WeightTotal(w)
  {
    var t1 := ScaledAtLeast(w.wTrms, c.trms);
    var t2 := ScaledAtLeast(w.wTcf, c.tcf);
    var t3 := ScaledAtLeast(w.wFrms, c.frms);
    var t4 := ScaledAtLeast(w.wFsk, c.fsk);
    var t5 := ScaledAtLeast(w.wFkurt, c.fkurt);
    assert WeightedSum(w, c) == t1 + t2 + t3 + t4 + t5;
  }

  /** The product `a * b`, at least `a` when `b >= 1`. */
  lemma ScaledAtLeast(a: real, b: real) returns (t: real)
    requires a >= 0.0 && b >= 1.0
    ensures t == a * b && t >= a
  {
    t := a * b;
    assert a * b - a == a * (b - 1.0);
    assert a * (b - 1.0) >= 0.0;
  }

  // ---------------------------------------------------------------- selection

  /** `[i for i, bad in enumerate(unsafe_flags) if not bad]`. */
  function SafeIdxs(unsafe: seq<bool>): (r: seq<nat>)
    ensures Addresses(r, |unsafe|) && StrictlyIncreasing(r)
    ensures forall q :: 0 <= q < |r| ==> !unsafe[r[q]]
    ensures forall i :: 0 <= i < |unsafe| && !unsafe[i] ==> i in r
  {
    if |unsafe| == 0 then []
    else
      var n := |unsafe| - 1;
      var r := SafeIdxs(unsafe[..n]);
      if unsafe[n] then r else r + [n]
  }

  /** The tolerance within which two rank scores count as tied. */
  const TieTol: real := 0.000000001

  function Abs(a: real): real { if a < 0.0 then -a else a }

  /** `[i for i in safe_idxs if abs(rank_scores[i] - best_rank) < 1e-9]`. */
  function Tied(idxs: seq<nat>, scores: seq<real>, best: real): (r: seq<nat>)
    requires Addresses(idxs, |scores|)
    ensures Addresses(r, |scores|)
    ensures forall t :: 0 <= t < |r| ==> r[t] in idxs && Abs(scores[r[t]] - best) < TieTol
    ensures forall q :: 0 <= q < |idxs| && Abs(scores[idxs[q]] - best) < TieTol ==> idxs[q] in r
  {
    if |idxs| == 0 then []
    else
      var r := Tied(idxs[..|idxs| - 1], scores, best);
      var i := idxs[|idxs| - 1];
      assert forall q :: 0 <= q < |idxs| - 1 ==> idxs[q] == idxs[..|idxs| - 1][q];
      if Abs(scores[i] - best) < TieTol then r + [i] else r
  }

  /** The smallest rank score among the safe indices. */
  function MinScore(safe: seq<nat>, scores: seq<real>): real
    requires |safe| > 0 && Addresses(safe, |scores|)
  {
    scores[safe[ArgMinFirst(safe, scores)]]
  }

  /**
   * Rank mode: `i_star = min(safe_idxs, key=rank_scores)`; when ties are broken by reward and
   * more than one safe index lies within `TieTol` of that score, the largest reward among them.
   * The winner is always within `TieTol` of the smallest safe score.
   */
  function RankWinner(breakTies: bool, rewards: seq<real>, scores: seq<real>, safe: seq<nat>)
    : (r: nat)
    requires |safe| > 0 && Addresses(safe, |rewards|) && Addresses(safe, |scores|)
    ensures r in safe
    ensures !breakTies ==> r == safe[ArgMinFirst(safe, scores)]
    ensures Abs(scores[r] - MinScore(safe, scores)) < TieTol
    ensures breakTies ==>
      forall q :: 0 <= q < |safe| && Abs(scores[safe[q]] - MinScore(safe, scores)) < TieTol
        ==> rewards[safe[q]] <= rewards[r]
  {
    var iStar := safe[ArgMinFirst(safe, scores)];
    if breakTies then
      var tied := TiedList(safe, scores, rewards);
      var p := ArgMaxFirst(tied, rewards);
      TieBreakIsBest(safe, scores, rewards, MinScore(safe, scores), tied, p);
      if |tied| > 1 then tied[p]
      else
        assert tied[p] == iStar;
        iStar
    else iStar
  }

  /** The tied list of rank mode, which always holds the first minimum itself. */
  function TiedList(safe: seq<nat>, scores: seq<real>, rewards: seq<real>): (tied: seq<nat>)
    requires |safe| > 0 && Addresses(safe, |rewards|) && Addresses(safe, |scores|)
    ensures tied == Tied(safe, scores, MinScore(safe, scores))
    ensures |tied| > 0 && Addresses(tied, |rewards|)
    ensures |tied| == 1 ==> tied == [safe[ArgMinFirst(safe, scores)]]
  {
    var p := ArgMinFirst(safe, scores);
    var tied := Tied(safe, scores, MinScore(safe, scores));
    assert safe[p] in tied;
    assert Addresses(tied, |rewards|) by {
      forall t | 0 <= t < |tied| ensures tied[t] < |rewards| {
        assert tied[t] in safe;
      }
    }
    tied
  }

  /** Every safe index tied with `best` has a reward no larger than the tie-break winner's. */
  lemma TieBreakIsBest(safe: seq<nat>, scores: seq<real>, rewards: seq<real>, best: real,
                       tied: seq<nat>, p: nat)
    requires Addresses(safe, |scores|) && tied == Tied(safe, scores, best)
    requires |tied| > 0 && Addresses(tied, |rewards|) && p == ArgMaxFirst(tied, rewards)
    ensures forall q :: 0 <= q < |safe| && Abs(scores[safe[q]] - best) < TieTol
              ==> rewards[safe[q]] <= rewards[tied[p]]
  {
    forall q | 0 <= q < |safe| && Abs(scores[safe[q]] - best) < TieTol
      ensures rewards[safe[q]] <= rewards[tied[p]]
    {
      assert safe[q] in safe;
      assert safe[q] in tied;
      var t :| 0 <= t < |tied| && tied[t] == safe[q];
    }
  }

  /**
   * Continuous mode of `iterate`: `max(safe_idxs, key=lambda i: rewards[i])`, a largest reward
   * among the safe indices and, as the safe indices ascend, the lowest index among equals.
   */
  function RewardWinner(rewards: seq<real>, safe: seq<nat>): (r: nat)
    requires |safe| > 0 && Addresses(safe, |rewards|)
    ensures r in safe
    ensures forall q :: 0 <= q < |safe| ==> rewards[safe[q]] <= rewards[r]
    ensures StrictlyIncreasing(safe) ==>
      forall q :: 0 <= q < |safe| && safe[q] < r ==> rewards[safe[q]] < rewards[r]
  {
    var p := ArgMaxFirst(safe, rewards);
    FirstOfIncreasing(safe, p);
    safe[p]
  }

  /** In an ascending index sequence, the entries smaller than the one at `p` lie before `p`. */
  lemma FirstOfIncreasing(safe: seq<nat>, p: nat)
    requires p < |safe|
    ensures StrictlyIncreasing(safe) ==> forall q :: 0 <= q < |safe| && safe[q] < safe[p] ==> q < p
  {
  }

  /** Rank mode without tie-breaking: the smallest rank score, the lowest index among equals. */
  lemma RankWinnerNoTies(rewards: seq<real>, scores: seq<real>, safe: seq<nat>)
    requires |safe| > 0 && Addresses(safe, |rewards|) && Addresses(safe, |scores|)
    requires StrictlyIncreasing(safe)
    ensures var r := RankWinner(false, rewards, scores, safe);
      (forall q :: 0 <= q < |safe| ==> scores[r] <= scores[safe[q]])
      && (forall q :: 0 <= q < |safe| && safe[q] < r ==> scores[r] < scores[safe[q]])
  {
    var p := ArgMinFirst(safe, scores);
    FirstOfIncreasing(safe, p);
  }

  /**
   * Rank mode: a safe candidate strictly better than every other candidate on all five
   * components wins, with or without tie-breaking, once the weights are non-negative and sum to
   * at least the tie tolerance (so no other candidate comes within it).
   */
  lemma StrictBestWins(breakTies: bool, rewards: seq<real>, cs: seq<Comps>, w: CVIWeights,
                       safe: seq<nat>, i: nat)
    requires |safe| > 0 && Addresses(safe, |rewards|) && Addresses(safe, |cs|)
    requires i < |cs| && i in safe && StrictlyBest(cs, i)
    requires NonNegWeights(w) && WeightTotal(w) >= TieTol
    ensures RankWinner(breakTies, rewards, RankScores(cs, w), safe) == i
  {
    var scores := RankScores(cs, w);
    RankScoreStrictBest(cs, w, i);
    var p := ArgMinFirst(safe, scores);
    if safe[p] != i {
      RankScoreStrictGap(cs, w, i, safe[p]);
      assert false;
    }
    var r := RankWinner(breakTies, rewards, scores, safe);
    if r != i {
      RankScoreStrictGap(cs, w, i, r);
      assert false;
    }
  }
}
