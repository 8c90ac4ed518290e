/**
 * The arithmetic of the gear interference analyzer (analysis/gear_interference_analyzer.py):
 * the distance bands sample points are sorted into, the point counts, the simple capped severity
 * score, the accumulated severity with its level, the large-overlap criteria and the bounding-box
 * overlap. Distances, alignments, radii and boxes come from mesh queries and are inputs here;
 * `np.log` is the parameter `ln`.
 */
module Interference {
  import opened Wrappers
  import opened Json
  import opened Scoring
  import Config

  // ---------------------------------------------------------------- distance bands

  /** The `interference_thresholds` section: three overlap depths and two gap widths. */
  datatype Thresholds = Thresholds(severe: real, medium: real, mild: real, contact: real, near: real)

  /** The thresholds as their names intend them: deeper overlaps are more severe. */
  predicate Ordered(t: Thresholds) {
    t.severe >= t.medium >= t.mild >= 0.0 && 0.0 <= t.contact <= t.near
  }

  /** One threshold of the analyzer's constructor: the configured number, or the fallback when absent. */
  function ThresholdOr(section: map<string, Json>, name: string, fallback: real): (r: Result<real>)
    ensures name !in section ==> r == Ok(fallback)
    ensures r.Err? <==> name in section && !section[name].JNumber?
  {
    if name !in section then Ok(fallback)
    else if section[name].JNumber? then Ok(section[name].n)
    else Err(TypeError)
  }

  /**
   * The thresholds the analyzer's constructor reads from the configuration's analysis section,
   * with the fallbacks 3.0, 1.5, 0.75, 3.0 and 7.5. A section that is not a dictionary fails.
   */
  function AnalyzerThresholds(config: Json): (r: Result<Thresholds>)
    ensures r.Err? ==> r.error == TypeError
    ensures r.Ok? ==> Config.Lookup(config, ["analysis_parameters"]).JObject?
  {
    var params := Config.Lookup(config, ["analysis_parameters"]);
    if !params.JObject? then Err(TypeError)
    else
      var section := if "interference_thresholds" in params.fields then params.fields["interference_thresholds"]
                     else JObject(map[]);
      if !section.JObject? then Err(TypeError)
      else
        var severe :- ThresholdOr(section.fields, "severe_interference", 3.0);
        var medium :- ThresholdOr(section.fields, "medium_interference", 1.5);
        var mild :- ThresholdOr(section.fields, "mild_interference", 0.75);
        var contact :- ThresholdOr(section.fields, "contact_threshold", 3.0);
        var near :- ThresholdOr(section.fields, "near_contact_threshold", 7.5);
        Ok(Thresholds(severe, medium, mild, contact, near))
  }

  /** The default configuration yields ordered thresholds. */
  lemma DefaultConfigThresholds()
    ensures AnalyzerThresholds(Config.DefaultConfig) == Ok(Thresholds(2.0, 1.0, 0.5, 2.0, 5.0))
    ensures Ordered(AnalyzerThresholds(Config.DefaultConfig).value)
  {
    assert ["analysis_parameters"][1..] == [];
  }

  /** An analysis section without thresholds yields the fallbacks, which are ordered too. */
  lemma FallbackThresholds(config: Json)
    requires Config.Lookup(config, ["analysis_parameters"]).JObject?
    requires "interference_thresholds" !in Config.Lookup(config, ["analysis_parameters"]).fields
    ensures AnalyzerThresholds(config) == Ok(Thresholds(3.0, 1.5, 0.75, 3.0, 7.5))
    ensures Ordered(AnalyzerThresholds(config).value)
  {
  }

  datatype Band = Severe | Medium | Mild | Contact | Near

  /** The mask of one band on an adjusted distance: half-open intervals, negative means overlap. */
  predicate InBand(t: Thresholds, b: Band, a: real)
    ensures Ordered(t) && InBand(t, b, a) ==> a < t.near
    ensures Ordered(t) && InBand(t, b, a) && (b == Severe || b == Medium || b == Mild) ==> a < 0.0
  {
    match b
    case Severe => a < -t.severe
    case Medium => -t.severe <= a < -t.medium
    case Mild => -t.medium <= a < -t.mild
    case Contact => -t.mild <= a < t.contact
    case Near => t.contact <= a < t.near
  }

  /** A distance weighted by how far the point faces the other gear. */
  function Adjusted(d: real, alignment: real): real {
    d * (1.0 + Max(alignment, 0.0))
  }

  /** The weighting keeps the sign of the distance. */
  lemma AdjustedSign(d: real, alignment: real)
    ensures d >= 0.0 ==> Adjusted(d, alignment) >= 0.0
    ensures d < 0.0 ==> Adjusted(d, alignment) < 0.0
    ensures d == 0.0 <==> Adjusted(d, alignment) == 0.0
  {
    var f := 1.0 + Max(alignment, 0.0);
    assert f >= 1.0;
    if d < 0.0 {
      assert d * f <= d * 1.0;
    }
  }

  /** A point that does not overlap is never in an overlap band. */
  lemma GapIsNoOverlap(t: Thresholds, d: real, alignment: real)
    requires Ordered(t) && d >= 0.0
    ensures !InBand(t, Severe, Adjusted(d, alignment))
    ensures !InBand(t, Medium, Adjusted(d, alignment))
    ensures !InBand(t, Mild, Adjusted(d, alignment))
  {
    AdjustedSign(d, alignment);
  }

  /**
   * With ordered thresholds the bands partition the distances below the near-contact width: each
   * such distance is in exactly one band, and a larger one in none.
   */
  lemma BandsPartition(t: Thresholds, a: real)
    requires Ordered(t)
    ensures forall b1: Band, b2: Band :: InBand(t, b1, a) && InBand(t, b2, a) ==> b1 == b2
    ensures a < t.near <==> exists b: Band :: InBand(t, b, a)
  {
    if a < t.near {
      var b := if a < -t.severe then Severe else if a < -t.medium then Medium
               else if a < -t.mild then Mild else if a < t.contact then Contact else Near;
      assert InBand(t, b, a);
    }
  }

  predicate Increasing(r: seq<nat>) {
    forall i, j :: 0 <= i < j < |r| ==> r[i] < r[j]
  }

  /** `sample[mask]`, as the indices of the selected samples in order. */
  function Select(t: Thresholds, b: Band, adj: seq<real>): (r: seq<nat>)
    ensures Increasing(r)
    ensures forall k :: 0 <= k < |r| ==> r[k] < |adj| && InBand(t, b, adj[r[k]])
    ensures forall i :: 0 <= i < |adj| && InBand(t, b, adj[i]) ==> i in r
  {
    if |adj| == 0 then []
    else
      var n := |adj| - 1;
      var init := Select(t, b, adj[..n]);
      assert forall i :: 0 <= i < n ==> adj[..n][i] == adj[i];
      if InBand(t, b, adj[n]) then init + [n] else init
  }

  /** The adjusted distances of one gear's samples. */
  function AdjustAll(dists: seq<real>, alignments: seq<real>): (r: seq<real>)
    requires |dists| == |alignments|
    ensures |r| == |dists| && forall i :: 0 <= i < |r| ==> r[i] == Adjusted(dists[i], alignments[i])
  {
    seq(|dists|, i requires 0 <= i < |dists| => Adjusted(dists[i], alignments[i]))
  }

  /** The ten point sets of `_classify_interference_points_v2`, by key. */
  function Classify(t: Thresholds, distP: seq<real>, alignP: seq<real>, distG: seq<real>, alignG: seq<real>)
    : (r: map<string, seq<nat>>)
    requires |distP| == |alignP| && |distG| == |alignG|
    ensures r.Keys == PointKeys
  {
    var ap := AdjustAll(distP, alignP);
    var ag := AdjustAll(distG, alignG);
    map["severe_p" := Select(t, Severe, ap), "severe_g" := Select(t, Severe, ag),
        "medium_p" := Select(t, Medium, ap), "medium_g" := Select(t, Medium, ag),
        "mild_p" := Select(t, Mild, ap), "mild_g" := Select(t, Mild, ag),
        "contact_p" := Select(t, Contact, ap), "contact_g" := Select(t, Contact, ag),
        "near_p" := Select(t, Near, ap), "near_g" := Select(t, Near, ag)]
  }

  const PointKeys: set<string> := {"severe_p", "severe_g", "medium_p", "medium_g", "mild_p", "mild_g",
                                   "contact_p", "contact_g", "near_p", "near_g"}

  /** With ordered thresholds no sample lands in two bands. */
  lemma SelectDisjoint(t: Thresholds, b1: Band, b2: Band, adj: seq<real>, i: nat)
    requires Ordered(t) && b1 != b2
    ensures !(i in Select(t, b1, adj) && i in Select(t, b2, adj))
  {
  }

  /**
   * With ordered thresholds a pinion sample is in one of the five pinion sets exactly when its
   * adjusted distance is below the near-contact width.
   */
  lemma ClassifyCoversPinion(t: Thresholds, distP: seq<real>, alignP: seq<real>, distG: seq<real>,
                             alignG: seq<real>, i: nat)
    requires Ordered(t) && |distP| == |alignP| && |distG| == |alignG| && i < |distP|
    ensures var r := Classify(t, distP, alignP, distG, alignG);
      Adjusted(distP[i], alignP[i]) < t.near
      <==> (i in r["severe_p"] || i in r["medium_p"] || i in r["mild_p"] || i in r["contact_p"] || i in r["near_p"])
  {
    var ap := AdjustAll(distP, alignP);
    var a := Adjusted(distP[i], alignP[i]);
    assert ap[i] == a;
    BandsPartition(t, a);
    forall b: Band | i in Select(t, b, ap) ensures a < t.near {
      var r := Select(t, b, ap);
      var k :| 0 <= k < |r| && r[k] == i;
    }
  }

  // ---------------------------------------------------------------- statistics

  /** The metrics the analyzer collects besides the point sets; an absent key is `None`. */
  datatype Metrics = Metrics(avgMinDistance: Option<real>, minDistanceOverall: Option<real>,
                             overlapVolume: Option<real>, overlapRatio: Option<real>,
                             directionalScore: Option<real>, largeOverlap: Option<LargeOverlap>)

  /** The `statistics` dictionary: one `<key>_count` per point set, the two totals and the metrics. */
  datatype Statistics = Statistics(counts: map<string, nat>, totalInterference: nat, totalContact: nat,
                                   avgMinDistance: real, minDistanceOverall: real, overlapVolume: real,
                                   overlapRatio: real, directionalScore: real)

  function CountKey(k: string): string { k + "_count" }

  lemma CountKeyInjective(a: string, b: string)
    requires CountKey(a) == CountKey(b)
    ensures a == b
  {
    assert |a| == |b|;
    assert a == CountKey(a)[..|a|];
    assert b == CountKey(b)[..|b|];
  }

  function Size(points: map<string, seq<nat>>, k: string): nat
    requires k in points
  {
    |points[k]|
  }

  /** The point sets the two totals read: every set but the near-contact ones. */
  const TotalKeys: set<string> := {"severe_p", "severe_g", "medium_p", "medium_g", "mild_p", "mild_g",
                                   "contact_p", "contact_g"}

  predicate HasTotalKeys(points: map<string, seq<nat>>) {
    TotalKeys <= points.Keys
  }

  predicate HasMetrics(m: Metrics) {
    m.avgMinDistance.Some? && m.minDistanceOverall.Some? && m.overlapVolume.Some?
    && m.overlapRatio.Some? && m.directionalScore.Some?
  }

  /**
   * `_calculate_enhanced_statistics`: a count per point set, the interference total over the six
   * overlap sets, the contact total over the two contact sets (near points are in neither), and
   * the metrics copied over. A missing point set among those the totals read, or a missing metric,
   * raises `KeyError`; the near-contact sets are only counted when present.
   */
  method EnhancedStatistics(points: map<string, seq<nat>>, metrics: Metrics) returns (r: Result<Statistics>)
    ensures r.Ok? <==> HasTotalKeys(points) && HasMetrics(metrics)
    ensures r.Err? ==> r.error == KeyError
    ensures r.Ok? ==>
      var s := r.value;
      s.counts.Keys == (set k | k in points :: CountKey(k))
      && (forall k :: k in points ==> s.counts[CountKey(k)] == |points[k]|)
      && s.totalInterference == Size(points, "severe_p") + Size(points, "severe_g")
         + Size(points, "medium_p") + Size(points, "medium_g") + Size(points, "mild_p") + Size(points, "mild_g")
      && s.totalContact == Size(points, "contact_p") + Size(points, "contact_g")
      && s.overlapRatio == metrics.overlapRatio.value && s.directionalScore == metrics.directionalScore.value
      && s.minDistanceOverall == metrics.minDistanceOverall.value
      && s.avgMinDistance == metrics.avgMinDistance.value && s.overlapVolume == metrics.overlapVolume.value
  {
    var counts: map<string, nat> := map[];
    var todo := points.Keys;
    while todo != {}
      invariant todo <= points.Keys
      invariant counts.Keys == (set k | k in points.Keys - todo :: CountKey(k))
      invariant forall k :: k in points.Keys - todo ==> counts[CountKey(k)] == |points[k]|
      decreases |todo|
    {
      var k :| k in todo;
      forall j | j in points.Keys - todo && CountKey(j) == CountKey(k) ensures false {
        CountKeyInjective(j, k);
      }
      counts := counts[CountKey(k) := |points[k]|];
      todo := todo - {k};
    }
    if !HasTotalKeys(points) || !HasMetrics(metrics) {
      return Err(KeyError);
    }
    var total := |points["severe_p"]| + |points["severe_g"]| + |points["medium_p"]|
                 + |points["medium_g"]| + |points["mild_p"]| + |points["mild_g"]|;
    var contact := |points["contact_p"]| + |points["contact_g"]|;
    return Ok(Statistics(counts, total, contact, metrics.avgMinDistance.value, metrics.minDistanceOverall.value,
                         metrics.overlapVolume.value, metrics.overlapRatio.value, metrics.directionalScore.value));
  }

  // ---------------------------------------------------------------- the simple severity score

  /** The weighted point count of `get_interference_severity_score`: 10, 5, 2 and 1 per band. */
  function WeightedCount(c: map<string, nat>): (r: Result<nat>)
    ensures r.Err? ==> r.error == KeyError
    ensures r.Ok? ==>
      "severe_p_count" in c && "severe_g_count" in c && "medium_p_count" in c && "medium_g_count" in c
      && "mild_p_count" in c && "mild_g_count" in c && "contact_p_count" in c && "contact_g_count" in c
      && (r.value == 0
          <==> c["severe_p_count"] + c["severe_g_count"] + c["medium_p_count"] + c["medium_g_count"]
               + c["mild_p_count"] + c["mild_g_count"] + c["contact_p_count"] + c["contact_g_count"] == 0)
  {
    if "severe_p_count" in c && "severe_g_count" in c && "medium_p_count" in c && "medium_g_count" in c
       && "mild_p_count" in c && "mild_g_count" in c && "contact_p_count" in c && "contact_g_count" in c
    then Ok(10 * (c["severe_p_count"] + c["severe_g_count"]) + 5 * (c["medium_p_count"] + c["medium_g_count"])
            + 2 * (c["mild_p_count"] + c["mild_g_count"]) + c["contact_p_count"] + c["contact_g_count"])
    else Err(KeyError)
  }

  /**
   * `get_interference_severity_score()`: 0 without results; otherwise the weighted count over an
   * assumed maximum of 1000, as a percentage capped at 100.
   */
  function SimpleSeverityScore(results: Option<Statistics>): (r: Result<real>)
    ensures r.Ok? ==> 0.0 <= r.value <= 100.0
    ensures results.None? ==> r == Ok(0.0)
  {
    if results.None? then Ok(0.0)
    else
      var w :- WeightedCount(results.value.counts);
      Ok(Min(100.0, (w as real / 1000.0) * 100.0))
  }

  /** More points in any band never lower the simple score. */
  lemma SimpleSeverityMonotone(s1: Statistics, s2: Statistics)
    requires WeightedCount(s1.counts).Ok? && WeightedCount(s2.counts).Ok?
    requires forall k :: k in s1.counts && k in s2.counts ==> s1.counts[k] <= s2.counts[k]
    ensures SimpleSeverityScore(Some(s1)).value <= SimpleSeverityScore(Some(s2)).value
  {
    assert WeightedCount(s1.counts).value <= WeightedCount(s2.counts).value;
  }

  // ---------------------------------------------------------------- large overlap

  datatype OverlapSeverity = CriticalEnclosure | SevereOverlap | MediumOverlap | MildOverlap | NormalOverlap

  datatype Vec3 = Vec3(x: real, y: real, z: real)

  /** An axis-aligned bounding box: its lower and upper corners. */
  datatype Box = Box(lo: Vec3, hi: Vec3)

  function Prod(v: Vec3): real { v.x * v.y * v.z }

  /** The intersection of two boxes, as the corners `np.maximum`/`np.minimum` give. */
  function Meet(a: Box, b: Box): Box {
    Box(Vec3(Max(a.lo.x, b.lo.x), Max(a.lo.y, b.lo.y), Max(a.lo.z, b.lo.z)),
        Vec3(Min(a.hi.x, b.hi.x), Min(a.hi.y, b.hi.y), Min(a.hi.z, b.hi.z)))
  }

  function Extent(b: Box): Vec3 { Vec3(b.hi.x - b.lo.x, b.hi.y - b.lo.y, b.hi.z - b.lo.z) }

  /** `np.all(overlap_min < overlap_max)`. */
  predicate Proper(b: Box) { b.lo.x < b.hi.x && b.lo.y < b.hi.y && b.lo.z < b.hi.z }

  /** The result of `_detect_large_overlap` without the printed report. */
  datatype LargeOverlap = LargeOverlap(major: bool, ratio: real, severity: OverlapSeverity,
                                       centerDistance: real, radiusSum: real, bboxRatio: real)

  function Abs(a: real): real { if a < 0.0 then -a else a }

  /** The distance criteria, first match wins: the flag, the ratio and the name they give. */
  function Cascade(dist: real, rp: real, rg: real): (r: (bool, real, OverlapSeverity))
    ensures r.0 <==> r.2 == CriticalEnclosure || r.2 == SevereOverlap || r.2 == MediumOverlap
    ensures 0.0 <= r.1 <= 0.8
  {
    if dist < Abs(rp - rg) * 0.8 then (true, 0.8, CriticalEnclosure)
    else if dist < (rp + rg) * 0.4 then (true, 0.6, SevereOverlap)
    else if dist < (rp + rg) * 0.7 then (true, 0.4, MediumOverlap)
    else if dist < (rp + rg) * 0.9 then (false, 0.2, MildOverlap)
    else (false, 0.0, NormalOverlap)
  }

  /** The overlap box's volume over the smaller box's volume, when the boxes overlap. */
  function BoxRatio(bp: Box, bg: Box): real {
    var m := Meet(bp, bg);
    if Proper(m) then Prod(Extent(m)) / Min(Prod(Extent(bp)), Prod(Extent(bg))) else 0.0
  }

  /**
   * `_detect_large_overlap(...)` on the centre distance, the two radii and the two bounding boxes:
   * the distance criteria, then a box overlap above one half forces a major overlap with the
   * larger of the two ratios.
   */
  function DetectLargeOverlap(dist: real, rp: real, rg: real, bp: Box, bg: Box): (r: LargeOverlap)
    ensures r.severity == Cascade(dist, rp, rg).2 && r.radiusSum == rp + rg && r.centerDistance == dist
    ensures r.bboxRatio == BoxRatio(bp, bg)
    ensures r.major <==> Cascade(dist, rp, rg).0 || r.bboxRatio > 0.5
    ensures r.bboxRatio > 0.5 ==> r.ratio == Max(Cascade(dist, rp, rg).1, r.bboxRatio)
    ensures r.bboxRatio <= 0.5 ==> r.ratio == Cascade(dist, rp, rg).1
    ensures r.severity == MildOverlap ==> (r.major <==> r.bboxRatio > 0.5)
  {
    var c := Cascade(dist, rp, rg);
    var ratio := BoxRatio(bp, bg);
    if ratio > 0.5 then LargeOverlap(true, Max(c.1, ratio), c.2, dist, rp + rg, ratio)
    else LargeOverlap(c.0, c.1, c.2, dist, rp + rg, ratio)
  }

  lemma ProdMonotone(a: Vec3, b: Vec3)
    requires 0.0 < a.x <= b.x && 0.0 < a.y <= b.y && 0.0 < a.z <= b.z
    ensures 0.0 < Prod(a) <= Prod(b)
  {
    assert 0.0 < a.x * a.y <= b.x * a.y <= b.x * b.y;
    assert a.x * a.y * a.z <= b.x * b.y * a.z <= b.x * b.y * b.z;
  }

  /** The box ratio is 0 for boxes that do not overlap, and otherwise in (0, 1]. */
  lemma BoxRatioBounds(bp: Box, bg: Box)
    ensures !Proper(Meet(bp, bg)) ==> BoxRatio(bp, bg) == 0.0
    ensures Proper(Meet(bp, bg)) ==> 0.0 < BoxRatio(bp, bg) <= 1.0
  {
    var m := Meet(bp, bg);
    if Proper(m) {
      ProdMonotone(Extent(m), Extent(bp));
      ProdMonotone(Extent(m), Extent(bg));
      var lo := Min(Prod(Extent(bp)), Prod(Extent(bg)));
      assert 0.0 < Prod(Extent(m)) <= lo;
      DivAtMostOne(Prod(Extent(m)), lo);
    }
  }

  lemma DivAtMostOne(a: real, b: real)
    requires 0.0 < a <= b
    ensures 0.0 < a / b <= 1.0
  {
  }

  // ---------------------------------------------------------------- volume overlap

  datatype VolumeOverlap = VolumeOverlap(volume: real, ratio: real)

  /**
   * `_calculate_volume_overlap` on the two bounding boxes and the mesh volumes (`None` for a mesh
   * without one): boxes that touch or miss on any axis give volume and ratio 0.
   */
  function VolumeOverlapOf(bp: Box, bg: Box, volP: Option<real>, volG: Option<real>): (r: VolumeOverlap)
    ensures !Proper(Meet(bp, bg)) ==> r == VolumeOverlap(0.0, 0.0)
    ensures Proper(Meet(bp, bg)) ==> r.volume > 0.0
  {
    var m := Meet(bp, bg);
    if !Proper(m) then VolumeOverlap(0.0, 0.0)
    else
      var volume := Prod(Extent(m));
      ProdMonotone(Extent(m), Extent(m));
      var total := (if volP.Some? then volP.value else 0.0) + (if volG.Some? then volG.value else 0.0);
      VolumeOverlap(volume, if total > 0.0 then volume / total else 0.0)
  }

  // ---------------------------------------------------------------- the accumulated severity

  datatype Level = Critical | High | MediumLevel | Low | Minimal | Normal

  /** The first threshold the score reaches: 80, 60, 40, 25, 10. */
  function LevelOf(score: real): (r: Level)
    ensures r == Critical <==> score >= 80.0
    ensures r == Normal <==> score < 10.0
  {
    if score >= 80.0 then Critical
    else if score >= 60.0 then High
    else if score >= 40.0 then MediumLevel
    else if score >= 25.0 then Low
    else if score >= 10.0 then Minimal
    else Normal
  }

  function LevelRank(l: Level): nat {
    match l
    case Normal => 0
    case Minimal => 1
    case Low => 2
    case MediumLevel => 3
    case High => 4
    case Critical => 5
  }

  /** A higher score never gets a milder level. */
  lemma LevelMonotone(s1: real, s2: real)
    requires s1 <= s2
    ensures LevelRank(LevelOf(s1)) <= LevelRank(LevelOf(s2))
  {
  }

  /** The bonus a large overlap adds: 40, 30, 20 by its name, 10 for any other major overlap. */
  function OverlapBonus(lo: Option<LargeOverlap>): (b: real)
    ensures b in {0.0, 10.0, 20.0, 30.0, 40.0}
    ensures b != 0.0 ==> lo.Some? && lo.value.major
  {
    if lo.None? || !lo.value.major then 0.0
    else match lo.value.severity
      case CriticalEnclosure => 40.0
      case SevereOverlap => 30.0
      case MediumOverlap => 20.0
      case _ => 10.0
  }

  function Get0(c: map<string, nat>, k: string): nat { if k in c then c[k] else 0 }

  /** The severity score, its level and the factors reported beside it. */
  datatype Severity = Severity(score: real, level: Level, bonus: real, density: real, severeFactor: real,
                               overlapFactor: real, directionalFactor: real, distanceBonus: real)

  /** The points and metrics the analyzer hands over, with the statistics when already computed. */
  datatype InterferenceData = InterferenceData(points: map<string, seq<nat>>, statistics: Option<Statistics>,
                                               metrics: Metrics)

  /** `metrics.get(key, 0)`. */
  function OrZero(o: Option<real>): real { if o.Some? then o.value else 0.0 }

  /** `severe_p_count + severe_g_count`, an absent count read as 0. */
  function SevereCount(s: Statistics): nat {
    Get0(s.counts, "severe_p_count") + Get0(s.counts, "severe_g_count")
  }

  /**
   * The interference total and the severe count the score reads: from the statistics handed over,
   * or as the analyzer computes them from the point sets.
   */
  function CountsRead(data: InterferenceData): (nat, nat)
    requires data.statistics.Some? || HasTotalKeys(data.points)
  {
    if data.statistics.Some? then (data.statistics.value.totalInterference, SevereCount(data.statistics.value))
    else
      var p := data.points;
      (Size(p, "severe_p") + Size(p, "severe_g") + Size(p, "medium_p") + Size(p, "medium_g")
       + Size(p, "mild_p") + Size(p, "mild_g"),
       Size(p, "severe_p") + Size(p, "severe_g"))
  }

  /** The density term: `min(35, log(1 + total) * 6)`, and 0 without interference points. */
  function DensityFactor(total: nat, ln: real -> real): real {
    if total > 0 then Min(35.0, ln(1.0 + total as real) * 6.0) else 0.0
  }

  /** The severe share times 30, and 0 without interference points. */
  function SevereFactor(severe: nat, total: nat): real {
    if total > 0 then (severe as real / total as real) * 30.0 else 0.0
  }

  /** The volume term: `min(20, overlap_ratio * 20)`. */
  function OverlapFactor(m: Metrics): real { Min(20.0, OrZero(m.overlapRatio) * 20.0) }

  /** The directional term: `directional_score * 10`. */
  function DirectionalFactor(m: Metrics): real { OrZero(m.directionalScore) * 10.0 }

  /**
   * The distance bonus: none unless the closest distance is below 5 mm (an absent distance is
   * infinite), 15 for an overlap, otherwise `min(15, 15 / (d + 0.1))`.
   */
  function DistanceBonus(m: Metrics): (b: real)
    ensures 0.0 <= b <= 15.0
    ensures m.minDistanceOverall.None? || m.minDistanceOverall.value >= 5.0 ==> b == 0.0
    ensures m.minDistanceOverall.Some? && m.minDistanceOverall.value <= 0.0 ==> b == 15.0
  {
    if m.minDistanceOverall.None? || m.minDistanceOverall.value >= 5.0 then 0.0
    else
      var d := m.minDistanceOverall.value;
      if d > 0.0 then Min(15.0, 15.0 / (d + 0.1)) else 15.0
  }

  /**
   * `_calculate_interference_severity`: the overlap bonus, a logarithmic density term capped at 35,
   * the share of severe points times 30, the volume ratio times 20 capped at 20, the directional
   * score times 10 and a distance bonus of at most 15, summed and clamped to [0, 100]; the level
   * is the first threshold the clamped score reaches.
   */
  method CalculateSeverity(data: InterferenceData, ln: real -> real) returns (r: Result<Severity>)
    ensures data.statistics.Some? ==> r.Ok?
    ensures data.statistics.None? ==> (r.Ok? <==> HasTotalKeys(data.points) && HasMetrics(data.metrics))
    ensures r.Err? ==> r.error == KeyError
    ensures r.Ok? ==>
      (data.statistics.Some? || HasTotalKeys(data.points))
      && var c := CountsRead(data);
         var s := r.value;
         s.density == DensityFactor(c.0, ln) && s.severeFactor == SevereFactor(c.1, c.0)
         && s.overlapFactor == OverlapFactor(data.metrics) && s.directionalFactor == DirectionalFactor(data.metrics)
         && s.distanceBonus == DistanceBonus(data.metrics)
    ensures r.Ok? ==>
      var s := r.value;
      0.0 <= s.score <= 100.0 && s.level == LevelOf(s.score)
      && s.score == Max(0.0, Min(100.0, s.bonus + s.density + s.severeFactor + s.overlapFactor
                                        + s.directionalFactor + s.distanceBonus))
      && s.bonus == OverlapBonus(data.metrics.largeOverlap)
      && s.density <= 35.0 && s.overlapFactor <= 20.0 && 0.0 <= s.distanceBonus <= 15.0
  {
    var statistics: Statistics;
    if data.statistics.Some? {
      statistics := data.statistics.value;
    } else {
      var computed := EnhancedStatistics(data.points, data.metrics);
      if computed.Err? {
        return Err(computed.error);
      }
      statistics := computed.value;
      assert CountKey("severe_p") == "severe_p_count" && CountKey("severe_g") == "severe_g_count";
      assert Get0(statistics.counts, "severe_p_count") == Size(data.points, "severe_p");
      assert Get0(statistics.counts, "severe_g_count") == Size(data.points, "severe_g");
    }
    ghost var c := CountsRead(data);
    assert c == (statistics.totalInterference, SevereCount(statistics));
    var metrics := data.metrics;
    var bonus := OverlapBonus(metrics.largeOverlap);
    var baseScore := bonus;
    var total := statistics.totalInterference;
    var density := 0.0;
    if total > 0 {
      density := Min(35.0, ln(1.0 + total as real) * 6.0);
      baseScore := baseScore + density;
    }
    var severeCount := Get0(statistics.counts, "severe_p_count") + Get0(statistics.counts, "severe_g_count");
    var severeRatio := 0.0;
    if total > 0 {
      severeRatio := severeCount as real / total as real;
      baseScore := baseScore + severeRatio * 30.0;
    }
    var overlapRatio := if metrics.overlapRatio.Some? then metrics.overlapRatio.value else 0.0;
    baseScore := baseScore + Min(20.0, overlapRatio * 20.0);
    var directional := if metrics.directionalScore.Some? then metrics.directionalScore.value else 0.0;
    baseScore := baseScore + directional * 10.0;
    var distanceBonus := 0.0;
    if metrics.minDistanceOverall.Some? && metrics.minDistanceOverall.value < 5.0 {
      var minDistance := metrics.minDistanceOverall.value;
      if minDistance > 0.0 {
        distanceBonus := Min(15.0, 15.0 / (minDistance + 0.1));
      } else {
        distanceBonus := 15.0;
      }
      baseScore := baseScore + distanceBonus;
    }
    assert distanceBonus == DistanceBonus(metrics);
    var score := Max(0.0, Min(100.0, baseScore));
    return Ok(Severity(score, LevelOf(score), bonus, density, severeRatio * 30.0, Min(20.0, overlapRatio * 20.0),
                       directional * 10.0, distanceBonus));
  }

  /** With at most as many severe points as interference points the two count terms stay in range. */
  lemma SeverityFactorBounds(total: nat, severe: nat, ln: real -> real)
    requires IsLn(ln) && severe <= total
    ensures 0.0 <= SevereFactor(severe, total) <= 30.0
    ensures 0.0 <= DensityFactor(total, ln) <= 35.0
  {
    if total > 0 {
      DivAtMostOneOrZero(severe as real, total as real);
      assert ln(1.0) < ln(1.0 + total as real);
    }
  }

  /**
   * With counts the analyzer computes itself the severe share lies in [0, 30] and, for a
   * logarithm, the density term in [0, 35].
   */
  lemma SeverityFactorsFromCounts(data: InterferenceData, ln: real -> real)
    requires IsLn(ln) && data.statistics.None? && HasTotalKeys(data.points)
    ensures var c := CountsRead(data);
      0.0 <= SevereFactor(c.1, c.0) <= 30.0 && 0.0 <= DensityFactor(c.0, ln) <= 35.0
  {
    var c := CountsRead(data);
    SeverityFactorBounds(c.0, c.1, ln);
  }

  lemma DivAtMostOneOrZero(a: real, b: real)
    requires 0.0 <= a <= b && b > 0.0
    ensures 0.0 <= a / b <= 1.0
  {
  }
}
