/**
 * The per-key median of repeated readings (`_median_feats` in RL/Control/control_test.py),
 * over Python's `statistics.median`: the middle of the sorted values, or the mean of the
 * two middle values when their number is even.
 */
module Stats {
  import opened Wrappers
  import opened Scoring

  predicate Sorted(s: seq<real>) {
    forall i, j :: 0 <= i < j < |s| ==> s[i] <= s[j]
  }

  /** Inserts `x` before the first element that is not smaller than it. */
  function Insert(x: real, s: seq<real>): (r: seq<real>)
    requires Sorted(s)
    ensures Sorted(r)
    ensures multiset(r) == multiset(s) + multiset{x}
    ensures |r| == |s| + 1
    ensures r[0] == x || (|s| > 0 && r[0] == s[0])
  {
    if |s| == 0 then [x]
    else if x <= s[0] then [x] + s
    else
      var t := Insert(x, s[1..]);
      assert s == [s[0]] + s[1..];
      assert s[0] <= t[0];
      [s[0]] + t
  }

  /** The ascending sort that `statistics.median` applies first. */
  function SortAsc(s: seq<real>): (r: seq<real>)
    ensures Sorted(r)
    ensures multiset(r) == multiset(s)
    ensures |r| == |s|
  {
    if |s| == 0 then []
    else
      assert s == [s[0]] + s[1..];
      Insert(s[0], SortAsc(s[1..]))
  }

  /** `statistics.median` of a non-empty list. */
  function Median(s: seq<real>): real
    requires |s| > 0
  {
    var t := SortAsc(s);
    var n := |t|;
    if n % 2 == 1 then t[n / 2] else (t[n / 2 - 1] + t[n / 2]) / 2.0
  }

  /** The median lies within any bounds that hold for every value. */
  lemma MedianWithin(s: seq<real>, lo: real, hi: real)
    requires |s| > 0
    requires forall i :: 0 <= i < |s| ==> lo <= s[i] <= hi
    ensures lo <= Median(s) <= hi
  {
    var t := SortAsc(s);
    forall j | 0 <= j < |t| ensures lo <= t[j] <= hi {
      assert t[j] in multiset(t);
      assert t[j] in multiset(s);
      var i :| 0 <= i < |s| && s[i] == t[j];
    }
  }

  /** With an odd number of values the median is one of them. */
  lemma MedianOddIsElement(s: seq<real>)
    requires |s| % 2 == 1
    ensures Median(s) in s
  {
    var t := SortAsc(s);
    assert t[|t| / 2] in multiset(t);
    assert t[|t| / 2] in multiset(s);
  }

  /** The median of one value is that value. */
  lemma MedianSingleton(v: real)
    ensures Median([v]) == v
  {
    assert SortAsc([v]) == Insert(v, []);
  }

  /** Every reading of the batch carries key `k`. */
  predicate KeyShared(batch: seq<Feats>, k: string) {
    forall i :: 0 <= i < |batch| ==> k in batch[i]
  }

  /** `[b[k] for b in batch]`. */
  function Column(batch: seq<Feats>, k: string): (r: seq<real>)
    requires KeyShared(batch, k)
    ensures |r| == |batch|
    ensures forall i :: 0 <= i < |batch| ==> r[i] == batch[i][k]
  {
    if |batch| == 0 then [] else Column(batch[..|batch| - 1], k) + [batch[|batch| - 1][k]]
  }

  /**
   * `_median_feats(batch)`: the keys of the first reading, each mapped to the median of its
   * column. An empty batch fails on `batch[0]`, and a key that a later reading lacks fails too.
   */
  function PerKeyMedian(batch: seq<Feats>): (r: Result<Feats>)
    ensures |batch| == 0 <==> r == Err(IndexError)
    ensures r.Ok? <==> |batch| > 0 && forall k :: k in batch[0] ==> KeyShared(batch, k)
    ensures r.Err? ==> r.error == IndexError || r.error == KeyError
    ensures r.Ok? ==> r.value.Keys == batch[0].Keys
  {
    if |batch| == 0 then Err(IndexError)
    else if forall k :: k in batch[0] ==> KeyShared(batch, k) then Ok(MedianMap(batch))
    else Err(KeyError)
  }

  /** The dictionary of per-key medians over the keys of the first reading. */
  function MedianMap(batch: seq<Feats>): (m: Feats)
    requires |batch| > 0 && forall k :: k in batch[0] ==> KeyShared(batch, k)
    ensures m.Keys == batch[0].Keys
  {
    map k | k in batch[0] :: Median(Column(batch, k))
  }

  /** A batch of one reading has that reading as its median. */
  lemma PerKeyMedianSingleton(f: Feats)
    ensures PerKeyMedian([f]) == Ok(f)
  {
    forall k | k in f ensures KeyShared([f], k) && Median(Column([f], k)) == f[k] {
      ColumnSingleton(f, k);
    }
    assert MedianMap([f]) == f;
  }

  lemma ColumnSingleton(f: Feats, k: string)
    requires k in f
    ensures KeyShared([f], k) && Median(Column([f], k)) == f[k]
  {
    assert Column([f], k) == [f[k]];
    MedianSingleton(f[k]);
  }

  /** Each median value lies between the smallest and the largest reading of its key. */
  lemma PerKeyMedianWithin(batch: seq<Feats>, k: string, lo: real, hi: real)
    requires PerKeyMedian(batch).Ok? && k in batch[0]
    requires forall i :: 0 <= i < |batch| ==> lo <= batch[i][k] <= hi
    ensures lo <= PerKeyMedian(batch).value[k] <= hi
  {
    MedianWithin(Column(batch, k), lo, hi);
  }

  /** A dictionary holding the median of every key of the first reading is the median map. */
  lemma MedianMapExt(batch: seq<Feats>, out: Feats)
    requires |batch| > 0 && out.Keys == batch[0].Keys
    requires forall k :: k in out ==> KeyShared(batch, k) && out[k] == Median(Column(batch, k))
    ensures forall k :: k in batch[0] ==> KeyShared(batch, k)
    ensures out == MedianMap(batch)
  {
  }

  /** The comprehension `[b[k] for b in batch]`, failing on the first reading without `k`. */
  method ColumnOf(batch: seq<Feats>, k: string) returns (r: Option<seq<real>>)
    ensures r.Some? <==> KeyShared(batch, k)
    ensures r.Some? ==> r.value == Column(batch, k)
  {
    var i := 0;
    var column: seq<real> := [];
    while i < |batch|
      invariant 0 <= i <= |batch|
      invariant |column| == i
      invariant forall j :: 0 <= j < i ==> k in batch[j] && column[j] == batch[j][k]
    {
      if k !in batch[i] {
        return None;
      }
      column := column + [batch[i][k]];
      i := i + 1;
    }
    return Some(column);
  }

  /** `_median_feats`, filling the output dictionary key by key. */
  method MedianFeats(batch: seq<Feats>) returns (r: Result<Feats>)
    ensures r == PerKeyMedian(batch)
  {
    if |batch| == 0 {
      return Err(IndexError);
    }
    var keys := batch[0].Keys;
    var out: Feats := map[];
    while keys != {}
      invariant keys <= batch[0].Keys
      invariant out.Keys == batch[0].Keys - keys
      invariant forall k :: k in out ==> KeyShared(batch, k) && out[k] == Median(Column(batch, k))
      decreases keys
    {
      var k :| k in keys;
      var column := ColumnOf(batch, k);
      if column.None? {
        assert k in batch[0] && !KeyShared(batch, k);
        return Err(KeyError);
      }
      out := out[k := Median(column.value)];
      keys := keys - {k};
    }
    MedianMapExt(batch, out);
    return Ok(out);
  }
}
