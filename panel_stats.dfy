/**
 * The panel-statistics helpers shared by the dashboard endpoints: date-range
 * normalisation, the per-panel value map built from reduced features, and
 * the summary statistics with their five quantile buckets.
 */
module PanelStats {
  import opened Wrappers
  import opened RealArith
  import opened Digits
  import opened Percentile

  // ---------------------------------------------------------------------
  // Date ranges

  /**
   * `normalize_date_range` over day numbers. `None` stands for a string that
   * does not parse as `YYYY-MM-DD`.
   */
  function NormalizeDateRange(start: Option<int>, end: Option<int>): (r: Result<(int, int), HttpError>)
    ensures r.Failure? <==> start.None? || end.None? || start.value > end.value
    ensures r.Failure? ==> r.error.status == 400
    ensures r.Success? ==> r.value.0 == start.value
    ensures r.Success? ==> r.value.1 == (if start.value == end.value then end.value + 1 else end.value)
    ensures r.Success? ==> r.value.0 < r.value.1
  {
    match (start, end)
    case (None, _) => Failure(HttpError(400, "Invalid date format. Use YYYY-MM-DD."))
    case (_, None) => Failure(HttpError(400, "Invalid date format. Use YYYY-MM-DD."))
    case (Some(s), Some(e)) =>
      if s > e then Failure(HttpError(400, "start_date must be before or equal to end_date"))
      else if s == e then Success((s, e + 1))
      else Success((s, e))
  }

  /** A normalised range is already normal: normalising it again changes nothing. */
  lemma NormalizeDateRangeIdempotent(start: Option<int>, end: Option<int>)
    requires NormalizeDateRange(start, end).Success?
    ensures var (s, e) := NormalizeDateRange(start, end).value;
      NormalizeDateRange(Some(s), Some(e)) == Success((s, e))
  {
  }

  // ---------------------------------------------------------------------
  // Feature properties and the value map

  /**
   * A property value: JSON null, a value that `float()` accepts (with the
   * number it yields), or one that `float()` rejects.
   */
  datatype Prop = PNull | PNumber(x: real) | PText(s: string)

  /** A reduced feature: its `panel_id` (`None` when absent or null) and its properties. */
  datatype Feature = Feature(panelId: Option<int>, props: map<string, Prop>)

  /** One value-map entry, a dictionary from field name to value. */
  type Entry = map<string, Prop>

  /** `props.get(k)`, where JSON null and absence both read as `None`. */
  function Get(props: map<string, Prop>, k: string): Option<Prop> {
    if k in props && props[k] != PNull then Some(props[k]) else None
  }

  /** The extra fields copied into an entry: those present and not null. */
  function CopyExtras(entry: Entry, props: map<string, Prop>, fields: seq<string>): (r: Entry)
    ensures forall k :: k in r <==> k in entry || (k in fields && Get(props, k).Some?)
    ensures forall k :: k in r ==>
      r[k] == (if k in fields && Get(props, k).Some? then props[k] else entry[k])
  {
    if fields == [] then entry
    else
      var f := fields[|fields| - 1];
      var r := CopyExtras(entry, props, fields[..|fields| - 1]);
      assert forall k :: k in fields <==> k in fields[..|fields| - 1] || k == f;
      if Get(props, f).Some? then r[f := props[f]] else r
  }

  /** The entry a feature contributes, or `None` when the loop skips it. */
  function EntryOf(f: Feature, valueField: string, unit: string, extraFields: seq<string>): Option<Entry> {
    if f.panelId.None? then None
    else match Get(f.props, valueField)
      case Some(PNumber(v)) =>
        Some(CopyExtras(map["value" := PNumber(v), "unit" := PText(unit)], f.props, extraFields))
      case _ => None
  }

  /** The value map after the first `|fs|` features: later entries overwrite earlier ones. */
  function ValueMap(fs: seq<Feature>, valueField: string, unit: string, extraFields: seq<string>): map<string, Entry> {
    if fs == [] then map[]
    else
      var m := ValueMap(fs[..|fs| - 1], valueField, unit, extraFields);
      var f := fs[|fs| - 1];
      match EntryOf(f, valueField, unit, extraFields)
      case None => m
      case Some(e) => m[ShowInt(f.panelId.value) := e]
  }

  /** `features_to_value_map`: one dictionary update per kept feature, in order. */
  method FeaturesToValueMap(features: seq<Feature>, valueField: string, unit: string, extraFields: seq<string>)
    returns (results: map<string, Entry>)
    ensures results == ValueMap(features, valueField, unit, extraFields)
  {
    results := map[];
    var i := 0;
    while i < |features|
      invariant 0 <= i <= |features|
      invariant results == ValueMap(features[..i], valueField, unit, extraFields)
    {
      assert features[..i + 1][..i] == features[..i];
      var f := features[i];
      if f.panelId.Some? {
        var raw := Get(f.props, valueField);
        if raw.Some? && raw.value.PNumber? {
          var entry := map["value" := raw.value, "unit" := PText(unit)];
          entry := CopyExtras(entry, f.props, extraFields);
          results := results[ShowInt(f.panelId.value) := entry];
        }
      }
      i := i + 1;
    }
    assert features[..i] == features;
  }

  /** A key is present exactly when some kept feature has that `str(panel_id)`. */
  lemma {:induction false} ValueMapKeys(fs: seq<Feature>, valueField: string, unit: string, extraFields: seq<string>, key: string)
    ensures key in ValueMap(fs, valueField, unit, extraFields) <==>
      exists j :: 0 <= j < |fs| && EntryOf(fs[j], valueField, unit, extraFields).Some?
        && ShowInt(fs[j].panelId.value) == key
  {
    if fs != [] {
      var init := fs[..|fs| - 1];
      ValueMapKeys(init, valueField, unit, extraFields, key);
      assert forall j :: 0 <= j < |init| ==> init[j] == fs[j];
    }
  }

  /** Each key holds the entry of the last kept feature with that panel id. */
  lemma {:induction false} ValueMapLastWins(fs: seq<Feature>, valueField: string, unit: string, extraFields: seq<string>, j: nat)
    requires j < |fs| && EntryOf(fs[j], valueField, unit, extraFields).Some?
    requires forall k :: j < k < |fs| && EntryOf(fs[k], valueField, unit, extraFields).Some? ==>
      fs[k].panelId != fs[j].panelId
    ensures ShowInt(fs[j].panelId.value) in ValueMap(fs, valueField, unit, extraFields)
    ensures ValueMap(fs, valueField, unit, extraFields)[ShowInt(fs[j].panelId.value)]
      == EntryOf(fs[j], valueField, unit, extraFields).value
  {
    var init, last := fs[..|fs| - 1], fs[|fs| - 1];
    if j < |fs| - 1 {
      assert init[j] == fs[j];
      ValueMapLastWins(init, valueField, unit, extraFields, j);
      if EntryOf(last, valueField, unit, extraFields).Some? {
        assert last.panelId != fs[j].panelId;
        if ShowInt(last.panelId.value) == ShowInt(fs[j].panelId.value) {
          ShowIntInjective(last.panelId.value, fs[j].panelId.value);
        }
      }
    }
  }

  /** Every entry carries the numeric value and the unit, unless an extra field of that name overrides it. */
  lemma EntryShape(f: Feature, valueField: string, unit: string, extraFields: seq<string>)
    requires EntryOf(f, valueField, unit, extraFields).Some?
    ensures var e := EntryOf(f, valueField, unit, extraFields).value;
      "value" in e && "unit" in e
      && ("value" !in extraFields || Get(f.props, "value").None? ==> e["value"] == f.props[valueField])
      && ("unit" !in extraFields || Get(f.props, "unit").None? ==> e["unit"] == PText(unit))
  {
  }

  // ---------------------------------------------------------------------
  // Value statistics

  /** `BUCKET_LABELS`: id and display label of the five quantile buckets, in order. */
  const BucketLabels: seq<(string, string)> := [
    ("very_low", "Very Low"), ("low", "Low"), ("medium", "Medium"), ("high", "High"), ("very_high", "Very High")]

  /** The bucket edges, as quantiles. */
  const QuantileBreaks: seq<real> := [0.0, 0.2, 0.4, 0.6, 0.8, 1.0]

  /** One quantile bucket: its id, its display label, and the range it covers. */
  datatype Bucket = Bucket(id: string, display: string, lo: real, hi: real)

  datatype ValueStats = ValueStats(
    count: nat, min: Option<real>, max: Option<real>, mean: Option<real>, median: Option<real>,
    percentiles: map<string, real>, buckets: seq<Bucket>)

  const EmptyStats := ValueStats(0, None, None, None, None, map[], [])

  /** The values the filter keeps: `entry.get('value')` when it is present and `float()` accepts it. */
  function NumericValues(entries: seq<Entry>): (xs: seq<real>)
    ensures |xs| <= |entries|
  {
    if entries == [] then []
    else
      var rest := NumericValues(entries[..|entries| - 1]);
      match Get(entries[|entries| - 1], "value")
      case Some(PNumber(x)) => rest + [x]
      case _ => rest
  }

  function Sum(xs: seq<real>): real {
    if xs == [] then 0.0 else Sum(xs[..|xs| - 1]) + xs[|xs| - 1]
  }

  /** `statistics.mean`. */
  function Mean(xs: seq<real>): real
    requires xs != []
  {
    Sum(xs) / |xs| as real
  }

  /** A sum of `n` values lies between `n` times the least and `n` times the greatest. */
  lemma {:induction false} SumBounds(xs: seq<real>, lo: real, hi: real)
    requires forall i :: 0 <= i < |xs| ==> lo <= xs[i] <= hi
    ensures |xs| as real * lo <= Sum(xs) <= |xs| as real * hi
  {
    if xs != [] {
      SumBounds(xs[..|xs| - 1], lo, hi);
    }
  }

  /** The mean of a sorted list lies between its first and last values. */
  lemma MeanWithinRange(xs: seq<real>)
    requires xs != [] && Sorted(xs)
    ensures xs[0] <= Mean(xs) <= xs[|xs| - 1]
  {
    var n := |xs| as real;
    SumBounds(xs, xs[0], xs[|xs| - 1]);
    DivideBounds(Sum(xs), n, xs[0], xs[|xs| - 1]);
  }

  lemma DivideBounds(total: real, n: real, lo: real, hi: real)
    requires n > 0.0 && n * lo <= total <= n * hi
    ensures lo <= total / n <= hi
  {
    var m := total / n;
    assert m * n == total;
    assert (m - lo) * n == total - n * lo;
    assert (hi - m) * n == n * hi - total;
    ProductSign(m - lo, n);
    ProductSign(hi - m, n);
  }

  /** The percentile at each bucket edge, on a non-empty sorted list. */
  function EdgeValues(sorted: seq<real>): (qs: seq<real>)
    requires sorted != []
    ensures |qs| == |QuantileBreaks|
  {
    seq(|QuantileBreaks|, k requires 0 <= k < |QuantileBreaks| => PercentileFromSorted(sorted, QuantileBreaks[k]).value)
  }

  /** The named percentiles p10 … p90. */
  function NamedPercentiles(sorted: seq<real>): map<string, real>
    requires sorted != []
  {
    map[
      "p10" := PercentileFromSorted(sorted, 0.1).value,
      "p25" := PercentileFromSorted(sorted, 0.25).value,
      "p50" := PercentileFromSorted(sorted, 0.5).value,
      "p75" := PercentileFromSorted(sorted, 0.75).value,
      "p90" := PercentileFromSorted(sorted, 0.9).value]
  }

  /** The edges never decrease, so the clamp of a bucket's end to its start never fires. */
  lemma EdgeValuesAscending(sorted: seq<real>)
    requires sorted != [] && Sorted(sorted)
    ensures forall k :: 0 <= k < |BucketLabels| ==> EdgeValues(sorted)[k] <= EdgeValues(sorted)[k + 1]
  {
    forall k | 0 <= k < |BucketLabels| {
      PercentileMonotone(sorted, QuantileBreaks[k], QuantileBreaks[k + 1]);
    }
  }

  /** Bucket `k` spans from edge `k` to edge `k + 1`, the end clamped to be no less than the start. */
  function BucketAt(edges: seq<real>, k: nat): (b: Bucket)
    requires |edges| == |QuantileBreaks| && k < |BucketLabels|
    ensures b.lo <= b.hi
  {
    var hi := if edges[k + 1] < edges[k] then edges[k] else edges[k + 1];
    Bucket(BucketLabels[k].0, BucketLabels[k].1, edges[k], hi)
  }

  /** The statistics of a non-empty ascending list of values. */
  function StatsOf(sorted: seq<real>): ValueStats
    requires sorted != []
  {
    var edges := EdgeValues(sorted);
    var percentiles := NamedPercentiles(sorted);
    ValueStats(|sorted|, Some(sorted[0]), Some(sorted[|sorted| - 1]), Some(Mean(sorted)),
      Some(percentiles["p50"]), percentiles,
      seq(|BucketLabels|, k requires 0 <= k < |BucketLabels| => BucketAt(edges, k)))
  }

  /**
   * `build_value_stats`: filter the numeric values, sort them, and report the
   * count, extremes, mean, median, named percentiles and five buckets.
   */
  method BuildValueStats(entries: seq<Entry>) returns (stats: ValueStats)
    ensures NumericValues(entries) == [] ==> stats == EmptyStats
    ensures NumericValues(entries) != [] ==> stats == StatsOf(SortAscending(NumericValues(entries)))
  {
    var numeric: seq<real> := [];
    var i := 0;
    while i < |entries|
      invariant 0 <= i <= |entries|
      invariant numeric == NumericValues(entries[..i])
    {
      assert entries[..i + 1][..i] == entries[..i];
      var raw := Get(entries[i], "value");
      if raw.Some? && raw.value.PNumber? {
        numeric := numeric + [raw.value.x];
      }
      i := i + 1;
    }
    assert entries[..i] == entries;
    if numeric == [] {
      return EmptyStats;
    }
    var sorted := SortAscending(numeric);
    SortedLength(numeric);
    var percentiles := NamedPercentiles(sorted);
    var edges := EdgeValues(sorted);
    var buckets := BucketsFromEdges(edges);
    stats := ValueStats(|sorted|, Some(sorted[0]), Some(sorted[|sorted| - 1]), Some(Mean(sorted)),
      Some(percentiles["p50"]), percentiles, buckets);
  }

  /** The bucket loop of `build_value_stats`, over the six edge values. */
  method BucketsFromEdges(edges: seq<real>) returns (buckets: seq<Bucket>)
    requires |edges| == |QuantileBreaks|
    ensures buckets == seq(|BucketLabels|, k requires 0 <= k < |BucketLabels| => BucketAt(edges, k))
  {
    buckets := [];
    var idx := 0;
    while idx < |BucketLabels|
      invariant 0 <= idx <= |BucketLabels|
      invariant |buckets| == idx
      invariant forall k :: 0 <= k < idx ==> buckets[k] == BucketAt(edges, k)
    {
      var lo, hi := edges[idx], edges[idx + 1];
      if hi < lo {
        hi := lo;
      }
      buckets := buckets + [Bucket(BucketLabels[idx].0, BucketLabels[idx].1, lo, hi)];
      idx := idx + 1;
    }
  }

  /** Sorting keeps the number of values. */
  lemma SortedLength(xs: seq<real>)
    ensures |SortAscending(xs)| == |xs|
  {
    assert |multiset(SortAscending(xs))| == |multiset(xs)|;
  }

  /**
   * What the statistics say: the count of kept values, min and max as the
   * extremes, a mean between them, the median as p50, and five buckets in
   * label order that run from min to max, each starting where the previous
   * one ends and none of them inverted.
   */
  lemma StatsOfProperties(sorted: seq<real>)
    requires sorted != [] && Sorted(sorted)
    ensures var st := StatsOf(sorted);
      && st.count == |sorted|
      && st.min == Some(sorted[0]) && st.max == Some(sorted[|sorted| - 1])
      && sorted[0] <= st.mean.value <= sorted[|sorted| - 1]
      && st.median == Some(st.percentiles["p50"])
      && st.percentiles.Keys == {"p10", "p25", "p50", "p75", "p90"}
      && |st.buckets| == |BucketLabels|
      && (forall k :: 0 <= k < |BucketLabels| ==>
            st.buckets[k].id == BucketLabels[k].0 && st.buckets[k].display == BucketLabels[k].1
            && st.buckets[k].lo <= st.buckets[k].hi)
      && (forall k :: 0 < k < |BucketLabels| ==> st.buckets[k].lo == st.buckets[k - 1].hi)
      && (forall k :: 0 <= k < |BucketLabels| ==> st.buckets[k].hi == EdgeValues(sorted)[k + 1])
      && st.buckets[0].lo == sorted[0]
      && st.buckets[|BucketLabels| - 1].hi == sorted[|sorted| - 1]
  {
    PercentileEnds(sorted);
    MeanWithinRange(sorted);
    EdgeValuesAscending(sorted);
  }

  /** Every named percentile lies between the minimum and the maximum. */
  lemma PercentilesWithinRange(sorted: seq<real>)
    requires sorted != [] && Sorted(sorted)
    ensures forall p :: p in StatsOf(sorted).percentiles ==>
      sorted[0] <= StatsOf(sorted).percentiles[p] <= sorted[|sorted| - 1]
  {
    PercentileWithinRange(sorted, 0.1);
    PercentileWithinRange(sorted, 0.25);
    PercentileWithinRange(sorted, 0.5);
    PercentileWithinRange(sorted, 0.75);
    PercentileWithinRange(sorted, 0.9);
  }

  /** Exactly the numeric values are kept: a value appears when, and only when, some entry holds it as a number. */
  lemma {:induction false} NumericValuesExact(entries: seq<Entry>)
    ensures forall x :: x in NumericValues(entries) <==> exists e :: e in entries && Get(e, "value") == Some(PNumber(x))
  {
    if entries != [] {
      var init := entries[..|entries| - 1];
      NumericValuesExact(init);
      assert entries == init + [entries[|entries| - 1]];
    }
  }

  /** `count` is the number of entries whose value is present and numeric. */
  lemma {:induction false} NumericValuesCount(entries: seq<Entry>)
    ensures |NumericValues(entries)| == |set i | 0 <= i < |entries| && Get(entries[i], "value").Some? && Get(entries[i], "value").value.PNumber?|
  {
    if entries != [] {
      var n := |entries| - 1;
      NumericValuesCount(entries[..n]);
      var kept := set i | 0 <= i < |entries| && Get(entries[i], "value").Some? && Get(entries[i], "value").value.PNumber?;
      var before := set i | 0 <= i < n && Get(entries[..n][i], "value").Some? && Get(entries[..n][i], "value").value.PNumber?;
      if Get(entries[n], "value").Some? && Get(entries[n], "value").value.PNumber? {
        assert kept == before + {n};
      } else {
        assert kept == before;
      }
    }
  }
}
