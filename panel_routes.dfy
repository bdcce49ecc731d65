/**
 * The panel dashboard endpoints: the per-panel result assembly of the
 * panel-data endpoint (database first, then Earth Engine, then a fallback or
 * an error entry) and the z-score map of the all-panels temperature endpoint.
 */
module PanelRoutes {
  import opened Wrappers
  import opened PanelStats

  // ---------------------------------------------------------------------
  // Parameters

  /** The parameters the panel-data endpoint serves. */
  datatype Parameter = Lst | Swir | Soiling | Ndvi | Ndwi | Visible

  function Name(p: Parameter): string {
    match p
    case Lst => "LST"
    case Swir => "SWIR"
    case Soiling => "SOILING"
    case Ndvi => "NDVI"
    case Ndwi => "NDWI"
    case Visible => "VISIBLE"
  }

  /** The unit of a parameter's values. */
  function Unit(p: Parameter): string {
    match p
    case Lst => "°C"
    case Swir => "reflectance"
    case Soiling => "%"
    case Ndvi => ""
    case Ndwi => ""
    case Visible => "reflectance"
  }

  /** The number of decimals a parameter's values are rounded to. */
  function Precision(p: Parameter): nat {
    match p
    case Lst => 2
    case Swir => 4
    case Soiling => 2
    case Ndvi => 4
    case Ndwi => 4
    case Visible => 4
  }

  /** `str.upper` on one character, for ASCII letters. */
  function UpperChar(c: char): (u: char)
    ensures 'a' <= c <= 'z' ==> 'A' <= u <= 'Z'
    ensures !('a' <= c <= 'z') ==> u == c
  {
    if 'a' <= c <= 'z' then (c as int - 'a' as int + 'A' as int) as char else c
  }

  function Upper(s: string): (u: string)
    ensures |u| == |s|
    ensures forall i :: 0 <= i < |s| ==> u[i] == UpperChar(s[i])
  {
    if s == [] then [] else [UpperChar(s[0])] + Upper(s[1..])
  }

  /** A string with no lower-case ASCII letter is its own upper case. */
  lemma UpperOfUpper(s: string)
    requires forall i :: 0 <= i < |s| ==> !('a' <= s[i] <= 'z')
    ensures Upper(s) == s
  {
  }

  /** Upper-casing twice is upper-casing once. */
  lemma UpperIdempotent(s: string)
    ensures Upper(Upper(s)) == Upper(s)
  {
    UpperOfUpper(Upper(s));
  }

  /** `query.parameter.upper()` looked up in the parameter table. */
  function ParseParameter(name: string): (r: Option<Parameter>)
    ensures r.Some? ==> Name(r.value) == Upper(name)
  {
    var u := Upper(name);
    if u == "LST" then Some(Lst)
    else if u == "SWIR" then Some(Swir)
    else if u == "SOILING" then Some(Soiling)
    else if u == "NDVI" then Some(Ndvi)
    else if u == "NDWI" then Some(Ndwi)
    else if u == "VISIBLE" then Some(Visible)
    else None
  }

  /** A name is accepted exactly when its upper case is a parameter's name, in any letter case. */
  lemma ParseParameterIff(name: string, p: Parameter)
    ensures ParseParameter(name) == Some(p) <==> Upper(name) == Name(p)
  {
  }

  /** Parameter names are written in capitals. */
  lemma NameIsUpperCase(p: Parameter)
    ensures forall i :: 0 <= i < |Name(p)| ==> !('a' <= Name(p)[i] <= 'z')
  {
  }

  /** Every parameter's own name is accepted. */
  lemma ParseName(p: Parameter)
    ensures ParseParameter(Name(p)) == Some(p)
  {
    NameIsUpperCase(p);
    UpperOfUpper(Name(p));
    ParseParameterIff(Name(p), p);
  }

  // ---------------------------------------------------------------------
  // Per-panel results

  datatype Source = Database | Gee

  /** A stored or fetched series point; `value` is whatever the record holds. */
  datatype TimeseriesEntry = TimeseriesEntry(date: string, value: Prop, unit: string)

  /** A point of the response series: the value rounded, or `None` when `float()` rejects it. */
  datatype RoundedEntry = RoundedEntry(date: string, value: Option<real>, unit: string)

  /** One entry of the `results` list; `D` is a soiling record as the database or Earth Engine returns it. */
  datatype PanelResult<D> =
    | SoilingRecord(record: D, source: Source)
    | SoilingFallback(baseline: real, current: real, dropPercent: real, unit: string, status: string)
    | SeriesResult(parameter: Parameter, currentValue: Option<real>, unit: string, timeseries: seq<RoundedEntry>)
    | NoData(error: string)

  /**
   * The lookups behind one request. A lookup that fails or finds nothing
   * yields `None` or the empty series, as the source's `except` clauses and
   * truthiness tests make it. `round` is Python's `round(x, ndigits)`.
   */
  datatype Lookups<D> = Lookups(
    soilingRecord: int -> Option<D>,
    soilingGee: (int, int, int) -> Option<D>,
    dbSeries: (int, Parameter, int, int) -> seq<TimeseriesEntry>,
    geeSeries: (int, Parameter, int, int) -> seq<TimeseriesEntry>,
    round: (real, nat) -> real)

  /** `round(float(v), precision)`, or `None` when `float()` rejects the value. */
  function RoundValue(v: Prop, precision: nat, round: (real, nat) -> real): Option<real> {
    if v.PNumber? then Some(round(v.x, precision)) else None
  }

  function RoundedSeries(ts: seq<TimeseriesEntry>, precision: nat, round: (real, nat) -> real): seq<RoundedEntry> {
    seq(|ts|, i requires 0 <= i < |ts| => RoundedEntry(ts[i].date, RoundValue(ts[i].value, precision, round), ts[i].unit))
  }

  /** The soiling fallback used when neither the database nor Earth Engine has a result. */
  const NoSoilingData: PanelResult<int> := SoilingFallback(1.0, 1.0, 0.0, "%", "no_data")

  /** The soiling result for one panel: the database record, else Earth Engine's, else the fallback. */
  function SoilingResultFor<D>(pid: int, start: int, end: int, lk: Lookups<D>): PanelResult<D> {
    match lk.soilingRecord(pid)
    case Some(record) => SoilingRecord(record, Database)
    case None =>
      match lk.soilingGee(pid, start, end)
      case Some(record) => SoilingRecord(record, Gee)
      case None => SoilingFallback(1.0, 1.0, 0.0, Unit(Soiling), "no_data")
  }

  /** The series the response is built from: the stored one, else the one Earth Engine computes. */
  function SeriesFor<D>(pid: int, p: Parameter, start: int, end: int, lk: Lookups<D>): seq<TimeseriesEntry> {
    var stored := lk.dbSeries(pid, p, start, end);
    if stored != [] then stored else lk.geeSeries(pid, p, start, end)
  }

  /** The result for a series parameter: the rounded series, or the error entry when there is none. */
  function SeriesResultFor<D>(p: Parameter, ts: seq<TimeseriesEntry>, round: (real, nat) -> real): PanelResult<D> {
    if ts == [] then NoData("No data found for requested range")
    else
      SeriesResult(p, RoundValue(ts[|ts| - 1].value, Precision(p), round), ts[0].unit,
        RoundedSeries(ts, Precision(p), round))
  }

  /** The result for one panel in the date range `[start, end)`. */
  function PanelResultFor<D>(pid: int, p: Parameter, start: int, end: int, lk: Lookups<D>): PanelResult<D> {
    if p == Soiling then SoilingResultFor(pid, start, end, lk)
    else SeriesResultFor(p, SeriesFor(pid, p, start, end, lk), lk.round)
  }

  /**
   * What one panel's result is: the database record, else Earth Engine's,
   * else the fallback of baseline 1, current 1, drop 0 and `no_data`; for
   * series parameters an error entry exactly when neither source has points,
   * and otherwise a series of the same length and dates whose current value
   * is its last point's value.
   */
  lemma PanelResultForSpec<D>(pid: int, p: Parameter, start: int, end: int, lk: Lookups<D>)
    ensures var r := PanelResultFor(pid, p, start, end, lk);
      && (p == Soiling && lk.soilingRecord(pid).None? && lk.soilingGee(pid, start, end).None? ==>
            r == SoilingFallback(1.0, 1.0, 0.0, "%", "no_data"))
      && (p == Soiling && lk.soilingRecord(pid).Some? ==> r == SoilingRecord(lk.soilingRecord(pid).value, Database))
      && (p == Soiling && lk.soilingRecord(pid).None? && lk.soilingGee(pid, start, end).Some? ==>
            r == SoilingRecord(lk.soilingGee(pid, start, end).value, Gee))
      && (p != Soiling ==>
            && (r.NoData? <==> lk.dbSeries(pid, p, start, end) == [] && lk.geeSeries(pid, p, start, end) == [])
            && (r.SeriesResult? ==>
                  var ts := if lk.dbSeries(pid, p, start, end) != [] then lk.dbSeries(pid, p, start, end)
                            else lk.geeSeries(pid, p, start, end);
                  && |r.timeseries| == |ts| > 0
                  && (forall i :: 0 <= i < |ts| ==> r.timeseries[i].date == ts[i].date && r.timeseries[i].unit == ts[i].unit)
                  && r.currentValue == r.timeseries[|ts| - 1].value
                  && r.unit == ts[0].unit))
  {
  }

  /** The loop that rounds a series point by point. */
  method RoundSeries(ts: seq<TimeseriesEntry>, precision: nat, round: (real, nat) -> real) returns (rounded: seq<RoundedEntry>)
    ensures |rounded| == |ts|
    ensures forall i :: 0 <= i < |ts| ==> rounded[i].date == ts[i].date && rounded[i].unit == ts[i].unit
    ensures forall i :: 0 <= i < |ts| ==> rounded[i].value == RoundValue(ts[i].value, precision, round)
  {
    rounded := [];
    var i := 0;
    while i < |ts|
      invariant 0 <= i <= |ts|
      invariant |rounded| == i
      invariant forall k :: 0 <= k < i ==> rounded[k] == RoundedEntry(ts[k].date, RoundValue(ts[k].value, precision, round), ts[k].unit)
    {
      var value: Option<real> := None;
      if ts[i].value.PNumber? {
        value := Some(round(ts[i].value.x, precision));
      }
      rounded := rounded + [RoundedEntry(ts[i].date, value, ts[i].unit)];
      i := i + 1;
    }
  }

  /** The soiling branch of the per-panel loop. */
  method AssembleSoiling<D>(pid: int, start: int, end: int, lk: Lookups<D>) returns (r: PanelResult<D>)
    ensures r == SoilingResultFor(pid, start, end, lk)
  {
    var record := lk.soilingRecord(pid);
    if record.Some? {
      return SoilingRecord(record.value, Database);
    }
    var geeResult := lk.soilingGee(pid, start, end);
    if geeResult.Some? {
      return SoilingRecord(geeResult.value, Gee);
    }
    return SoilingFallback(1.0, 1.0, 0.0, Unit(Soiling), "no_data");
  }

  /** The series branch of the per-panel loop. */
  method AssembleSeries<D>(pid: int, p: Parameter, start: int, end: int, lk: Lookups<D>) returns (r: PanelResult<D>)
    ensures r == SeriesResultFor(p, SeriesFor(pid, p, start, end, lk), lk.round)
  {
    var timeseries := lk.dbSeries(pid, p, start, end);
    if timeseries == [] {
      timeseries := lk.geeSeries(pid, p, start, end);
    }
    if timeseries == [] {
      return NoData("No data found for requested range");
    }
    var precision := Precision(p);
    var unit := timeseries[0].unit;
    var currentValue := RoundValue(timeseries[|timeseries| - 1].value, precision, lk.round);
    var roundedSeries := RoundSeries(timeseries, precision, lk.round);
    assert roundedSeries == RoundedSeries(timeseries, precision, lk.round);
    r := SeriesResult(p, currentValue, unit, roundedSeries);
  }

  /** The body of the per-panel loop. */
  method AssemblePanel<D>(pid: int, p: Parameter, start: int, end: int, lk: Lookups<D>) returns (r: PanelResult<D>)
    ensures r == PanelResultFor(pid, p, start, end, lk)
  {
    if p == Soiling {
      r := AssembleSoiling(pid, start, end, lk);
    } else {
      r := AssembleSeries(pid, p, start, end, lk);
    }
  }

  /**
   * The panel-data endpoint: 503 without a database, 400 for an unknown
   * parameter or a bad date range, and otherwise exactly one result per
   * requested panel, in request order.
   */
  method GetPanelData<D>(dbAvailable: bool, parameter: string, start: Option<int>, end: Option<int>,
                         panelIds: seq<int>, lk: Lookups<D>)
    returns (r: Result<seq<PanelResult<D>>, HttpError>)
    ensures !dbAvailable ==> r == Failure(HttpError(503, "Database not available"))
    ensures dbAvailable && ParseParameter(parameter).None? ==>
      r == Failure(HttpError(400, "Unsupported parameter: " + Upper(parameter)))
    ensures dbAvailable && ParseParameter(parameter).Some? && NormalizeDateRange(start, end).Failure? ==>
      r == Failure(NormalizeDateRange(start, end).error)
    ensures r.Success? <==> dbAvailable && ParseParameter(parameter).Some? && NormalizeDateRange(start, end).Success?
    ensures r.Success? ==>
      var p := ParseParameter(parameter).value;
      var (s, e) := NormalizeDateRange(start, end).value;
      && |r.value| == |panelIds|
      && forall i :: 0 <= i < |panelIds| ==> r.value[i] == PanelResultFor(panelIds[i], p, s, e, lk)
  {
    if !dbAvailable {
      return Failure(HttpError(503, "Database not available"));
    }
    var p := ParseParameter(parameter);
    if p.None? {
      return Failure(HttpError(400, "Unsupported parameter: " + Upper(parameter)));
    }
    var range := NormalizeDateRange(start, end);
    if range.Failure? {
      return Failure(range.error);
    }
    var (s, e) := range.value;
    var results: seq<PanelResult<D>> := [];
    var i := 0;
    while i < |panelIds|
      invariant 0 <= i <= |panelIds|
      invariant |results| == i
      invariant forall k :: 0 <= k < i ==> results[k] == PanelResultFor(panelIds[k], p.value, s, e, lk)
    {
      var panelResult := AssemblePanel(panelIds[i], p.value, s, e, lk);
      results := results + [panelResult];
      i := i + 1;
    }
    return Success(results);
  }

  // ---------------------------------------------------------------------
  // All-panels temperature and z-scores

  /** A panel's z-score; with no spread every panel scores 0. */
  function ZScore(v: real, mean: real, std: real): (z: real)
    ensures std > 0.0 ==> z * std == v - mean
    ensures std <= 0.0 ==> z == 0.0
  {
    if std > 0.0 then (v - mean) / std else 0.0
  }

  /** With a spread, a panel scores above zero exactly when it is warmer than the mean, and zero exactly at the mean. */
  lemma ZScoreSign(v: real, mean: real, std: real)
    requires std > 0.0
    ensures ZScore(v, mean, std) > 0.0 <==> v > mean
    ensures ZScore(v, mean, std) == 0.0 <==> v == mean
  {
    var z := ZScore(v, mean, std);
    if z > 0.0 {
      assert z * std > 0.0;
    } else {
      assert z * std <= 0.0 && (z < 0.0 ==> z * std < 0.0);
    }
  }

  /** The z-score loops: one score per panel of the map, and no other key. */
  method ZScores(panelLst: map<int, real>, globalMean: real, globalStd: real) returns (z: map<int, real>)
    ensures z.Keys == panelLst.Keys
    ensures forall pid :: pid in z ==> z[pid] == ZScore(panelLst[pid], globalMean, globalStd)
  {
    z := map[];
    var rest := panelLst.Keys;
    if globalStd > 0.0 {
      while rest != {}
        invariant rest <= panelLst.Keys
        invariant z.Keys == panelLst.Keys - rest
        invariant forall pid :: pid in z ==> z[pid] == ZScore(panelLst[pid], globalMean, globalStd)
        decreases rest
      {
        assert exists x :: x in rest by {
          if forall x :: x !in rest {
            assert false;
          }
        }
        var pid :| pid in rest;
        z := z[pid := (panelLst[pid] - globalMean) / globalStd];
        rest := rest - {pid};
      }
    } else {
      while rest != {}
        invariant rest <= panelLst.Keys
        invariant z.Keys == panelLst.Keys - rest
        invariant forall pid :: pid in z ==> z[pid] == 0.0
        decreases rest
      {
        assert exists x :: x in rest by {
          if forall x :: x !in rest {
            assert false;
          }
        }
        var pid :| pid in rest;
        z := z[pid := 0.0];
        rest := rest - {pid};
      }
    }
  }

  /** The per-panel means, in panel order: a panel without a numeric value is skipped. */
  function PanelMeans(ids: seq<int>, seriesFor: int -> seq<Entry>): (r: (map<int, real>, seq<real>))
    ensures |r.1| <= |ids|
  {
    if ids == [] then (map[], [])
    else
      var (m, values) := PanelMeans(ids[..|ids| - 1], seriesFor);
      var pid := ids[|ids| - 1];
      var xs := NumericValues(seriesFor(pid));
      if xs == [] then (m, values) else (m[pid := Mean(xs)], values + [Mean(xs)])
  }

  /** A panel has a mean exactly when it was listed and has a numeric value; the mean is of those values. */
  lemma {:induction false} PanelMeansKeys(ids: seq<int>, seriesFor: int -> seq<Entry>, pid: int)
    ensures pid in PanelMeans(ids, seriesFor).0 <==> pid in ids && NumericValues(seriesFor(pid)) != []
    ensures pid in PanelMeans(ids, seriesFor).0 ==> PanelMeans(ids, seriesFor).0[pid] == Mean(NumericValues(seriesFor(pid)))
  {
    if ids != [] {
      var init := ids[..|ids| - 1];
      PanelMeansKeys(init, seriesFor, pid);
      assert ids == init + [ids[|ids| - 1]];
    }
  }

  /** The `float()` filter of one series. */
  method NumbersIn(series: seq<Entry>) returns (xs: seq<real>)
    ensures xs == NumericValues(series)
  {
    xs := [];
    var i := 0;
    while i < |series|
      invariant 0 <= i <= |series|
      invariant xs == NumericValues(series[..i])
    {
      assert series[..i + 1][..i] == series[..i];
      var v := Get(series[i], "value");
      if v.Some? && v.value.PNumber? {
        xs := xs + [v.value.x];
      }
      i := i + 1;
    }
    assert series[..i] == series;
  }

  /** The loop over all panel ids that fills `panel_lst_map` and `lst_values`. */
  method CollectPanelMeans(ids: seq<int>, seriesFor: int -> seq<Entry>) returns (panelLst: map<int, real>, lstValues: seq<real>)
    ensures (panelLst, lstValues) == PanelMeans(ids, seriesFor)
  {
    panelLst := map[];
    lstValues := [];
    var i := 0;
    while i < |ids|
      invariant 0 <= i <= |ids|
      invariant (panelLst, lstValues) == PanelMeans(ids[..i], seriesFor)
    {
      assert ids[..i + 1][..i] == ids[..i];
      var pid := ids[i];
      var values := NumbersIn(seriesFor(pid));
      if values != [] {
        var meanValue := Mean(values);
        panelLst := panelLst[pid := meanValue];
        lstValues := lstValues + [meanValue];
      }
      i := i + 1;
    }
    assert ids[..i] == ids;
  }

  datatype AllPanelsLst = AllPanelsLst(panelLst: map<int, real>, zScores: map<int, real>, mean: Option<real>, stddev: Option<real>)

  const NoPanels := AllPanelsLst(map[], map[], None, None)

  /**
   * The all-panels temperature response after the date checks: no panel with
   * data gives empty maps and no statistics; otherwise every panel with data
   * has its mean and a z-score against the mean of the panel means.
   * `stdev` is `statistics.stdev`, used only for two or more panels.
   */
  method AllPanelsLstResponse(ids: seq<int>, seriesFor: int -> seq<Entry>, stdev: seq<real> -> real) returns (r: AllPanelsLst)
    ensures PanelMeans(ids, seriesFor).1 == [] ==> r == NoPanels
    ensures PanelMeans(ids, seriesFor).1 != [] ==>
      var (m, values) := PanelMeans(ids, seriesFor);
      var std := if |values| > 1 then stdev(values) else 0.0;
      && r.panelLst == m
      && r.zScores.Keys == m.Keys
      && (forall pid :: pid in r.zScores ==> r.zScores[pid] == ZScore(m[pid], Mean(values), std))
      && r.mean == Some(Mean(values))
      && r.stddev == Some(std)
  {
    if ids == [] {
      return NoPanels;
    }
    var panelLst, lstValues := CollectPanelMeans(ids, seriesFor);
    if lstValues == [] {
      return NoPanels;
    }
    var globalMean := Mean(lstValues);
    var globalStd := if |lstValues| > 1 then stdev(lstValues) else 0.0;
    var z := ZScores(panelLst, globalMean, globalStd);
    r := AllPanelsLst(panelLst, z, Some(globalMean), Some(globalStd));
  }

  /** A single panel with data, or panels with no spread, all score zero. */
  lemma NoSpreadZeroScores(m: map<int, real>, mean: real, std: real)
    requires std <= 0.0
    ensures forall pid :: pid in m ==> ZScore(m[pid], mean, std) == 0.0
  {
  }
}
