/**
 * Post-processing of the rows a region query returns: the per-date series
 * of one band, the soiling summary, and the MODIS monthly series with one
 * entry per month. The first row is the header; a row's timestamp is in
 * milliseconds and its value may be null.
 */
module RegionSeries {
  import opened Wrappers
  import opened RealArith

  /** One data row, with its timestamp and band value already picked out by column. */
  datatype RegionRow = RegionRow(time: int, value: Option<real>)

  /** One series point: the date string of the row's timestamp, the value and the unit. */
  datatype Point = Point(date: string, value: real, unit: string)

  /** The rows after the header; with no data row there is nothing. */
  function DataRows(data: seq<RegionRow>): seq<RegionRow> {
    if |data| > 1 then data[1..] else []
  }

  /** The points of the rows whose value is not null, in row order. */
  function Points(rows: seq<RegionRow>, dateOf: int -> string, unit: string): seq<Point> {
    if rows == [] then []
    else
      var rest := Points(rows[..|rows| - 1], dateOf, unit);
      var r := rows[|rows| - 1];
      if r.value.Some? then rest + [Point(dateOf(r.time), r.value.value, unit)] else rest
  }

  /**
   * The row loop of the band series (`get_lst_data`, `get_swir_data`, …):
   * skip the header, append one point per row whose value is not null.
   */
  method CollectTimeseries(data: seq<RegionRow>, dateOf: int -> string, unit: string) returns (timeseries: seq<Point>)
    ensures timeseries == Points(DataRows(data), dateOf, unit)
  {
    timeseries := [];
    if |data| > 1 {
      var rows := data[1..];
      var i := 0;
      while i < |rows|
        invariant 0 <= i <= |rows|
        invariant timeseries == Points(rows[..i], dateOf, unit)
      {
        assert rows[..i + 1][..i] == rows[..i];
        var row := rows[i];
        if row.value.Some? {
          timeseries := timeseries + [Point(dateOf(row.time), row.value.value, unit)];
        }
        i := i + 1;
      }
      assert rows[..i] == rows;
    }
  }

  /** The series of a concatenation is the concatenation of the series: rows keep their order. */
  lemma {:induction false} PointsAppend(a: seq<RegionRow>, b: seq<RegionRow>, dateOf: int -> string, unit: string)
    ensures Points(a + b, dateOf, unit) == Points(a, dateOf, unit) + Points(b, dateOf, unit)
  {
    if b == [] {
      assert a + b == a;
    } else {
      assert (a + b)[..|a + b| - 1] == a + b[..|b| - 1];
      PointsAppend(a, b[..|b| - 1], dateOf, unit);
    }
  }

  /** Every point comes from a row with a value, and every row with a value gives a point. */
  lemma {:induction false} PointsExactlyNonNull(rows: seq<RegionRow>, dateOf: int -> string, unit: string)
    ensures forall p :: p in Points(rows, dateOf, unit) <==>
      exists r :: r in rows && r.value.Some? && p == Point(dateOf(r.time), r.value.value, unit)
  {
    if rows != [] {
      var init := rows[..|rows| - 1];
      PointsExactlyNonNull(init, dateOf, unit);
      assert rows == init + [rows[|rows| - 1]];
    }
  }

  /** One point per row whose value is not null. */
  lemma {:induction false} PointsCount(rows: seq<RegionRow>, dateOf: int -> string, unit: string)
    ensures |Points(rows, dateOf, unit)| == |NonNullValues(rows)|
  {
    if rows != [] {
      PointsCount(rows[..|rows| - 1], dateOf, unit);
    }
  }

  // ---------------------------------------------------------------------
  // Soiling

  /** The values of the rows whose value is not null, in row order. */
  function NonNullValues(rows: seq<RegionRow>): seq<real> {
    if rows == [] then []
    else
      var rest := NonNullValues(rows[..|rows| - 1]);
      var r := rows[|rows| - 1];
      if r.value.Some? then rest + [r.value.value] else rest
  }

  /** The row loop of `get_soiling_data`: collect the non-null values after the header. */
  method CollectValues(data: seq<RegionRow>) returns (values: seq<real>)
    ensures values == NonNullValues(DataRows(data))
  {
    values := [];
    if |data| > 1 {
      var rows := data[1..];
      var i := 0;
      while i < |rows|
        invariant 0 <= i <= |rows|
        invariant values == NonNullValues(rows[..i])
      {
        assert rows[..i + 1][..i] == rows[..i];
        if rows[i].value.Some? {
          values := values + [rows[i].value.value];
        }
        i := i + 1;
      }
      assert rows[..i] == rows;
    }
  }

  /** Exactly the non-null row values are kept. */
  lemma {:induction false} NonNullValuesExact(rows: seq<RegionRow>)
    ensures forall x :: x in NonNullValues(rows) <==> exists r :: r in rows && r.value == Some(x)
  {
    if rows != [] {
      var init := rows[..|rows| - 1];
      NonNullValuesExact(init);
      assert rows == init + [rows[|rows| - 1]];
    }
  }

  /** `max(values)`. */
  function MaxOf(xs: seq<real>): (m: real)
    requires xs != []
    ensures m in xs
    ensures forall x :: x in xs ==> x <= m
  {
    if |xs| == 1 then xs[0]
    else
      var m := MaxOf(xs[..|xs| - 1]);
      assert forall x :: x in xs ==> x in xs[..|xs| - 1] || x == xs[|xs| - 1];
      if xs[|xs| - 1] > m then xs[|xs| - 1] else m
  }

  datatype SoilingStatus = Clean | NeedsCleaning

  /** The soiling summary: baseline and current soiling index, the drop in percent, and the status. */
  datatype Soiling = Soiling(baseline: real, current: real, dropPercent: real, status: SoilingStatus, unit: string)

  /** The percentage by which `current` falls below `baseline`. */
  function Drop(baseline: real, current: real): real {
    if baseline > 0.0 then (baseline - current) / baseline * 100.0 else 0.0
  }

  /** The status the drop implies: cleaning is due from a five percent drop on. */
  function StatusOf(drop: real): (s: SoilingStatus)
    ensures s == NeedsCleaning <==> drop >= 5.0
  {
    if drop >= 5.0 then NeedsCleaning else Clean
  }

  /** `get_soiling_data` after the row loop: the latest value against the highest one. */
  function SoilingSummary(values: seq<real>): (r: Soiling)
    ensures values == [] ==> r.baseline == 1.0 && r.current == 1.0 && r.dropPercent == 0.0
    ensures values != [] ==> r.current == values[|values| - 1] && r.baseline == MaxOf(values)
    ensures r.status == NeedsCleaning <==> r.dropPercent >= 5.0
    ensures r.unit == "%"
  {
    var (baseline, current) := if values == [] then (1.0, 1.0) else (MaxOf(values), values[|values| - 1]);
    var drop := if values == [] then 0.0 else Drop(baseline, current);
    Soiling(baseline, current, drop, StatusOf(drop), "%")
  }

  /**
   * The drop is never negative when the baseline is positive, never above
   * 100 when the current value is not negative, and zero exactly when the
   * latest value is the highest (or there is nothing to compare).
   */
  lemma SoilingDropBounds(values: seq<real>)
    ensures var r := SoilingSummary(values);
      && (r.baseline > 0.0 ==> 0.0 <= r.dropPercent)
      && (r.baseline > 0.0 && r.current >= 0.0 ==> r.dropPercent <= 100.0)
      && (r.baseline <= 0.0 ==> r.dropPercent == 0.0)
      && (r.baseline > 0.0 ==> (r.dropPercent == 0.0 <==> r.current == r.baseline))
  {
    var r := SoilingSummary(values);
    if values != [] && r.baseline > 0.0 {
      var b, c := r.baseline, r.current;
      assert c <= b;
      DropBounds(b, c);
    }
  }

  lemma DropBounds(b: real, c: real)
    requires b > 0.0 && c <= b
    ensures 0.0 <= Drop(b, c)
    ensures c >= 0.0 ==> Drop(b, c) <= 100.0
    ensures Drop(b, c) == 0.0 <==> c == b
  {
    var q := (b - c) / b;
    assert q * b == b - c;
    QuotientSign(b - c, b);
    if c >= 0.0 {
      assert (1.0 - q) * b == c;
      ProductSign(1.0 - q, b);
    }
  }

  lemma QuotientSign(x: real, y: real)
    requires y > 0.0
    ensures x >= 0.0 <==> x / y >= 0.0
    ensures x == 0.0 <==> x / y == 0.0
  {
    assert (x / y) * y == x;
  }

  // ---------------------------------------------------------------------
  // MODIS monthly series

  /** One monthly point: the `YYYY-MM` month and the temperature in °C. */
  datatype MonthValue = MonthValue(month: string, value: real)

  /** MODIS `LST_Day_1km` is stored in units of 0.02 K. */
  function ToCelsius(raw: real): real {
    raw * 0.02 - 273.15
  }

  function MonthsOf(series: seq<MonthValue>): set<string> {
    set k | 0 <= k < |series| :: series[k].month
  }

  /** The monthly series after the given rows: a row adds a point only for a month not seen yet. */
  function Monthly(rows: seq<RegionRow>, monthOf: int -> string): seq<MonthValue> {
    if rows == [] then []
    else
      var rest := Monthly(rows[..|rows| - 1], monthOf);
      var r := rows[|rows| - 1];
      if r.value.Some? && monthOf(r.time) !in MonthsOf(rest) then
        rest + [MonthValue(monthOf(r.time), ToCelsius(r.value.value))]
      else rest
  }

  /** The row loop of `get_lst_monthly`, with the set of months already emitted. */
  method MonthlyLst(data: seq<RegionRow>, monthOf: int -> string) returns (series: seq<MonthValue>)
    ensures series == Monthly(DataRows(data), monthOf)
  {
    series := [];
    var seenMonths: set<string> := {};
    if |data| > 1 {
      var rows := data[1..];
      var i := 0;
      while i < |rows|
        invariant 0 <= i <= |rows|
        invariant series == Monthly(rows[..i], monthOf)
        invariant seenMonths == MonthsOf(series)
      {
        assert rows[..i + 1][..i] == rows[..i];
        var row := rows[i];
        if row.value.Some? {
          var valC := ToCelsius(row.value.value);
          var monthStr := monthOf(row.time);
          if monthStr !in seenMonths {
            MonthsOfSnoc(series, MonthValue(monthStr, valC));
            series := series + [MonthValue(monthStr, valC)];
            seenMonths := seenMonths + {monthStr};
          }
        }
        i := i + 1;
      }
      assert rows[..i] == rows;
    }
  }

  lemma MonthsOfSnoc(series: seq<MonthValue>, e: MonthValue)
    ensures MonthsOf(series + [e]) == MonthsOf(series) + {e.month}
  {
    var s := series + [e];
    assert forall k :: 0 <= k < |series| ==> s[k] == series[k];
    assert s[|series|] == e;
  }

  predicate DistinctMonths(series: seq<MonthValue>) {
    forall k, l :: 0 <= k < l < |series| ==> series[k].month != series[l].month
  }

  /** No month appears twice. */
  lemma {:induction false} MonthlyDistinct(rows: seq<RegionRow>, monthOf: int -> string)
    ensures DistinctMonths(Monthly(rows, monthOf))
  {
    if rows != [] {
      var init := rows[..|rows| - 1];
      MonthlyDistinct(init, monthOf);
      var rest := Monthly(init, monthOf);
      var r := rows[|rows| - 1];
      if r.value.Some? && monthOf(r.time) !in MonthsOf(rest) {
        var s := rest + [MonthValue(monthOf(r.time), ToCelsius(r.value.value))];
        forall k, l | 0 <= k < l < |s|
          ensures s[k].month != s[l].month
        {
          assert s[k] == rest[k];
          if l == |rest| {
            assert rest[k].month in MonthsOf(rest);
          } else {
            assert s[l] == rest[l];
          }
        }
      }
    }
  }

  /** Exactly the months of the rows with a value appear. */
  lemma {:induction false} MonthlyCoversMonths(rows: seq<RegionRow>, monthOf: int -> string)
    ensures MonthsOf(Monthly(rows, monthOf)) ==
      set j | 0 <= j < |rows| && rows[j].value.Some? :: monthOf(rows[j].time)
  {
    if rows != [] {
      var init := rows[..|rows| - 1];
      MonthlyCoversMonths(init, monthOf);
      var rest := Monthly(init, monthOf);
      var r := rows[|rows| - 1];
      if r.value.Some? && monthOf(r.time) !in MonthsOf(rest) {
        MonthsOfSnoc(rest, MonthValue(monthOf(r.time), ToCelsius(r.value.value)));
      }
      var all := set j | 0 <= j < |rows| && rows[j].value.Some? :: monthOf(rows[j].time);
      var before := set j | 0 <= j < |init| && init[j].value.Some? :: monthOf(init[j].time);
      assert forall j :: 0 <= j < |init| ==> init[j] == rows[j];
      if r.value.Some? {
        assert all == before + {monthOf(r.time)};
      } else {
        assert all == before;
      }
    }
  }

  /** Each month keeps the value of its first row with a value. */
  lemma {:induction false} MonthlyKeepsFirst(rows: seq<RegionRow>, monthOf: int -> string, j: nat)
    requires j < |rows| && rows[j].value.Some?
    requires forall i :: 0 <= i < j && rows[i].value.Some? ==> monthOf(rows[i].time) != monthOf(rows[j].time)
    ensures MonthValue(monthOf(rows[j].time), ToCelsius(rows[j].value.value)) in Monthly(rows, monthOf)
  {
    var init := rows[..|rows| - 1];
    var e := MonthValue(monthOf(rows[j].time), ToCelsius(rows[j].value.value));
    if j < |rows| - 1 {
      assert init[j] == rows[j];
      MonthlyKeepsFirst(init, monthOf, j);
    } else {
      MonthlyCoversMonths(init, monthOf);
      assert monthOf(rows[j].time) !in MonthsOf(Monthly(init, monthOf)) by {
        assert forall i :: 0 <= i < |init| ==> init[i] == rows[i];
      }
    }
  }

  /** A month of the series has a row with a value in that month. */
  lemma MonthHasRow(rows: seq<RegionRow>, monthOf: int -> string, m: string)
    requires m in MonthsOf(Monthly(rows, monthOf))
    ensures exists i :: 0 <= i < |rows| && rows[i].value.Some? && monthOf(rows[i].time) == m
  {
    MonthlyCoversMonths(rows, monthOf);
  }

  /**
   * Months appear in the order they first occur: every row of the month at
   * position `l` is preceded by a row of the month at any earlier position `k`.
   */
  lemma {:induction false} MonthlyFirstOccurrenceOrder(rows: seq<RegionRow>, monthOf: int -> string, k: nat, l: nat, j: nat)
    requires k < l < |Monthly(rows, monthOf)|
    requires j < |rows| && rows[j].value.Some? && monthOf(rows[j].time) == Monthly(rows, monthOf)[l].month
    ensures exists i :: 0 <= i < j && rows[i].value.Some? && monthOf(rows[i].time) == Monthly(rows, monthOf)[k].month
  {
    var init := rows[..|rows| - 1];
    var rest := Monthly(init, monthOf);
    var series := Monthly(rows, monthOf);
    assert forall i :: 0 <= i < |init| ==> init[i] == rows[i];
    assert series[k] == rest[k];
    if l < |rest| {
      assert series[l] == rest[l];
      if j < |init| {
        MonthlyFirstOccurrenceOrder(init, monthOf, k, l, j);
      } else {
        assert rest[l].month in MonthsOf(rest);
        MonthHasRow(init, monthOf, rest[l].month);
        var j' :| 0 <= j' < |init| && init[j'].value.Some? && monthOf(init[j'].time) == rest[l].month;
        MonthlyFirstOccurrenceOrder(init, monthOf, k, l, j');
      }
    } else {
      assert rest[k].month in MonthsOf(rest);
      MonthHasRow(init, monthOf, rest[k].month);
      MonthlyCoversMonths(init, monthOf);
      assert forall i :: 0 <= i < |init| && init[i].value.Some? ==> monthOf(init[i].time) in MonthsOf(rest);
      assert j == |rows| - 1;
    }
  }
}
