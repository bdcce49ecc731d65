/**
 * Infrastructure post-processing of the site analysis: the nearest road or
 * power line among the ways an Overpass query returns, the road-distance
 * rule, voltage parsing, the defaults substituted when a lookup fails, and
 * the isolation of geometries in the batch endpoint.
 */
module Infrastructure {
  import opened Wrappers
  import opened RealArith
  import opened Digits

  /** A WGS84 point, longitude first as the source's coordinate pairs are. */
  datatype GeoPoint = GeoPoint(lon: real, lat: real)

  /** An Overpass element: its `type`, its `geometry` points if any, and its `tags` if any. */
  datatype Element = Element(kind: Option<string>, geometry: Option<seq<GeoPoint>>, tags: Option<map<string, string>>)

  /**
   * The site's centroid and the geometry library's computations from it:
   * the point of a polyline nearest to the centroid, the haversine distance
   * and the geodesic distance in kilometres.
   */
  datatype Geo = Geo(
    centroid: GeoPoint,
    nearestOn: seq<GeoPoint> -> GeoPoint,
    haversineKm: (GeoPoint, GeoPoint) -> real,
    geodesicKm: (GeoPoint, GeoPoint) -> real)

  /** The loops consider only ways with a geometry of at least two points. */
  predicate IsLine(el: Element) {
    el.kind == Some("way") && el.geometry.Some? && |el.geometry.value| >= 2
  }

  predicate NoLine(elements: seq<Element>) {
    forall j :: 0 <= j < |elements| ==> !IsLine(elements[j])
  }

  /** The nearest point of an element's line to the centroid. */
  function NearestPoint(geo: Geo, el: Element): GeoPoint
    requires el.geometry.Some?
  {
    geo.nearestOn(el.geometry.value)
  }

  /** Distance from the centroid to an element's line under `metric`; never consulted for a non-line. */
  function SiteDistance(geo: Geo, metric: (GeoPoint, GeoPoint) -> real, el: Element): real {
    if el.geometry.Some? then metric(geo.centroid, NearestPoint(geo, el)) else 0.0
  }

  function HaversineTo(geo: Geo): Element -> real {
    el => SiteDistance(geo, geo.haversineKm, el)
  }

  function GeodesicTo(geo: Geo): Element -> real {
    el => SiteDistance(geo, geo.geodesicKm, el)
  }

  // ---------------------------------------------------------------------
  // Nearest search

  /** The element found and its distance. */
  datatype Nearest = Nearest(index: nat, distance: real)

  /** Element `i` is a line, no line is nearer, and every line before it is strictly farther. */
  predicate IsNearest(elements: seq<Element>, dist: Element -> real, i: int) {
    && 0 <= i < |elements| && IsLine(elements[i])
    && (forall j :: 0 <= j < |elements| && IsLine(elements[j]) ==> dist(elements[i]) <= dist(elements[j]))
    && (forall j :: 0 <= j < i && IsLine(elements[j]) ==> dist(elements[i]) < dist(elements[j]))
  }

  /** The search over the first `|elements|` elements: a line replaces the best only when strictly nearer. */
  function NearestOf(elements: seq<Element>, dist: Element -> real): (r: Option<Nearest>)
    ensures r.Some? ==> r.value.index < |elements| && IsLine(elements[r.value.index])
  {
    if elements == [] then None
    else
      var best := NearestOf(elements[..|elements| - 1], dist);
      var el := elements[|elements| - 1];
      if IsLine(el) && (best.None? || dist(el) < best.value.distance) then Some(Nearest(|elements| - 1, dist(el)))
      else best
  }

  /**
   * The search finds nothing exactly when no element is a line; otherwise it
   * finds the first of the nearest lines, with its distance.
   */
  lemma {:induction false} NearestOfIsNearest(elements: seq<Element>, dist: Element -> real)
    ensures NearestOf(elements, dist).None? <==> NoLine(elements)
    ensures NearestOf(elements, dist).Some? ==>
      var n := NearestOf(elements, dist).value;
      IsNearest(elements, dist, n.index) && n.distance == dist(elements[n.index])
  {
    if elements != [] {
      var init := elements[..|elements| - 1];
      NearestOfIsNearest(init, dist);
      assert forall j :: 0 <= j < |init| ==> init[j] == elements[j];
    }
  }

  /** There is only one first nearest line. */
  lemma NearestIsUnique(elements: seq<Element>, dist: Element -> real, i: nat, k: nat)
    requires IsNearest(elements, dist, i) && IsNearest(elements, dist, k)
    ensures i == k
  {
  }

  /** The minimum search loop shared by the road and power-line lookups. */
  method FindNearest(elements: seq<Element>, dist: Element -> real) returns (r: Option<Nearest>)
    ensures r == NearestOf(elements, dist)
  {
    r := None;
    var i := 0;
    while i < |elements|
      invariant 0 <= i <= |elements|
      invariant r == NearestOf(elements[..i], dist)
    {
      assert elements[..i + 1][..i] == elements[..i];
      var el := elements[i];
      if IsLine(el) {
        var d := dist(el);
        if r.None? || d < r.value.distance {
          r := Some(Nearest(i, d));
        }
      }
      i := i + 1;
    }
    assert elements[..i] == elements;
  }

  // ---------------------------------------------------------------------
  // Road distance (routes/analyze.py)

  /** `get_nearest_distance`: the nearest line's haversine distance and the element, if any. */
  method NearestDistance(geo: Geo, elements: seq<Element>) returns (r: Option<(real, Element)>)
    ensures r.None? <==> NoLine(elements)
    ensures r.Some? ==>
      exists i :: IsNearest(elements, HaversineTo(geo), i) && r.value == (HaversineTo(geo)(elements[i]), elements[i])
  {
    if elements == [] {
      return None;
    }
    var n := FindNearest(elements, HaversineTo(geo));
    NearestOfIsNearest(elements, HaversineTo(geo));
    if n.None? {
      return None;
    }
    return Some((n.value.distance, elements[n.value.index]));
  }

  /** The distance reported when there is no road, or the lookup failed. */
  const DefaultRoadKm: real := 10.0

  /**
   * `get_road_distance`. `None` stands for a failed request, a response
   * without elements, or an exception on the way.
   */
  method RoadDistance(geo: Geo, data: Option<seq<Element>>) returns (km: real)
    ensures data.None? || NoLine(data.value) ==> km == DefaultRoadKm
    ensures data.Some? && !NoLine(data.value) ==>
      exists i :: IsNearest(data.value, HaversineTo(geo), i) && km == HaversineTo(geo)(data.value[i])
  {
    if data.None? || data.value == [] {
      return DefaultRoadKm;
    }
    var r := NearestDistance(geo, data.value);
    if r.None? {
      return DefaultRoadKm;
    }
    return r.value.0;
  }

  // ---------------------------------------------------------------------
  // Power line distance

  /** The nearest line's point and its voltage label. */
  datatype LineInfo = LineInfo(coordinates: GeoPoint, voltage: string)

  datatype PowerResult = PowerResult(aerialKm: real, roadKm: Option<real>, line: Option<LineInfo>)

  /** Returned when no power line is found. */
  const DefaultPower := PowerResult(25.0, None, None)

  const Unknown: string := "Unknown"

  /** A road distance shorter than the aerial one is replaced by the aerial distance times `factor`. */
  function FloorRoad(road: Option<real>, aerial: real, factor: real): (r: Option<real>)
    ensures road.None? <==> r.None?
    ensures road.Some? && road.value >= aerial ==> r == road
    ensures road.Some? && road.value < aerial ==> r == Some(aerial * factor)
  {
    if road.Some? && road.value < aerial then Some(aerial * factor) else road
  }

  /** With a non-negative aerial distance and a factor of at least one, the road is never shorter than the air. */
  lemma FloorRoadNotShorter(road: Option<real>, aerial: real, factor: real)
    requires aerial >= 0.0 && factor >= 1.0
    ensures FloorRoad(road, aerial, factor).Some? ==> FloorRoad(road, aerial, factor).value >= aerial
  {
    if road.Some? && road.value < aerial {
      assert aerial * factor - aerial == aerial * (factor - 1.0);
      NonNegativeProduct(aerial, factor - 1.0);
    }
  }

  /** Voltage in `routes/analyze.py`: the run of digits with the largest value, the first of equal ones. */
  function VoltageByMaxRun(el: Element): (v: string)
    ensures v == Unknown || (AllDigits(v) && |v| > 0)
  {
    var raw := if el.tags.Some? && "voltage" in el.tags.value then el.tags.value["voltage"] else "";
    var runs := DigitRuns(raw);
    if raw != "" && runs != [] then MaxByValue(runs) else Unknown
  }

  /**
   * The label is `Unknown` exactly when the tag is missing or has no digit;
   * otherwise it is the first of the tag's digit runs that no run exceeds.
   */
  lemma VoltageByMaxRunSpec(el: Element)
    ensures var raw := if el.tags.Some? && "voltage" in el.tags.value then el.tags.value["voltage"] else "";
      && (VoltageByMaxRun(el) == Unknown <==> !HasDigit(raw))
      && (HasDigit(raw) ==>
            && VoltageByMaxRun(el) in DigitRuns(raw)
            && (forall r :: r in DigitRuns(raw) ==> ParseNat(r) <= ParseNat(VoltageByMaxRun(el)))
            && (exists i :: 0 <= i < |DigitRuns(raw)| && DigitRuns(raw)[i] == VoltageByMaxRun(el)
                 && forall j :: 0 <= j < i ==> ParseNat(DigitRuns(raw)[j]) < ParseNat(VoltageByMaxRun(el))))
  {
    var raw := if el.tags.Some? && "voltage" in el.tags.value then el.tags.value["voltage"] else "";
    DigitRunsEmptyIff(raw);
    assert Unknown[0] == 'U';
  }

  /** The road leg in `routes/analyze.py`: nearest road from the centroid plus the aerial distance. */
  function RoadLegByAerial(geo: Geo, roadData: Option<seq<Element>>, aerial: real): Option<real> {
    if roadData.None? || roadData.value == [] then None
    else match NearestOf(roadData.value, HaversineTo(geo))
      case None => None
      case Some(n) => Some(n.distance + aerial)
  }

  /** `get_power_line_distance` in `routes/analyze.py`. */
  function PowerLineByAerial(geo: Geo, data: Option<seq<Element>>, roadData: Option<seq<Element>>): PowerResult {
    if data.None? || data.value == [] then DefaultPower
    else match NearestOf(data.value, GeodesicTo(geo))
      case None => DefaultPower
      case Some(n) =>
        var el := data.value[n.index];
        var road := FloorRoad(RoadLegByAerial(geo, roadData, n.distance), n.distance, 1.12);
        PowerResult(n.distance, road, Some(LineInfo(NearestPoint(geo, el), VoltageByMaxRun(el))))
  }

  /** The loop version of `get_power_line_distance` in `routes/analyze.py`. */
  method PowerLineDistanceByAerial(geo: Geo, data: Option<seq<Element>>, roadData: Option<seq<Element>>)
    returns (r: PowerResult)
    ensures r == PowerLineByAerial(geo, data, roadData)
  {
    if data.None? || data.value == [] {
      return DefaultPower;
    }
    var nearest := FindNearest(data.value, GeodesicTo(geo));
    if nearest.None? {
      return DefaultPower;
    }
    var aerial := nearest.value.distance;
    var feature := data.value[nearest.value.index];
    var road: Option<real> := None;
    if roadData.Some? && roadData.value != [] {
      var nearestRoad := FindNearest(roadData.value, HaversineTo(geo));
      if nearestRoad.Some? {
        road := Some(nearestRoad.value.distance + aerial);
      }
    }
    assert road == RoadLegByAerial(geo, roadData, aerial);
    if road.Some? && road.value < aerial {
      road := Some(aerial * 1.12);
    }
    assert road == FloorRoad(RoadLegByAerial(geo, roadData, aerial), aerial, 1.12);
    r := PowerResult(aerial, road, Some(LineInfo(NearestPoint(geo, feature), VoltageByMaxRun(feature))));
  }

  /**
   * In `routes/analyze.py`: no power line gives the defaults; otherwise the
   * aerial distance is the first nearest line's geodesic distance, and with
   * non-negative distances the road distance is never below it, so the 1.12
   * floor never fires there.
   */
  lemma PowerLineByAerialSpec(geo: Geo, data: Option<seq<Element>>, roadData: Option<seq<Element>>)
    requires forall a, b :: geo.haversineKm(a, b) >= 0.0 && geo.geodesicKm(a, b) >= 0.0
    ensures var r := PowerLineByAerial(geo, data, roadData);
      && (data.None? || NoLine(data.value) ==> r == DefaultPower)
      && (data.Some? && !NoLine(data.value) ==>
            && (exists i :: IsNearest(data.value, GeodesicTo(geo), i) && r.aerialKm == GeodesicTo(geo)(data.value[i]))
            && r.line.Some?
            && r.roadKm == RoadLegByAerial(geo, roadData, r.aerialKm)
            && (r.roadKm.Some? ==> r.roadKm.value >= r.aerialKm))
  {
    if data.Some? {
      NearestOfIsNearest(data.value, GeodesicTo(geo));
      var n := NearestOf(data.value, GeodesicTo(geo));
      if n.Some? {
        var aerial := n.value.distance;
        assert aerial >= 0.0 by {
          var el := data.value[n.value.index];
          assert aerial == SiteDistance(geo, geo.geodesicKm, el);
        }
        if roadData.Some? && roadData.value != [] {
          var rn := NearestOf(roadData.value, HaversineTo(geo));
          if rn.Some? {
            var rel := roadData.value[rn.value.index];
            assert rn.value.distance == SiteDistance(geo, geo.haversineKm, rel) by {
              NearestOfIsNearest(roadData.value, HaversineTo(geo));
            }
          }
        }
      }
    }
  }

  // ---------------------------------------------------------------------
  // Power line distance (app/services/distance.py)

  /** `tags.get('voltage') or tags.get('cables')`: an empty or missing voltage falls back to cables. */
  function VoltageTag(tags: map<string, string>): string {
    if "voltage" in tags && tags["voltage"] != "" then tags["voltage"]
    else if "cables" in tags then tags["cables"]
    else ""
  }

  /** Voltage in `app/services/distance.py`: the first run of digits, kept only strictly between 0 and 1000000. */
  function VoltageByFirstRun(el: Element): (v: string)
    ensures v == Unknown || (AllDigits(v) && 0 < ParseNat(v) < 1000000)
  {
    if el.tags.None? then Unknown
    else
      var raw := VoltageTag(el.tags.value);
      match FirstDigitRun(raw)
      case None => Unknown
      case Some(run) =>
        var v := ParseNat(run);
        if 0 < v < 1000000 then ParseShowNat(v); ShowNat(v) else Unknown
  }

  /** The label is the first run's number written without leading zeros, or `Unknown` when there is none in range. */
  lemma VoltageByFirstRunSpec(el: Element)
    requires el.tags.Some?
    ensures var raw := VoltageTag(el.tags.value);
      var runs := DigitRuns(raw);
      VoltageByFirstRun(el) ==
        (if runs != [] && 0 < ParseNat(runs[0]) < 1000000 then ShowNat(ParseNat(runs[0])) else Unknown)
  {
    FirstDigitRunIsFirstOfRuns(VoltageTag(el.tags.value));
  }

  /** The road leg in `app/services/distance.py`: centroid to nearest road, then that road point to the line point. */
  function RoadLegViaRoadPoint(geo: Geo, roadData: Option<seq<Element>>, linePoint: GeoPoint): Option<real> {
    if roadData.None? || roadData.value == [] then None
    else match NearestOf(roadData.value, HaversineTo(geo))
      case None => None
      case Some(n) =>
        var roadPoint := NearestPoint(geo, roadData.value[n.index]);
        Some(n.distance + geo.haversineKm(roadPoint, linePoint))
  }

  /** `get_power_line_distance` in `app/services/distance.py`. */
  function PowerLineViaRoadPoint(geo: Geo, data: Option<seq<Element>>, roadData: Option<seq<Element>>): PowerResult {
    if data.None? || data.value == [] then DefaultPower
    else match NearestOf(data.value, HaversineTo(geo))
      case None => DefaultPower
      case Some(n) =>
        var el := data.value[n.index];
        var point := NearestPoint(geo, el);
        var road := FloorRoad(RoadLegViaRoadPoint(geo, roadData, point), n.distance, 1.2);
        PowerResult(n.distance, road, Some(LineInfo(point, VoltageByFirstRun(el))))
  }

  /** The loop version of `get_power_line_distance` in `app/services/distance.py`. */
  method PowerLineDistanceViaRoadPoint(geo: Geo, data: Option<seq<Element>>, roadData: Option<seq<Element>>)
    returns (r: PowerResult)
    ensures r == PowerLineViaRoadPoint(geo, data, roadData)
  {
    if data.None? || data.value == [] {
      return DefaultPower;
    }
    var nearest := FindNearest(data.value, HaversineTo(geo));
    if nearest.None? {
      return DefaultPower;
    }
    NearestOfIsNearest(data.value, HaversineTo(geo));
    var aerial := nearest.value.distance;
    var feature := data.value[nearest.value.index];
    var point := NearestPoint(geo, feature);
    var road: Option<real> := None;
    if roadData.Some? && roadData.value != [] {
      var nearestRoad := FindNearest(roadData.value, HaversineTo(geo));
      if nearestRoad.Some? {
        NearestOfIsNearest(roadData.value, HaversineTo(geo));
        var roadPoint := NearestPoint(geo, roadData.value[nearestRoad.value.index]);
        road := Some(nearestRoad.value.distance + geo.haversineKm(roadPoint, point));
      }
    }
    if road.Some? && road.value < aerial {
      road := Some(aerial * 1.2);
    }
    r := PowerResult(aerial, road, Some(LineInfo(point, VoltageByFirstRun(feature))));
  }

  /**
   * In `app/services/distance.py`: no power line gives the defaults;
   * otherwise the aerial distance is the first nearest line's haversine
   * distance, and with non-negative distances the reported road distance is
   * never below it.
   */
  lemma PowerLineViaRoadPointSpec(geo: Geo, data: Option<seq<Element>>, roadData: Option<seq<Element>>)
    requires forall a, b :: geo.haversineKm(a, b) >= 0.0
    ensures var r := PowerLineViaRoadPoint(geo, data, roadData);
      && (data.None? || NoLine(data.value) ==> r == DefaultPower)
      && (data.Some? && !NoLine(data.value) ==>
            && (exists i :: IsNearest(data.value, HaversineTo(geo), i) && r.aerialKm == HaversineTo(geo)(data.value[i])
                 && r.line == Some(LineInfo(NearestPoint(geo, data.value[i]), VoltageByFirstRun(data.value[i]))))
            && (r.roadKm.Some? ==> r.roadKm.value >= r.aerialKm))
  {
    if data.Some? {
      NearestOfIsNearest(data.value, HaversineTo(geo));
      var n := NearestOf(data.value, HaversineTo(geo));
      if n.Some? {
        var aerial := n.value.distance;
        assert aerial >= 0.0 by {
          assert aerial == SiteDistance(geo, geo.haversineKm, data.value[n.value.index]);
        }
        var point := NearestPoint(geo, data.value[n.value.index]);
        FloorRoadNotShorter(RoadLegViaRoadPoint(geo, roadData, point), aerial, 1.2);
      }
    }
  }

  // ---------------------------------------------------------------------
  // Merging the analysis

  /** A value of the analysis response: one of Earth Engine's values, a distance, the power details or the seismic zone. */
  datatype Value<G> = FromGee(v: G) | Km(km: real) | PowerDetails(p: PowerResult) | Zone(zone: int)

  /** What the parallel power-line lookup yields when it raises. */
  const PowerOnError := PowerResult(25.0, None, Some(LineInfo(GeoPoint(0.0, 0.0), Unknown)))

  /** The keys the merge writes after the Earth Engine values, overriding any of the same name. */
  const OverriddenKeys: set<string> := {"proximityToRoads", "proximityToLines", "powerLineDetails", "seismicRisk"}

  /**
   * `process_analysis` after the three lookups: an Earth Engine failure is
   * an HTTP 500; a failed road lookup counts as 10 km and a failed power
   * lookup as 25 km with an unknown line; then the infrastructure values are
   * written over the Earth Engine ones.
   */
  function ProcessAnalysis<G>(
    gee: Result<map<string, G>, string>, road: Result<real, string>, power: Result<PowerResult, string>, seismicZone: int)
    : (r: Result<map<string, Value<G>>, HttpError>)
    ensures gee.Failure? <==> r.Failure?
    ensures r.Failure? ==> r.error.status == 500
    ensures r.Success? ==> r.value.Keys == gee.value.Keys + OverriddenKeys
    ensures r.Success? ==> forall k :: k in gee.value && k !in OverriddenKeys ==> r.value[k] == FromGee(gee.value[k])
  {
    match gee
    case Failure(e) => Failure(HttpError(500, "Analysis failed: " + e))
    case Success(geeResult) =>
      var roadKm := if road.Failure? then DefaultRoadKm else road.value;
      var powerData := if power.Failure? then PowerOnError else power.value;
      var proximityToLines := powerData.aerialKm;
      var base := map k | k in geeResult :: FromGee(geeResult[k]);
      Success(base["proximityToRoads" := Km(roadKm)]["proximityToLines" := Km(proximityToLines)]
        ["powerLineDetails" := PowerDetails(powerData)]["seismicRisk" := Zone(seismicZone)])
  }

  /** The substituted defaults: 10 km to a road and 25 km to a line when those lookups fail. */
  lemma ProcessAnalysisDefaults<G>(gee: map<string, G>, road: Result<real, string>, power: Result<PowerResult, string>, zone: int)
    ensures var r := ProcessAnalysis(Success(gee), road, power, zone).value;
      && r["proximityToRoads"] == Km(if road.Success? then road.value else 10.0)
      && r["proximityToLines"] == Km(if power.Success? then power.value.aerialKm else 25.0)
      && r["powerLineDetails"] == PowerDetails(if power.Success? then power.value else PowerOnError)
      && r["seismicRisk"] == Zone(zone)
  {
  }

  /** One entry of the batch response: the analysis, or the error with the geometry that caused it. */
  datatype BatchEntry<Geom, R> = Analysed(response: R) | Failed(error: string, geometry: Geom)

  function EntryFor<Geom, R>(geom: Geom, outcome: Result<R, string>): BatchEntry<Geom, R> {
    match outcome
    case Success(res) => Analysed(res)
    case Failure(e) => Failed(e, geom)
  }

  /**
   * `analyze_batch`: analyse each geometry in turn; a failure becomes an
   * error entry and the loop goes on. Entry `i` depends on geometry `i` alone.
   */
  method AnalyzeBatch<Geom, R>(geometries: seq<Geom>, analyze: Geom -> Result<R, string>)
    returns (results: seq<BatchEntry<Geom, R>>)
    ensures |results| == |geometries|
    ensures forall i :: 0 <= i < |geometries| ==> results[i] == EntryFor(geometries[i], analyze(geometries[i]))
  {
    results := [];
    var i := 0;
    while i < |geometries|
      invariant 0 <= i <= |geometries|
      invariant |results| == i
      invariant forall k :: 0 <= k < i ==> results[k] == EntryFor(geometries[k], analyze(geometries[k]))
    {
      var geom := geometries[i];
      var outcome := analyze(geom);
      match outcome {
        case Success(res) => results := results + [Analysed(res)];
        case Failure(e) => results := results + [Failed(e, geom)];
      }
      i := i + 1;
    }
  }
}
