/**
 * The site-suitability scorer of the analysis backend
 * (backend/solar-backend-python/utils.py): the parameter table, the
 * rounding of categorical codes, the threshold interpolation, the land-cover
 * score with its NDVI water override and vegetation correction, and the
 * weighted total clamped to [0, 10].
 *
 * Numbers are exact reals; the source works on IEEE doubles.
 */
module Scoring {
  import opened Wrappers
  import opened RealArith

  /** The keys of the scoring table, plus wind speed, which is scored apart. */
  datatype Key =
    | Slope | Ghi | Temperature | Elevation | LandCover | ProximityToLines
    | ProximityToRoads | WaterAvailability | SoilStability | Shading | Dust
    | SeismicRisk | FloodRisk | LandOwnership | WindSpeed

  /**
   * The linear scoring interval of a parameter. Every table entry with
   * `thresholds` also has `higherIsBetter` (the source reads it
   * unconditionally once thresholds exist), so the two travel together.
   */
  datatype Thresholds = Thresholds(higherIsBetter: bool, best: real, worst: real)

  datatype ParamSpec = ParamSpec(key: Key, weight: real, thresholds: Option<Thresholds>)

  /** The fourteen entries of the table, in declaration order. */
  const ParametersConfig: seq<ParamSpec> := [
    ParamSpec(Slope, 0.20, Some(Thresholds(false, 5.7, 15.0))),
    ParamSpec(Ghi, 0.15, Some(Thresholds(true, 5.5, 4.5))),
    ParamSpec(Temperature, 0.07, Some(Thresholds(false, 25.0, 40.0))),
    ParamSpec(Elevation, 0.03, None),
    ParamSpec(LandCover, 0.10, None),
    ParamSpec(ProximityToLines, 0.10, Some(Thresholds(false, 1.0, 15.0))),
    ParamSpec(ProximityToRoads, 0.05, Some(Thresholds(false, 1.0, 10.0))),
    ParamSpec(WaterAvailability, 0.05, Some(Thresholds(false, 2.0, 15.0))),
    ParamSpec(SoilStability, 0.05, Some(Thresholds(true, 100.0, 20.0))),
    ParamSpec(Shading, 0.05, Some(Thresholds(true, 200.0, 100.0))),
    ParamSpec(Dust, 0.03, Some(Thresholds(false, 0.1, 0.5))),
    ParamSpec(SeismicRisk, 0.02, Some(Thresholds(false, 0.1, 0.4))),
    ParamSpec(FloodRisk, 0.02, Some(Thresholds(false, 0.0, 5.0))),
    ParamSpec(LandOwnership, 0.06, None)
  ]

  const WindSpeedConfig: ParamSpec := ParamSpec(WindSpeed, 0.02, Some(Thresholds(false, 20.0, 90.0)))

  /**
   * The raw values supplied for one geometry. A key that is absent stands for
   * both a missing key and a `None` value (`raw_data.get(key)` gives `None`
   * for either).
   */
  datatype RawData = RawData(values: map<Key, real>, ndvi: Option<real>)

  function Lookup(raw: RawData, k: Key): Option<real> {
    if k in raw.values then Some(raw.values[k]) else None
  }

  // ---------------------------------------------------------------------
  // Rounding of categorical codes

  /** Python's `round(x)` with no digits: to the nearest integer, ties to even. */
  function RoundHalfEven(x: real): (n: int)
    ensures x - 0.5 <= n as real <= x + 0.5
    ensures n as real == x + 0.5 || n as real == x - 0.5 ==> n % 2 == 0
  {
    var f := x.Floor;
    var frac := x - f as real;
    if frac < 0.5 then f
    else if frac > 0.5 then f + 1
    else if f % 2 == 0 then f
    else f + 1
  }

  /** Rounding leaves a whole number where it is. */
  lemma RoundHalfEvenOfInteger(n: int)
    ensures RoundHalfEven(n as real) == n
  {
    assert (n as real).Floor == n;
  }

  predicate IsCategorical(k: Key) {
    k == LandCover || k == LandOwnership
  }

  /** `fix_precision_issues`: round the categorical codes, pass everything else through. */
  function FixPrecision(k: Key, value: Option<real>): (r: Option<real>)
    ensures value.None? ==> r.None?
    ensures !IsCategorical(k) ==> r == value
    ensures IsCategorical(k) && value.Some? ==>
      r.Some? && r.value == RoundHalfEven(value.value) as real
  {
    match value
    case None => None
    case Some(v) => if IsCategorical(k) then Some(RoundHalfEven(v) as real) else value
  }

  /** Fixing precision twice is the same as fixing it once. */
  lemma FixPrecisionIdempotent(k: Key, value: Option<real>)
    ensures FixPrecision(k, FixPrecision(k, value)) == FixPrecision(k, value)
  {
    if value.Some? && IsCategorical(k) {
      RoundHalfEvenOfInteger(RoundHalfEven(value.value));
    }
  }

  /** A fixed value never moves more than half a unit from the raw one. */
  lemma FixPrecisionClose(k: Key, v: real)
    ensures FixPrecision(k, Some(v)).Some?
    ensures v - 0.5 <= FixPrecision(k, Some(v)).value <= v + 0.5
  {
  }

  // ---------------------------------------------------------------------
  // Threshold interpolation

  /** `calculate_score`. */
  function Score(value: Option<real>, spec: ParamSpec): (s: real)
    ensures value.None? ==> s == 0.0
    ensures value.Some? && spec.thresholds.None? ==> s == 5.0
    ensures value.Some? && spec.thresholds.Some? ==> 1.0 <= s <= 10.0
  {
    match value
    case None => 0.0
    case Some(v) =>
      match spec.thresholds
      case None => 5.0
      case Some(t) =>
        if t.higherIsBetter then
          if v >= t.best then 10.0
          else if v <= t.worst then 1.0
          else 1.0 + 9.0 * Fraction(v - t.worst, t.best - t.worst)
        else
          if v <= t.best then 10.0
          else if v >= t.worst then 1.0
          else 1.0 + 9.0 * Fraction(t.worst - v, t.worst - t.best)
  }

  /** The share `part / whole` of an interval, strictly inside (0, 1) when the part is. */
  function Fraction(part: real, whole: real): (f: real)
    requires 0.0 < part < whole
    ensures 0.0 < f < 1.0
  {
    var f := part / whole;
    assert f * whole == part;
    ProductSign(1.0 - f, whole);
    f
  }

  /** A larger part of the same interval is a larger share of it. */
  lemma FractionMonotone(a: real, b: real, whole: real)
    requires 0.0 < a <= b < whole
    ensures Fraction(a, whole) <= Fraction(b, whole)
  {
    var fa, fb := a / whole, b / whole;
    assert fa * whole == a && fb * whole == b;
    assert (fb - fa) * whole == b - a;
    ProductSign(fb - fa, whole);
  }

  /** Higher is better: the three regions of the interpolation. */
  lemma ScoreHigherIsBetter(v: real, spec: ParamSpec)
    requires spec.thresholds.Some? && spec.thresholds.value.higherIsBetter
    ensures var t := spec.thresholds.value;
      && (v >= t.best ==> Score(Some(v), spec) == 10.0)
      && (v < t.best && v <= t.worst ==> Score(Some(v), spec) == 1.0)
      && (t.worst < v < t.best ==>
            1.0 < Score(Some(v), spec) < 10.0
            && Score(Some(v), spec) == 1.0 + 9.0 * ((v - t.worst) / (t.best - t.worst)))
  {
  }

  /** Lower is better: the mirrored regions. */
  lemma ScoreLowerIsBetter(v: real, spec: ParamSpec)
    requires spec.thresholds.Some? && !spec.thresholds.value.higherIsBetter
    ensures var t := spec.thresholds.value;
      && (v <= t.best ==> Score(Some(v), spec) == 10.0)
      && (v > t.best && v >= t.worst ==> Score(Some(v), spec) == 1.0)
      && (t.best < v < t.worst ==>
            1.0 < Score(Some(v), spec) < 10.0
            && Score(Some(v), spec) == 1.0 + 9.0 * ((t.worst - v) / (t.worst - t.best)))
  {
  }

  /** When higher is better the score never falls as the value rises. */
  lemma ScoreNonDecreasing(v1: real, v2: real, spec: ParamSpec)
    requires spec.thresholds.Some? && spec.thresholds.value.higherIsBetter
    requires v1 <= v2
    ensures Score(Some(v1), spec) <= Score(Some(v2), spec)
  {
    var t := spec.thresholds.value;
    if t.worst < v1 && v2 < t.best {
      FractionMonotone(v1 - t.worst, v2 - t.worst, t.best - t.worst);
    }
  }

  /** When lower is better the score never rises as the value rises. */
  lemma ScoreNonIncreasing(v1: real, v2: real, spec: ParamSpec)
    requires spec.thresholds.Some? && !spec.thresholds.value.higherIsBetter
    requires v1 <= v2
    ensures Score(Some(v1), spec) >= Score(Some(v2), spec)
  {
    var t := spec.thresholds.value;
    if t.best < v1 && v2 < t.worst {
      FractionMonotone(t.worst - v2, t.worst - v1, t.worst - t.best);
    }
  }

  // ---------------------------------------------------------------------
  // Land cover (ESA WorldCover 2020 v100 class codes)

  predicate IsWetlandClass(code: Option<real>) {
    code == Some(80.0) || code == Some(90.0) || code == Some(95.0)
  }

  predicate IsOpenClass(code: Option<real>) {
    code == Some(30.0) || code == Some(40.0) || code == Some(60.0)
  }

  /** The classes the base-score table names; every other code, and a missing one, scores 5. */
  predicate IsScoredClass(code: Option<real>) {
    code == Some(10.0) || code == Some(20.0) || code == Some(50.0) || IsWetlandClass(code) || IsOpenClass(code)
  }

  /** The codes the usability table lists; every other code, and a missing one, gets 0.5. */
  const UsabilityCodes: set<real> := {10.0, 20.0, 30.0, 40.0, 50.0, 60.0, 70.0, 80.0, 90.0, 95.0, 100.0}

  /** The score of a class before the vegetation correction. */
  function LandCoverBase(code: Option<real>, ndvi: Option<real>): (base: real)
    ensures 0.0 <= base <= 10.0
  {
    if code == Some(50.0) then 1.0
    else if IsWetlandClass(code) then
      (if ndvi.Some? && ndvi.value < 0.1 then 0.0 else 2.0)
    else if code == Some(10.0) then 3.0
    else if IsOpenClass(code) then 10.0
    else if code == Some(20.0) then 8.0
    else 5.0
  }

  /** How usable a class is for panels despite vegetation; 0.5 for any other code. */
  function UsabilityFactor(code: Option<real>): (f: real)
    ensures 0.0 <= f <= 1.0
    ensures code.None? || code.value !in UsabilityCodes ==> f == 0.5
  {
    match code
    case None => 0.5
    case Some(c) =>
      if c == 10.0 then 0.3
      else if c == 20.0 then 0.8
      else if c == 30.0 then 1.0
      else if c == 40.0 then 0.6
      else if c == 50.0 then 0.1
      else if c == 60.0 then 1.0
      else if c == 70.0 then 0.0
      else if c == 80.0 then 0.0
      else if c == 90.0 then 0.2
      else if c == 95.0 then 0.2
      else if c == 100.0 then 0.5
      else 0.5
  }

  /** Whether the vegetation correction applies to a base score. */
  predicate Corrected(code: Option<real>, ndvi: Option<real>, base: real) {
    ndvi.Some? && ndvi.value > 0.3 && base > 0.0 && UsabilityFactor(code) >= 0.6
  }

  /** `calculate_enhanced_land_cover_score`. */
  function LandCoverScore(code: Option<real>, ndvi: Option<real>): (s: real)
    ensures 0.0 <= s <= 10.0
  {
    if ndvi.Some? && ndvi.value < -0.1 then 0.0
    else
      var base := LandCoverBase(code, ndvi);
      if Corrected(code, ndvi, base) then
        var adjusted := base + ndvi.value * 0.2 * UsabilityFactor(code);
        if adjusted < 10.0 then adjusted else 10.0
      else base
  }

  /** NDVI below -0.1 is read as open water, whatever the class says. */
  lemma LandCoverWaterOverride(code: Option<real>, n: real)
    requires n < -0.1
    ensures LandCoverScore(code, Some(n)) == 0.0
  {
  }

  /** The table of base scores, as the corrected score before any correction. */
  lemma LandCoverClasses(code: Option<real>, ndvi: Option<real>)
    requires ndvi.None? || -0.1 <= ndvi.value <= 0.3
    ensures code == Some(50.0) ==> LandCoverScore(code, ndvi) == 1.0
    ensures IsWetlandClass(code) ==>
      LandCoverScore(code, ndvi) == (if ndvi.Some? && ndvi.value < 0.1 then 0.0 else 2.0)
    ensures code == Some(10.0) ==> LandCoverScore(code, ndvi) == 3.0
    ensures code == Some(20.0) ==> LandCoverScore(code, ndvi) == 8.0
    ensures IsOpenClass(code) ==> LandCoverScore(code, ndvi) == 10.0
    ensures !IsScoredClass(code) ==> LandCoverScore(code, ndvi) == 5.0
  {
  }

  /** The correction adds `ndvi * 0.2 * factor` and caps the result at 10. */
  lemma LandCoverCorrection(code: Option<real>, n: real)
    requires n > 0.3
    requires LandCoverBase(code, Some(n)) > 0.0 && UsabilityFactor(code) >= 0.6
    ensures var base := LandCoverBase(code, Some(n));
      LandCoverScore(code, Some(n)) == Min(10.0, base + n * 0.2 * UsabilityFactor(code))
    ensures LandCoverScore(code, Some(n)) > LandCoverBase(code, Some(n))
      || LandCoverScore(code, Some(n)) == 10.0
  {
    var f := UsabilityFactor(code);
    assert n * 0.2 * f > 0.0 by {
      assert n * 0.2 > 0.0;
    }
  }

  function Min(a: real, b: real): real {
    if a < b then a else b
  }

  /** Forest, built-up, snow, wetland, mangrove and moss classes never get the correction. */
  lemma LandCoverLowUsabilityUncorrected(code: Option<real>, ndvi: Option<real>)
    requires code in {Some(10.0), Some(50.0), Some(70.0), Some(80.0), Some(90.0), Some(95.0), Some(100.0)}
    requires ndvi.None? || ndvi.value >= -0.1
    ensures LandCoverScore(code, ndvi) == LandCoverBase(code, ndvi)
  {
  }

  // ---------------------------------------------------------------------
  // The weighted total

  /** The score of one table entry, as the body of the loop computes it. */
  function ParamScore(spec: ParamSpec, raw: RawData): (s: real)
    ensures 0.0 <= s <= 10.0
    ensures spec.key == LandOwnership ==>
      (s == 10.0 <==> FixPrecision(LandOwnership, Lookup(raw, LandOwnership)) == Some(1.0))
    ensures spec.key == LandOwnership ==> s == 10.0 || s == 5.0
    ensures spec.key == Elevation ==>
      (s == 10.0 <==> Lookup(raw, Elevation).Some? && 50.0 <= Lookup(raw, Elevation).value <= 1500.0)
    ensures spec.key == Elevation ==> s == 10.0 || s == 2.0
  {
    var value := FixPrecision(spec.key, Lookup(raw, spec.key));
    if spec.key == LandOwnership then
      (if value == Some(1.0) then 10.0 else 5.0)
    else if spec.key == Elevation then
      (if value.Some? && 50.0 <= value.value <= 1500.0 then 10.0 else 2.0)
    else if spec.key == LandCover then
      LandCoverScore(value, raw.ndvi)
    else if spec.thresholds.Some? then
      Score(value, spec)
    else 5.0
  }

  /** `score * weight` summed over a prefix of the table, in table order. */
  function WeightedSum(specs: seq<ParamSpec>, raw: RawData): real {
    SumOf(specs, ScoreOf(raw))
  }

  /** The loop body's scoring of an entry, as a function value. */
  function ScoreOf(raw: RawData): ParamSpec -> real {
    spec => ParamScore(spec, raw)
  }

  /** The weighted sum for any scoring of the entries. */
  function SumOf(specs: seq<ParamSpec>, score: ParamSpec -> real): real {
    if specs == [] then 0.0
    else SumOf(specs[..|specs| - 1], score) + Weighted(score(specs[|specs| - 1]), specs[|specs| - 1].weight)
  }

  /** One entry's contribution: its score times its weight. */
  function Weighted(s: real, w: real): (r: real)
    ensures 0.0 <= s <= 10.0 && w >= 0.0 ==> 0.0 <= r <= 10.0 * w
  {
    if 0.0 <= s <= 10.0 && w >= 0.0 then
      assert 0.0 <= s * w && s * w <= 10.0 * w;
      s * w
    else s * w
  }

  function TotalWeight(specs: seq<ParamSpec>): real {
    if specs == [] then 0.0 else TotalWeight(specs[..|specs| - 1]) + specs[|specs| - 1].weight
  }

  function WindScore(raw: RawData): real {
    Score(FixPrecision(WindSpeed, Lookup(raw, WindSpeed)), WindSpeedConfig)
  }

  /** The unclamped total: the table plus the separate wind entry. */
  function WeightedTotal(raw: RawData): real {
    WeightedSum(ParametersConfig, raw) + Weighted(WindScore(raw), WindSpeedConfig.weight)
  }

  function Clamp(x: real, lo: real, hi: real): real
    requires lo <= hi
  {
    if x < lo then lo else if x > hi then hi else x
  }

  /** The table's weights and wind's weight add up to exactly one. */
  lemma WeightsSumToOne()
    ensures TotalWeight(ParametersConfig) + WindSpeedConfig.weight == 1.0
  {
    var c := ParametersConfig;
    assert c[..0] == [];
    assert TotalWeight(c[..1]) == 0.20 by { assert c[..1][..0] == c[..0]; }
    assert TotalWeight(c[..2]) == 0.35 by { assert c[..2][..1] == c[..1]; }
    assert TotalWeight(c[..3]) == 0.42 by { assert c[..3][..2] == c[..2]; }
    assert TotalWeight(c[..4]) == 0.45 by { assert c[..4][..3] == c[..3]; }
    assert TotalWeight(c[..5]) == 0.55 by { assert c[..5][..4] == c[..4]; }
    assert TotalWeight(c[..6]) == 0.65 by { assert c[..6][..5] == c[..5]; }
    assert TotalWeight(c[..7]) == 0.70 by { assert c[..7][..6] == c[..6]; }
    assert TotalWeight(c[..8]) == 0.75 by { assert c[..8][..7] == c[..7]; }
    assert TotalWeight(c[..9]) == 0.80 by { assert c[..9][..8] == c[..8]; }
    assert TotalWeight(c[..10]) == 0.85 by { assert c[..10][..9] == c[..9]; }
    assert TotalWeight(c[..11]) == 0.88 by { assert c[..11][..10] == c[..10]; }
    assert TotalWeight(c[..12]) == 0.90 by { assert c[..12][..11] == c[..11]; }
    assert TotalWeight(c[..13]) == 0.92 by { assert c[..13][..12] == c[..12]; }
    assert TotalWeight(c) == 0.98 by { assert c[..13] == c[..|c| - 1]; }
  }

  predicate NonNegativeWeights(specs: seq<ParamSpec>) {
    forall i :: 0 <= i < |specs| ==> specs[i].weight >= 0.0
  }

  /**
   * With non-negative weights and every score in [0, 10], the weighted sum
   * lies between 0 and 10 times the total weight.
   */
  lemma {:induction false} SumOfBounds(specs: seq<ParamSpec>, score: ParamSpec -> real)
    requires NonNegativeWeights(specs)
    requires forall spec :: 0.0 <= score(spec) <= 10.0
    ensures 0.0 <= SumOf(specs, score) <= 10.0 * TotalWeight(specs)
  {
    if specs != [] {
      var init, last := specs[..|specs| - 1], specs[|specs| - 1];
      assert NonNegativeWeights(init);
      SumOfBounds(init, score);
      assert last.weight >= 0.0;
      var s := score(last);
      assert 0.0 <= s <= 10.0;
      var a, t, p := SumOf(init, score), TotalWeight(init), Weighted(s, last.weight);
      assert SumOf(specs, score) == a + p;
      assert TotalWeight(specs) == t + last.weight;
      SumStep(a, t, p, last.weight);
    }
  }

  /** Extending the prefix by one entry adds that entry's weighted score. */
  lemma SumOfSnoc(specs: seq<ParamSpec>, i: nat, score: ParamSpec -> real)
    requires i < |specs|
    ensures SumOf(specs[..i + 1], score) == SumOf(specs[..i], score) + Weighted(score(specs[i]), specs[i].weight)
  {
    assert specs[..i + 1][..i] == specs[..i];
  }

  lemma SumStep(a: real, ta: real, p: real, w: real)
    requires 0.0 <= a <= 10.0 * ta && 0.0 <= p <= 10.0 * w
    ensures 0.0 <= a + p <= 10.0 * (ta + w)
  {
  }

  /** Since weights sum to one and every score is in [0, 10], the clamp never changes the total. */
  lemma WeightedTotalInRange(raw: RawData)
    ensures 0.0 <= WeightedTotal(raw) <= 10.0
    ensures Clamp(WeightedTotal(raw), 0.0, 10.0) == WeightedTotal(raw)
  {
    WeightsSumToOne();
    var score := ScoreOf(raw);
    assert forall spec :: 0.0 <= score(spec) <= 10.0;
    assert NonNegativeWeights(ParametersConfig);
    SumOfBounds(ParametersConfig, score);
    var w := WindScore(raw);
    assert 0.0 <= w <= 10.0;
  }

  /** `calculate_final_weighted_score`: the loop over the table, then wind, then the clamp. */
  method FinalWeightedScore(raw: RawData) returns (score: real)
    ensures score == Clamp(WeightedTotal(raw), 0.0, 10.0)
    ensures score == WeightedTotal(raw)
    ensures 0.0 <= score <= 10.0
  {
    var total := 0.0;
    var i := 0;
    ghost var scoreOf := ScoreOf(raw);
    while i < |ParametersConfig|
      invariant 0 <= i <= |ParametersConfig|
      invariant total == SumOf(ParametersConfig[..i], scoreOf)
    {
      var spec := ParametersConfig[i];
      var s := ParamScore(spec, raw);
      SumOfSnoc(ParametersConfig, i, scoreOf);
      assert scoreOf(spec) == s;
      total := total + Weighted(s, spec.weight);
      i := i + 1;
    }
    assert ParametersConfig[..i] == ParametersConfig;
    var windValue := FixPrecision(WindSpeedConfig.key, Lookup(raw, WindSpeedConfig.key));
    total := total + Weighted(Score(windValue, WindSpeedConfig), WindSpeedConfig.weight);
    WeightedTotalInRange(raw);
    score := Clamp(total, 0.0, 10.0);
  }
}
