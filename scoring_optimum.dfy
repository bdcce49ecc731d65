/**
 * What the weighted total says about the individual parameters: it reaches
 * 10 exactly when every parameter scores 10, and every parameter that falls
 * short costs the total at least its weight times its shortfall.
 */
module ScoringOptimum {
  import opened Wrappers
  import opened Scoring

  predicate PositiveWeights(specs: seq<ParamSpec>) {
    forall i :: 0 <= i < |specs| ==> specs[i].weight > 0.0
  }

  lemma ConfigWeightsPositive()
    ensures PositiveWeights(ParametersConfig)
    ensures WindSpeedConfig.weight > 0.0
  {
  }

  /** Entry `j` scoring `s` lowers the weighted sum's ceiling by `weight * (10 - s)`. */
  lemma {:induction false} SumOfDeficit(specs: seq<ParamSpec>, score: ParamSpec -> real, j: nat)
    requires NonNegativeWeights(specs)
    requires forall spec :: 0.0 <= score(spec) <= 10.0
    requires j < |specs|
    ensures SumOf(specs, score) <= 10.0 * TotalWeight(specs) - specs[j].weight * (10.0 - score(specs[j]))
  {
    var init, last := specs[..|specs| - 1], specs[|specs| - 1];
    assert NonNegativeWeights(init);
    var s, w := score(last), last.weight;
    assert 0.0 <= s <= 10.0 && w >= 0.0;
    var a, t, p := SumOf(init, score), TotalWeight(init), Weighted(s, w);
    assert SumOf(specs, score) == a + p;
    assert TotalWeight(specs) == t + w;
    assert p == s * w;
    if j == |specs| - 1 {
      SumOfBounds(init, score);
      assert w * (10.0 - s) == 10.0 * w - p;
    } else {
      assert init[j] == specs[j];
      SumOfDeficit(init, score, j);
    }
  }

  /** Every entry scoring 10 puts the sum at 10 times the total weight. */
  lemma {:induction false} SumOfAllTen(specs: seq<ParamSpec>, score: ParamSpec -> real)
    requires forall i :: 0 <= i < |specs| ==> score(specs[i]) == 10.0
    ensures SumOf(specs, score) == 10.0 * TotalWeight(specs)
  {
    if specs != [] {
      var init := specs[..|specs| - 1];
      assert forall i :: 0 <= i < |init| ==> init[i] == specs[i];
      SumOfAllTen(init, score);
    }
  }

  /** For any scoring of the table: table plus wind reach 10 exactly when every score is 10. */
  lemma TableTotalIsTenIff(f: ParamSpec -> real, wind: real)
    requires forall spec :: 0.0 <= f(spec) <= 10.0
    requires 0.0 <= wind <= 10.0
    ensures SumOf(ParametersConfig, f) + Weighted(wind, WindSpeedConfig.weight) == 10.0 <==>
      (forall i :: 0 <= i < |ParametersConfig| ==> f(ParametersConfig[i]) == 10.0) && wind == 10.0
  {
    var c := ParametersConfig;
    WeightsSumToOne();
    ConfigWeightsPositive();
    assert NonNegativeWeights(c);
    var windPart := Weighted(wind, WindSpeedConfig.weight);
    assert windPart == wind * 0.02;
    if forall i :: 0 <= i < |c| ==> f(c[i]) == 10.0 {
      SumOfAllTen(c, f);
    }
    if exists i :: 0 <= i < |c| && f(c[i]) != 10.0 {
      var i :| 0 <= i < |c| && f(c[i]) != 10.0;
      SumOfDeficit(c, f, i);
      assert c[i].weight * (10.0 - f(c[i])) > 0.0;
    } else if wind != 10.0 {
      SumOfBounds(c, f);
    }
  }

  /** The total is the full 10 exactly when every table entry and wind score 10. */
  lemma WeightedTotalIsTenIff(raw: RawData)
    ensures WeightedTotal(raw) == 10.0 <==>
      (forall i :: 0 <= i < |ParametersConfig| ==> ParamScore(ParametersConfig[i], raw) == 10.0)
      && WindScore(raw) == 10.0
  {
    var f := ScoreOf(raw);
    assert forall spec :: 0.0 <= f(spec) <= 10.0;
    TableTotalIsTenIff(f, WindScore(raw));
    assert forall i :: 0 <= i < |ParametersConfig| ==> f(ParametersConfig[i]) == ParamScore(ParametersConfig[i], raw);
  }

  /** A land-cover score of 0 caps the total at 9, the cost of the entry's 0.10 weight. */
  lemma LandCoverZeroCapsTotal(raw: RawData)
    requires ParamScore(ParametersConfig[4], raw) == 0.0
    ensures WeightedTotal(raw) <= 9.0
  {
    var f := ScoreOf(raw);
    assert forall spec :: 0.0 <= f(spec) <= 10.0;
    assert f(ParametersConfig[4]) == 0.0;
    TableDeficitCapsTotal(f, WindScore(raw), 4);
  }

  /** Any entry's shortfall, weighted, comes off the maximum of 10. */
  lemma TableDeficitCapsTotal(f: ParamSpec -> real, wind: real, j: nat)
    requires forall spec :: 0.0 <= f(spec) <= 10.0
    requires 0.0 <= wind <= 10.0
    requires j < |ParametersConfig|
    ensures SumOf(ParametersConfig, f) + Weighted(wind, WindSpeedConfig.weight)
      <= 10.0 - ParametersConfig[j].weight * (10.0 - f(ParametersConfig[j]))
  {
    WeightsSumToOne();
    assert NonNegativeWeights(ParametersConfig);
    SumOfDeficit(ParametersConfig, f, j);
  }

  /** A water-like NDVI zeroes land cover whatever the class code, so the site is capped at 9. */
  lemma WaterNdviCapsTotal(raw: RawData)
    requires raw.ndvi.Some? && raw.ndvi.value < -0.1
    ensures ParamScore(ParametersConfig[4], raw) == 0.0
    ensures WeightedTotal(raw) <= 9.0
  {
    LandCoverWaterOverride(FixPrecision(LandCover, Lookup(raw, LandCover)), raw.ndvi.value);
    LandCoverZeroCapsTotal(raw);
  }
}
