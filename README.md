# Solar site suitability and panel monitoring: a verified model of the decision core

This project models, in Dafny, the decision and aggregation logic of a solar
farm back end:

- **Site scorer** (`backend/solar-backend-python/utils.py`): the 14-entry
  weighted parameter table plus a separate wind entry; rounding of the
  categorical codes; threshold interpolation to a 1..10 score; the land-cover
  score with its NDVI water override and vegetation correction; and the final
  weighted score.
- **Panel statistics** (`backend/main.py`, duplicated in
  `backend/app/kharda/routes.py`): date-range normalisation; the interpolated
  percentile; summary statistics with five quantile buckets; the per-panel
  value map; and the 120-month cursor loop of the monthly series.
- **Panel routes** (`backend/app/kharda/routes.py`): the parameter table;
  the per-panel result assembly of the panel-data endpoint (database, then
  Earth Engine, then a fallback); and the z-score map of the all-panels
  temperature endpoint.
- **Region-series post-processing** (`backend/app/kharda/services.py`):
  skipping null rows; the soiling baseline, current value, drop and status;
  and the monthly series de-duplicated by month.
- **Infrastructure post-processing** (`backend/solar-backend-python/routes/analyze.py`
  and `backend/app/services/distance.py`): the nearest road or power line;
  the road-distance floor; voltage parsing; default substitution; and the
  batch endpoint.

## Modelling conventions

- Python floats are exact `real`s.
- Earth Engine, Overpass and the database are parameters or inputs:
  - a lookup that raises or finds nothing is the `None`, empty or `Failure`
    input that the source's `except` clause or truthiness test turns it into;
  - functions stand for the geometry library (centroid-to-line nearest point,
    haversine, geodesic distance), for timestamp formatting, for
    `round(x, ndigits)` and for `statistics.stdev`.
- Dates:
  - `normalize_date_range` works on day numbers; `None` is a string that does
    not parse;
  - the month cursor works on (year, month, day) triples.
- Digit handling (`\d`) is over ASCII digits.

Layout, one module per file:

| file | module |
|---|---|
| `wrappers.dfy` | `Wrappers`: `Option`, `Result`, `HttpError` |
| `real_arith.dfy` | `RealArith`: sign facts about products of reals |
| `digits.dfy` | `Digits`: digit runs, decimal parsing and printing |
| `scoring.dfy` | `Scoring`: the utils.py scorer |
| `scoring_optimum.dfy` | `ScoringOptimum`: when the total is 10, and what caps it |
| `percentile.dfy` | `Percentile`: percentile from a sorted list, sorting |
| `panel_stats.dfy` | `PanelStats`: date range, value map, value statistics |
| `months.dfy` | `MonthCursor`: the monthly cursor loop |
| `panel_routes.dfy` | `PanelRoutes`: panel-data assembly, z-scores |
| `region_series.dfy` | `RegionSeries`: row filtering, soiling, monthly de-duplication |
| `infrastructure.dfy` | `Infrastructure`: nearest lines, voltage, analysis merge, batch |

## Model

| member | source | states |
|---|---|---|
| Scoring.RoundHalfEven | backend/solar-backend-python/utils.py:27 | `round(x)` is an integer within 1/2 of x; on a tie it is the even neighbour |
| Scoring.RoundHalfEvenOfInteger | backend/solar-backend-python/utils.py:27 | rounding an integer gives it back |
| Scoring.FixPrecision | backend/solar-backend-python/utils.py:23-28 | None stays None; only landCover and landOwnership are rounded; every other key passes through unchanged |
| Scoring.FixPrecisionIdempotent | backend/solar-backend-python/utils.py:23-28 | fixing precision twice is fixing it once |
| Scoring.FixPrecisionClose | backend/solar-backend-python/utils.py:23-28 | a fixed value stays within 1/2 of the raw value |
| Scoring.Score | backend/solar-backend-python/utils.py:30-48 | a missing value scores 0; no thresholds scores 5; otherwise the score is in [1,10] |
| Scoring.Fraction | backend/solar-backend-python/utils.py:42 | the interpolation fraction strictly between the thresholds is in (0,1) |
| Scoring.FractionMonotone | backend/solar-backend-python/utils.py:42 | the interpolation fraction grows with its numerator |
| Scoring.ScoreHigherIsBetter | backend/solar-backend-python/utils.py:37-42 | higher is better: ≥ best scores 10; ≤ worst scores 1; in between it is 1 + 9·(v−worst)/(best−worst), strictly inside (1,10) |
| Scoring.ScoreLowerIsBetter | backend/solar-backend-python/utils.py:43-48 | the mirrored rule for lower-is-better parameters, with the interpolated score strictly inside (1,10) |
| Scoring.ScoreNonDecreasing | backend/solar-backend-python/utils.py:37-42 | higher is better: the score never drops as the value grows |
| Scoring.ScoreNonIncreasing | backend/solar-backend-python/utils.py:43-48 | lower is better: the score never rises as the value grows |
| Scoring.LandCoverBase | backend/solar-backend-python/utils.py:53-66 | the base land-cover score is in [0,10] |
| Scoring.UsabilityFactor | backend/solar-backend-python/utils.py:69-70 | the usability factor is in [0,1]; a missing code, or one the table does not list, gets 0.5 |
| Scoring.LandCoverScore | backend/solar-backend-python/utils.py:50-74 | the land-cover score is in [0,10] |
| Scoring.LandCoverWaterOverride | backend/solar-backend-python/utils.py:51-52 | NDVI below −0.1 scores 0 whatever the code |
| Scoring.LandCoverClasses | backend/solar-backend-python/utils.py:53-66 | outside the correction band: code 50 scores 1; 80/90/95 score 0 below NDVI 0.1 and 2 otherwise; 10 scores 3; 20 scores 8; 30/40/60 score 10; any other code, 70 and 100 included, and a missing code score 5 |
| Scoring.LandCoverCorrection | backend/solar-backend-python/utils.py:68-73 | NDVI > 0.3 with a positive base and a factor ≥ 0.6: the score is min(10, base + ndvi·0.2·factor), so it rises or reaches 10 |
| Scoring.LandCoverLowUsabilityUncorrected | backend/solar-backend-python/utils.py:69-71 | codes 10/50/70/80/90/95/100 are never adjusted |
| Scoring.ParamScore | backend/solar-backend-python/utils.py:82-98 | a table entry's score is in [0,10]; landOwnership scores 10 exactly when the rounded value is 1 and 5 otherwise; elevation scores 10 exactly when 50 ≤ v ≤ 1500 and 2 otherwise |
| Scoring.Weighted | backend/solar-backend-python/utils.py:100 | a score in [0,10] times a non-negative weight is in [0, 10·weight] |
| Scoring.WeightsSumToOne | backend/solar-backend-python/utils.py:4-21 | the 14 table weights plus wind's 0.02 sum to exactly 1 |
| Scoring.SumOfBounds | backend/solar-backend-python/utils.py:82-100 | with scores in [0,10] and non-negative weights, the weighted sum is in [0, 10·total weight] |
| Scoring.SumOfSnoc | backend/solar-backend-python/utils.py:100 | one more table entry adds exactly its weighted score |
| Scoring.WeightedTotalInRange | backend/solar-backend-python/utils.py:76-107 | the unclamped total is already in [0,10], so the final clamp never changes it |
| Scoring.FinalWeightedScore | backend/solar-backend-python/utils.py:76-107 | the accumulation loop returns the clamped weighted total of the table and the wind entry, which is in [0,10] |
| ScoringOptimum.ConfigWeightsPositive | backend/solar-backend-python/utils.py:4-21 | every table weight and the wind weight is positive |
| ScoringOptimum.SumOfDeficit | backend/solar-backend-python/utils.py:82-100 | an entry scoring below 10 lowers the weighted sum by at least weight·(10 − score) |
| ScoringOptimum.SumOfAllTen | backend/solar-backend-python/utils.py:82-100 | if every entry scores 10 the weighted sum is 10·total weight |
| ScoringOptimum.TableTotalIsTenIff | backend/solar-backend-python/utils.py:76-107 | table plus wind total 10 exactly when every entry and wind score 10 |
| ScoringOptimum.WeightedTotalIsTenIff | backend/solar-backend-python/utils.py:76-107 | a site gets the top score 10 exactly when all 14 parameters and wind score 10 |
| ScoringOptimum.TableDeficitCapsTotal | backend/solar-backend-python/utils.py:76-107 | one entry's shortfall caps the total at 10 − weight·(10 − score) |
| ScoringOptimum.LandCoverZeroCapsTotal | backend/solar-backend-python/utils.py:94 | a land-cover score of 0 caps the total at 9 |
| ScoringOptimum.WaterNdviCapsTotal | backend/solar-backend-python/utils.py:51-52 | NDVI below −0.1 zeroes the land-cover score and caps the total at 9 |
| Digits.DigitValue | backend/app/services/distance.py:157 | a digit's value is below 10 |
| Digits.DigitChar | backend/app/services/distance.py:159 | the digit printed for d < 10 reads back as d |
| Digits.ShowNat | backend/app/services/distance.py:159 | `str(n)` is non-empty, all digits, starts with 0 only for 0, and is one digit exactly below 10 |
| Digits.ParseShowNat | backend/app/services/distance.py:157-159 | `int(str(n)) == n` |
| Digits.ShowNatInjective | backend/main.py:851 | different numbers print differently |
| Digits.ShowInt | backend/main.py:851 | `str(i)` starts with a minus sign exactly for negative i |
| Digits.ShowIntInjective | backend/main.py:851 | different panel ids give different value-map keys |
| Digits.LeadingDigits | backend/solar-backend-python/routes/analyze.py:240 | the maximal digit prefix: all digits, followed by a non-digit or the end |
| Digits.DigitRuns | backend/solar-backend-python/routes/analyze.py:240 | `re.findall(r"\d+")`: every run is a non-empty run of digits |
| Digits.DigitsOf | backend/solar-backend-python/routes/analyze.py:240 | the digits of a string are all digits |
| Digits.DigitsOfAppend | backend/solar-backend-python/routes/analyze.py:240 | the digits of a concatenation are the concatenated digits |
| Digits.DigitsOfAllDigits | backend/solar-backend-python/routes/analyze.py:240 | a string of digits is its own digits |
| Digits.DigitRunsCoverDigits | backend/solar-backend-python/routes/analyze.py:240 | the runs, concatenated, are exactly the string's digits in order |
| Digits.DigitsOfEmpty | backend/solar-backend-python/routes/analyze.py:240-241 | a string has no digits exactly when it has no digit character |
| Digits.ConcatEmpty | backend/solar-backend-python/routes/analyze.py:240-241 | non-empty runs concatenate to nothing only when there are none |
| Digits.DigitRunsEmptyIff | backend/solar-backend-python/routes/analyze.py:240-241 | `findall` returns no run exactly when there is no digit |
| Digits.LeadingDigitsAppend | backend/solar-backend-python/routes/analyze.py:240 | the leading run of a + t stops where a's does when a holds a non-digit, and otherwise continues into t |
| Digits.DigitRunsOfRun | backend/solar-backend-python/routes/analyze.py:240 | a non-empty string of digits is a single run, returned whole |
| Digits.DigitRunsAppend | backend/solar-backend-python/routes/analyze.py:240 | before a non-digit or the end, the runs of a + t are the runs of a followed by the runs of t |
| Digits.DigitRunsSplit | backend/solar-backend-python/routes/analyze.py:240 | a non-digit separates runs: the runs of a + [c] + b are those of a then those of b, so no run is split or joined |
| Digits.FirstDigitRun | backend/app/services/distance.py:155 | `re.search(r'(\d+)')`: a found match is a non-empty run of digits |
| Digits.FirstDigitRunIsFirstOfRuns | backend/app/services/distance.py:155 | the first match is the first of all runs, and there is none exactly when there are no runs |
| Digits.FirstDigitRunAt | backend/app/services/distance.py:155 | after a digit-free prefix, the match is the whole run that follows, up to the next non-digit or the end |
| Digits.FirstMaxIndex | backend/solar-backend-python/routes/analyze.py:242 | `max(parts, key=int)` picks the first run whose value no other run exceeds |
| Digits.MaxByValue | backend/solar-backend-python/routes/analyze.py:242 | the chosen run is one of the runs, no run has a larger value, and no earlier run has an equal one (`max` keeps the first) |
| Percentile.ScaleBounds | backend/main.py:162 | q·m lies in [0, m] for q in [0,1] |
| Percentile.Position | backend/main.py:162 | the position q·(n−1) lies in [0, n−1] |
| Percentile.Ceil | backend/main.py:164 | `math.ceil`: equals the floor exactly at integers |
| Percentile.PercentileFromSorted | backend/main.py:157-169 | an empty list gives None, and only that; one element gives that element |
| Percentile.PercentileAtIndex | backend/main.py:165-166 | an integer position k gives exactly element k |
| Percentile.PercentileEnds | backend/main.py:162-166 | q = 0 gives the first element and q = 1 the last |
| Percentile.InterpolationBetween | backend/main.py:169 | interpolation stays between its two ends |
| Percentile.PercentileBetweenNeighbours | backend/main.py:167-169 | on a sorted list the result lies between the neighbours at floor and ceil of the position |
| Percentile.PercentileWithinRange | backend/main.py:157-169 | on a sorted list the result lies between the minimum and the maximum |
| Percentile.InterpolationMonotone | backend/main.py:169 | interpolation grows with its fraction |
| Percentile.PositionMonotone | backend/main.py:162 | the position grows with q |
| Percentile.PercentileMonotone | backend/main.py:157-169 | on a sorted list a larger q never gives a smaller percentile |
| Percentile.SortedCons | backend/main.py:193 | a value no larger than a sorted list's elements, put in front, keeps it sorted |
| Percentile.Insert | backend/main.py:193 | insertion into a sorted list keeps it sorted and adds exactly that value |
| Percentile.SortAscending | backend/main.py:193 | `list.sort()`: the result is sorted and a permutation of the input |
| PanelStats.NormalizeDateRange | backend/main.py:142-155 | an unparsable date or start > end is a 400 error, and only these; equal dates move the end one day on; otherwise both dates are unchanged; a result always has start < end; the copy at `backend/app/kharda/routes.py:309-322` has the same contract |
| PanelStats.NormalizeDateRangeIdempotent | backend/main.py:142-155 | a normalised range normalises to itself |
| PanelStats.CopyExtras | backend/main.py:848-850 | exactly the requested extra fields that are present and not null are copied, with their values |
| PanelStats.FeaturesToValueMap | backend/main.py:832-852 | the loop builds the value map of the feature list; the copy at `backend/app/kharda/routes.py:994-1014` has the same contract |
| PanelStats.ValueMapKeys | backend/main.py:835-851 | a key is present exactly when some feature has a panel id printing as it and a numeric value |
| PanelStats.ValueMapLastWins | backend/main.py:851 | the entry under a key comes from the last qualifying feature with that panel id |
| PanelStats.EntryShape | backend/main.py:847-850 | an entry holds the feature's value and the unit, unless an extra field overwrites them |
| PanelStats.NumericValues | backend/main.py:172-180 | the kept values are at most the entries |
| PanelStats.NumericValuesCount | backend/main.py:172-180 | `count` is the number of entries whose value is present and numeric |
| PanelStats.NumericValuesExact | backend/main.py:172-180 | a value is kept exactly when some entry holds it as a number |
| PanelStats.SumBounds | backend/main.py:231 | a sum of n values lies between n·min and n·max |
| PanelStats.MeanWithinRange | backend/main.py:231 | the mean lies between the smallest and the largest value |
| PanelStats.EdgeValues | backend/main.py:209-210 | one bucket edge per quantile break |
| PanelStats.EdgeValuesAscending | backend/main.py:209-214 | on sorted values the bucket edges ascend |
| PanelStats.BucketAt | backend/main.py:212-225 | every bucket has min ≤ max, because the end is clamped to the start |
| PanelStats.BuildValueStats | backend/main.py:171-242 | no numeric value gives count 0, no min/max/mean/median and no percentiles or buckets; otherwise the statistics of the sorted numeric values; the copy at `backend/app/kharda/routes.py:338-409` has the same contract |
| PanelStats.BucketsFromEdges | backend/main.py:212-225 | the bucket loop yields one clamped bucket per label, in label order |
| PanelStats.SortedLength | backend/main.py:193 | sorting keeps the number of values |
| PanelStats.StatsOfProperties | backend/main.py:200-235 | count, min and max are the count and ends of the sorted values, with min ≤ mean ≤ max; median is p50; exactly the five percentile keys; five buckets in label order, each with min ≤ max, contiguous, from the minimum to the maximum |
| PanelStats.PercentilesWithinRange | backend/main.py:200-206 | every named percentile lies between the minimum and the maximum |
| MonthCursor.FromMonthIndex | backend/main.py:1253-1256 | a month number maps to a valid first-of-month with that month number |
| MonthCursor.MonthStart | backend/main.py:1238 | `replace(day=1)` keeps year and month |
| MonthCursor.NextMonthAdvancesOne | backend/main.py:1253-1256 | the cursor step, with the December rollover, advances exactly one month |
| MonthCursor.MonthStartBeforeIff | backend/main.py:1242 | a first-of-month is not past the end date exactly when its month is not after the end's month |
| MonthCursor.MonthCursors | backend/main.py:1238-1257 | at most 120 cursors are visited |
| MonthCursor.MonthlySeries | backend/main.py:1237-1257 | the loop calls the month function once per cursor in order, keeping the entries it yields; the copy at `backend/app/kharda/routes.py:890-909` has the same contract |
| MonthCursor.MonthCursorsProperties | backend/main.py:1238-1257 | the first cursor is the start's month; every cursor is a first of month not past the end, the step after the one before it; below the cap the last cursor is the end's month |
| PanelRoutes.UpperChar | backend/app/kharda/routes.py:100 | `upper` maps lower-case ASCII letters to upper case and leaves other characters alone |
| PanelRoutes.Upper | backend/app/kharda/routes.py:100 | `str.upper` keeps the length and upper-cases each character |
| PanelRoutes.UpperOfUpper | backend/app/kharda/routes.py:100 | a string with no lower-case letter is its own upper case |
| PanelRoutes.UpperIdempotent | backend/app/kharda/routes.py:100 | upper-casing twice is upper-casing once |
| PanelRoutes.ParseParameter | backend/app/kharda/routes.py:100-102 | an accepted parameter's name is the upper-cased request string |
| PanelRoutes.ParseParameterIff | backend/app/kharda/routes.py:68-75 | a name is accepted as p exactly when its upper case is p's name |
| PanelRoutes.NameIsUpperCase | backend/app/kharda/routes.py:68-75 | parameter names contain no lower-case letter |
| PanelRoutes.ParseName | backend/app/kharda/routes.py:68-75 | every parameter in the table is accepted under its own name |
| PanelRoutes.PanelResultForSpec | backend/app/kharda/routes.py:120-272 | soiling uses the database record, else Earth Engine's, else baseline 1, current 1, drop 0, `no_data`; other parameters give an error entry exactly when neither source has points, otherwise a series of the same length, dates and units whose current value is the last point's |
| PanelRoutes.RoundSeries | backend/app/kharda/routes.py:254-265 | the rounded series has the same length, dates and units, and each value is the rounded value or None |
| PanelRoutes.AssembleSoiling | backend/app/kharda/routes.py:120-171 | the soiling branch yields the database record, else Earth Engine's, else the fallback |
| PanelRoutes.AssembleSeries | backend/app/kharda/routes.py:174-272 | the series branch yields the result for the stored series, else the Earth Engine series |
| PanelRoutes.AssemblePanel | backend/app/kharda/routes.py:118-274 | the loop body computes the panel's result |
| PanelRoutes.GetPanelData | backend/app/kharda/routes.py:96-276 | 503 without a database; 400 for an unknown parameter or a bad date range; otherwise exactly one result per requested panel id, in request order |
| PanelRoutes.ZScore | backend/app/kharda/routes.py:691-698 | with a positive spread z·std = value − mean; otherwise 0 |
| PanelRoutes.ZScoreSign | backend/app/kharda/routes.py:692-694 | z is positive exactly above the mean and 0 exactly at the mean |
| PanelRoutes.ZScores | backend/app/kharda/routes.py:691-698 | the z-score map has exactly the keys of the panel map, one z-score each |
| PanelRoutes.NoSpreadZeroScores | backend/app/kharda/routes.py:696-698 | with zero spread every z-score is 0 |
| PanelRoutes.PanelMeans | backend/app/kharda/routes.py:658-683 | at most one mean per listed panel |
| PanelRoutes.PanelMeansKeys | backend/app/kharda/routes.py:658-683 | a panel has a mean exactly when it is listed and has a numeric value, and the mean is of those values |
| PanelRoutes.NumbersIn | backend/app/kharda/routes.py:671-676 | the `float()` filter keeps exactly the numeric values |
| PanelRoutes.CollectPanelMeans | backend/app/kharda/routes.py:658-683 | the panel loop fills the panel map and the list of means |
| PanelRoutes.AllPanelsLstResponse | backend/app/kharda/routes.py:654-698 | no panel with data gives empty maps and no statistics; otherwise each panel's mean and z-score against the mean of means, with stdev used only for two or more panels |
| RegionSeries.CollectTimeseries | backend/app/kharda/services.py:35-47 | the header row is skipped, and each later row with a value gives one point, in row order |
| RegionSeries.PointsAppend | backend/app/kharda/services.py:38-47 | the points of concatenated rows are the concatenated points |
| RegionSeries.PointsExactlyNonNull | backend/app/kharda/services.py:38-47 | a point is produced exactly for a row with a non-null value |
| RegionSeries.PointsCount | backend/app/kharda/services.py:38-47 | there are as many points as non-null rows |
| RegionSeries.CollectValues | backend/app/kharda/services.py:270-276 | the soiling rows keep exactly the non-null values, in order |
| RegionSeries.NonNullValuesExact | backend/app/kharda/services.py:273-276 | a value is kept exactly when some row holds it |
| RegionSeries.MaxOf | backend/app/kharda/services.py:286 | `max(values)` is one of the values and no value is larger |
| RegionSeries.StatusOf | backend/app/kharda/services.py:292-294 | `needs_cleaning` exactly when the drop is at least 5 |
| RegionSeries.SoilingSummary | backend/app/kharda/services.py:280-302 | no values give baseline 1, current 1, drop 0; otherwise current is the last value and baseline the maximum; `needs_cleaning` exactly when drop ≥ 5; unit `%` |
| RegionSeries.SoilingDropBounds | backend/app/kharda/services.py:285-290 | with a positive baseline the drop is ≥ 0, at most 100 for a non-negative current value, and 0 exactly when current equals baseline; otherwise 0 |
| RegionSeries.DropBounds | backend/app/kharda/services.py:288-290 | the percentage drop below a positive baseline lies in [0,100] and is 0 exactly at the baseline |
| RegionSeries.QuotientSign | backend/app/kharda/services.py:290 | dividing by a positive baseline keeps sign and zero |
| RegionSeries.MonthlyLst | backend/app/kharda/services.py:224-241 | the monthly loop keeps the first non-null row of each month, converted to Celsius |
| RegionSeries.MonthsOfSnoc | backend/app/kharda/services.py:240 | appending an entry adds its month to the seen months |
| RegionSeries.MonthlyDistinct | backend/app/kharda/services.py:235-240 | the monthly series has at most one entry per month |
| RegionSeries.MonthlyCoversMonths | backend/app/kharda/services.py:224-240 | its months are exactly the months of the non-null rows |
| RegionSeries.MonthlyKeepsFirst | backend/app/kharda/services.py:231-240 | the first non-null row of a month appears as raw·0.02 − 273.15 |
| RegionSeries.MonthHasRow | backend/app/kharda/services.py:224-240 | every month of the series has a non-null row in that month |
| RegionSeries.MonthlyFirstOccurrenceOrder | backend/app/kharda/services.py:224-240 | months appear in the order they first occur: every row of a later entry's month is preceded by a row of each earlier entry's month |
| Infrastructure.NearestOf | backend/solar-backend-python/routes/analyze.py:97-114 | the search only returns a qualifying line |
| Infrastructure.NearestOfIsNearest | backend/solar-backend-python/routes/analyze.py:97-118 | nothing is found exactly when no element is a way with ≥ 2 points; otherwise the found line is no farther than any line and strictly nearer than every earlier one |
| Infrastructure.FindNearest | backend/solar-backend-python/routes/analyze.py:95-114 | the minimum loop with strict `<` computes the search; the copy at `backend/app/services/distance.py:89-104` has the same contract |
| Infrastructure.NearestDistance | backend/solar-backend-python/routes/analyze.py:84-118 | `get_nearest_distance`: None exactly when no element qualifies; otherwise the first nearest line and its distance |
| Infrastructure.RoadDistance | backend/solar-backend-python/routes/analyze.py:120-139 | no data or no road gives 10 km; otherwise the distance to the nearest road |
| Infrastructure.FloorRoad | backend/solar-backend-python/routes/analyze.py:233-234 | a road distance below the aerial distance becomes aerial·factor (1.12 here, 1.2 in backend/app/services/distance.py:148-149); a missing one stays missing; one that is not shorter is kept |
| Infrastructure.FloorRoadNotShorter | backend/app/services/distance.py:148-149 | with a factor ≥ 1, a reported road distance is never below the aerial distance |
| Infrastructure.VoltageByMaxRun | backend/solar-backend-python/routes/analyze.py:236-242 | the voltage is `Unknown` or a non-empty digit string |
| Infrastructure.VoltageByMaxRunSpec | backend/solar-backend-python/routes/analyze.py:236-242 | `Unknown` exactly when the tag is missing or has no digit; otherwise the first of its digit runs that no run exceeds |
| Infrastructure.PowerLineDistanceByAerial | backend/solar-backend-python/routes/analyze.py:141-252 | the loops compute the power-line result |
| Infrastructure.PowerLineByAerialSpec | backend/solar-backend-python/routes/analyze.py:162-234 | no line gives the defaults (25 km, no road, no line); otherwise the aerial distance is the first nearest line's, the road leg is nearest road plus aerial, and it is never below the aerial distance, so the 1.12 floor does not fire |
| Infrastructure.VoltageByFirstRun | backend/app/services/distance.py:151-159 | the voltage is `Unknown` or the digits of a number strictly between 0 and 1000000 |
| Infrastructure.VoltageByFirstRunSpec | backend/app/services/distance.py:151-159 | the first digit run of `voltage`, else of `cables`, printed without leading zeros when 0 < v < 1000000; `Unknown` otherwise |
| Infrastructure.PowerLineDistanceViaRoadPoint | backend/app/services/distance.py:62-169 | the loops compute the power-line result |
| Infrastructure.PowerLineViaRoadPointSpec | backend/app/services/distance.py:76-149 | no line gives the defaults; otherwise the first nearest line, its point and voltage, and a road distance never below the aerial one |
| Infrastructure.ProcessAnalysis | backend/solar-backend-python/routes/analyze.py:314-359 | an Earth Engine failure, and only that, is an HTTP 500; otherwise the Earth Engine keys plus the four infrastructure keys, which override Earth Engine values of the same name |
| Infrastructure.ProcessAnalysisDefaults | backend/solar-backend-python/routes/analyze.py:330-353 | a failed road lookup gives 10 km, a failed power lookup 25 km with an unknown line, and the seismic zone is passed through |
| Infrastructure.AnalyzeBatch | backend/solar-backend-python/routes/analyze.py:411-420 | one entry per geometry in order; entry i depends only on geometry i, and is an error entry carrying it when its analysis fails |

## Left out

- Floating point: reals are exact; there is no IEEE rounding, infinity or NaN. The `float('inf')` sentinels of the minimum loops are modelled as "nothing found yet".
- Python `round(x, ndigits)`:
  - it is a parameter in the panel-data series;
  - the value statistics, value map, z-scores and the all-panels means are modelled unrounded;
  - only the integer `round(x)` of `fix_precision_issues` is modelled exactly.
- `statistics.stdev` and the `stdev` entry of the value statistics are left out, since stdev needs a square root. In the z-score flow it is a parameter.
- The `rangeLabel` text of each bucket is not modelled. It is a formatting of the rounded ends.
- PanelStats.BuildValueStats takes the value map's entries as a sequence in dict order; the dict itself is not modelled there.
- Percentile.SortAscending: `list.sort()` is modelled by a functional insertion sort. Its in-place update is not captured, only its result.
- Percentile.PercentileFromSorted requires q in [0,1]. The source calls it only with the fixed breaks and percentile levels, all in that range.
- Earth Engine: the image pipelines, `getRegion`, `reduceRegion` and `getInfo`, the snapshot aggregators and `calculate_soiling_data` are inputs.
  - Region rows arrive with the value column already selected, so `header.index` lookups are not modelled.
  - `datetime.fromtimestamp`/`strftime` are the parameters `dateOf` and `monthOf`.
- HTTP and Overpass: requests, retries and backoff are not modelled. A failed or empty response is the `None` input.
- The database layer is not modelled; lookups are parameters.
  - The write-back cache of Earth Engine series in the panel-data endpoint is not modelled, so a panel id repeated within one request reads the same sources again.
- Date parsing and the all-panels endpoint's own date checks are not modelled. Those checks are the same rule as `normalize_date_range`.
- Geometry: shapely centroids and `nearest_points`, haversine and `pyproj.Geod.inv` are uninterpreted functions.
  - Their non-negativity is assumed only where a lemma states it as a requirement.
- `get_seismic_zone` and `load_seismic_zones` read a file. The seismic zone is an input of ProcessAnalysis.
- Concurrency: `asyncio.gather` and `to_thread` are modelled as sequential merging of the three results.
- Infrastructure.ProcessAnalysis: the power data in the model always has an aerial distance, so the `proximityToLines` fallback to 25.0 only arises through the defaults.
- Unicode: `\d` and `str.upper` are modelled over ASCII digits and letters only.
- Panel ids are integers. The value-map key is their decimal form.
- File caching, KML/GeoJSON loading, FastAPI routing and application setup, credentials, and the scripts outside the core are not part of this model.
- MonthCursor.MonthlySeries requires valid calendar dates. The source obtains its dates from `strptime`, which yields only valid ones.
