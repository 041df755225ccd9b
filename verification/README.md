# Heavy-metal pollution index and water-quality categorisation

This project models the two calculation engines behind a groundwater
heavy-metal monitoring dashboard and proves properties about them:

- **The HMPI engine** (`lib/hmpi-calculations.ts`). It takes readings of eight
  heavy metals (Pb, Cd, Cr, As, Hg, Cu, Zn, Ni), converts each to mg/L and
  computes a sub-index: the concentration as a percentage of the WHO/EPA
  limit. It then combines the sub-indices into a toxicity-weighted
  arithmetic mean, the Heavy Metal Pollution Index. It also gives:
  - each metal's share of the weighted total, as a contribution percentage;
  - a risk level (Low, Moderate, High, Very High);
  - the records sorted worst first;
  - a list of recommendations.
  The batch version does this for many samples. An empty reading list is
  an error.
- **The quality categoriser** (`lib/quality-categorization.ts`). It judges a
  sample by its worst reading, meaning the highest ratio of concentration
  to limit. From that it derives:
  - a category (Excellent, Good, Fair, Poor, Unacceptable);
  - a 0–100 score, rounded to hundredths;
  - WHO/EPA/national compliance flags;
  - the exceeding metals, sorted by ratio;
  - recommendations, usage restrictions and treatment options.

Modules:

| file | module | contents |
|---|---|---|
| `metals.dfy` | `Metals` | elements, the limit table, readings, samples, rounding to hundredths |
| `hmpi.dfy` | `Hmpi` | the HMPI engine; the in-place contribution fill, the in-place worst-first sort and the calculation are methods over an array |
| `weighted_sums.dfy` | `WeightedSums` | weighted sums, means and shares over plain sequences of reals |
| `hmpi_properties.dfy` | `HmpiProperties` | lemmas about the HMPI engine |
| `quality.dfy` | `Quality` | the quality categoriser |
| `quality_properties.dfy` | `QualityProperties` | lemmas about the categoriser |

How the model represents the source:

- Concentrations, limits, weights and indices are `real`s. `Math.round(x * 100) / 100`
  is written as `Floor(x * 100 + 0.5) / 100`, which has the same meaning for
  every real.
- Messages are tags such as `Advice(IncreaseMonitoring)` or
  `CriticallyHigh(Pb)`, so the lemmas compare tags, not strings. A text
  function maps each tag to the source's exact sentence: `Hmpi.Render`
  for every HMPI line, and `Quality.AdviceText`, `Quality.RestrictionText`
  and `Quality.TreatmentText` for the categoriser's fixed lines. The
  categoriser's per-metal line `AboveSafeLimits(element, ratio)` has no
  text function (see "## Left out").
- A contribution percentage is a `Share`. It is `Percent(p)` when the weighted
  total is non-zero. It is `NotANumber` or `Infinity(positive)` when the
  source would divide by zero (0/0 and ±x/0 in JavaScript).

## Model

| member | source | states |
|---|---|---|
| Metals.StandardLimit | lib/hmpi-calculations.ts:1-11 | every limit is positive, between 0.003 (Cd) and 3.0 (Zn) mg/L |
| Metals.Round2 | lib/hmpi-calculations.ts:151 | the rounded value is within half a hundredth of the input, is a whole number of hundredths, and stays in [0, 100] when the input is |
| Metals.Round2Exact | lib/quality-categorization.ts:278 | rounding leaves a whole number of hundredths unchanged, so rounding twice is rounding once |
| Metals.Round2Monotone | lib/hmpi-calculations.ts:151 | rounding to hundredths keeps order: a larger value is never reported smaller |
| Hmpi.MetalWeight | lib/hmpi-calculations.ts:14-23 | every toxicity weight lies between 0.05 and 0.25 |
| Hmpi.WeightOf | lib/hmpi-calculations.ts:131-138 | the `|| 0.1` fallback is never taken: the weight used is the table weight, which is positive |
| Hmpi.SubIndex | lib/hmpi-calculations.ts:60-63 | sub-index times limit is 100 times the concentration; it exceeds 100 exactly when the concentration exceeds the limit, and exceeds 200 exactly when it exceeds twice the limit |
| Hmpi.ConvertToMgL | lib/hmpi-calculations.ts:45-58 | the converted value is either the input or the input divided by 1000; which unit does which is stated by HmpiProperties.ConversionTable |
| Hmpi.RecordOf | lib/hmpi-calculations.ts:116-128 | one reading's record: element, mg/L concentration, table limit, sub-index and a 0 placeholder contribution; its sign is stated by HmpiProperties.SubIndexSign |
| Hmpi.SubIndexRecords | lib/hmpi-calculations.ts:116-128 | one record per reading, in order; HmpiProperties.ResultShape states how they reach the result |
| Hmpi.WeightedIndexSum | lib/hmpi-calculations.ts:131-134 | the weighted numerator; HmpiProperties.SumsAreWeighted states it is the weighted sum of the sub-indices, and HmpiProperties.WeightedSumSign states its sign |
| Hmpi.HmpiValue | lib/hmpi-calculations.ts:140 | the unrounded index; HmpiProperties.HmpiWithinSubIndexRange, SingleReadingHmpi and HmpiMonotone state its bounds and monotonicity |
| HmpiProperties.ConversionTable | lib/hmpi-calculations.ts:44-58 | mg/L and ppm are kept; the engine's own micrograms spelling and ppb are divided by 1000; every other unit string is kept, including the correctly encoded "μg/L" |
| HmpiProperties.ConversionMonotone | lib/hmpi-calculations.ts:45-58 | conversion keeps the order and the sign of concentrations |
| HmpiProperties.SubIndexMonotone | lib/hmpi-calculations.ts:61-63 | a larger concentration never has a smaller sub-index against the same limit; non-negative and positive inputs keep their sign |
| HmpiProperties.SubIndexSign | lib/hmpi-calculations.ts:116-128 | a record built from a non-negative (positive) reading has a non-negative (positive) sub-index |
| Hmpi.WeightSum | lib/hmpi-calculations.ts:136-138 | the total weight is non-negative, and positive for a non-empty list, so the index is defined |
| HmpiProperties.SumsAreWeighted | lib/hmpi-calculations.ts:131-138 | the two reductions are the weighted sum of the sub-indices and the sum of their weights |
| WeightedSums.MeanBounds | lib/hmpi-calculations.ts:130-140 | a weighted arithmetic mean with positive weights lies between any lower and upper bound of its values |
| HmpiProperties.MeanWithin | lib/hmpi-calculations.ts:131-140 | the weighted mean of the records lies between any bounds of their sub-indices |
| HmpiProperties.HmpiWithinSubIndexRange | lib/hmpi-calculations.ts:116-140 | the index lies between the smallest and the largest sub-index |
| HmpiProperties.SingleReadingHmpi | lib/hmpi-calculations.ts:116-140 | for one reading, the index is that reading's sub-index |
| HmpiProperties.HmpiMonotone | lib/hmpi-calculations.ts:116-140 | raising one reading's concentration, with all else fixed, never lowers the index |
| HmpiProperties.ReportedHmpiMonotone | lib/hmpi-calculations.ts:116-151 | raising one reading's concentration, all else fixed, never lowers the reported (rounded) index nor the risk level of a result describing the readings |
| Hmpi.WithContributions | lib/hmpi-calculations.ts:143-146 | each record keeps its place and gets its weighted term's share of the total |
| Hmpi.FillContributions | lib/hmpi-calculations.ts:143-146 | the in-place loop leaves the array equal to the records with their contributions filled in |
| Hmpi.ShareOf | lib/hmpi-calculations.ts:144-145 | a record's contribution: its weighted term over the total, in percent, or NaN/±Infinity for a zero total; HmpiProperties.ShareNonNegative and SharesOfNonZeroTotal state its sign and sum |
| Hmpi.Contribute | lib/hmpi-calculations.ts:143-146 | the record with only its contribution replaced; Hmpi.WithContributions states it position by position |
| HmpiProperties.ContributionsAreShares | lib/hmpi-calculations.ts:143-146 | the filled percentages add up to the shares of the weighted terms over the total |
| WeightedSums.SharesOfOwnSum | lib/hmpi-calculations.ts:143-146 | the shares of a non-zero weighted sum, taken of that same sum, add up to 100 |
| HmpiProperties.SharesOfNonZeroTotal | lib/hmpi-calculations.ts:143-146 | when the weighted total is non-zero, every contribution is a number and they add up to 100 |
| HmpiProperties.WeightedSumSign | lib/hmpi-calculations.ts:131-134 | non-negative readings give a non-negative weighted total, and a positive one when some reading is positive |
| HmpiProperties.ShareNonNegative | lib/hmpi-calculations.ts:145 | a non-negative sub-index over a positive total is a non-negative percentage |
| HmpiProperties.ContributionTotalPermutation | lib/hmpi-calculations.ts:143-153 | reordering the records does not change the sum of their contributions |
| HmpiProperties.ContributionsSumTo100 | lib/hmpi-calculations.ts:143-153 | in a result, if the weighted total is non-zero, every contribution is a number and, after the sort, they add up to 100 |
| HmpiProperties.ContributionsArePercentages | lib/hmpi-calculations.ts:143-153 | for non-negative readings with at least one positive, every contribution in the result is a non-negative percentage and they add up to 100 |
| HmpiProperties.ResultShape | lib/hmpi-calculations.ts:116-153 | a result has one record per reading, and each is some reading's record with its contribution |
| Hmpi.DetermineRiskLevel | lib/hmpi-calculations.ts:65-71 | the risk level of an index; its four bands are stated both ways by HmpiProperties.RiskLevelBands |
| HmpiProperties.RiskLevelBands | lib/hmpi-calculations.ts:65-71 | Low iff index ≤ 100, Moderate iff in (100, 200], High iff in (200, 300], Very High iff > 300 |
| HmpiProperties.RiskLevelMonotone | lib/hmpi-calculations.ts:66-71 | a larger index never has a lower risk level |
| HmpiProperties.RiskUsesUnroundedIndex | lib/hmpi-calculations.ts:148-151 | the risk level comes from the unrounded index: lead at 0.0100004 mg/L is reported as 100.00 but rated Moderate |
| Hmpi.BaseRecommendations | lib/hmpi-calculations.ts:77-94 | the risk level's own advice: 2 lines for Low, 3 for Moderate, 4 otherwise, all general advice |
| Hmpi.MetalRecommendation | lib/hmpi-calculations.ts:98-104 | the line one record adds: none up to 100, "exceeds safe limits" above 100, "critically high" above 200; stated by HmpiProperties.MetalRecommendationsJustified, NoCriticalLines and OnlyCriticalLines |
| Hmpi.MetalRecommendations | lib/hmpi-calculations.ts:97-105 | the metal lines in record order; HmpiProperties.MetalRecommendationCount and MetalRecommendationsJustified state their number and origin |
| Hmpi.GenerateRecommendations | lib/hmpi-calculations.ts:74-108 | the loop returns the risk level's advice followed by one line per record above its limit, in record order |
| HmpiProperties.MetalRecommendationCount | lib/hmpi-calculations.ts:97-105 | there is exactly one metal line per record whose sub-index exceeds 100 |
| HmpiProperties.MetalRecommendationsJustified | lib/hmpi-calculations.ts:97-105 | every metal line names a record above 100, and it is the "critically high" line exactly when that record is above 200 |
| HmpiProperties.NoCriticalLines | lib/hmpi-calculations.ts:98-103 | with no sub-index above 200 there is no "critically high" line |
| HmpiProperties.OnlyCriticalLines | lib/hmpi-calculations.ts:98-101 | with every sub-index above 200, every metal line is "critically high" |
| HmpiProperties.CriticalLinesFirst | lib/hmpi-calculations.ts:97-105 | over worst-first records, no "exceeds safe limits" line comes before a "critically high" one |
| HmpiProperties.RecommendationCount | lib/hmpi-calculations.ts:74-108 | a result has 2/3/4 advice lines for its risk level plus one per record above its limit, with the advice first |
| Hmpi.SwapDown | lib/hmpi-calculations.ts:153 | exchanges two neighbouring records and keeps the same records |
| Hmpi.SortBySubIndex | lib/hmpi-calculations.ts:153 | the in-place sort leaves the records in non-increasing sub-index order and is a permutation |
| Hmpi.CalculateHmpi | lib/hmpi-calculations.ts:111-160 | fails with "No heavy metal data provided" exactly on an empty list. Otherwise it returns the index rounded to hundredths, the risk of the unrounded index, the records with contributions as a worst-first permutation, and the recommendations for that order |
| HmpiProperties.LeadAtTwiceTheLimit | lib/hmpi-calculations.ts:111-159 | lead at 0.02 mg/L: index 200, Moderate, one record with sub-index 200 and a 100% contribution, and the three Moderate lines plus "Pb exceeds safe limits" |
| Hmpi.CalculateBatchHmpi | lib/hmpi-calculations.ts:162-170 | fails exactly when some sample has no readings; otherwise one result per sample, in order, with its id, each as `CalculateHmpi` describes |
| QualityProperties.ConversionTable | lib/quality-categorization.ts:39-53 | this module divides its own "μg/L" spelling and ppb by 1000 and keeps everything else. Each engine keeps the other's micrograms spelling, and both keep the micro-sign spelling "µg/L" |
| Quality.ConvertToMgL | lib/quality-categorization.ts:40-53 | the converted value is either the input or the input divided by 1000; which unit does which is stated by QualityProperties.ConversionTable |
| Quality.Proportion | lib/quality-categorization.ts:59-63 | ratio times limit is the concentration; it exceeds 1 exactly when the concentration exceeds the limit, and is non-negative for a non-negative concentration |
| Quality.Ratio | lib/quality-categorization.ts:59-63 | a reading's mg/L concentration over its limit; QualityProperties.RatioAboveOne and RatioSign state its threshold and sign |
| QualityProperties.RatioSign | lib/quality-categorization.ts:59-63 | a non-negative reading has a non-negative ratio |
| Quality.MaxRatio | lib/quality-categorization.ts:65-66 | the maximum ratio is at least every reading's ratio and equals some reading's ratio |
| QualityProperties.MaxRatioAtMost | lib/quality-categorization.ts:82-88 | the maximum ratio is at most t iff every reading's ratio is |
| Quality.RatioCategory | lib/quality-categorization.ts:90-94 | the category of a worst ratio; QualityProperties.RatioCategoryMonotone and ScoreMatchesCategory state its order and its bands |
| Quality.DetermineQualityCategory | lib/quality-categorization.ts:79-95 | Excellent for no readings, else the category of the worst ratio; QualityProperties.CategoryBands states all five categories both ways |
| QualityProperties.RatioCategoryMonotone | lib/quality-categorization.ts:90-94 | a larger ratio never gives a better category |
| QualityProperties.CategoryIsWorstReading | lib/quality-categorization.ts:79-95 | the category is some reading's own category, and no reading is in a worse one |
| QualityProperties.CategoryBands | lib/quality-categorization.ts:79-95 | both directions for each category: Excellent iff every ratio ≤ 0.25 (or no readings); Good iff all ≤ 0.5 and one > 0.25; Fair iff all ≤ 0.75 and one > 0.5; Poor iff all ≤ 1 and one > 0.75; Unacceptable iff one > 1 |
| QualityProperties.ScoreUpToOne | lib/quality-categorization.ts:69-72 | for a worst ratio up to 1, the four bands join into one line: the score is 100 − 100 × ratio |
| QualityProperties.ScoreAboveOne | lib/quality-categorization.ts:74-75 | above 1, the score is 25 − 25 × (ratio − 1), cut off at 0 from ratio 2 on, and always under 25 |
| Quality.RatioScore | lib/quality-categorization.ts:66-75 | the score of a worst ratio; QualityProperties.ScoreUpToOne and ScoreAboveOne give it in closed form, ScoreBounds and ScoreMonotone its range and order |
| Quality.CalculateQualityScore | lib/quality-categorization.ts:56-76 | 100 for no readings, else the score of the worst ratio; QualityProperties.ReportedScoreBounds and CategoryMatchesScore state its range and its agreement with the category |
| QualityProperties.ScoreBounds | lib/quality-categorization.ts:55-75 | for a non-negative ratio, the score lies in [0, 100] |
| QualityProperties.ScoreMonotone | lib/quality-categorization.ts:68-75 | on each side of ratio 1, a worse ratio never raises the score |
| QualityProperties.ScoreJumpAboveOne | lib/quality-categorization.ts:72-75 | the score is not monotone across 1: at ratio 1 it is 0, just above 1 it is over 24 |
| QualityProperties.ScoreMatchesCategory | lib/quality-categorization.ts:66-94 | Excellent iff score ≥ 75, Good iff in [50, 75), Fair iff in [25, 50), Poor or Unacceptable iff < 25 |
| QualityProperties.CategoryMatchesScore | lib/quality-categorization.ts:56-95 | the same correspondence between a sample's category and its unrounded score, empty sample included |
| QualityProperties.ReportedScoreBounds | lib/quality-categorization.ts:278 | for non-negative readings, the score and the reported (rounded) score lie in [0, 100], and they differ by at most half a hundredth |
| Quality.AnyExceeds | lib/quality-categorization.ts:99-102 | true iff some reading's mg/L concentration is above its limit |
| Quality.CheckStandardsCompliance | lib/quality-categorization.ts:98-115 | the WHO, EPA, national and overall flags are equal, and overall compliance holds iff no reading exceeds its limit |
| Quality.ExceedanceOf | lib/quality-categorization.ts:120-131 | the entry carries the reading's element, mg/L concentration, limit and ratio |
| Quality.Exceedances | lib/quality-categorization.ts:119-131 | one entry per reading, in order; QualityProperties.ExceedingMetalsExact states which of them are kept |
| QualityProperties.RatioAboveOne | lib/quality-categorization.ts:120-132 | a ratio above 1 is the same as a concentration above the limit |
| Quality.OverLimit | lib/quality-categorization.ts:132 | keeps every entry with ratio above 1, as often as it occurs, and nothing else |
| Quality.InsertByRatio | lib/quality-categorization.ts:133 | inserting adds exactly that entry |
| Quality.InsertKeepsSorted | lib/quality-categorization.ts:133 | inserting into a list sorted by decreasing ratio keeps it sorted |
| Quality.SortByRatio | lib/quality-categorization.ts:133 | the result is sorted by decreasing ratio and is a permutation of the input |
| Quality.GetExceedingMetals | lib/quality-categorization.ts:118-134 | sorted by decreasing ratio, and holding exactly the entries with ratio above 1, with their multiplicity |
| QualityProperties.ExceedingMetalsExact | lib/quality-categorization.ts:118-134 | every listed metal is some reading's entry with ratio above 1, and every reading above its limit is listed |
| QualityProperties.UnacceptableIffExceeding | lib/quality-categorization.ts:90-134 | Unacceptable iff the exceeding list is non-empty iff the sample is not compliant |
| Quality.BaseRecommendations | lib/quality-categorization.ts:140-173 | 3 advice lines for Excellent and Good, 4 for the others |
| Quality.MetalRecommendations | lib/quality-categorization.ts:176-180 | one "above safe limits" line per exceeding metal, in order, carrying its element and ratio |
| Quality.GenerateRecommendations | lib/quality-categorization.ts:137-183 | the loop returns the category's advice followed by the metal lines |
| QualityProperties.RecommendationsFollowMetals | lib/quality-categorization.ts:176-180 | in an assessment, the k-th line after the advice is the k-th exceeding metal's line |
| Quality.GenerateUsageRestrictions | lib/quality-categorization.ts:186-219 | 1 restriction for Excellent and Good, 3 for Fair, 4 for Poor, 5 for Unacceptable |
| Quality.BaseTreatments | lib/quality-categorization.ts:225-243 | 1 line for Excellent and Good, 3 basic for Fair, 4 advanced for Poor and Unacceptable |
| Quality.SpecificTreatment | lib/quality-categorization.ts:247-263 | one line for Pb, As, Hg, Cd and Cr; none for Cu, Zn and Ni |
| Quality.SpecificTreatments | lib/quality-categorization.ts:246-264 | as many lines as there are treatable metals, never more than the metals |
| QualityProperties.TreatableCount | lib/quality-categorization.ts:246-264 | all treatable gives one line per metal; none treatable gives none |
| Quality.GenerateTreatmentOptions | lib/quality-categorization.ts:222-267 | the loop returns early for Excellent and Good; otherwise it returns the category's lines followed by the metal-specific ones |
| Quality.TreatmentOptions | lib/quality-categorization.ts:222-267 | the category's lines, then the metal-specific ones unless the category is Excellent or Good; QualityProperties.TreatmentCount and TreatmentLines state its length |
| Quality.AssessWaterQuality | lib/quality-categorization.ts:270-285 | the assessment is built from its parts, with the score rounded to hundredths; it never fails |
| Quality.Assess | lib/quality-categorization.ts:270-285 | the assessment of a list of readings; QualityProperties.RecommendationLines, RestrictionLines, TreatmentLines, RecommendationsFollowMetals and UnacceptableIffExceeding state its parts |
| QualityProperties.RecommendationLines | lib/quality-categorization.ts:270-285 | an assessment has 3 recommendations for Excellent and Good, 4 otherwise, plus one per exceeding metal |
| QualityProperties.RestrictionLines | lib/quality-categorization.ts:270-285 | an assessment has 1, 1, 3, 4 or 5 usage restrictions by category |
| QualityProperties.TreatmentCount | lib/quality-categorization.ts:222-267 | when only Unacceptable has exceeding metals, there are 1/1/3/4 treatment lines, or 4 plus the treatable metals for Unacceptable |
| QualityProperties.TreatmentLines | lib/quality-categorization.ts:270-285 | an assessment's treatments number 1/1/3/4, or 4 plus one per treatable exceeding metal for Unacceptable; Poor never gets metal lines |
| QualityProperties.NoReadings | lib/quality-categorization.ts:56-57 | an empty sample is Excellent, scores 100, is compliant, has no exceeding metals, 3 recommendations, no restriction and no treatment needed |
| QualityProperties.CopperAtFivePercent | lib/quality-categorization.ts:270-285 | copper at 0.1 mg/L (5% of its limit) is Excellent, scores 95 and is compliant |
| QualityProperties.LeadAtTwiceTheLimit | lib/quality-categorization.ts:270-285 | lead at 0.02 mg/L is Unacceptable, scores 0, is not compliant, lists lead with ratio 2, and adds the lead treatment after the four advanced ones |
| Quality.BatchAssessWaterQuality | lib/quality-categorization.ts:287-295 | one assessment per sample, in order, with its id |

## Left out

- The React pages, the CSV import and export, the map and the dashboards are not part of this model. The readings arrive as values.
- IEEE-754 doubles are modelled as exact reals. Rounding error, overflow and NaN from the limit or weight tables are not captured. The only non-finite values modelled are the contribution shares, which are NaN or ±Infinity when the weighted total is 0.
- The categoriser's per-metal line (`Quality.Recommendation.AboveSafeLimits`) is kept as a tag carrying the element and the exact ratio. It has no text function, because the source formats the ratio with `toFixed(1)` and decimal formatting of numbers is not modelled.
- Elements are a closed datatype of the eight metals. A lookup of an unknown element cannot be written, so the `|| 0.1` weight fallback and the `default: return []` branch of `generateUsageRestrictions` cannot be reached.
- Hmpi.CalculateHmpi: the result's order is stated as any worst-first permutation. Which of two records with equal sub-indices comes first (stable order in the source) is not stated. The same holds for Quality.SortByRatio.
- Quality.GetExceedingMetals: ties between equal ratios are likewise left unordered.
- The sign and percentage lemmas (HmpiProperties.WeightedSumSign, HmpiProperties.ContributionsArePercentages, QualityProperties.ReportedScoreBounds) take non-negative concentrations as a hypothesis. The engines themselves accept negative numbers, and so does the model.
- The micrograms spelling differs between the two engines, and neither matches the usual micro-sign spelling "µg/L" (U+00B5):
  - the HMPI engine scales only the mis-encoded "Î¼g/L" (U+00CE U+00BC);
  - the categoriser scales only "μg/L" with the Greek mu (U+03BC);
  - so "µg/L" with the micro sign falls through to the default in both and is kept as if it were mg/L.
  The model follows the code. `HmpiProperties.ConversionTable` and `QualityProperties.ConversionTable` state all three cases.
