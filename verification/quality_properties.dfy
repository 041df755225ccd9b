/**
 * Properties of the water-quality categoriser: the two modules' unit
 * switches, the category as the band of the worst reading, the shape of the
 * score curve and its agreement with the category, the agreement between
 * category, exceeding metals and compliance, the list lengths, and the
 * behaviour on no readings.
 */
module QualityProperties {
  import opened Metals
  import opened Quality
  import Hmpi

  // ---------------------------------------------------------------------
  // Unit conversion
  // ---------------------------------------------------------------------

  /** Micrograms per litre written with the micro sign rather than the Greek letter mu. */
  const MicroSignSpelling: string := "\U{B5}g/L"

  /**
   * This module scales its own spelling of micrograms per litre and ppb,
   * keeps mg/L, ppm and every other string; the HMPI engine's mis-encoded
   * spelling is therefore kept here, and this module's spelling is kept
   * by the HMPI engine; the spelling with the micro sign is kept by both.
   */
  lemma {:induction false} ConversionTable(c: real)
    ensures ConvertToMgL(c, "mg/L") == c && ConvertToMgL(c, "ppm") == c
    ensures ConvertToMgL(c, MicrogramsPerLitre) * 1000.0 == c
    ensures ConvertToMgL(c, "ppb") * 1000.0 == c
    ensures forall u :: u != "mg/L" && u != MicrogramsPerLitre && u != "ppm" && u != "ppb" ==>
      ConvertToMgL(c, u) == c
    ensures ConvertToMgL(c, Hmpi.MicrogramsPerLitre) == c
    ensures Hmpi.ConvertToMgL(c, MicrogramsPerLitre) == c
    ensures ConvertToMgL(c, MicroSignSpelling) == c && Hmpi.ConvertToMgL(c, MicroSignSpelling) == c
  {
    assert MicrogramsPerLitre[0] != Hmpi.MicrogramsPerLitre[0];
    assert MicroSignSpelling[0] != MicrogramsPerLitre[0] && MicroSignSpelling[0] != Hmpi.MicrogramsPerLitre[0];
  }

  /** A non-negative reading has a non-negative ratio. */
  lemma {:induction false} RatioSign(x: Reading)
    requires x.concentration >= 0.0
    ensures Ratio(x) >= 0.0
  {
    assert ConvertToMgL(x.concentration, x.unit) >= 0.0;
  }

  /** A ratio is above 1.0 exactly when the reading is above its limit. */
  lemma {:induction false} RatioAboveOne(x: Reading)
    ensures Ratio(x) > 1.0 <==> ExceedsLimit(x)
  {
    var c, limit := ConvertToMgL(x.concentration, x.unit), StandardLimit(x.element);
    assert Ratio(x) == Proportion(c, limit);
  }

  // ---------------------------------------------------------------------
  // Category
  // ---------------------------------------------------------------------

  /** A worse ratio never gets a better category. */
  lemma {:induction false} RatioCategoryMonotone(m1: real, m2: real)
    requires m1 <= m2
    ensures CategoryRank(RatioCategory(m1)) <= CategoryRank(RatioCategory(m2))
  {
  }

  /** The worst ratio is at most t exactly when every ratio is. */
  lemma {:induction false} MaxRatioAtMost(inputs: seq<Reading>, t: real)
    requires inputs != []
    ensures MaxRatio(inputs) <= t <==> forall i :: 0 <= i < |inputs| ==> Ratio(inputs[i]) <= t
  {
    var i :| 0 <= i < |inputs| && MaxRatio(inputs) == Ratio(inputs[i]);
  }

  /** The category is that of the worst reading: some reading has it and none has a worse one. */
  lemma {:induction false} CategoryIsWorstReading(inputs: seq<Reading>)
    requires inputs != []
    ensures exists i :: 0 <= i < |inputs| && DetermineQualityCategory(inputs) == RatioCategory(Ratio(inputs[i]))
    ensures forall i :: 0 <= i < |inputs| ==>
      CategoryRank(RatioCategory(Ratio(inputs[i]))) <= CategoryRank(DetermineQualityCategory(inputs))
  {
    var w :| 0 <= w < |inputs| && MaxRatio(inputs) == Ratio(inputs[w]);
    assert DetermineQualityCategory(inputs) == RatioCategory(Ratio(inputs[w]));
    forall i | 0 <= i < |inputs|
      ensures CategoryRank(RatioCategory(Ratio(inputs[i]))) <= CategoryRank(DetermineQualityCategory(inputs))
    {
      RatioCategoryMonotone(Ratio(inputs[i]), MaxRatio(inputs));
    }
  }

  /**
   * The five bands: Excellent when every ratio is at most 0.25, Good when
   * every ratio is at most 0.5 and one is above 0.25, and so on up to
   * Unacceptable when some ratio is above 1.0.  No readings give Excellent.
   */
  lemma {:induction false} CategoryBands(inputs: seq<Reading>)
    ensures DetermineQualityCategory(inputs) == Excellent <==>
      forall i :: 0 <= i < |inputs| ==> Ratio(inputs[i]) <= 0.25
    ensures DetermineQualityCategory(inputs) == Good <==>
      (forall i :: 0 <= i < |inputs| ==> Ratio(inputs[i]) <= 0.5) &&
      exists i :: 0 <= i < |inputs| && Ratio(inputs[i]) > 0.25
    ensures DetermineQualityCategory(inputs) == Fair <==>
      (forall i :: 0 <= i < |inputs| ==> Ratio(inputs[i]) <= 0.75) &&
      exists i :: 0 <= i < |inputs| && Ratio(inputs[i]) > 0.5
    ensures DetermineQualityCategory(inputs) == Poor <==>
      (forall i :: 0 <= i < |inputs| ==> Ratio(inputs[i]) <= 1.0) &&
      exists i :: 0 <= i < |inputs| && Ratio(inputs[i]) > 0.75
    ensures DetermineQualityCategory(inputs) == Unacceptable <==>
      exists i :: 0 <= i < |inputs| && Ratio(inputs[i]) > 1.0
  {
    if inputs != [] {
      MaxRatioAtMost(inputs, 0.25);
      MaxRatioAtMost(inputs, 0.5);
      MaxRatioAtMost(inputs, 0.75);
      MaxRatioAtMost(inputs, 1.0);
    }
  }

  // ---------------------------------------------------------------------
  // Score
  // ---------------------------------------------------------------------

  /** Up to a ratio of 1.0 the four bands form one line, so the score is continuous at 0.25, 0.5 and 0.75. */
  lemma {:induction false} ScoreUpToOne(m: real)
    requires m <= 1.0
    ensures RatioScore(m) == 100.0 - 100.0 * m
  {
  }

  /** Above a ratio of 1.0 the score restarts at 25 and falls by 25 per unit, never below 0. */
  lemma {:induction false} ScoreAboveOne(m: real)
    requires m > 1.0
    ensures RatioScore(m) == if m >= 2.0 then 0.0 else 25.0 - 25.0 * (m - 1.0)
    ensures 0.0 <= RatioScore(m) < 25.0
  {
  }

  /** For a non-negative ratio the score lies in [0, 100]. */
  lemma {:induction false} ScoreBounds(m: real)
    requires m >= 0.0
    ensures 0.0 <= RatioScore(m) <= 100.0
  {
  }

  /** A worse ratio never scores higher, within [.., 1.0] and within (1.0, ..]. */
  lemma {:induction false} ScoreMonotone(m1: real, m2: real)
    requires m1 <= m2
    requires m2 <= 1.0 || m1 > 1.0
    ensures RatioScore(m1) >= RatioScore(m2)
  {
  }

  /** The score is 0 at a ratio of exactly 1.0 but jumps back above 24 just beyond it. */
  lemma {:induction false} ScoreJumpAboveOne(m: real)
    requires 1.0 < m < 1.04
    ensures RatioScore(1.0) == 0.0
    ensures RatioScore(m) > 24.0
  {
  }

  /**
   * The score band matches the category: Excellent from 75, Good from 50,
   * Fair from 25, and Poor and Unacceptable below 25.
   */
  lemma {:induction false} ScoreMatchesCategory(m: real)
    ensures RatioCategory(m) == Excellent <==> RatioScore(m) >= 75.0
    ensures RatioCategory(m) == Good <==> 50.0 <= RatioScore(m) < 75.0
    ensures RatioCategory(m) == Fair <==> 25.0 <= RatioScore(m) < 50.0
    ensures RatioCategory(m) == Poor || RatioCategory(m) == Unacceptable <==> RatioScore(m) < 25.0
  {
    if m > 1.0 {
      ScoreAboveOne(m);
    } else {
      ScoreUpToOne(m);
    }
  }

  /** For non-negative readings both the raw and the reported score lie in [0, 100]. */
  lemma {:induction false} ReportedScoreBounds(inputs: seq<Reading>)
    requires NonNegative(inputs)
    ensures 0.0 <= CalculateQualityScore(inputs) <= 100.0
    ensures 0.0 <= Assess(inputs).score <= 100.0
    ensures -0.005 < Assess(inputs).score - CalculateQualityScore(inputs) <= 0.005
  {
    if inputs != [] {
      var w :| 0 <= w < |inputs| && MaxRatio(inputs) == Ratio(inputs[w]);
      RatioSign(inputs[w]);
      ScoreBounds(MaxRatio(inputs));
    }
  }

  /** The category of an assessment can be read off its raw score, as ScoreMatchesCategory describes. */
  lemma {:induction false} CategoryMatchesScore(inputs: seq<Reading>)
    ensures var c, s := DetermineQualityCategory(inputs), CalculateQualityScore(inputs);
      && (c == Excellent <==> s >= 75.0)
      && (c == Good <==> 50.0 <= s < 75.0)
      && (c == Fair <==> 25.0 <= s < 50.0)
      && (c == Poor || c == Unacceptable <==> s < 25.0)
  {
    if inputs != [] {
      ScoreMatchesCategory(MaxRatio(inputs));
    }
  }

  // ---------------------------------------------------------------------
  // Exceeding metals and compliance
  // ---------------------------------------------------------------------

  /**
   * The exceeding metals are exactly the readings with a ratio above 1.0:
   * each entry is some reading's entry with such a ratio, and each such
   * reading's entry is listed.
   */
  lemma {:induction false} ExceedingMetalsExact(inputs: seq<Reading>)
    ensures forall k :: 0 <= k < |GetExceedingMetals(inputs)| ==>
      GetExceedingMetals(inputs)[k].exceedanceRatio > 1.0 &&
      exists i :: 0 <= i < |inputs| && GetExceedingMetals(inputs)[k] == ExceedanceOf(inputs[i])
    ensures forall i :: 0 <= i < |inputs| && Ratio(inputs[i]) > 1.0 ==>
      ExceedanceOf(inputs[i]) in GetExceedingMetals(inputs)
  {
    var r, e := GetExceedingMetals(inputs), Exceedances(inputs);
    forall k | 0 <= k < |r|
      ensures r[k].exceedanceRatio > 1.0 && exists i :: 0 <= i < |inputs| && r[k] == ExceedanceOf(inputs[i])
    {
      assert multiset(r)[r[k]] > 0;
      assert r[k] in e;
      var i :| 0 <= i < |e| && e[i] == r[k];
    }
    forall i | 0 <= i < |inputs| && Ratio(inputs[i]) > 1.0
      ensures ExceedanceOf(inputs[i]) in r
    {
      assert e[i] == ExceedanceOf(inputs[i]);
      assert multiset(e)[e[i]] > 0;
    }
  }

  /**
   * The three views of "over the limit" agree: the category is Unacceptable
   * exactly when some metal is listed as exceeding, exactly when the sample
   * is not compliant.
   */
  lemma {:induction false} UnacceptableIffExceeding(inputs: seq<Reading>)
    ensures DetermineQualityCategory(inputs) == Unacceptable <==> GetExceedingMetals(inputs) != []
    ensures GetExceedingMetals(inputs) != [] <==> !CheckStandardsCompliance(inputs).overallCompliance
  {
    CategoryBands(inputs);
    ExceedingMetalsExact(inputs);
    forall i | 0 <= i < |inputs|
      ensures Ratio(inputs[i]) > 1.0 <==> ExceedsLimit(inputs[i])
    {
      RatioAboveOne(inputs[i]);
    }
    var r := GetExceedingMetals(inputs);
    if r != [] {
      assert r[0].exceedanceRatio > 1.0;
    }
  }

  // ---------------------------------------------------------------------
  // List lengths
  // ---------------------------------------------------------------------

  /** With every listed metal treatable, each adds a line; with none treatable, none does. */
  lemma {:induction false} TreatableCount(metals: seq<ExceedingMetal>)
    ensures (forall i :: 0 <= i < |metals| ==> HasSpecificTreatment(metals[i].element)) ==>
      CountTreatable(metals) == |metals|
    ensures (forall i :: 0 <= i < |metals| ==> !HasSpecificTreatment(metals[i].element)) ==>
      CountTreatable(metals) == 0
  {
    if metals != [] {
      TreatableCount(metals[..|metals| - 1]);
    }
  }

  /** 3 recommendations for Excellent and Good and 4 otherwise, plus one per exceeding metal. */
  lemma {:induction false} RecommendationLines(inputs: seq<Reading>)
    ensures var a := Assess(inputs);
      |a.recommendations| == (if a.category == Excellent || a.category == Good then 3 else 4) + |a.exceedingMetals|
  {
  }

  /** 1, 1, 3, 4 or 5 usage restrictions, by category. */
  lemma {:induction false} RestrictionLines(inputs: seq<Reading>)
    ensures var a := Assess(inputs);
      |a.usageRestrictions| == match a.category
        case Excellent => 1
        case Good => 1
        case Fair => 3
        case Poor => 4
        case Unacceptable => 5
  {
  }

  /** The number of treatment lines, given that only Unacceptable has exceeding metals. */
  lemma {:induction false} TreatmentCount(c: Category, metals: seq<ExceedingMetal>)
    requires c == Unacceptable <==> metals != []
    ensures |TreatmentOptions(c, metals)| == match c
      case Excellent => 1
      case Good => 1
      case Fair => 3
      case Poor => 4
      case Unacceptable => 4 + CountTreatable(metals)
  {
    if c != Unacceptable {
      assert metals == [];
    }
  }

  /** 1 treatment for Excellent and Good, 3 for Fair, 4 for Poor, and 4 plus one per treatable metal for Unacceptable. */
  lemma {:induction false} TreatmentLines(inputs: seq<Reading>)
    ensures var a := Assess(inputs);
      |a.treatmentOptions| == match a.category
        case Excellent => 1
        case Good => 1
        case Fair => 3
        case Poor => 4
        case Unacceptable => 4 + CountTreatable(a.exceedingMetals)
  {
    UnacceptableIffExceeding(inputs);
    TreatmentCount(DetermineQualityCategory(inputs), GetExceedingMetals(inputs));
  }

  /** After the category's lines, the recommendations name each exceeding metal and its ratio, in list order. */
  lemma {:induction false} RecommendationsFollowMetals(inputs: seq<Reading>)
    ensures var a := Assess(inputs);
      var base := |BaseRecommendations(a.category)|;
      forall k :: 0 <= k < |a.exceedingMetals| ==>
        a.recommendations[base + k] ==
          AboveSafeLimits(a.exceedingMetals[k].element, a.exceedingMetals[k].exceedanceRatio)
  {
  }

  // ---------------------------------------------------------------------
  // Examples
  // ---------------------------------------------------------------------

  /** No readings: Excellent, 100, compliant everywhere, nothing exceeding, and the short lists. */
  lemma {:induction false} NoReadings()
    ensures var a := Assess([]);
      && a.category == Excellent && a.score == 100.0
      && a.compliance == StandardsCompliance(true, true, true, true)
      && a.exceedingMetals == []
      && |a.recommendations| == 3 && a.usageRestrictions == [NoRestrictions]
      && a.treatmentOptions == [NoTreatment]
  {
    Round2Exact(100.0);
  }

  /** Copper at 0.1 mg/L is 5% of its 2.0 mg/L limit: Excellent with a score of 95. */
  lemma {:induction false} CopperAtFivePercent()
    ensures var a := Assess([Reading(Cu, 0.1, "mg/L")]);
      a.category == Excellent && a.score == 95.0 && a.compliance.overallCompliance && a.exceedingMetals == []
  {
    var x := Reading(Cu, 0.1, "mg/L");
    assert Ratio(x) == 0.05;
    assert MaxRatio([x]) == 0.05;
    Round2Exact(95.0);
    UnacceptableIffExceeding([x]);
  }

  /** The one lead reading at twice its limit is the one exceeding metal. */
  lemma {:induction false} LeadExceeds(x: Reading)
    requires x == Reading(Pb, 0.02, "mg/L")
    ensures GetExceedingMetals([x]) == [ExceedingMetal(Pb, 0.02, 0.01, 2.0)]
  {
    var m := ExceedingMetal(Pb, 0.02, 0.01, 2.0);
    assert Ratio(x) == 2.0;
    assert Exceedances([x]) == [m];
    assert [m][..0] == [];
    assert OverLimit([m]) == [m];
    assert SortByRatio([m]) == [m];
  }

  /** The lead reading's category, score and compliance flag. */
  lemma {:induction false} LeadVerdict(x: Reading)
    requires x == Reading(Pb, 0.02, "mg/L")
    ensures DetermineQualityCategory([x]) == Unacceptable
    ensures Round2(CalculateQualityScore([x])) == 0.0
    ensures !CheckStandardsCompliance([x]).overallCompliance
  {
    assert Ratio(x) == 2.0;
    assert MaxRatio([x]) == 2.0;
    Round2Exact(0.0);
    assert ExceedsLimit(x);
  }

  /** The four advanced treatments followed by the lead line. */
  lemma {:induction false} LeadTreatments(m: ExceedingMetal)
    requires m == ExceedingMetal(Pb, 0.02, 0.01, 2.0)
    ensures TreatmentOptions(Unacceptable, [m]) == [AdvancedTreatment, ReverseOsmosis, IonExchange, ChemicalPrecipitation, LeadSpecific]
  {
    assert [m][..0] == [];
    assert SpecificTreatments([m]) == [LeadSpecific];
  }

  /**
   * Lead at 0.02 mg/L is twice its 0.01 mg/L limit: Unacceptable with a
   * score of 0, not compliant, lead listed with ratio 2, and the lead line
   * after the four advanced treatments.
   */
  lemma {:induction false} LeadAtTwiceTheLimit()
    ensures var a := Assess([Reading(Pb, 0.02, "mg/L")]);
      && a.category == Unacceptable && a.score == 0.0 && !a.compliance.overallCompliance
      && a.exceedingMetals == [ExceedingMetal(Pb, 0.02, 0.01, 2.0)]
      && a.treatmentOptions == [AdvancedTreatment, ReverseOsmosis, IonExchange, ChemicalPrecipitation, LeadSpecific]
  {
    var x := Reading(Pb, 0.02, "mg/L");
    LeadVerdict(x);
    LeadExceeds(x);
    LeadTreatments(ExceedingMetal(Pb, 0.02, 0.01, 2.0));
  }
}
