/**
 * The water-quality categoriser: from the same readings as the HMPI engine
 * it takes the worst concentration-to-limit ratio and derives a five-level
 * category and a 0-100 score from it, three compliance flags, the list of
 * metals over their limit (worst first), and category-keyed
 * recommendations, usage restrictions and treatment options.
 */
module Quality {
  import opened Metals

  datatype Category = Excellent | Good | Fair | Poor | Unacceptable

  /** Position of a category from best (0) to worst (4). */
  function CategoryRank(c: Category): nat
  {
    match c
    case Excellent => 0
    case Good => 1
    case Fair => 2
    case Poor => 3
    case Unacceptable => 4
  }

  /** Upper ratio bounds of the first four categories (QUALITY_THRESHOLDS); above the last, Unacceptable. */
  const ExcellentThreshold: real := 0.25
  const GoodThreshold: real := 0.5
  const FairThreshold: real := 0.75
  const PoorThreshold: real := 1.0

  /** The micrograms-per-litre unit as this module spells it: the Greek letter mu followed by "g/L". */
  const MicrogramsPerLitre: string := "\U{3BC}g/L"

  /** This module's unit switch: only its own spelling of micrograms per litre and "ppb" are scaled. */
  function ConvertToMgL(concentration: real, unit: string): (mgL: real)
    ensures mgL == concentration || mgL * 1000.0 == concentration
  {
    if unit == "mg/L" then concentration
    else if unit == MicrogramsPerLitre then concentration / 1000.0
    else if unit == "ppm" then concentration
    else if unit == "ppb" then concentration / 1000.0
    else concentration
  }

  // ---------------------------------------------------------------------
  // Ratios
  // ---------------------------------------------------------------------

  /** A concentration as a fraction of a positive limit. */
  function Proportion(concentration: real, limit: real): (r: real)
    requires limit > 0.0
    ensures r * limit == concentration
    ensures r > 1.0 <==> concentration > limit
    ensures concentration >= 0.0 ==> r >= 0.0
  {
    concentration / limit
  }

  /** A reading's mg/L concentration as a fraction of its element's limit. */
  function Ratio(x: Reading): real
  {
    Proportion(ConvertToMgL(x.concentration, x.unit), StandardLimit(x.element))
  }

  /** The worst ratio of a non-empty list, as `Math.max` over the mapped ratios. */
  function MaxRatio(inputs: seq<Reading>): (m: real)
    requires inputs != []
    ensures forall i :: 0 <= i < |inputs| ==> Ratio(inputs[i]) <= m
    ensures exists i :: 0 <= i < |inputs| && m == Ratio(inputs[i])
  {
    if |inputs| == 1 then Ratio(inputs[0])
    else
      var m := MaxRatio(inputs[..|inputs| - 1]);
      var last := Ratio(inputs[|inputs| - 1]);
      if m >= last then m else last
  }

  // ---------------------------------------------------------------------
  // Score and category
  // ---------------------------------------------------------------------

  /** The score of a worst ratio: linear bands up to 1.0, then a separate capped line. */
  function RatioScore(m: real): real
  {
    if m <= ExcellentThreshold then 100.0 - m * 100.0
    else if m <= GoodThreshold then 75.0 - (m - 0.25) * 100.0
    else if m <= FairThreshold then 50.0 - (m - 0.5) * 100.0
    else if m <= PoorThreshold then 25.0 - (m - 0.75) * 100.0
    else
      var s := 25.0 - (m - 1.0) * 25.0;
      if s >= 0.0 then s else 0.0
  }

  /** calculateQualityScore: 100 for no readings, else the score of the worst ratio. */
  function CalculateQualityScore(inputs: seq<Reading>): real
  {
    if inputs == [] then 100.0 else RatioScore(MaxRatio(inputs))
  }

  function RatioCategory(m: real): Category
  {
    if m <= ExcellentThreshold then Excellent
    else if m <= GoodThreshold then Good
    else if m <= FairThreshold then Fair
    else if m <= PoorThreshold then Poor
    else Unacceptable
  }

  /** determineQualityCategory: Excellent for no readings, else the category of the worst ratio. */
  function DetermineQualityCategory(inputs: seq<Reading>): Category
  {
    if inputs == [] then Excellent else RatioCategory(MaxRatio(inputs))
  }

  // ---------------------------------------------------------------------
  // Compliance
  // ---------------------------------------------------------------------

  datatype StandardsCompliance = StandardsCompliance(who: bool, epa: bool, national: bool, overallCompliance: bool)

  /** A reading whose mg/L concentration is strictly above its element's limit. */
  predicate ExceedsLimit(x: Reading)
  {
    ConvertToMgL(x.concentration, x.unit) > StandardLimit(x.element)
  }

  /** `inputs.some(...)`, scanned left to right. */
  function AnyExceeds(inputs: seq<Reading>): (b: bool)
    ensures b <==> exists i :: 0 <= i < |inputs| && ExceedsLimit(inputs[i])
  {
    if inputs == [] then false
    else AnyExceeds(inputs[..|inputs| - 1]) || ExceedsLimit(inputs[|inputs| - 1])
  }

  /** checkStandardsCompliance: the three frameworks share one limit table, so their flags agree. */
  function CheckStandardsCompliance(inputs: seq<Reading>): (c: StandardsCompliance)
    ensures c.who == c.epa == c.national == c.overallCompliance
    ensures c.overallCompliance <==> forall i :: 0 <= i < |inputs| ==> !ExceedsLimit(inputs[i])
  {
    var exceedingWho := AnyExceeds(inputs);
    var exceedingEpa := exceedingWho;
    var exceedingNational := exceedingWho;
    StandardsCompliance(!exceedingWho, !exceedingEpa, !exceedingNational,
      !exceedingWho && !exceedingEpa && !exceedingNational)
  }

  // ---------------------------------------------------------------------
  // Exceeding metals
  // ---------------------------------------------------------------------

  datatype ExceedingMetal = ExceedingMetal(element: Element, concentration: real, limit: real, exceedanceRatio: real)

  /** The entry built for one reading, before the filter. */
  function ExceedanceOf(x: Reading): (m: ExceedingMetal)
    ensures m.element == x.element && m.exceedanceRatio == Ratio(x)
    ensures m.concentration == ConvertToMgL(x.concentration, x.unit) && m.limit == StandardLimit(x.element)
  {
    var concentrationMgL := ConvertToMgL(x.concentration, x.unit);
    var limit := StandardLimit(x.element);
    ExceedingMetal(x.element, concentrationMgL, limit, Proportion(concentrationMgL, limit))
  }

  function Exceedances(inputs: seq<Reading>): seq<ExceedingMetal>
  {
    seq(|inputs|, i requires 0 <= i < |inputs| => ExceedanceOf(inputs[i]))
  }

  /** Keeps the entries whose ratio is above 1.0, each as often as it occurs. */
  function OverLimit(s: seq<ExceedingMetal>): (r: seq<ExceedingMetal>)
    ensures forall m :: multiset(r)[m] == if m.exceedanceRatio > 1.0 then multiset(s)[m] else 0
  {
    if s == [] then []
    else
      var n := |s| - 1;
      assert s == s[..n] + [s[n]];
      OverLimit(s[..n]) + (if s[n].exceedanceRatio > 1.0 then [s[n]] else [])
  }

  /** Worst ratio first. */
  predicate SortedByRatio(s: seq<ExceedingMetal>)
  {
    forall i, j :: 0 <= i < j < |s| ==> s[i].exceedanceRatio >= s[j].exceedanceRatio
  }

  /** Places x after every entry whose ratio is at least x's, so equal ratios keep their order. */
  function InsertByRatio(s: seq<ExceedingMetal>, x: ExceedingMetal): (r: seq<ExceedingMetal>)
    ensures multiset(r) == multiset(s) + multiset{x}
  {
    if s == [] || s[|s| - 1].exceedanceRatio >= x.exceedanceRatio then s + [x]
    else
      var n := |s| - 1;
      assert s == s[..n] + [s[n]];
      InsertByRatio(s[..n], x) + [s[n]]
  }

  /** Every entry's ratio is at least b. */
  predicate AllAtLeast(s: seq<ExceedingMetal>, b: real)
  {
    forall i :: 0 <= i < |s| ==> s[i].exceedanceRatio >= b
  }

  lemma {:induction false} InsertKeepsBound(s: seq<ExceedingMetal>, x: ExceedingMetal, b: real)
    requires AllAtLeast(s, b) && x.exceedanceRatio >= b
    ensures AllAtLeast(InsertByRatio(s, x), b)
  {
    if s != [] && s[|s| - 1].exceedanceRatio < x.exceedanceRatio {
      var n := |s| - 1;
      InsertKeepsBound(s[..n], x, b);
    }
  }

  /** Inserting into a worst-first list keeps it worst-first. */
  lemma {:induction false} InsertKeepsSorted(s: seq<ExceedingMetal>, x: ExceedingMetal)
    requires SortedByRatio(s)
    ensures SortedByRatio(InsertByRatio(s, x))
  {
    if s != [] && s[|s| - 1].exceedanceRatio < x.exceedanceRatio {
      var n := |s| - 1;
      var last := s[n];
      var front := InsertByRatio(s[..n], x);
      InsertKeepsSorted(s[..n], x);
      InsertKeepsBound(s[..n], x, last.exceedanceRatio);
      assert InsertByRatio(s, x) == front + [last];
    }
  }

  /** The stable sort of `.sort((a, b) => b.exceedanceRatio - a.exceedanceRatio)`. */
  function SortByRatio(s: seq<ExceedingMetal>): (r: seq<ExceedingMetal>)
    ensures multiset(r) == multiset(s)
    ensures SortedByRatio(r)
  {
    if s == [] then []
    else
      var n := |s| - 1;
      assert s == s[..n] + [s[n]];
      var front := SortByRatio(s[..n]);
      InsertKeepsSorted(front, s[n]);
      InsertByRatio(front, s[n])
  }

  /**
   * getExceedingMetals: exactly the readings whose ratio is above 1.0, each
   * with its mg/L concentration and table limit, worst ratio first.
   */
  function GetExceedingMetals(inputs: seq<Reading>): (r: seq<ExceedingMetal>)
    ensures SortedByRatio(r)
    ensures forall m :: multiset(r)[m] == if m.exceedanceRatio > 1.0 then multiset(Exceedances(inputs))[m] else 0
  {
    SortByRatio(OverLimit(Exceedances(inputs)))
  }

  // ---------------------------------------------------------------------
  // Recommendations, restrictions and treatments
  // ---------------------------------------------------------------------

  /** The fixed recommendation lines; their text is given by AdviceText. */
  datatype AdviceLine =
    | ExcellentQuality | ContinueRegularMonitoring | ReferenceSite
    | GoodQuality | MaintainMonitoring | MonitorTrends
    | AcceptableQuality | IncreaseMonitoring | PreventiveMeasures | InvestigateSources
    | PoorQuality | ImplementTreatment | SourceInvestigation | AlternativeSources
    | Unsafe | CeaseUsage | EmergencyTreatment | Remediation

  function AdviceText(a: AdviceLine): string
  {
    match a
    case ExcellentQuality => "Water quality is excellent and safe for all uses."
    case ContinueRegularMonitoring => "Continue regular monitoring to maintain high standards."
    case ReferenceSite => "Consider this site as a reference for best practices."
    case GoodQuality => "Water quality is good and suitable for most uses."
    case MaintainMonitoring => "Maintain current monitoring frequency."
    case MonitorTrends => "Monitor trends to prevent quality degradation."
    case AcceptableQuality => "Water quality is acceptable but requires attention."
    case IncreaseMonitoring => "Increase monitoring frequency to track changes."
    case PreventiveMeasures => "Consider preventive measures to improve quality."
    case InvestigateSources => "Investigate potential contamination sources."
    case PoorQuality => "Water quality is poor and requires immediate action."
    case ImplementTreatment => "Implement treatment measures before use."
    case SourceInvestigation => "Conduct comprehensive source investigation."
    case AlternativeSources => "Consider alternative water sources if available."
    case Unsafe => "CRITICAL: Water is unsafe and must not be used."
    case CeaseUsage => "Immediate cessation of water usage required."
    case EmergencyTreatment => "Emergency treatment or alternative sources needed."
    case Remediation => "Comprehensive environmental remediation required."
  }

  /** A recommendation: a fixed line, or the per-metal line naming the element and its ratio. */
  datatype Recommendation = Advice(line: AdviceLine) | AboveSafeLimits(element: Element, ratio: real)

  function BaseRecommendations(c: Category): (r: seq<Recommendation>)
    ensures |r| == if c == Excellent || c == Good then 3 else 4
    ensures forall i :: 0 <= i < |r| ==> r[i].Advice?
  {
    match c
    case Excellent => [Advice(ExcellentQuality), Advice(ContinueRegularMonitoring), Advice(ReferenceSite)]
    case Good => [Advice(GoodQuality), Advice(MaintainMonitoring), Advice(MonitorTrends)]
    case Fair => [
      Advice(AcceptableQuality), Advice(IncreaseMonitoring),
      Advice(PreventiveMeasures), Advice(InvestigateSources)]
    case Poor => [
      Advice(PoorQuality), Advice(ImplementTreatment),
      Advice(SourceInvestigation), Advice(AlternativeSources)]
    case Unacceptable => [
      Advice(Unsafe), Advice(CeaseUsage),
      Advice(EmergencyTreatment), Advice(Remediation)]
  }

  /** One line per exceeding metal, in list order. */
  function MetalRecommendations(metals: seq<ExceedingMetal>): (r: seq<Recommendation>)
    ensures |r| == |metals|
    ensures forall i :: 0 <= i < |metals| ==>
      r[i] == AboveSafeLimits(metals[i].element, metals[i].exceedanceRatio)
  {
    if metals == [] then []
    else
      var m := metals[|metals| - 1];
      MetalRecommendations(metals[..|metals| - 1]) + [AboveSafeLimits(m.element, m.exceedanceRatio)]
  }

  /** generateRecommendations: pushes the category's lines, then one line per exceeding metal. */
  method GenerateRecommendations(category: Category, exceedingMetals: seq<ExceedingMetal>)
    returns (recommendations: seq<Recommendation>)
    ensures recommendations == BaseRecommendations(category) + MetalRecommendations(exceedingMetals)
  {
    recommendations := BaseRecommendations(category);
    for i := 0 to |exceedingMetals|
      invariant recommendations == BaseRecommendations(category) + MetalRecommendations(exceedingMetals[..i])
    {
      var metal := exceedingMetals[i];
      recommendations := recommendations + [AboveSafeLimits(metal.element, metal.exceedanceRatio)];
      assert exceedingMetals[..i + 1][..i] == exceedingMetals[..i];
    }
    assert exceedingMetals[..|exceedingMetals|] == exceedingMetals;
  }

  /** The usage-restriction lines; their text is given by RestrictionText. */
  datatype Restriction =
    | NoRestrictions
    | DrinkingWithBasicTreatment | IrrigationAndIndustrySafe | MonitorSensitiveUse
    | NotForDrinking | LimitedIrrigation | IndustrialWithPrecautions | AvoidFoodContact
    | DrinkingProhibited | FoodPreparationProhibited | CropIrrigationProhibited
    | StrictIndustrialUse | AvoidHumanContact

  function RestrictionText(r: Restriction): string
  {
    match r
    case NoRestrictions => "No restrictions - suitable for all uses including drinking water."
    case DrinkingWithBasicTreatment => "Suitable for drinking with basic treatment (boiling, filtration)."
    case IrrigationAndIndustrySafe => "Safe for irrigation and industrial uses."
    case MonitorSensitiveUse => "Monitor regularly if used for sensitive applications."
    case NotForDrinking => "NOT suitable for drinking without advanced treatment."
    case LimitedIrrigation => "Limited use for irrigation (monitor soil accumulation)."
    case IndustrialWithPrecautions => "Industrial use only with appropriate precautions."
    case AvoidFoodContact => "Avoid contact with food preparation."
    case DrinkingProhibited => "PROHIBITED for drinking water use."
    case FoodPreparationProhibited => "PROHIBITED for food preparation or cooking."
    case CropIrrigationProhibited => "PROHIBITED for irrigation of food crops."
    case StrictIndustrialUse => "Limited industrial use only with strict safety measures."
    case AvoidHumanContact => "Avoid all human contact where possible."
  }

  /** generateUsageRestrictions: a fixed list per category, longer the worse the category. */
  function GenerateUsageRestrictions(c: Category): (r: seq<Restriction>)
    ensures |r| == match c
      case Excellent => 1
      case Good => 1
      case Fair => 3
      case Poor => 4
      case Unacceptable => 5
  {
    match c
    case Excellent => [NoRestrictions]
    case Good => [NoRestrictions]
    case Fair => [DrinkingWithBasicTreatment, IrrigationAndIndustrySafe, MonitorSensitiveUse]
    case Poor => [NotForDrinking, LimitedIrrigation, IndustrialWithPrecautions, AvoidFoodContact]
    case Unacceptable => [
      DrinkingProhibited, FoodPreparationProhibited, CropIrrigationProhibited,
      StrictIndustrialUse, AvoidHumanContact]
  }

  /** The treatment lines; their text is given by TreatmentText. */
  datatype Treatment =
    | NoTreatment
    | BasicFiltration | ActivatedCarbon | MonitorDuringTreatment
    | AdvancedTreatment | ReverseOsmosis | IonExchange | ChemicalPrecipitation
    | LeadSpecific | ArsenicSpecific | MercurySpecific | CadmiumSpecific | ChromiumSpecific

  function TreatmentText(t: Treatment): string
  {
    match t
    case NoTreatment => "No treatment required - water meets quality standards."
    case BasicFiltration => "Basic filtration and disinfection recommended."
    case ActivatedCarbon => "Activated carbon filtration for organic contaminants."
    case MonitorDuringTreatment => "Regular monitoring during treatment."
    case AdvancedTreatment => "Advanced treatment required before any use."
    case ReverseOsmosis => "Reverse osmosis for comprehensive contaminant removal."
    case IonExchange => "Ion exchange for specific metal removal."
    case ChemicalPrecipitation => "Chemical precipitation and coagulation."
    case LeadSpecific => "Lead-specific: Corrosion control, phosphate treatment, pipe replacement."
    case ArsenicSpecific => "Arsenic-specific: Oxidation followed by coagulation/filtration."
    case MercurySpecific => "Mercury-specific: Activated carbon adsorption, ion exchange."
    case CadmiumSpecific => "Cadmium-specific: Ion exchange, reverse osmosis, lime softening."
    case ChromiumSpecific => "Chromium-specific: Reduction followed by precipitation."
  }

  /** The elements with a treatment line of their own. */
  predicate HasSpecificTreatment(e: Element)
  {
    e == Pb || e == As || e == Hg || e == Cd || e == Cr
  }

  /** The line an exceeding metal adds: one for Pb, As, Hg, Cd and Cr, none for Cu, Zn and Ni. */
  function SpecificTreatment(e: Element): (r: seq<Treatment>)
    ensures |r| == if HasSpecificTreatment(e) then 1 else 0
  {
    match e
    case Pb => [LeadSpecific]
    case As => [ArsenicSpecific]
    case Hg => [MercurySpecific]
    case Cd => [CadmiumSpecific]
    case Cr => [ChromiumSpecific]
    case _ => []
  }

  /** How many of the metals have a treatment line of their own. */
  function CountTreatable(metals: seq<ExceedingMetal>): nat
  {
    if metals == [] then 0
    else CountTreatable(metals[..|metals| - 1]) + (if HasSpecificTreatment(metals[|metals| - 1].element) then 1 else 0)
  }

  function SpecificTreatments(metals: seq<ExceedingMetal>): (r: seq<Treatment>)
    ensures |r| == CountTreatable(metals) <= |metals|
  {
    if metals == [] then []
    else SpecificTreatments(metals[..|metals| - 1]) + SpecificTreatment(metals[|metals| - 1].element)
  }

  /** The category's own treatment lines; Excellent and Good stop after the first. */
  function BaseTreatments(c: Category): (r: seq<Treatment>)
    ensures |r| == match c
      case Excellent => 1
      case Good => 1
      case Fair => 3
      case Poor => 4
      case Unacceptable => 4
  {
    match c
    case Excellent => [NoTreatment]
    case Good => [NoTreatment]
    case Fair => [BasicFiltration, ActivatedCarbon, MonitorDuringTreatment]
    case Poor => [AdvancedTreatment, ReverseOsmosis, IonExchange, ChemicalPrecipitation]
    case Unacceptable => [AdvancedTreatment, ReverseOsmosis, IonExchange, ChemicalPrecipitation]
  }

  /** What generateTreatmentOptions returns: metals are ignored for Excellent and Good. */
  function TreatmentOptions(c: Category, metals: seq<ExceedingMetal>): seq<Treatment>
  {
    if c == Excellent || c == Good then BaseTreatments(c)
    else BaseTreatments(c) + SpecificTreatments(metals)
  }

  /** generateTreatmentOptions: returns early for Excellent and Good, otherwise pushes per metal. */
  method GenerateTreatmentOptions(category: Category, exceedingMetals: seq<ExceedingMetal>)
    returns (treatments: seq<Treatment>)
    ensures treatments == TreatmentOptions(category, exceedingMetals)
  {
    treatments := [];
    if category == Excellent || category == Good {
      treatments := treatments + [NoTreatment];
      return;
    }
    if category == Fair {
      treatments := treatments + [BasicFiltration, ActivatedCarbon, MonitorDuringTreatment];
    }
    if category == Poor || category == Unacceptable {
      treatments := treatments + [AdvancedTreatment, ReverseOsmosis, IonExchange, ChemicalPrecipitation];
    }
    for i := 0 to |exceedingMetals|
      invariant treatments == BaseTreatments(category) + SpecificTreatments(exceedingMetals[..i])
    {
      var metal := exceedingMetals[i];
      assert exceedingMetals[..i + 1][..i] == exceedingMetals[..i];
      treatments := treatments + SpecificTreatment(metal.element);
    }
    assert exceedingMetals[..|exceedingMetals|] == exceedingMetals;
  }

  // ---------------------------------------------------------------------
  // The assessment
  // ---------------------------------------------------------------------

  datatype QualityAssessment = QualityAssessment(
    category: Category,
    score: real,
    compliance: StandardsCompliance,
    exceedingMetals: seq<ExceedingMetal>,
    recommendations: seq<Recommendation>,
    usageRestrictions: seq<Restriction>,
    treatmentOptions: seq<Treatment>)

  /** What assessWaterQuality returns; the score is reported rounded to hundredths. */
  function Assess(inputs: seq<Reading>): QualityAssessment
  {
    var category := DetermineQualityCategory(inputs);
    var exceedingMetals := GetExceedingMetals(inputs);
    QualityAssessment(
      category,
      Round2(CalculateQualityScore(inputs)),
      CheckStandardsCompliance(inputs),
      exceedingMetals,
      BaseRecommendations(category) + MetalRecommendations(exceedingMetals),
      GenerateUsageRestrictions(category),
      TreatmentOptions(category, exceedingMetals))
  }

  /** assessWaterQuality: assembles the assessment from its parts; it never fails. */
  method AssessWaterQuality(inputs: seq<Reading>) returns (a: QualityAssessment)
    ensures a == Assess(inputs)
  {
    var category := DetermineQualityCategory(inputs);
    var score := CalculateQualityScore(inputs);
    var compliance := CheckStandardsCompliance(inputs);
    var exceedingMetals := GetExceedingMetals(inputs);
    var recommendations := GenerateRecommendations(category, exceedingMetals);
    var treatmentOptions := GenerateTreatmentOptions(category, exceedingMetals);
    a := QualityAssessment(category, Round2(score), compliance, exceedingMetals,
      recommendations, GenerateUsageRestrictions(category), treatmentOptions);
  }

  datatype SampleAssessment = SampleAssessment(id: string, assessment: QualityAssessment)

  /** batchAssessWaterQuality: one assessment per sample, in order, with the sample's id. */
  method BatchAssessWaterQuality(samples: seq<Sample>) returns (r: seq<SampleAssessment>)
    ensures |r| == |samples|
    ensures forall i :: 0 <= i < |samples| ==>
      r[i].id == samples[i].id && r[i].assessment == Assess(samples[i].metals)
  {
    r := [];
    for i := 0 to |samples|
      invariant |r| == i
      invariant forall j :: 0 <= j < i ==> r[j].id == samples[j].id && r[j].assessment == Assess(samples[j].metals)
    {
      var assessment := AssessWaterQuality(samples[i].metals);
      r := r + [SampleAssessment(samples[i].id, assessment)];
    }
  }
}
