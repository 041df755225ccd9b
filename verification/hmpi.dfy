/**
 * The Heavy Metal Pollution Index engine (lib/hmpi-calculations.ts).
 *
 * Each reading is converted to mg/L and turned into a sub-index, its
 * concentration as a percentage of the element's standard limit.  The index
 * is the toxicity-weighted mean of the sub-indices; every reading also gets
 * its share of the weighted total, the sub-indices are sorted worst-first in
 * place, and a risk level and a list of recommendations complete the result.
 */
module Hmpi {
  import opened Metals

  // ---------------------------------------------------------------------
  // Tables and unit conversion
  // ---------------------------------------------------------------------

  /** The toxicity weight of each element (the METAL_WEIGHTS table). */
  function MetalWeight(e: Element): (w: real)
    ensures 0.05 <= w <= 0.25
  {
    match e
    case Pb => 0.25
    case Cd => 0.25
    case Cr => 0.15
    case As => 0.2
    case Hg => 0.25
    case Cu => 0.05
    case Zn => 0.05
    case Ni => 0.1
  }

  /** The weight used when the table yields nothing usable. */
  const DefaultWeight: real := 0.1

  /**
   * `METAL_WEIGHTS[e] || 0.1`: JavaScript's `||` replaces a weight of 0 by
   * the default.  Every table weight is positive, so the fallback never fires.
   */
  function WeightOf(e: Element): (w: real)
    ensures w == MetalWeight(e)
    ensures w > 0.0
  {
    var w := MetalWeight(e);
    if w == 0.0 then DefaultWeight else w
  }

  /**
   * The micrograms-per-litre unit string this engine recognises: the UTF-8
   * bytes of "μg/L" read as Latin-1, that is 'Î' (U+00CE) and '¼' (U+00BC).
   * A correctly encoded "μg/L" does not match it.
   */
  const MicrogramsPerLitre: string := "\U{CE}\U{BC}g/L"

  /** Converts a concentration to mg/L; any unit string not listed is taken as mg/L already. */
  function ConvertToMgL(concentration: real, unit: string): (mgL: real)
    ensures mgL == concentration || mgL * 1000.0 == concentration
  {
    if unit == "mg/L" then concentration
    else if unit == MicrogramsPerLitre then concentration / 1000.0
    else if unit == "ppm" then concentration
    else if unit == "ppb" then concentration / 1000.0
    else concentration
  }

  /** A concentration as a percentage of the element's standard limit. */
  function SubIndex(concentrationMgL: real, standardLimit: real): (s: real)
    requires standardLimit > 0.0
    ensures s > 100.0 <==> concentrationMgL > standardLimit
    ensures s > 200.0 <==> concentrationMgL > 2.0 * standardLimit
    ensures s * standardLimit == concentrationMgL * 100.0
  {
    var s := (concentrationMgL / standardLimit) * 100.0;
    assert s * standardLimit == concentrationMgL * 100.0;
    assert s > 200.0 ==> concentrationMgL * 100.0 > 200.0 * standardLimit;
    assert concentrationMgL > 2.0 * standardLimit ==> s * standardLimit > 200.0 * standardLimit;
    s
  }

  // ---------------------------------------------------------------------
  // Risk level
  // ---------------------------------------------------------------------

  datatype RiskLevel = Low | Moderate | High | VeryHigh

  /** Position of a risk level on the scale, Low being 0. */
  function RiskRank(r: RiskLevel): nat
  {
    match r
    case Low => 0
    case Moderate => 1
    case High => 2
    case VeryHigh => 3
  }

  function DetermineRiskLevel(hmpi: real): RiskLevel
  {
    if hmpi <= 100.0 then Low
    else if hmpi <= 200.0 then Moderate
    else if hmpi <= 300.0 then High
    else VeryHigh
  }

  // ---------------------------------------------------------------------
  // Result types
  // ---------------------------------------------------------------------

  /**
   * A contribution percentage.  It is `term / total * 100`; when the weighted
   * total is 0, JavaScript yields NaN for a zero term and an infinity carrying
   * the term's sign otherwise.
   */
  datatype Share = Percent(p: real) | NotANumber | Infinity(positive: bool)

  datatype SubIndexRecord = SubIndexRecord(
    element: Element,
    concentration: real,   // in mg/L
    standardLimit: real,
    subIndex: real,
    contributionPercent: Share)

  /** The fixed lines of the risk-keyed base lists; `AdviceText` gives their wording. */
  datatype AdviceLine =
    | WithinLimits | ContinueMonitoring
    | IncreaseMonitoring | BasicTreatment | InvestigateSources
    | ImmediateAction | RestrictUsage | SourceInvestigation | AdvancedTreatment
    | Unsafe | CeaseUsage | EmergencyTreatment | EnvironmentalAssessment

  function AdviceText(a: AdviceLine): string
  {
    match a
    case WithinLimits => "Water quality is within acceptable limits for heavy metals."
    case ContinueMonitoring => "Continue regular monitoring to maintain safety standards."
    case IncreaseMonitoring => "Increased monitoring frequency is recommended."
    case BasicTreatment => "Consider implementing basic treatment measures."
    case InvestigateSources => "Investigate potential contamination sources."
    case ImmediateAction => "Immediate action required - water treatment necessary."
    case RestrictUsage => "Restrict water usage until treatment is implemented."
    case SourceInvestigation => "Conduct comprehensive source investigation."
    case AdvancedTreatment => "Implement advanced treatment technologies."
    case Unsafe => "CRITICAL: Water is unsafe for consumption."
    case CeaseUsage => "Immediate cessation of water usage required."
    case EmergencyTreatment => "Emergency treatment measures must be implemented."
    case EnvironmentalAssessment => "Comprehensive environmental assessment needed."
  }

  /** A recommendation line; `Render` gives its text. */
  datatype Recommendation =
    | Advice(line: AdviceLine)
    | CriticallyHigh(element: Element)
    | ExceedsSafeLimits(element: Element)

  function Render(r: Recommendation): string
  {
    match r
    case Advice(line) => AdviceText(line)
    case CriticallyHigh(e) =>
      ElementName(e) + " levels are critically high - specific treatment for "
      + ElementName(e) + " removal required."
    case ExceedsSafeLimits(e) =>
      ElementName(e) + " exceeds safe limits - monitoring and treatment recommended."
  }

  datatype HmpiResult = HmpiResult(
    overallHmpi: real,
    riskLevel: RiskLevel,
    subIndices: seq<SubIndexRecord>,
    recommendations: seq<Recommendation>)

  /** A value, or the message of the error the source throws. */
  datatype Outcome<T> = Success(value: T) | Failure(error: string)

  const NoDataError: string := "No heavy metal data provided"

  datatype SampleResult = SampleResult(id: string, result: HmpiResult)

  // ---------------------------------------------------------------------
  // Sub-index records and the weighted sums
  // ---------------------------------------------------------------------

  /** The record built for one reading, before its contribution is known. */
  function RecordOf(x: Reading): SubIndexRecord
  {
    var mgL := ConvertToMgL(x.concentration, x.unit);
    var limit := StandardLimit(x.element);
    SubIndexRecord(x.element, mgL, limit, SubIndex(mgL, limit), Percent(0.0))
  }

  function SubIndexRecords(inputs: seq<Reading>): (s: seq<SubIndexRecord>)
  {
    seq(|inputs|, i requires 0 <= i < |inputs| => RecordOf(inputs[i]))
  }

  /** One record's term of the weighted numerator. */
  function WeightedTerm(r: SubIndexRecord): real
  {
    r.subIndex * WeightOf(r.element)
  }

  /** The weighted numerator, summed left to right like the `reduce` it models. */
  function WeightedIndexSum(s: seq<SubIndexRecord>): real
  {
    if s == [] then 0.0 else WeightedIndexSum(s[..|s| - 1]) + WeightedTerm(s[|s| - 1])
  }

  /** The sum of the weights; positive for any non-empty list. */
  function WeightSum(s: seq<SubIndexRecord>): (w: real)
    ensures s != [] ==> w > 0.0
    ensures w >= 0.0
  {
    if s == [] then 0.0 else WeightSum(s[..|s| - 1]) + WeightOf(s[|s| - 1].element)
  }

  /** The unrounded index of a non-empty list of readings. */
  function HmpiValue(inputs: seq<Reading>): real
    requires inputs != []
  {
    var s := SubIndexRecords(inputs);
    WeightedIndexSum(s) / WeightSum(s)
  }

  /** The contribution percentage of a record, given the weighted total. */
  function ShareOf(r: SubIndexRecord, total: real): Share
  {
    var term := WeightedTerm(r);
    if total != 0.0 then Percent(term / total * 100.0)
    else if term == 0.0 then NotANumber
    else Infinity(term > 0.0)
  }

  function Contribute(r: SubIndexRecord, total: real): SubIndexRecord
  {
    r.(contributionPercent := ShareOf(r, total))
  }

  /** Every record with its contribution filled in; nothing else changes. */
  function WithContributions(s: seq<SubIndexRecord>, total: real): (r: seq<SubIndexRecord>)
    ensures |r| == |s|
    ensures forall i :: 0 <= i < |s| ==> r[i] == Contribute(s[i], total)
  {
    if s == [] then [] else WithContributions(s[..|s| - 1], total) + [Contribute(s[|s| - 1], total)]
  }

  /** Sum of the finite contribution percentages. */
  function ContributionTotal(s: seq<SubIndexRecord>): real
  {
    if s == [] then 0.0
    else
      var c := s[|s| - 1].contributionPercent;
      ContributionTotal(s[..|s| - 1]) + (if c.Percent? then c.p else 0.0)
  }

  /** Worst sub-index first. */
  predicate SortedBySubIndex(s: seq<SubIndexRecord>)
  {
    forall i, j :: 0 <= i < j < |s| ==> s[i].subIndex >= s[j].subIndex
  }

  // ---------------------------------------------------------------------
  // Recommendations
  // ---------------------------------------------------------------------

  /** The risk-keyed lines that open the list. */
  function BaseRecommendations(risk: RiskLevel): (r: seq<Recommendation>)
    ensures |r| == if risk == Low then 2 else if risk == Moderate then 3 else 4
    ensures forall i :: 0 <= i < |r| ==> r[i].Advice?
  {
    match risk
    case Low => [Advice(WithinLimits), Advice(ContinueMonitoring)]
    case Moderate => [Advice(IncreaseMonitoring), Advice(BasicTreatment), Advice(InvestigateSources)]
    case High => [
      Advice(ImmediateAction), Advice(RestrictUsage),
      Advice(SourceInvestigation), Advice(AdvancedTreatment)]
    case VeryHigh => [
      Advice(Unsafe), Advice(CeaseUsage),
      Advice(EmergencyTreatment), Advice(EnvironmentalAssessment)]
  }

  /** The line one sub-index adds: none up to 100, a stronger one above 200. */
  function MetalRecommendation(r: SubIndexRecord): seq<Recommendation>
  {
    if r.subIndex > 200.0 then [CriticallyHigh(r.element)]
    else if r.subIndex > 100.0 then [ExceedsSafeLimits(r.element)]
    else []
  }

  function MetalRecommendations(s: seq<SubIndexRecord>): seq<Recommendation>
  {
    if s == [] then [] else MetalRecommendations(s[..|s| - 1]) + MetalRecommendation(s[|s| - 1])
  }

  /** How many records have a sub-index above 100. */
  function CountAboveLimit(s: seq<SubIndexRecord>): nat
  {
    if s == [] then 0
    else CountAboveLimit(s[..|s| - 1]) + (if s[|s| - 1].subIndex > 100.0 then 1 else 0)
  }

  /** Builds the recommendation list: the base lines, then one line per sub-index above 100. */
  method GenerateRecommendations(risk: RiskLevel, subIndices: seq<SubIndexRecord>)
    returns (recs: seq<Recommendation>)
    ensures recs == BaseRecommendations(risk) + MetalRecommendations(subIndices)
  {
    recs := BaseRecommendations(risk);
    for i := 0 to |subIndices|
      invariant recs == BaseRecommendations(risk) + MetalRecommendations(subIndices[..i])
    {
      var metal := subIndices[i];
      if metal.subIndex > 200.0 {
        recs := recs + [CriticallyHigh(metal.element)];
      } else if metal.subIndex > 100.0 {
        recs := recs + [ExceedsSafeLimits(metal.element)];
      }
      assert subIndices[..i + 1][..i] == subIndices[..i];
    }
    assert subIndices[..|subIndices|] == subIndices;
  }

  // ---------------------------------------------------------------------
  // The calculation
  // ---------------------------------------------------------------------

  /**
   * What a successful calculation returns for the given readings: the index
   * rounded to hundredths, the risk level of the UNROUNDED index, the records
   * with their contributions in worst-first order, and the recommendations
   * built from that order.
   */
  ghost predicate Describes(inputs: seq<Reading>, res: HmpiResult)
  {
    var records := SubIndexRecords(inputs);
    && inputs != []
    && res.overallHmpi == Round2(HmpiValue(inputs))
    && res.riskLevel == DetermineRiskLevel(HmpiValue(inputs))
    && multiset(res.subIndices) == multiset(WithContributions(records, WeightedIndexSum(records)))
    && SortedBySubIndex(res.subIndices)
    && res.recommendations == BaseRecommendations(res.riskLevel) + MetalRecommendations(res.subIndices)
  }

  /** Exchanges two neighbouring records. */
  method SwapDown(a: array<SubIndexRecord>, j: int)
    requires 0 < j < a.Length
    modifies a
    ensures a[..] == old(a[..])[j - 1 := old(a[j])][j := old(a[j - 1])]
    ensures multiset(a[..]) == multiset(old(a[..]))
  {
    a[j - 1], a[j] := a[j], a[j - 1];
  }

  /** Sorts the records worst-first in place; equal sub-indices are never swapped. */
  method SortBySubIndex(a: array<SubIndexRecord>)
    modifies a
    ensures SortedBySubIndex(a[..])
    ensures multiset(a[..]) == multiset(old(a[..]))
  {
    var i := 0;
    while i < a.Length
      invariant 0 <= i <= a.Length
      invariant SortedBySubIndex(a[..i])
      invariant multiset(a[..]) == multiset(old(a[..]))
    {
      var j := i;
      while j > 0 && a[j - 1].subIndex < a[j].subIndex
        invariant 0 <= j <= i
        invariant multiset(a[..]) == multiset(old(a[..]))
        invariant forall p, q :: 0 <= p < q <= i && q != j ==> a[p].subIndex >= a[q].subIndex
        invariant 0 < j < i ==> a[j - 1].subIndex >= a[j + 1].subIndex
      {
        SwapDown(a, j);
        j := j - 1;
      }
      i := i + 1;
    }
  }

  /** Sets every record's contribution percentage in place, given the weighted total. */
  method FillContributions(a: array<SubIndexRecord>, total: real)
    modifies a
    ensures a[..] == WithContributions(old(a[..]), total)
  {
    for i := 0 to a.Length
      invariant a[..i] == WithContributions(old(a[..]), total)[..i]
      invariant a[i..] == old(a[..])[i..]
    {
      a[i] := Contribute(a[i], total);
    }
  }

  /**
   * calculateHMPI: fails on an empty list; otherwise builds the records,
   * fills in each contribution in place, sorts the records in place and
   * attaches the recommendations.
   */
  method CalculateHmpi(inputs: seq<Reading>) returns (r: Outcome<HmpiResult>)
    ensures r.Failure? <==> inputs == []
    ensures r.Failure? ==> r.error == NoDataError
    ensures r.Success? ==> Describes(inputs, r.value)
  {
    if |inputs| == 0 {
      return Failure(NoDataError);
    }
    var records := SubIndexRecords(inputs);
    var subIndices := new SubIndexRecord[|records|](i requires 0 <= i < |records| => records[i]);
    var totalWeightedIndex := WeightedIndexSum(records);
    var totalWeight := WeightSum(records);
    var overallHmpi := totalWeightedIndex / totalWeight;
    assert subIndices[..] == records;

    FillContributions(subIndices, totalWeightedIndex);
    ghost var filled := subIndices[..];
    var riskLevel := DetermineRiskLevel(overallHmpi);
    SortBySubIndex(subIndices);
    var sorted := subIndices[..];
    assert multiset(sorted) == multiset(filled);
    var recommendations := GenerateRecommendations(riskLevel, sorted);
    r := Success(HmpiResult(Round2(overallHmpi), riskLevel, sorted, recommendations));
  }

  /** A sample's result carries its id and describes its readings. */
  ghost predicate Reports(sample: Sample, res: SampleResult)
  {
    res.id == sample.id && Describes(sample.metals, res.result)
  }

  /** calculateBatchHMPI: one result per sample, in order; an empty sample aborts the batch. */
  method CalculateBatchHmpi(samples: seq<Sample>) returns (r: Outcome<seq<SampleResult>>)
    ensures r.Failure? <==> exists i :: 0 <= i < |samples| && samples[i].metals == []
    ensures r.Failure? ==> r.error == NoDataError
    ensures r.Success? ==> |r.value| == |samples|
    ensures r.Success? ==> forall i :: 0 <= i < |samples| ==> Reports(samples[i], r.value[i])
  {
    var results: seq<SampleResult> := [];
    for i := 0 to |samples|
      invariant |results| == i
      invariant forall j :: 0 <= j < i ==> samples[j].metals != []
      invariant forall j :: 0 <= j < i ==> Reports(samples[j], results[j])
    {
      var outcome := CalculateHmpi(samples[i].metals);
      if outcome.Failure? {
        return Failure(outcome.error);
      }
      results := results + [SampleResult(samples[i].id, outcome.value)];
    }
    return Success(results);
  }
}
