/**
 * Properties of the HMPI engine: the unit table, the weighted mean and its
 * bounds and monotonicity, the contribution percentages, the risk bands, the
 * worst-first order and the recommendation list.
 */
module HmpiProperties {
  import opened Metals
  import opened Hmpi
  import opened WeightedSums

  // ---------------------------------------------------------------------
  // Unit conversion
  // ---------------------------------------------------------------------

  /**
   * mg/L and ppm are kept, the mis-encoded micrograms string and ppb are
   * divided by 1000, and every other string, a correctly encoded "μg/L"
   * included, is kept as it is.
   */
  lemma {:induction false} ConversionTable(c: real)
    ensures ConvertToMgL(c, "mg/L") == c && ConvertToMgL(c, "ppm") == c
    ensures ConvertToMgL(c, MicrogramsPerLitre) * 1000.0 == c
    ensures ConvertToMgL(c, "ppb") * 1000.0 == c
    ensures ConvertToMgL(c, "\U{3BC}g/L") == c
    ensures forall u :: u != "mg/L" && u != MicrogramsPerLitre && u != "ppm" && u != "ppb" ==>
      ConvertToMgL(c, u) == c
  {
    assert "\U{3BC}g/L"[0] != MicrogramsPerLitre[0];
  }

  /** Conversion keeps the order of concentrations and their sign. */
  lemma {:induction false} ConversionMonotone(c1: real, c2: real, unit: string)
    requires c1 <= c2
    ensures ConvertToMgL(c1, unit) <= ConvertToMgL(c2, unit)
    ensures c1 >= 0.0 ==> ConvertToMgL(c1, unit) >= 0.0
    ensures c1 > 0.0 ==> ConvertToMgL(c1, unit) > 0.0
  {
  }

  /** A larger concentration never has a smaller sub-index against the same limit. */
  lemma {:induction false} SubIndexMonotone(c1: real, c2: real, limit: real)
    requires c1 <= c2 && limit > 0.0
    ensures SubIndex(c1, limit) <= SubIndex(c2, limit)
    ensures c1 >= 0.0 ==> SubIndex(c1, limit) >= 0.0
    ensures c1 > 0.0 ==> SubIndex(c1, limit) > 0.0
  {
    DivMonotone(c1, c2, limit);
    if c1 >= 0.0 {
      DivMonotone(0.0, c1, limit);
    }
  }

  /** A reading's sub-index is non-negative for a non-negative reading and positive for a positive one. */
  lemma {:induction false} SubIndexSign(x: Reading)
    ensures x.concentration >= 0.0 ==> RecordOf(x).subIndex >= 0.0
    ensures x.concentration > 0.0 ==> RecordOf(x).subIndex > 0.0
  {
    ConversionMonotone(x.concentration, x.concentration, x.unit);
    var mgL := ConvertToMgL(x.concentration, x.unit);
    SubIndexMonotone(mgL, mgL, StandardLimit(x.element));
  }

  // ---------------------------------------------------------------------
  // The weighted mean
  // ---------------------------------------------------------------------

  /** The sub-indices of a list of records. */
  function Values(s: seq<SubIndexRecord>): seq<real>
  {
    seq(|s|, i requires 0 <= i < |s| => s[i].subIndex)
  }

  /** The weights of a list of records, all positive. */
  function Weights(s: seq<SubIndexRecord>): (ws: seq<real>)
    ensures |ws| == |s| && Positive(ws)
  {
    seq(|s|, i requires 0 <= i < |s| => WeightOf(s[i].element))
  }

  /** The engine's two folds are the weighted sum and the total weight of the records. */
  lemma {:induction false} SumsAreWeighted(s: seq<SubIndexRecord>)
    ensures WeightedIndexSum(s) == Dot(Values(s), Weights(s))
    ensures WeightSum(s) == Total(Weights(s))
  {
    if s != [] {
      var n := |s| - 1;
      assert Values(s)[..n] == Values(s[..n]);
      assert Weights(s)[..n] == Weights(s[..n]);
      SumsAreWeighted(s[..n]);
    }
  }

  /** The weighted mean of records lies between any bounds of their sub-indices. */
  lemma {:induction false} MeanWithin(s: seq<SubIndexRecord>, lo: real, hi: real)
    requires s != []
    requires forall i :: 0 <= i < |s| ==> lo <= s[i].subIndex <= hi
    ensures lo <= WeightedIndexSum(s) / WeightSum(s) <= hi
  {
    SumsAreWeighted(s);
    MeanBounds(Values(s), Weights(s), lo, hi);
  }

  /** The index lies between any lower and upper bound of the sub-indices. */
  lemma {:induction false} HmpiWithinSubIndexRange(inputs: seq<Reading>, lo: real, hi: real)
    requires inputs != []
    requires forall i :: 0 <= i < |inputs| ==> lo <= RecordOf(inputs[i]).subIndex <= hi
    ensures lo <= HmpiValue(inputs) <= hi
  {
    MeanWithin(SubIndexRecords(inputs), lo, hi);
  }

  /** For a single reading, the index is that reading's sub-index. */
  lemma {:induction false} SingleReadingHmpi(x: Reading)
    ensures HmpiValue([x]) == RecordOf(x).subIndex
  {
    HmpiWithinSubIndexRange([x], RecordOf(x).subIndex, RecordOf(x).subIndex);
  }

  /** Raising one reading's concentration, all else fixed, never lowers the index. */
  lemma {:induction false} HmpiMonotone(inputs: seq<Reading>, k: int, c: real)
    requires 0 <= k < |inputs|
    requires inputs[k].concentration <= c
    ensures HmpiValue(inputs[k := inputs[k].(concentration := c)]) >= HmpiValue(inputs)
  {
    var x := inputs[k];
    var y := x.(concentration := c);
    var s := SubIndexRecords(inputs);
    var t := SubIndexRecords(inputs[k := y]);
    ConversionMonotone(x.concentration, c, x.unit);
    SubIndexMonotone(ConvertToMgL(x.concentration, x.unit), ConvertToMgL(c, x.unit), StandardLimit(x.element));
    assert Values(t) == Values(s)[k := RecordOf(y).subIndex];
    assert Weights(t) == Weights(s);
    SumsAreWeighted(s);
    SumsAreWeighted(t);
    MeanMonotone(Values(s), Weights(s), k, RecordOf(y).subIndex);
  }

  /**
   * Raising one reading's concentration, all else fixed, never lowers the
   * reported (rounded) index nor the risk level of any result describing it.
   */
  lemma {:induction false} ReportedHmpiMonotone(inputs: seq<Reading>, k: int, c: real, before: HmpiResult, after: HmpiResult)
    requires 0 <= k < |inputs| && inputs[k].concentration <= c
    requires Describes(inputs, before)
    requires Describes(inputs[k := inputs[k].(concentration := c)], after)
    ensures before.overallHmpi <= after.overallHmpi
    ensures RiskRank(before.riskLevel) <= RiskRank(after.riskLevel)
  {
    var raised := inputs[k := inputs[k].(concentration := c)];
    HmpiMonotone(inputs, k, c);
    Round2Monotone(HmpiValue(inputs), HmpiValue(raised));
    RiskLevelMonotone(HmpiValue(inputs), HmpiValue(raised));
  }

  // ---------------------------------------------------------------------
  // Contribution percentages
  // ---------------------------------------------------------------------

  lemma {:induction false} ContributionTotalAppend(a: seq<SubIndexRecord>, b: seq<SubIndexRecord>)
    ensures ContributionTotal(a + b) == ContributionTotal(a) + ContributionTotal(b)
    decreases |b|
  {
    if b == [] {
      assert a + b == a;
    } else {
      var b' := b[..|b| - 1];
      assert (a + b)[..|a + b| - 1] == a + b';
      ContributionTotalAppend(a, b');
    }
  }

  /** Taking one record out of a list takes its percentage out of the total. */
  lemma {:induction false} ContributionTotalRemove(b: seq<SubIndexRecord>, i: int)
    requires 0 <= i < |b|
    ensures ContributionTotal(b) == ContributionTotal(b[..i] + b[i + 1..]) + ContributionTotal([b[i]])
  {
    assert b == b[..i] + [b[i]] + b[i + 1..];
    ContributionTotalAppend(b[..i] + [b[i]], b[i + 1..]);
    ContributionTotalAppend(b[..i], [b[i]]);
    ContributionTotalAppend(b[..i], b[i + 1..]);
  }

  /** Reordering the records does not change the total of their percentages. */
  lemma {:induction false} ContributionTotalPermutation(a: seq<SubIndexRecord>, b: seq<SubIndexRecord>)
    requires multiset(a) == multiset(b)
    ensures ContributionTotal(a) == ContributionTotal(b)
    decreases |a|
  {
    if a == [] {
      assert |b| == |multiset(b)| == 0;
    } else {
      var x := a[|a| - 1];
      var a' := a[..|a| - 1];
      assert a == a' + [x];
      assert x in multiset(b);
      var i :| 0 <= i < |b| && b[i] == x;
      var b' := b[..i] + b[i + 1..];
      assert b == b[..i] + [x] + b[i + 1..];
      assert multiset(b') == multiset(b) - multiset{x};
      assert multiset(a') == multiset(a) - multiset{x};
      ContributionTotalPermutation(a', b');
      ContributionTotalRemove(b, i);
      ContributionTotalAppend(a', [x]);
    }
  }

  /** The last record's contribution, split off the total. */
  lemma {:induction false} ContributionTotalStep(s: seq<SubIndexRecord>, total: real)
    requires s != [] && total != 0.0
    ensures var n := |s| - 1;
      ContributionTotal(WithContributions(s, total)) ==
        ContributionTotal(WithContributions(s[..n], total)) + WeightedTerm(s[n]) / total * 100.0
  {
    var n := |s| - 1;
    var filled := WithContributions(s, total);
    assert filled[..n] == WithContributions(s[..n], total);
    assert filled[n].contributionPercent == Percent(WeightedTerm(s[n]) / total * 100.0);
  }

  /** The last record's share, split off ShareSum. */
  lemma {:induction false} ShareSumRecordStep(s: seq<SubIndexRecord>, total: real)
    requires s != [] && total != 0.0
    ensures var n := |s| - 1;
      ShareSum(Values(s), Weights(s), total) ==
        ShareSum(Values(s[..n]), Weights(s[..n]), total) + WeightedTerm(s[n]) / total * 100.0
  {
    var n := |s| - 1;
    var xs, ws := Values(s), Weights(s);
    assert xs[..n] == Values(s[..n]);
    assert ws[..n] == Weights(s[..n]);
    assert WeightedTerm(s[n]) == xs[n] * ws[n];
    ShareSumStep(xs, ws, total);
  }

  /** With a non-zero total, the contribution percentages are the shares of the weighted terms. */
  lemma {:induction false} ContributionsAreShares(s: seq<SubIndexRecord>, total: real)
    requires total != 0.0
    ensures ContributionTotal(WithContributions(s, total)) == ShareSum(Values(s), Weights(s), total)
  {
    if s != [] {
      ContributionsAreShares(s[..|s| - 1], total);
      ContributionTotalStep(s, total);
      ShareSumRecordStep(s, total);
    }
  }

  /** For non-negative readings the weighted numerator is non-negative, and positive when one reading is. */
  lemma {:induction false} WeightedSumSign(inputs: seq<Reading>)
    requires NonNegative(inputs)
    ensures WeightedIndexSum(SubIndexRecords(inputs)) >= 0.0
    ensures (exists i :: 0 <= i < |inputs| && inputs[i].concentration > 0.0) ==>
      WeightedIndexSum(SubIndexRecords(inputs)) > 0.0
  {
    var s := SubIndexRecords(inputs);
    forall i | 0 <= i < |inputs|
      ensures Values(s)[i] >= 0.0 && (inputs[i].concentration > 0.0 ==> Values(s)[i] > 0.0)
    {
      SubIndexSign(inputs[i]);
    }
    SumsAreWeighted(s);
    DotSign(Values(s), Weights(s));
  }

  /** With a non-zero numerator, every record's contribution is a percentage and they add up to 100. */
  lemma {:induction false} SharesOfNonZeroTotal(s: seq<SubIndexRecord>)
    requires WeightedIndexSum(s) != 0.0
    ensures forall i :: 0 <= i < |s| ==> WithContributions(s, WeightedIndexSum(s))[i].contributionPercent.Percent?
    ensures ContributionTotal(WithContributions(s, WeightedIndexSum(s))) == 100.0
  {
    var total := WeightedIndexSum(s);
    ContributionsAreShares(s, total);
    SumsAreWeighted(s);
    SharesOfOwnSum(Values(s), Weights(s));
  }

  /**
   * Whenever the weighted numerator is non-zero, every reported contribution
   * is a finite percentage and together they make 100, in whatever order the
   * records were sorted.
   */
  lemma {:induction false} ContributionsSumTo100(inputs: seq<Reading>, res: HmpiResult)
    requires Describes(inputs, res)
    requires WeightedIndexSum(SubIndexRecords(inputs)) != 0.0
    ensures forall i :: 0 <= i < |res.subIndices| ==> res.subIndices[i].contributionPercent.Percent?
    ensures ContributionTotal(res.subIndices) == 100.0
  {
    var s := SubIndexRecords(inputs);
    var shares := WithContributions(s, WeightedIndexSum(s));
    SharesOfNonZeroTotal(s);
    ContributionTotalPermutation(shares, res.subIndices);
    forall i | 0 <= i < |res.subIndices|
      ensures res.subIndices[i].contributionPercent.Percent?
    {
      assert res.subIndices[i] in multiset(shares);
    }
  }

  /** A record with a non-negative sub-index has a non-negative share of a positive total. */
  lemma {:induction false} ShareNonNegative(r: SubIndexRecord, total: real)
    requires r.subIndex >= 0.0 && total > 0.0
    ensures ShareOf(r, total).Percent? && ShareOf(r, total).p >= 0.0
  {
    var w := WeightOf(r.element);
    MulMonotone(0.0, r.subIndex, w);
    ShareSign(r.subIndex * w, total);
  }

  /**
   * For non-negative readings of which one is positive, every contribution
   * is a percentage of at least 0 and they sum to 100.
   */
  lemma {:induction false} ContributionsArePercentages(inputs: seq<Reading>, res: HmpiResult)
    requires Describes(inputs, res) && NonNegative(inputs)
    requires exists i :: 0 <= i < |inputs| && inputs[i].concentration > 0.0
    ensures forall i :: 0 <= i < |res.subIndices| ==>
      res.subIndices[i].contributionPercent.Percent? && res.subIndices[i].contributionPercent.p >= 0.0
    ensures ContributionTotal(res.subIndices) == 100.0
  {
    var s := SubIndexRecords(inputs);
    var total := WeightedIndexSum(s);
    WeightedSumSign(inputs);
    ContributionsSumTo100(inputs, res);
    forall i | 0 <= i < |res.subIndices|
      ensures res.subIndices[i].contributionPercent.p >= 0.0
    {
      assert res.subIndices[i] in multiset(WithContributions(s, total));
      var j :| 0 <= j < |s| && res.subIndices[i] == Contribute(s[j], total);
      SubIndexSign(inputs[j]);
      ShareNonNegative(s[j], total);
    }
  }

  // ---------------------------------------------------------------------
  // Shape of the result
  // ---------------------------------------------------------------------

  /** One record per reading: each reported record is some reading's record with its share filled in. */
  lemma {:induction false} ResultShape(inputs: seq<Reading>, res: HmpiResult)
    requires Describes(inputs, res)
    ensures |res.subIndices| == |inputs|
    ensures forall r :: r in res.subIndices ==>
      exists i :: 0 <= i < |inputs| &&
        r == Contribute(RecordOf(inputs[i]), WeightedIndexSum(SubIndexRecords(inputs)))
  {
    var s := SubIndexRecords(inputs);
    var shares := WithContributions(s, WeightedIndexSum(s));
    assert |res.subIndices| == |multiset(res.subIndices)| == |multiset(shares)| == |shares|;
    forall r | r in res.subIndices
      ensures exists i :: 0 <= i < |inputs| && r == Contribute(RecordOf(inputs[i]), WeightedIndexSum(s))
    {
      assert r in multiset(shares);
      var i :| 0 <= i < |shares| && shares[i] == r;
    }
  }

  // ---------------------------------------------------------------------
  // Risk level
  // ---------------------------------------------------------------------

  /** The four bands, each stated both ways. */
  lemma {:induction false} RiskLevelBands(h: real)
    ensures DetermineRiskLevel(h) == Low <==> h <= 100.0
    ensures DetermineRiskLevel(h) == Moderate <==> 100.0 < h <= 200.0
    ensures DetermineRiskLevel(h) == High <==> 200.0 < h <= 300.0
    ensures DetermineRiskLevel(h) == VeryHigh <==> 300.0 < h
  {
  }

  /** A larger index never yields a lower risk level. */
  lemma {:induction false} RiskLevelMonotone(h1: real, h2: real)
    requires h1 <= h2
    ensures RiskRank(DetermineRiskLevel(h1)) <= RiskRank(DetermineRiskLevel(h2))
  {
  }

  /**
   * The risk level is taken from the unrounded index: a single lead reading
   * of 0.0100004 mg/L reports an index of 100.00 and yet a Moderate risk.
   */
  lemma {:induction false} RiskUsesUnroundedIndex()
    ensures var x := Reading(Pb, 0.0100004, "mg/L");
      Round2(HmpiValue([x])) == 100.0 && DetermineRiskLevel(HmpiValue([x])) == Moderate
  {
    var x := Reading(Pb, 0.0100004, "mg/L");
    SingleReadingHmpi(x);
    assert RecordOf(x).subIndex == 100.004;
    assert (100.004 * 100.0 + 0.5).Floor == 10000;
  }

  /** One lead reading at twice its limit: index 200, Moderate, one "exceeds" line after three base lines. */
  lemma {:induction false} LeadAtTwiceTheLimit(res: HmpiResult)
    requires Describes([Reading(Pb, 0.02, "mg/L")], res)
    ensures res.overallHmpi == 200.0 && res.riskLevel == Moderate
    ensures |res.subIndices| == 1 && res.subIndices[0].subIndex == 200.0
    ensures res.subIndices[0].contributionPercent == Percent(100.0)
    ensures res.recommendations == [
      Advice(IncreaseMonitoring), Advice(BasicTreatment), Advice(InvestigateSources),
      ExceedsSafeLimits(Pb)]
  {
    var x := Reading(Pb, 0.02, "mg/L");
    SingleReadingHmpi(x);
    assert RecordOf(x).subIndex == 200.0;
    assert (200.0 * 100.0 + 0.5).Floor == 20000;
    ResultShape([x], res);
    assert res.subIndices[0] in res.subIndices;
    var s := SubIndexRecords([x]);
    assert s == [RecordOf(x)];
    assert WeightedIndexSum(s) == WeightedTerm(RecordOf(x)) by {
      assert s[..0] == [];
    }
    assert res.subIndices == [res.subIndices[0]];
    assert MetalRecommendations(res.subIndices) == [ExceedsSafeLimits(Pb)] by {
      assert res.subIndices[..0] == [];
    }
  }

  // ---------------------------------------------------------------------
  // Recommendations
  // ---------------------------------------------------------------------

  /** Exactly one per-metal line for each sub-index above 100. */
  lemma {:induction false} MetalRecommendationCount(s: seq<SubIndexRecord>)
    ensures |MetalRecommendations(s)| == CountAboveLimit(s)
  {
    if s != [] {
      MetalRecommendationCount(s[..|s| - 1]);
    }
  }

  /** The whole list: the base lines of the risk level, then one line per sub-index above 100. */
  lemma {:induction false} RecommendationCount(inputs: seq<Reading>, res: HmpiResult)
    requires Describes(inputs, res)
    ensures |res.recommendations| ==
      (match res.riskLevel case Low => 2 case Moderate => 3 case _ => 4) + CountAboveLimit(res.subIndices)
    ensures forall i :: 0 <= i < |BaseRecommendations(res.riskLevel)| ==> res.recommendations[i].Advice?
  {
    MetalRecommendationCount(res.subIndices);
  }

  /** Every per-metal line names an element whose sub-index is above 100, and the critical ones above 200. */
  lemma {:induction false} MetalRecommendationsJustified(s: seq<SubIndexRecord>)
    ensures forall line :: line in MetalRecommendations(s) ==>
      !line.Advice? &&
      exists i :: 0 <= i < |s| && s[i].element == line.element && s[i].subIndex > 100.0 &&
        (line.CriticallyHigh? <==> s[i].subIndex > 200.0)
  {
    if s != [] {
      var n := |s| - 1;
      MetalRecommendationsJustified(s[..n]);
      forall line | line in MetalRecommendations(s)
        ensures !line.Advice? &&
          exists i :: 0 <= i < |s| && s[i].element == line.element && s[i].subIndex > 100.0 &&
            (line.CriticallyHigh? <==> s[i].subIndex > 200.0)
      {
        if line in MetalRecommendations(s[..n]) {
          var i :| 0 <= i < n && s[..n][i].element == line.element && s[..n][i].subIndex > 100.0 &&
            (line.CriticallyHigh? <==> s[..n][i].subIndex > 200.0);
          assert s[i] == s[..n][i];
        } else {
          assert line in MetalRecommendation(s[n]);
        }
      }
    }
  }

  /** With no sub-index above 200, no line is a "critically high" one. */
  lemma {:induction false} NoCriticalLines(s: seq<SubIndexRecord>)
    requires forall i :: 0 <= i < |s| ==> s[i].subIndex <= 200.0
    ensures forall i :: 0 <= i < |MetalRecommendations(s)| ==> !MetalRecommendations(s)[i].CriticallyHigh?
  {
    if s != [] {
      NoCriticalLines(s[..|s| - 1]);
    }
  }

  /** With every sub-index above 200, every line is a "critically high" one. */
  lemma {:induction false} OnlyCriticalLines(s: seq<SubIndexRecord>)
    requires forall i :: 0 <= i < |s| ==> s[i].subIndex > 200.0
    ensures forall i :: 0 <= i < |MetalRecommendations(s)| ==> MetalRecommendations(s)[i].CriticallyHigh?
  {
    if s != [] {
      OnlyCriticalLines(s[..|s| - 1]);
    }
  }

  /** No "critically high" line follows a line that is not one. */
  predicate CriticalFirst(m: seq<Recommendation>)
  {
    forall i, j :: 0 <= i < j < |m| && m[j].CriticallyHigh? ==> m[i].CriticallyHigh?
  }

  /** Because the list is worst-first, every "critically high" line comes before every "exceeds" line. */
  lemma {:induction false} CriticalLinesFirst(s: seq<SubIndexRecord>)
    requires SortedBySubIndex(s)
    ensures CriticalFirst(MetalRecommendations(s))
  {
    if s != [] {
      var n := |s| - 1;
      var prefix := MetalRecommendations(s[..n]);
      var m := MetalRecommendations(s);
      CriticalLinesFirst(s[..n]);
      if s[n].subIndex > 200.0 {
        OnlyCriticalLines(s[..n]);
      }
      forall i, j | 0 <= i < j < |m| && m[j].CriticallyHigh?
        ensures m[i].CriticallyHigh?
      {
        assert m == prefix + MetalRecommendation(s[n]);
        if j < |prefix| {
          assert m[i] == prefix[i] && m[j] == prefix[j];
          assert prefix[j].CriticallyHigh?;
          assert prefix[i].CriticallyHigh?;
        } else {
          assert m[j] == MetalRecommendation(s[n])[j - |prefix|];
          assert s[n].subIndex > 200.0;
          assert m[i] == prefix[i];
          assert prefix[i].CriticallyHigh?;
        }
      }
    }
  }
}
