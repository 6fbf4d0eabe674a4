/**
 * The industry comparison: the company's total set against what an average
 * company of its industry and revenue would emit, as a variance in percent and
 * a three-way interpretation with a tolerance of 10 percent either way.
 */
module Comparison {
  import opened JsValues
  import opened Profile
  import opened EmissionFactors

  /** The intensity, in tCO2e per $M revenue, used when the industry lookup finds nothing. */
  const FallbackIntensity: real := 100.0
  const Tolerance: real := 10.0

  const BelowAverage: string := "below_average"
  const AverageRange: string := "average"
  const AboveAverage: string := "above_average"

  /** The comparison record: the rounded company total, the rounded industry average, the variance and its reading. */
  datatype IndustryComparison = IndustryComparison(
    companyTotal: Num,
    industryAverage: int,
    variance: Num,
    interpretation: string)

  /**
   * `factors.industries[industry]?.intensity`: `industries` is an array, so only
   * a canonical index names one of its records, and a record has no property
   * named `intensity`.
   */
  function IndustryLookup(f: Factors, industry: string): (r: JsNum)
    ensures r == Undefined
  {
    match ArrayIndex(industry)
    case Some(i) => if i < |f.industries| then NumericProperty(f.industries[i], "intensity") else Undefined
    case None => Undefined
  }

  /** `... || 100`. */
  function IndustryIntensity(f: Factors, industry: string): (r: real)
    ensures r == FallbackIntensity
  {
    Coerce(IndustryLookup(f, industry), FallbackIntensity)
  }

  /** `parseFloat(revenue) || 1`, in millions of dollars. */
  function RevenueMillions(p: Profile): (r: real)
    ensures r != 0.0
    ensures NonNegative(p.companyBasics.revenue) ==> r > 0.0
  {
    Coerce(p.companyBasics.revenue, 1.0) / 1000000.0
  }

  /** The unrounded industry average: revenue in millions times the industry's intensity; never 0. */
  function IndustryAverage(p: Profile, f: Factors): (r: real)
    ensures r != 0.0
  {
    IndustryAlwaysFallsBack(f, p.companyBasics.industry);
    RevenueMillions(p) * IndustryIntensity(f, p.companyBasics.industry)
  }

  /** The relative difference of the company total from the industry average, in percent; NaN when the total is. */
  function Variance(p: Profile, f: Factors, companyTotal: Num): (r: Num)
    ensures r.Fin? <==> companyTotal.Fin?
    ensures companyTotal == Fin(IndustryAverage(p, f)) ==> r == Fin(0.0)
  {
    var average := IndustryAverage(p, f);
    Scale(Divide(Add(companyTotal, Fin(-average)), average), 100.0)
  }

  /** `calculateIndustryComparison`. */
  function CalculateIndustryComparison(p: Profile, f: Factors, companyTotal: Num): (r: IndustryComparison)
    ensures r.interpretation in {BelowAverage, AverageRange, AboveAverage}
    ensures r.interpretation == BelowAverage <==> Below(r.variance, -Tolerance)
    ensures r.interpretation == AboveAverage <==> Above(r.variance, Tolerance)
    ensures r.variance.Fin? <==> companyTotal.Fin?
    ensures r.companyTotal == RoundNum(companyTotal)
    ensures r.industryAverage == Round(IndustryAverage(p, f))
  {
    var average := IndustryAverage(p, f);
    var variance := Variance(p, f, companyTotal);
    var interpretation :=
      if Above(variance, Tolerance) then AboveAverage
      else if Below(variance, -Tolerance) then BelowAverage
      else AverageRange;
    IndustryComparison(RoundNum(companyTotal), Round(average), variance, interpretation)
  }

  /** Whatever the table and the industry, the lookup misses and the intensity is the fallback 100. */
  lemma IndustryAlwaysFallsBack(f: Factors, industry: string)
    ensures IndustryLookup(f, industry) == Undefined
    ensures IndustryIntensity(f, industry) == FallbackIntensity
  {
  }

  /**
   * For a company with non-negative revenue the average is positive, so the
   * reading is a plain comparison of the total with 90% and 110% of the average.
   */
  lemma InterpretationByTotal(p: Profile, f: Factors, total: real)
    requires NonNegative(p.companyBasics.revenue)
    ensures IndustryAverage(p, f) > 0.0
    ensures var r := CalculateIndustryComparison(p, f, Fin(total));
            && (r.interpretation == BelowAverage <==> total < 0.9 * IndustryAverage(p, f))
            && (r.interpretation == AboveAverage <==> total > 1.1 * IndustryAverage(p, f))
  {
    var average := IndustryAverage(p, f);
    IndustryAlwaysFallsBack(f, p.companyBasics.industry);
    assert average == RevenueMillions(p) * 100.0;
    var variance := (total - average) / average * 100.0;
    assert Variance(p, f, Fin(total)) == Fin(variance);
    assert variance < -10.0 <==> total - average < -0.1 * average by {
      DivisionOrder(total - average, average, -0.1);
    }
    assert variance > 10.0 <==> total - average > 0.1 * average by {
      DivisionOrder(total - average, average, 0.1);
    }
  }

  /** Scaling by a positive divisor keeps the order: `x / d * 100 < 100 k` exactly when `x < k d`, and likewise for `>`. */
  lemma DivisionOrder(x: real, d: real, k: real)
    requires d > 0.0
    ensures x / d * 100.0 < k * 100.0 <==> x < k * d
    ensures x / d * 100.0 > k * 100.0 <==> x > k * d
  {
    assert x == (x / d) * d;
  }

  /** A NaN total, which a heating fuel without a per-therm factor causes, reads as average. */
  lemma UndefinedTotalReadsAverage(p: Profile, f: Factors)
    ensures CalculateIndustryComparison(p, f, NaN).interpretation == AverageRange
    ensures CalculateIndustryComparison(p, f, NaN).companyTotal == NaN
  {
  }

  /** The reported average is the revenue in millions times 100, rounded; with non-negative revenue it is at least 0. */
  lemma RoundedAverage(p: Profile, f: Factors, companyTotal: Num)
    ensures CalculateIndustryComparison(p, f, companyTotal).industryAverage == Round(RevenueMillions(p) * FallbackIntensity)
    ensures NonNegative(p.companyBasics.revenue) ==> CalculateIndustryComparison(p, f, companyTotal).industryAverage >= 0
  {
    IndustryAlwaysFallsBack(f, p.companyBasics.industry);
  }
}
