/**
 * `calculateFootprint`: runs the three scope calculators in order over one shared
 * assumption list, adds their categories into per-scope totals and a grand
 * total, and derives the intensity metrics, the industry comparison, the
 * confidence score and the sanity warnings.
 */
module Footprint {
  import opened JsValues
  import opened Profile
  import opened EmissionFactors
  import Audit
  import Scope1
  import Scope2
  import Scope3
  import Comparison
  import Confidence
  import Sanity

  const CalculationVersion: string := "1.0.0"
  const DollarsPerMillion: real := 1000000.0

  /** The per-scope totals and the grand total, in tCO2e. */
  datatype Summary = Summary(total: Num, scope1: Num, scope2: real, scope3: Num)

  /** The three scope records as the calculators return them. */
  datatype Breakdown = Breakdown(scope1: Scope1.Scope1, scope2: Scope2.Scope2, scope3: Scope3.Scope3)

  /** Tonnes per employee and per million dollars of revenue. */
  datatype IntensityMetrics = IntensityMetrics(perEmployee: Num, perRevenue: Num)

  /** The result object, less its timestamp. */
  datatype Results = Results(
    summary: Summary,
    breakdown: Breakdown,
    intensityMetrics: IntensityMetrics,
    industryComparison: Comparison.IndustryComparison,
    confidence: Confidence.Confidence,
    assumptions: seq<Audit.Assumption>,
    warnings: seq<Audit.Warning>,
    calculationVersion: string)

  /** The result object as first built: every number 0, the comparison and confidence still empty. */
  const InitialResults: Results :=
    Results(
      Summary(Fin(0.0), Fin(0.0), 0.0, Fin(0.0)),
      Breakdown(Scope1.Scope1(Fin(0.0), 0.0, 0.0), Scope2.Scope2(0.0),
                Scope3.Scope3(0.0, 0.0, Fin(0.0), 0.0, 0.0, 0.0, 0.0, 0.0, 0.0, 0.0, 0.0)),
      IntensityMetrics(Fin(0.0), Fin(0.0)),
      Comparison.IndustryComparison(Fin(0.0), 0, Fin(0.0), ""),
      Confidence.Confidence(0, "", 0, 0),
      [], [], CalculationVersion)

  /** The summary of a breakdown: each scope's categories added, then the three scopes added. */
  function SummaryOf(b: Breakdown): (r: Summary)
    ensures r.total.Fin? <==> r.scope1.Fin? && r.scope3.Fin?
    ensures r.total.Fin? ==> r.total.v == r.scope1.v + r.scope2 + r.scope3.v
  {
    var scope1 := Scope1.Total(b.scope1);
    var scope3 := Scope3.Total(b.scope3);
    Summary(Add(Add(scope1, Fin(b.scope2.purchasedElectricity)), scope3), scope1, b.scope2.purchasedElectricity, scope3)
  }

  /** `parseFloat(employees) || 1`: never 0. */
  function EmployeesOrOne(p: Profile): (r: real)
    ensures r != 0.0
  {
    Coerce(p.companyBasics.employees, 1.0)
  }

  /** `parseFloat(revenue) || 1`: never 0. */
  function RevenueOrOne(p: Profile): (r: real)
    ensures r != 0.0
  {
    Coerce(p.companyBasics.revenue, 1.0)
  }

  /** The total per employee and per million dollars of revenue; a non-finite total stays non-finite. */
  function IntensityMetricsOf(p: Profile, total: Num): (r: IntensityMetrics)
    ensures r.perEmployee.Fin? <==> total.Fin?
    ensures r.perRevenue.Fin? <==> total.Fin?
  {
    IntensityMetrics(Divide(total, EmployeesOrOne(p)), Scale(Divide(total, RevenueOrOne(p)), DollarsPerMillion))
  }

  function BreakdownOf(p: Profile, f: Factors): Breakdown
    requires Scope2.FallbacksDefined(f)
  {
    var scope1 := Scope1.Scope1Of(p, f);
    var scope2 := Scope2.Scope2Of(p, f);
    Breakdown(scope1, scope2, Scope3.Scope3Of(p, scope1, scope2))
  }

  /** The whole result of a profile and a factor table. */
  function FootprintOf(p: Profile, f: Factors): (r: Results)
    requires Scope2.FallbacksDefined(f)
    ensures r.summary == SummaryOf(r.breakdown)
    ensures r.intensityMetrics == IntensityMetricsOf(p, r.summary.total)
    ensures r.industryComparison == Comparison.CalculateIndustryComparison(p, f, r.summary.total)
    ensures r.warnings == Sanity.SanityWarnings(r.summary.scope3, r.summary.total)
    ensures r.confidence == Confidence.ConfidenceOf(p) && r.calculationVersion == CalculationVersion
  {
    var b := BreakdownOf(p, f);
    var assumptions := AssumptionsOf(p, f);
    var summary := SummaryOf(b);
    Results(
      summary, b, IntensityMetricsOf(p, summary.total),
      Comparison.CalculateIndustryComparison(p, f, summary.total),
      Confidence.ConfidenceOf(p),
      assumptions,
      Sanity.SanityWarnings(summary.scope3, summary.total),
      CalculationVersion)
  }

  /** The records of the three calculators, in the order they run. */
  function AssumptionsOf(p: Profile, f: Factors): (r: seq<Audit.Assumption>)
    requires Scope2.FallbacksDefined(f)
    ensures |Scope1.Scope1Assumptions(p, f)| + |Scope2.Scope2Assumptions(p, f)| <= |r|
    ensures r[|Scope1.Scope1Assumptions(p, f)| + |Scope2.Scope2Assumptions(p, f)| - 1] == Scope2.GridRecord(p, f)
  {
    var b := BreakdownOf(p, f);
    Scope1.Scope1Assumptions(p, f) + Scope2.Scope2Assumptions(p, f) + Scope3.Scope3Assumptions(p, b.scope1, b.scope2)
  }

  /** The three calculators in order, Scope 3 reading the finished Scope 1 and Scope 2 records, over one shared list. */
  method CalculateScopes(p: Profile, f: Factors) returns (b: Breakdown, assumptions: seq<Audit.Assumption>)
    requires Scope2.FallbacksDefined(f)
    ensures b == BreakdownOf(p, f)
    ensures assumptions == AssumptionsOf(p, f)
  {
    var scope1, scope2, scope3;
    scope1, assumptions := Scope1.CalculateScope1(p, f, []);
    assert assumptions == Scope1.Scope1Assumptions(p, f);
    scope2, assumptions := Scope2.CalculateScope2(p, f, assumptions);
    scope3, assumptions := Scope3.CalculateScope3(p, scope1, scope2, assumptions);
    b := Breakdown(scope1, scope2, scope3);
  }

  /** The totals of a breakdown, added in the engine's order. */
  method Summarize(b: Breakdown) returns (summary: Summary)
    ensures summary == SummaryOf(b)
  {
    var scope1, scope2, scope3 := b.scope1, b.scope2, b.scope3;
    var scope1Total := Add(Add(scope1.facilities, Fin(scope1.fleet)), Fin(scope1.onSiteCombustion));
    var scope3Total := Add(Add(Fin(scope3.purchasedGoods + scope3.capitalGoods), scope3.fuelEnergy),
                           Fin(scope3.upstreamTransport + scope3.waste + scope3.businessTravel + scope3.commuting
                               + scope3.downstreamTransport + scope3.useOfProducts + scope3.endOfLife + scope3.investments));
    var total := Add(Add(scope1Total, Fin(scope2.purchasedElectricity)), scope3Total);
    summary := Summary(total, scope1Total, scope2.purchasedElectricity, scope3Total);
  }

  /** `calculateFootprint`: fills the result object field by field. */
  method CalculateFootprint(p: Profile, f: Factors) returns (results: Results)
    requires Scope2.FallbacksDefined(f)
    ensures results == FootprintOf(p, f)
  {
    results := InitialResults;
    var breakdown, assumptions := CalculateScopes(p, f);
    results := results.(breakdown := breakdown);
    var summary := Summarize(breakdown);
    results := results.(summary := summary);

    var revenue := Coerce(p.companyBasics.revenue, 1.0);
    var employees := Coerce(p.companyBasics.employees, 1.0);
    var total := summary.total;
    results := results.(intensityMetrics := IntensityMetrics(Divide(total, employees), Scale(Divide(total, revenue), DollarsPerMillion)));

    results := results.(industryComparison := Comparison.CalculateIndustryComparison(p, f, total));
    var confidence := Confidence.CalculateConfidence(p);
    results := results.(confidence := confidence);
    var warnings := Sanity.PerformSanityChecks(summary.scope3, total);
    results := results.(warnings := warnings);
    results := results.(assumptions := assumptions);
  }

  /**
   * Additivity: the per-scope totals are the sums of their categories and the
   * grand total is the sum of all fifteen categories; the total is undefined
   * exactly when heating or fuel-and-energy is.
   */
  lemma SummaryAdds(b: Breakdown)
    ensures var s := SummaryOf(b);
            s.total.Fin? <==> b.scope1.facilities.Fin? && b.scope3.fuelEnergy.Fin?
    ensures var s := SummaryOf(b);
            s.total.Fin? ==>
              && s.scope1.v == b.scope1.facilities.v + b.scope1.fleet + b.scope1.onSiteCombustion
              && s.scope2 == b.scope2.purchasedElectricity
              && s.scope3.v == b.scope3.purchasedGoods + b.scope3.capitalGoods + b.scope3.fuelEnergy.v
                               + b.scope3.upstreamTransport + b.scope3.waste + b.scope3.businessTravel
                               + b.scope3.commuting + b.scope3.downstreamTransport + b.scope3.useOfProducts
                               + b.scope3.endOfLife + b.scope3.investments
              && s.total.v == s.scope1.v + s.scope2 + s.scope3.v
  {
  }

  /** On-site combustion, upstream transport and investments are never assigned, so they stay 0. */
  lemma ReservedCategoriesZero(p: Profile, f: Factors)
    requires Scope2.FallbacksDefined(f)
    ensures var b := FootprintOf(p, f).breakdown;
            b.scope1.onSiteCombustion == 0.0 && b.scope3.upstreamTransport == 0.0 && b.scope3.investments == 0.0
  {
  }

  /** Fuel and energy is 20% of the Scope 1 total plus 20% of the Scope 2 total that the same run reports. */
  lemma FuelEnergyFromScopes(p: Profile, f: Factors)
    requires Scope2.FallbacksDefined(f)
    ensures var r := FootprintOf(p, f);
            r.summary.scope1.Fin? ==> r.breakdown.scope3.fuelEnergy == Fin(0.2 * r.summary.scope1.v + 0.2 * r.summary.scope2)
    ensures var r := FootprintOf(p, f);
            r.summary.scope1.NaN? ==> r.breakdown.scope3.fuelEnergy.NaN?
  {
    var r := FootprintOf(p, f);
    assert r.breakdown.scope3.fuelEnergy == Scope3.FuelEnergy(r.breakdown.scope1, r.breakdown.scope2);
    SummaryFuelEnergy(r.breakdown);
  }

  /** The same relation for any breakdown whose fuel-and-energy category was derived from its own Scope 1 and Scope 2. */
  lemma SummaryFuelEnergy(b: Breakdown)
    requires b.scope3.fuelEnergy == Scope3.FuelEnergy(b.scope1, b.scope2)
    ensures var s := SummaryOf(b);
            s.scope1.Fin? ==> b.scope3.fuelEnergy == Fin(0.2 * s.scope1.v + 0.2 * s.scope2)
    ensures SummaryOf(b).scope1.NaN? ==> b.scope3.fuelEnergy.NaN?
  {
    Scope3.FuelEnergyShares(b.scope1, b.scope2);
  }

  /**
   * A heating fuel without a per-therm factor is the one way to an undefined
   * total; it then reads as an average company and raises no warning.
   */
  lemma UndefinedTotalExactly(p: Profile, f: Factors)
    requires Scope2.FallbacksDefined(f)
    ensures FootprintOf(p, f).summary.total.NaN? <==> Scope1.Facilities(p, f).NaN?
    ensures Scope1.Facilities(p, f).NaN? ==>
              && FootprintOf(p, f).industryComparison.interpretation == Comparison.AverageRange
              && FootprintOf(p, f).warnings == []
  {
    var b := BreakdownOf(p, f);
    SummaryAdds(b);
    if Scope1.Facilities(p, f).NaN? {
      Sanity.LowScope3Undefined(SummaryOf(b).scope3, SummaryOf(b).total);
      Comparison.UndefinedTotalReadsAverage(p, f);
    }
  }

  /** The records come in calculator order, and the Scope 2 grid record is always among them. */
  lemma AssumptionsNeverEmpty(p: Profile, f: Factors)
    requires Scope2.FallbacksDefined(f)
    ensures var a := FootprintOf(p, f).assumptions;
            var k := |Scope1.Scope1Assumptions(p, f)| + |Scope2.Scope2Assumptions(p, f)| - 1;
            0 <= k < |a| && a[k] == Scope2.GridRecord(p, f) && !a[k].userProvided
  {
    Scope2.Scope2AlwaysRecordsGrid(p, f);
  }

  /** A zero or missing denominator reads as 1: the metrics are then the total itself, and the total per dollar times a million. */
  lemma IntensityMetricsDefaults(p: Profile, total: Num)
    ensures !Truthy(p.companyBasics.employees) ==> IntensityMetricsOf(p, total).perEmployee == total
    ensures !Truthy(p.companyBasics.revenue) ==> IntensityMetricsOf(p, total).perRevenue == Scale(total, 1000000.0)
    ensures Truthy(p.companyBasics.employees) && total.Fin? ==>
              IntensityMetricsOf(p, total).perEmployee == Fin(total.v / p.companyBasics.employees.v)
  {
  }

  /** With a positive total, the sanity warning is raised exactly when Scope 3 is less than half of the total. */
  lemma WarningExactly(p: Profile, f: Factors)
    requires Scope2.FallbacksDefined(f)
    requires FootprintOf(p, f).summary.total.Fin? && FootprintOf(p, f).summary.total.v > 0.0
    ensures var s := FootprintOf(p, f).summary;
            FootprintOf(p, f).warnings != [] <==> 2.0 * s.scope3.v < s.total.v
  {
    var s := SummaryOf(BreakdownOf(p, f));
    SummaryAdds(BreakdownOf(p, f));
    Sanity.LowScope3PositiveTotal(s.scope3.v, s.total.v);
  }

  /** A breakdown of non-negative categories has finite, non-negative totals. */
  lemma SummaryNonNegative(b: Breakdown)
    requires b.scope1.facilities.Fin? && b.scope1.facilities.v >= 0.0 && b.scope1.fleet >= 0.0 && b.scope1.onSiteCombustion >= 0.0
    requires b.scope2.purchasedElectricity >= 0.0
    requires Scope3.Total(b.scope3).Fin? && Scope3.Total(b.scope3).v >= 0.0
    ensures var s := SummaryOf(b);
            && s.scope1.Fin? && s.scope1.v >= 0.0 && s.scope2 >= 0.0 && s.scope3.Fin? && s.scope3.v >= 0.0
            && s.total.Fin? && s.total.v >= 0.0
  {
  }

  /** With a non-negative total and non-negative headcount and revenue, both metrics are finite and non-negative. */
  lemma IntensityMetricsNonNegative(p: Profile, total: real)
    requires NonNegative(p.companyBasics.employees) && NonNegative(p.companyBasics.revenue) && total >= 0.0
    ensures var m := IntensityMetricsOf(p, Fin(total));
            m.perEmployee.Fin? && m.perEmployee.v >= 0.0 && m.perRevenue.Fin? && m.perRevenue.v >= 0.0
  {
    var employees, revenue := EmployeesOrOne(p), RevenueOrOne(p);
    assert employees > 0.0 && revenue > 0.0;
    MulNonNegative(total, 1.0 / employees);
    MulNonNegative(total, 1.0 / revenue);
    assert total / employees == total * (1.0 / employees);
    assert total / revenue == total * (1.0 / revenue);
    MulNonNegative(total / revenue, DollarsPerMillion);
  }

  /**
   * Non-negativity: for a sensible profile, a table with non-negative
   * intensities and a heating fuel (if any) with a non-negative per-therm
   * factor, every total and both intensity metrics are finite and non-negative.
   */
  lemma FootprintNonNegative(p: Profile, f: Factors)
    requires Sensible(p)
    requires Scope2.FallbacksDefined(f) && Scope2.IntensitiesNonNegative(f)
    requires Scope1.HeatingFuel(p, f).Some? ==>
               Scope1.HeatingFuel(p, f).value.combustionPerTherm.Some? && Scope1.HeatingFuel(p, f).value.combustionPerTherm.value >= 0.0
    ensures var s := FootprintOf(p, f).summary;
            && s.scope1.Fin? && s.scope1.v >= 0.0 && s.scope2 >= 0.0 && s.scope3.Fin? && s.scope3.v >= 0.0
            && s.total.Fin? && s.total.v >= 0.0
    ensures var m := FootprintOf(p, f).intensityMetrics;
            m.perEmployee.Fin? && m.perEmployee.v >= 0.0 && m.perRevenue.Fin? && m.perRevenue.v >= 0.0
  {
    var b := BreakdownOf(p, f);
    Scope1.Scope1NonNegative(p, f);
    Scope2.Scope2NonNegative(p, f);
    Scope3.Scope3NonNegative(p, b.scope1, b.scope2);
    SummaryNonNegative(b);
    IntensityMetricsNonNegative(p, SummaryOf(b).total.v);
  }
}
