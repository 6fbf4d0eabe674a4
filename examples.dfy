/**
 * Two profiles traced through the whole engine: the empty questionnaire, and
 * the sample technology company of the repository's test script (revenue $5M,
 * 50 employees, floor area given as a bare number, no fleet, $500k services,
 * $200k capital equipment, $100k travel, 40% remote).
 */
module Examples {
  import opened JsValues
  import opened Profile
  import opened EmissionFactors
  import Audit
  import Scope1
  import Scope2
  import Scope3
  import Comparison
  import Confidence
  import Sanity
  import Footprint

  /** The empty questionnaire scores nothing in any scope; only the grid record is appended. */
  lemma EmptyScopes(f: Factors)
    requires Scope2.FallbacksDefined(f)
    ensures Scope1.Scope1Of(EmptyProfile, f) == Scope1.Scope1(Fin(0.0), 0.0, 0.0)
    ensures Scope1.Scope1Assumptions(EmptyProfile, f) == []
    ensures Scope2.Scope2Of(EmptyProfile, f) == Scope2.Scope2(0.0)
    ensures Scope2.Scope2Assumptions(EmptyProfile, f) == [Scope2.GridRecord(EmptyProfile, f)]
  {
  }

  lemma EmptyScope3(s1: Scope1.Scope1, s2: Scope2.Scope2)
    requires s1 == Scope1.Scope1(Fin(0.0), 0.0, 0.0) && s2 == Scope2.Scope2(0.0)
    ensures Scope3.Scope3Of(EmptyProfile, s1, s2) == Scope3.Scope3(0.0, 0.0, Fin(0.0), 0.0, 0.0, 0.0, 0.0, 0.0, 0.0, 0.0, 0.0)
  {
    EmptySpend(s1, s2);
    EmptyWorkforce();
    EmptyProducts();
  }

  lemma EmptySpend(s1: Scope1.Scope1, s2: Scope2.Scope2)
    requires s1 == Scope1.Scope1(Fin(0.0), 0.0, 0.0) && s2 == Scope2.Scope2(0.0)
    ensures Scope3.PurchasedGoods(EmptyProfile) == 0.0 && Scope3.CapitalGoods(EmptyProfile) == 0.0
    ensures Scope3.FuelEnergy(s1, s2) == Fin(0.0)
  {
    EmptyPurchasedGoods();
    EmptyCapitalGoods();
    ZeroScopesFuelEnergy(s1, s2);
  }

  lemma ZeroScopesFuelEnergy(s1: Scope1.Scope1, s2: Scope2.Scope2)
    requires s1 == Scope1.Scope1(Fin(0.0), 0.0, 0.0) && s2 == Scope2.Scope2(0.0)
    ensures Scope3.FuelEnergy(s1, s2) == Fin(0.0)
  {
  }

  lemma EmptyPurchasedGoods()
    ensures Scope3.PurchasedGoods(EmptyProfile) == 0.0
  {
  }

  lemma EmptyCapitalGoods()
    ensures Scope3.CapitalGoods(EmptyProfile) == 0.0
  {
  }

  lemma EmptyWorkforce()
    ensures Scope3.Waste(EmptyProfile) == 0.0 && Scope3.BusinessTravel(EmptyProfile) == 0.0
    ensures Scope3.Commuting(EmptyProfile) == 0.0
  {
  }

  lemma EmptyProducts()
    ensures Scope3.DownstreamTransport(EmptyProfile) == 0.0 && Scope3.UseOfProducts(EmptyProfile) == 0.0
    ensures Scope3.EndOfLife(EmptyProfile) == 0.0
  {
  }

  lemma EmptyScope3Records(s1: Scope1.Scope1, s2: Scope2.Scope2)
    requires s1 == Scope1.Scope1(Fin(0.0), 0.0, 0.0) && s2 == Scope2.Scope2(0.0)
    ensures Scope3.Scope3Assumptions(EmptyProfile, s1, s2) == []
  {
    EmptySpendRecords(s1, s2);
    EmptyWorkforceRecords();
    EmptyProductRecords();
  }

  lemma EmptySpendRecords(s1: Scope1.Scope1, s2: Scope2.Scope2)
    requires s1 == Scope1.Scope1(Fin(0.0), 0.0, 0.0) && s2 == Scope2.Scope2(0.0)
    ensures Scope3.SpendAndEnergyAssumptions(EmptyProfile, s1, s2) == []
  {
  }

  lemma EmptyWorkforceRecords()
    ensures Scope3.WorkforceAssumptions(EmptyProfile) == []
  {
  }

  lemma EmptyProductRecords()
    ensures Scope3.ProductAssumptions(EmptyProfile) == []
  {
  }

  /** The empty questionnaire's breakdown: nothing in any scope or category. */
  lemma EmptyBreakdown(f: Factors)
    requires Scope2.FallbacksDefined(f)
    ensures Footprint.BreakdownOf(EmptyProfile, f) == ZeroBreakdown
  {
    EmptyScopes(f);
    EmptyScope3(Scope1.Scope1(Fin(0.0), 0.0, 0.0), Scope2.Scope2(0.0));
  }

  const ZeroBreakdown: Footprint.Breakdown :=
    Footprint.Breakdown(Scope1.Scope1(Fin(0.0), 0.0, 0.0), Scope2.Scope2(0.0),
                        Scope3.Scope3(0.0, 0.0, Fin(0.0), 0.0, 0.0, 0.0, 0.0, 0.0, 0.0, 0.0, 0.0))

  /** Nothing in any category adds up to 0 in every total. */
  lemma ZeroSummary()
    ensures Footprint.SummaryOf(ZeroBreakdown) == Footprint.Summary(Fin(0.0), Fin(0.0), 0.0, Fin(0.0))
  {
  }

  /** With no employees and no revenue both intensities divide by 1: a zero total gives zero intensities. */
  lemma EmptyProfileIntensities()
    ensures Footprint.IntensityMetricsOf(EmptyProfile, Fin(0.0)) == Footprint.IntensityMetrics(Fin(0.0), Fin(0.0))
  {
    Footprint.IntensityMetricsDefaults(EmptyProfile, Fin(0.0));
  }

  /** The empty questionnaire leaves the grid record alone in the audit trail. */
  lemma EmptyProfileAssumptions(f: Factors)
    requires Scope2.FallbacksDefined(f)
    ensures Footprint.AssumptionsOf(EmptyProfile, f) == [Scope2.GridRecord(EmptyProfile, f)]
  {
    EmptyScopes(f);
    EmptyBreakdown(f);
    var b := Footprint.BreakdownOf(EmptyProfile, f);
    EmptyScope3Records(b.scope1, b.scope2);
    Sole(Scope1.Scope1Assumptions(EmptyProfile, f), Scope2.GridRecord(EmptyProfile, f),
         Scope3.Scope3Assumptions(EmptyProfile, b.scope1, b.scope2));
  }

  lemma Sole<T>(a: seq<T>, x: T, b: seq<T>)
    requires a == [] && b == []
    ensures a + [x] + b == [x]
  {
  }

  /**
   * A zero total gets no warning (0/0 is NaN), and the empty questionnaire is
   * read as below average, since the default revenue of $1 still gives a
   * positive industry average.
   */
  lemma EmptyProfileReadings(f: Factors)
    ensures Sanity.SanityWarnings(Fin(0.0), Fin(0.0)) == []
    ensures Comparison.CalculateIndustryComparison(EmptyProfile, f, Fin(0.0)).interpretation == Comparison.BelowAverage
  {
    Sanity.LowScope3ZeroTotal(Fin(0.0));
    Comparison.InterpretationByTotal(EmptyProfile, f, 0.0);
  }

  /** The sample profile of the test script. */
  const TestProfile: Profile :=
    Profile(
      CompanyBasics(Number(5000000.0), "tech_software", Number(50.0), "North America", "US"),
      Operations(ScalarArea(Number(10000.0)), Hvac(true, true, "natural_gas", "moderate"), Fleet("no", Undefined, Undefined)),
      SupplyChain(
        PurchasedGoods(Number(0.0), Number(500000.0), Number(200000.0)),
        Suppliers(false, false, false),
        Distribution(Undefined, ""),
        Products("", Undefined, Undefined, "")),
      Travel(Number(100000.0), Number(40.0)),
      Energy(false, Undefined))

  /** There is no fleet and heating falls back to no fuel use: Scope 1 is 0 with no records. */
  lemma TestScope1()
    ensures Scope1.Scope1Of(TestProfile, Table) == Scope1.Scope1(Fin(0.0), 0.0, 0.0)
    ensures Scope1.Scope1Assumptions(TestProfile, Table) == []
  {
  }

  /** The bare-number floor area gives no building: Scope 2 is 0. */
  lemma TestScope2()
    ensures Scope2.FallbacksDefined(Table)
    ensures Scope2.Scope2Of(TestProfile, Table) == Scope2.Scope2(0.0)
  {
    Scope2.ShippedFallbacksDefined();
    Scope2.NoMappingNoBuildings(TestProfile, Table, |Scope2.BuildingTypes|);
  }

  /** Without buildings or a fleet, only the grid record is appended. */
  lemma TestScope2Records()
    ensures Scope2.FallbacksDefined(Table)
    ensures Scope2.Scope2Assumptions(TestProfile, Table) == [Scope2.GridRecord(TestProfile, Table)]
  {
    Scope2.ShippedFallbacksDefined();
  }

  /** A software company is neither manufacturing nor food: the light product mass per dollar applies. */
  lemma TestMassPerDollar()
    ensures Scope3.MassPerDollar("tech_software") == Scope3.LightMassPerDollar
  {
    ContainedCharacter("tech_software", "manufacturing", 0);
    ContainedCharacter("tech_software", "food", 3);
  }

  /** Scope 3 is 60 + 100 + 0 + 25 + 15 + 60 + 0 + 0 + 1.7 = 261.7 tCO2e. */
  lemma TestScope3(s1: Scope1.Scope1, s2: Scope2.Scope2)
    requires s1 == Scope1.Scope1(Fin(0.0), 0.0, 0.0) && s2 == Scope2.Scope2(0.0)
    ensures Scope3.Scope3Of(TestProfile, s1, s2) == TestScope3Record
  {
    TestSpend(s1, s2);
    TestWorkforce();
    TestProducts();
  }

  /** $500k of services and $200k of capital equipment at 0.12 and 0.5 t per $1000; no fuel burnt. */
  lemma TestSpend(s1: Scope1.Scope1, s2: Scope2.Scope2)
    requires s1 == Scope1.Scope1(Fin(0.0), 0.0, 0.0) && s2 == Scope2.Scope2(0.0)
    ensures Scope3.PurchasedGoods(TestProfile) == 60.0 && Scope3.CapitalGoods(TestProfile) == 100.0
    ensures Scope3.FuelEnergy(s1, s2) == Fin(0.0)
  {
  }

  /** 50 employees' waste, $100k of travel, and 60% of the staff commuting. */
  lemma TestWorkforce()
    ensures Scope3.Waste(TestProfile) == 25.0 && Scope3.BusinessTravel(TestProfile) == 15.0
    ensures Scope3.Commuting(TestProfile) == 60.0
  {
  }

  /** Nothing shipped or sold as a product; 1.7 t for the end of life of $5M of light products. */
  lemma TestProducts()
    ensures Scope3.DownstreamTransport(TestProfile) == 0.0 && Scope3.UseOfProducts(TestProfile) == 0.0
    ensures Scope3.EndOfLife(TestProfile) == 1.7
  {
    TestMassPerDollar();
  }

  const TestScope3Record: Scope3.Scope3 := Scope3.Scope3(60.0, 100.0, Fin(0.0), 0.0, 25.0, 15.0, 60.0, 0.0, 0.0, 1.7, 0.0)

  /** Six Scope 3 records: services, capital equipment, waste, travel, commuting and end of life. */
  lemma TestScope3Records(s1: Scope1.Scope1, s2: Scope2.Scope2)
    requires s1 == Scope1.Scope1(Fin(0.0), 0.0, 0.0) && s2 == Scope2.Scope2(0.0)
    ensures Scope3.Scope3Assumptions(TestProfile, s1, s2) ==
              [Scope3.GoodsRecord(TestProfile), Scope3.CapitalRecord(TestProfile), Scope3.WasteRecord(TestProfile),
               Scope3.TravelRecord(TestProfile), Scope3.CommutingRecord(TestProfile), Scope3.EndOfLifeRecord(TestProfile)]
  {
    TestSpendRecords(s1, s2);
    TestWorkforceRecords();
    TestProductRecords();
    var goods, capital, waste := Scope3.GoodsRecord(TestProfile), Scope3.CapitalRecord(TestProfile), Scope3.WasteRecord(TestProfile);
    var travel, commuting, endOfLife := Scope3.TravelRecord(TestProfile), Scope3.CommutingRecord(TestProfile), Scope3.EndOfLifeRecord(TestProfile);
    assert [goods, capital] + [waste, travel, commuting] + [endOfLife] == [goods, capital, waste, travel, commuting, endOfLife];
  }

  lemma TestSpendRecords(s1: Scope1.Scope1, s2: Scope2.Scope2)
    requires s1 == Scope1.Scope1(Fin(0.0), 0.0, 0.0) && s2 == Scope2.Scope2(0.0)
    ensures Scope3.SpendAndEnergyAssumptions(TestProfile, s1, s2) == [Scope3.GoodsRecord(TestProfile), Scope3.CapitalRecord(TestProfile)]
  {
  }

  lemma TestWorkforceRecords()
    ensures Scope3.WorkforceAssumptions(TestProfile) ==
              [Scope3.WasteRecord(TestProfile), Scope3.TravelRecord(TestProfile), Scope3.CommutingRecord(TestProfile)]
  {
  }

  lemma TestProductRecords()
    ensures Scope3.ProductAssumptions(TestProfile) == [Scope3.EndOfLifeRecord(TestProfile)]
  {
    TestMassPerDollar();
  }

  /** The test profile's breakdown. */
  lemma TestBreakdown()
    ensures Scope2.FallbacksDefined(Table)
    ensures Footprint.BreakdownOf(TestProfile, Table) ==
              Footprint.Breakdown(Scope1.Scope1(Fin(0.0), 0.0, 0.0), Scope2.Scope2(0.0), TestScope3Record)
  {
    TestScope1();
    TestScope2();
    TestScope3(Scope1.Scope1(Fin(0.0), 0.0, 0.0), Scope2.Scope2(0.0));
  }

  /** A positive total of 261.7 t, all of it Scope 3, so Scope 3 exceeds both other scopes. */
  lemma TestSummary()
    ensures var s := Footprint.SummaryOf(Footprint.Breakdown(Scope1.Scope1(Fin(0.0), 0.0, 0.0), Scope2.Scope2(0.0), TestScope3Record));
            && s == Footprint.Summary(Fin(261.7), Fin(0.0), 0.0, Fin(261.7))
            && s.scope3.v > s.scope1.v && s.scope3.v > s.scope2
  {
    TestSummaryValues();
  }

  lemma TestSummaryValues()
    ensures Footprint.SummaryOf(Footprint.Breakdown(Scope1.Scope1(Fin(0.0), 0.0, 0.0), Scope2.Scope2(0.0), TestScope3Record))
            == Footprint.Summary(Fin(261.7), Fin(0.0), 0.0, Fin(261.7))
  {
    ZeroScope1Total();
    TestScope3Total();
    assert Add(Add(Fin(0.0), Fin(0.0)), Fin(261.7)) == Fin(261.7);
  }

  lemma ZeroScope1Total()
    ensures Scope1.Total(Scope1.Scope1(Fin(0.0), 0.0, 0.0)) == Fin(0.0)
  {
  }

  /** 60 + 100 + 25 + 15 + 60 + 1.7. */
  lemma TestScope3Total()
    ensures Scope3.Total(TestScope3Record) == Fin(261.7)
  {
  }

  /** 261.7 t over 50 employees and $5M: 5.234 t per employee and 52.34 t per $M, under the test's bound of 100. */
  lemma TestIntensities()
    ensures var m := Footprint.IntensityMetricsOf(TestProfile, Fin(261.7));
            && m == Footprint.IntensityMetrics(Fin(5.234), Fin(52.34))
            && 0.0 < m.perEmployee.v < 100.0
  {
  }

  /** The test profile's audit trail: the grid record, then its six Scope 3 records. */
  lemma TestAssumptions()
    ensures Scope2.FallbacksDefined(Table)
    ensures Footprint.AssumptionsOf(TestProfile, Table) ==
              [Scope2.GridRecord(TestProfile, Table)] +
              [Scope3.GoodsRecord(TestProfile), Scope3.CapitalRecord(TestProfile), Scope3.WasteRecord(TestProfile),
               Scope3.TravelRecord(TestProfile), Scope3.CommutingRecord(TestProfile), Scope3.EndOfLifeRecord(TestProfile)]
  {
    TestScope1();
    TestScope2Records();
    TestBreakdown();
    var b := Footprint.BreakdownOf(TestProfile, Table);
    TestScope3Records(b.scope1, b.scope2);
    Lead(Scope1.Scope1Assumptions(TestProfile, Table), Scope2.GridRecord(TestProfile, Table),
         Scope3.Scope3Assumptions(TestProfile, b.scope1, b.scope2));
  }

  lemma Lead<T>(a: seq<T>, x: T, b: seq<T>)
    requires a == []
    ensures a + [x] + b == [x] + b
  {
  }

  /** Against $5M of software revenue the industry average is 500 t, and 262 t reads as below average. */
  lemma TestComparison()
    ensures var c := Comparison.CalculateIndustryComparison(TestProfile, Table, Fin(261.7));
            && c.companyTotal == Fin(262.0) && c.industryAverage == 500
            && c.interpretation == Comparison.BelowAverage
  {
    Comparison.InterpretationByTotal(TestProfile, Table, 261.7);
    Comparison.RoundedAverage(TestProfile, Table, Fin(261.7));
  }

  /** All of the total is Scope 3, so no warning is raised. */
  lemma TestNoWarning()
    ensures Sanity.SanityWarnings(Fin(261.7), Fin(261.7)) == []
  {
    Sanity.LowScope3PositiveTotal(261.7, 261.7);
  }

  /** Eleven of the 27 questions are answered: score 41, level Medium. */
  lemma TestConfidence()
    ensures Confidence.ConfidenceOf(TestProfile) == Confidence.Confidence(41, Confidence.Medium, 11, 27)
  {
  }
}
