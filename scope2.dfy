/**
 * Scope 2, purchased electricity: the buildings' electricity by type, adjusted
 * for HVAC, plus the electric vehicles' charging, net of renewable purchases,
 * times the HQ country's location-based grid factor.
 */
module Scope2 {
  import opened JsValues
  import opened Profile
  import opened EmissionFactors
  import Audit

  datatype Scope2 = Scope2(purchasedElectricity: real)

  /** The building types Scope 2 reads, in the order it reads them. */
  const BuildingTypes: seq<string> := ["office", "warehouse", "retail", "manufacturing_light", "manufacturing_heavy"]
  const DefaultCountry: string := "US"
  const KWhPerElectricVehicle: real := 3500.0
  const BuildingCategory: string := "Scope 2 - Building Electricity"
  const BuildingSource: string := "CBECS 2023"
  const EvCategory: string := "Scope 2 - Electric Vehicles"
  const EvSource: string := "DOE 2023"
  const GridCategory: string := "Scope 2 - Grid Emission Factor"
  const GridSource: string := "EPA eGRID 2023"

  /** The default-region building intensities of a table (empty when the region is missing). */
  function DefaultRow(f: Factors): seq<(string, real)>
  {
    match Get(f.buildingIntensity, DefaultRegion)
    case Some(row) => row
    case None => []
  }

  /**
   * The table entries the fallbacks dereference without a guard: the default
   * country's grid factor and the default region's intensity for every
   * building type (without them the engine throws or yields NaN).
   */
  predicate FallbacksDefined(f: Factors)
  {
    && Get(f.gridFactors, DefaultCountry).Some?
    && Get(f.buildingIntensity, DefaultRegion).Some?
    && forall i :: 0 <= i < |BuildingTypes| ==> Get(DefaultRow(f), BuildingTypes[i]).Some?
  }

  /** `sqftByType[buildingType]`: a property of the area mapping; a bare number has none. */
  function AreaOf(a: Areas, buildingType: string): JsNum
  {
    match a
    case AreaTable(es) => (match Get(es, buildingType) case Some(x) => x case None => Undefined)
    case _ => Undefined
  }

  /** `if (operations.squareFootage)`: the mapping is present (a bare number counts when truthy). */
  predicate AreasPresent(a: Areas)
  {
    match a
    case NoAreas => false
    case ScalarArea(n) => Truthy(n)
    case AreaTable(_) => true
  }

  function BuildingArea(p: Profile, buildingType: string): real
  {
    Coerce(AreaOf(p.operations.squareFootage, buildingType), 0.0)
  }

  function Region(p: Profile): string
  {
    OrElse(p.companyBasics.primaryRegion, DefaultRegion)
  }

  /** `buildingIntensity[region]?.[type] || buildingIntensity['North America'][type]`, in kWh per sqft per year. */
  function BaseIntensity(f: Factors, region: string, i: nat): (r: real)
    requires FallbacksDefined(f) && i < |BuildingTypes|
    ensures r == Get(DefaultRow(f), BuildingTypes[i]).value
            || (Get(f.buildingIntensity, region).Some? && r != 0.0
                && Get(Get(f.buildingIntensity, region).value, BuildingTypes[i]) == Some(r))
  {
    var own := match Get(f.buildingIntensity, region)
      case Some(row) => Get(row, BuildingTypes[i])
      case None => None;
    if own.Some? && own.value != 0.0 then own.value
    else Get(DefaultRow(f), BuildingTypes[i]).value
  }

  function CoolingBump(coolingIntensity: string): real
  {
    if coolingIntensity == "high" then 0.3
    else if coolingIntensity == "moderate" then 0.15
    else 0.0
  }

  /** 1.0, plus the cooling bump when air conditioning is on, plus 0.3 for an electric heating source. */
  function HvacMultiplier(h: Hvac): (r: real)
    ensures r in {1.0, 1.15, 1.3, 1.45, 1.6}
    ensures !h.airConditioning && h.heatingSource != "electric" ==> r == 1.0
  {
    1.0
    + (if h.airConditioning then CoolingBump(OrElse(h.coolingIntensity, "moderate")) else 0.0)
    + (if h.heatingSource == "electric" then 0.3 else 0.0)
  }

  function BuildingKWh(p: Profile, f: Factors, i: nat): real
    requires FallbacksDefined(f) && i < |BuildingTypes|
  {
    BuildingArea(p, BuildingTypes[i]) * BaseIntensity(f, Region(p), i) * HvacMultiplier(p.operations.hvac)
  }

  lemma BuildingKWhUnfold(p: Profile, f: Factors, i: nat, sqft: real, base: real, multiplier: real)
    requires FallbacksDefined(f) && i < |BuildingTypes|
    requires sqft == BuildingArea(p, BuildingTypes[i]) && base == BaseIntensity(f, Region(p), i)
    requires multiplier == HvacMultiplier(p.operations.hvac)
    ensures sqft * base * multiplier == BuildingKWh(p, f, i)
  {
  }

  lemma Scope2Unfold(p: Profile, f: Factors, total: real, renewablePercent: real, net: real, gridFactor: real)
    requires FallbacksDefined(f)
    requires total == TotalKWh(p, f) && renewablePercent == RenewablePercent(p) && gridFactor == GridFactorFor(f, Country(p))
    requires net == total * (1.0 - renewablePercent / 100.0)
    ensures net == NetKWh(p, f)
    ensures Scope2Of(p, f) == Scope2(net * gridFactor / 1000.0)
  {
  }

  /** Annual electricity of the first `n` building types, counting only those with a positive area. */
  function BuildingsKWh(p: Profile, f: Factors, n: nat): (r: real)
    requires FallbacksDefined(f) && n <= |BuildingTypes|
    ensures !p.operations.squareFootage.AreaTable? ==> r == 0.0
  {
    if n == 0 then 0.0
    else BuildingsKWh(p, f, n - 1) + (if BuildingArea(p, BuildingTypes[n - 1]) > 0.0 then BuildingKWh(p, f, n - 1) else 0.0)
  }

  function BuildingRecord(p: Profile, f: Factors, i: nat): Audit.Assumption
    requires FallbacksDefined(f) && i < |BuildingTypes|
  {
    Audit.Assumption(BuildingCategory,
                     Audit.BuildingElectricity(BuildingArea(p, BuildingTypes[i]), BuildingTypes[i], BaseIntensity(f, Region(p), i),
                                               HvacMultiplier(p.operations.hvac), BuildingKWh(p, f, i)),
                     BuildingSource, true)
  }

  /** The records of the first `n` building types with a positive area, in order. */
  function BuildingAssumptions(p: Profile, f: Factors, n: nat): seq<Audit.Assumption>
    requires FallbacksDefined(f) && n <= |BuildingTypes|
  {
    if n == 0 then []
    else BuildingAssumptions(p, f, n - 1) + (if BuildingArea(p, BuildingTypes[n - 1]) > 0.0 then [BuildingRecord(p, f, n - 1)] else [])
  }

  /** The electric vehicle count, when a fleet with a truthy vehicle count is declared. */
  function ElectricVehicles(p: Profile): Option<real>
  {
    var fleet := p.operations.fleet;
    if fleet.hasFleet == "yes" && Truthy(fleet.numVehicles)
    then Some(fleet.numVehicles.v * (Coerce(fleet.electricPercent, 0.0) / 100.0))
    else None
  }

  predicate HasElectricVehicles(p: Profile)
  {
    ElectricVehicles(p).Some? && ElectricVehicles(p).value > 0.0
  }

  function EvKWh(p: Profile): real
  {
    if HasElectricVehicles(p) then ElectricVehicles(p).value * KWhPerElectricVehicle else 0.0
  }

  function EvAssumptions(p: Profile): seq<Audit.Assumption>
  {
    if HasElectricVehicles(p) then [Audit.Assumption(EvCategory, Audit.ElectricVehicles(ElectricVehicles(p).value), EvSource, true)] else []
  }

  function TotalKWh(p: Profile, f: Factors): real
    requires FallbacksDefined(f)
  {
    (if AreasPresent(p.operations.squareFootage) then BuildingsKWh(p, f, |BuildingTypes|) else 0.0) + EvKWh(p)
  }

  function RenewablePercent(p: Profile): real
  {
    if p.energy.renewablePurchases then Coerce(p.energy.renewablePercent, 0.0) else 0.0
  }

  /** `kWh * (1 - renewablePercent / 100)`: the electricity not covered by renewable purchases. */
  function AfterRenewables(kWh: real, renewablePercent: real): (r: real)
    ensures kWh == 0.0 || renewablePercent == 100.0 ==> r == 0.0
  {
    kWh * (1.0 - renewablePercent / 100.0)
  }

  /** `kWh * kgPerKWh / 1000`: emissions in tonnes. */
  function GridTonnes(kWh: real, kgPerKWh: real): (r: real)
    ensures kWh == 0.0 ==> r == 0.0
  {
    kWh * kgPerKWh / 1000.0
  }

  function NetKWh(p: Profile, f: Factors): real
    requires FallbacksDefined(f)
  {
    AfterRenewables(TotalKWh(p, f), RenewablePercent(p))
  }

  function Country(p: Profile): string
  {
    OrElse(p.companyBasics.hqCountry, DefaultCountry)
  }

  /** `gridFactors[country]?.locationBased || gridFactors['US'].locationBased`, in kg CO2e per kWh. */
  function GridFactorFor(f: Factors, country: string): (r: real)
    requires Get(f.gridFactors, DefaultCountry).Some?
    ensures r == Get(f.gridFactors, DefaultCountry).value.locationBased
            || (Get(f.gridFactors, country).Some? && r != 0.0 && r == Get(f.gridFactors, country).value.locationBased)
  {
    var own := Get(f.gridFactors, country);
    if own.Some? && own.value.locationBased != 0.0 then own.value.locationBased
    else Get(f.gridFactors, DefaultCountry).value.locationBased
  }

  function Scope2Of(p: Profile, f: Factors): (r: Scope2)
    requires FallbacksDefined(f)
    ensures TotalKWh(p, f) == 0.0 ==> r.purchasedElectricity == 0.0
    ensures RenewablePercent(p) == 100.0 ==> r.purchasedElectricity == 0.0
  {
    Scope2(GridTonnes(NetKWh(p, f), GridFactorFor(f, Country(p))))
  }

  function GridRecord(p: Profile, f: Factors): Audit.Assumption
    requires FallbacksDefined(f)
  {
    Audit.Assumption(GridCategory, Audit.GridEmissionFactor(NetKWh(p, f), GridFactorFor(f, Country(p))), GridSource, false)
  }

  /** The records Scope 2 appends: one per building with area, one for electric vehicles, and always the grid factor. */
  function Scope2Assumptions(p: Profile, f: Factors): (r: seq<Audit.Assumption>)
    requires FallbacksDefined(f)
    ensures |r| >= 1 && r[|r| - 1] == GridRecord(p, f) && !r[|r| - 1].userProvided
  {
    (if AreasPresent(p.operations.squareFootage) then BuildingAssumptions(p, f, |BuildingTypes|) else [])
    + EvAssumptions(p)
    + [GridRecord(p, f)]
  }

  /** The HVAC adjustment that `calculateScope2` applies to every building type, bump by bump. */
  method ComputeHvacMultiplier(hvac: Hvac) returns (intensityMultiplier: real)
    ensures intensityMultiplier == HvacMultiplier(hvac)
    ensures intensityMultiplier in {1.0, 1.15, 1.3, 1.45, 1.6}
  {
    intensityMultiplier := 1.0;
    if hvac.airConditioning {
      var coolingIntensity := OrElse(hvac.coolingIntensity, "moderate");
      if coolingIntensity == "high" {
        intensityMultiplier := intensityMultiplier + 0.3;
      } else if coolingIntensity == "moderate" {
        intensityMultiplier := intensityMultiplier + 0.15;
      }
    }
    if hvac.heatingSource == "electric" {
      intensityMultiplier := intensityMultiplier + 0.3;
    }
  }

  /** Building electricity, the first half of `calculateScope2`: one pass over the building types in their fixed order. */
  method AccumulateBuildings(p: Profile, f: Factors, assumptions: seq<Audit.Assumption>)
    returns (totalElectricity: real, log: seq<Audit.Assumption>)
    requires FallbacksDefined(f)
    ensures AreasPresent(p.operations.squareFootage) ==>
              totalElectricity == BuildingsKWh(p, f, |BuildingTypes|) && log == assumptions + BuildingAssumptions(p, f, |BuildingTypes|)
    ensures !AreasPresent(p.operations.squareFootage) ==> totalElectricity == 0.0 && log == assumptions
  {
    totalElectricity := 0.0;
    log := assumptions;
    if AreasPresent(p.operations.squareFootage) {
      var sqftByType := p.operations.squareFootage;
      var region := OrElse(p.companyBasics.primaryRegion, DefaultRegion);
      for i := 0 to |BuildingTypes|
        invariant totalElectricity == BuildingsKWh(p, f, i)
        invariant log == assumptions + BuildingAssumptions(p, f, i)
      {
        var buildingType := BuildingTypes[i];
        var sqft := Coerce(AreaOf(sqftByType, buildingType), 0.0);
        if sqft > 0.0 {
          var baseIntensity := BaseIntensity(f, region, i);
          var intensityMultiplier := ComputeHvacMultiplier(p.operations.hvac);
          var annualKWh := sqft * baseIntensity * intensityMultiplier;
          BuildingKWhUnfold(p, f, i, sqft, baseIntensity, intensityMultiplier);
          totalElectricity := totalElectricity + annualKWh;
          log := log + [Audit.Assumption(BuildingCategory,
                                         Audit.BuildingElectricity(sqft, buildingType, baseIntensity, intensityMultiplier, annualKWh),
                                         BuildingSource, true)];
          assert log == assumptions + BuildingAssumptions(p, f, i) + [BuildingRecord(p, f, i)];
        }
      }
    }
  }

  /** Electric vehicle charging, the second part of `calculateScope2`. */
  method AddElectricVehicles(p: Profile, electricity: real, assumptions: seq<Audit.Assumption>)
    returns (totalElectricity: real, log: seq<Audit.Assumption>)
    ensures totalElectricity == electricity + EvKWh(p)
    ensures log == assumptions + EvAssumptions(p)
  {
    totalElectricity := electricity;
    log := assumptions;
    var fleet := p.operations.fleet;
    if fleet.hasFleet == "yes" && Truthy(fleet.numVehicles) {
      var numVehicles := fleet.numVehicles.v;
      var electricPercent := Coerce(fleet.electricPercent, 0.0);
      var electricVehicles := numVehicles * (electricPercent / 100.0);
      if electricVehicles > 0.0 {
        totalElectricity := totalElectricity + electricVehicles * KWhPerElectricVehicle;
        log := log + [Audit.Assumption(EvCategory, Audit.ElectricVehicles(electricVehicles), EvSource, true)];
      }
    }
  }

  /** `calculateScope2`: the buildings, then the electric vehicles, net of renewables, times the grid factor. */
  method CalculateScope2(p: Profile, f: Factors, assumptions: seq<Audit.Assumption>)
    returns (scope2: Scope2, log: seq<Audit.Assumption>)
    requires FallbacksDefined(f)
    ensures scope2 == Scope2Of(p, f)
    ensures log == assumptions + Scope2Assumptions(p, f)
    ensures |log| > |assumptions| && log[|log| - 1].category == GridCategory && !log[|log| - 1].userProvided
  {
    scope2 := Scope2(0.0);
    var totalElectricity;
    totalElectricity, log := AccumulateBuildings(p, f, assumptions);

    totalElectricity, log := AddElectricVehicles(p, totalElectricity, log);
    assert totalElectricity == TotalKWh(p, f);

    var country := OrElse(p.companyBasics.hqCountry, DefaultCountry);
    var gridFactor := GridFactorFor(f, country);
    var renewablePercent := 0.0;
    if p.energy.renewablePurchases {
      renewablePercent := Coerce(p.energy.renewablePercent, 0.0);
    }
    var netElectricity := totalElectricity * (1.0 - renewablePercent / 100.0);
    Scope2Unfold(p, f, totalElectricity, renewablePercent, netElectricity, gridFactor);
    scope2 := scope2.(purchasedElectricity := netElectricity * gridFactor / 1000.0);
    log := log + [Audit.Assumption(GridCategory, Audit.GridEmissionFactor(netElectricity, gridFactor), GridSource, false)];
  }

  /** The HVAC multiplier is one of 1.0, 1.15, 1.3, 1.45, 1.6, and never below 1. */
  lemma HvacMultiplierValues(h: Hvac)
    ensures HvacMultiplier(h) in {1.0, 1.15, 1.3, 1.45, 1.6}
    ensures HvacMultiplier(h) >= 1.0
  {
  }

  /** The electric-heating bump reads only the heating source, not the heating flag. */
  lemma ElectricBumpIgnoresHeatingFlag(h: Hvac)
    requires h.heatingSource == "electric" && !h.airConditioning
    ensures HvacMultiplier(h) == 1.3
    ensures HvacMultiplier(h.(heating := !h.heating)) == HvacMultiplier(h)
  {
  }

  /** The building types, among the first `n`, whose area is positive, in order. */
  function TypesWithArea(p: Profile, n: nat): seq<string>
    requires n <= |BuildingTypes|
  {
    if n == 0 then []
    else TypesWithArea(p, n - 1) + (if BuildingArea(p, BuildingTypes[n - 1]) > 0.0 then [BuildingTypes[n - 1]] else [])
  }

  /** A type is listed exactly when it is one of the first `n` building types and has a positive area. */
  lemma {:induction false} TypesWithAreaMembers(p: Profile, n: nat, t: string)
    requires n <= |BuildingTypes|
    ensures t in TypesWithArea(p, n) <==> t in BuildingTypes[..n] && BuildingArea(p, t) > 0.0
  {
    if n > 0 {
      TypesWithAreaMembers(p, n - 1, t);
      assert BuildingTypes[..n] == BuildingTypes[..n - 1] + [BuildingTypes[n - 1]];
    }
  }

  /** The sum of the kWh that a list of building records reports. */
  function RecordedKWh(recs: seq<Audit.Assumption>): real
  {
    if recs == [] then 0.0
    else RecordedKWh(recs[..|recs| - 1])
         + (if recs[|recs| - 1].formula.BuildingElectricity? then recs[|recs| - 1].formula.kWh else 0.0)
  }

  /** `a` is the building record that Scope 2 appends for building type `t`. */
  predicate RecordFor(a: Audit.Assumption, t: string)
  {
    && a.category == BuildingCategory && a.source == BuildingSource && a.userProvided
    && a.formula.BuildingElectricity? && a.formula.buildingType == t && a.formula.sqft > 0.0
  }

  /**
   * Scope 2 appends exactly one record per building type with a positive area,
   * in the fixed type order, each user-provided and citing CBECS.
   */
  lemma {:induction false} BuildingRecordsOnePerType(p: Profile, f: Factors, n: nat)
    requires FallbacksDefined(f) && n <= |BuildingTypes|
    ensures |BuildingAssumptions(p, f, n)| == |TypesWithArea(p, n)|
    ensures forall k :: 0 <= k < |BuildingAssumptions(p, f, n)| ==>
              RecordFor(BuildingAssumptions(p, f, n)[k], TypesWithArea(p, n)[k])
  {
    if n > 0 {
      BuildingRecordsOnePerType(p, f, n - 1);
      var t := BuildingTypes[n - 1];
      if BuildingArea(p, t) > 0.0 {
        var recs, types := BuildingAssumptions(p, f, n - 1), TypesWithArea(p, n - 1);
        assert BuildingAssumptions(p, f, n) == recs + [BuildingRecord(p, f, n - 1)];
        assert TypesWithArea(p, n) == types + [t];
        assert RecordFor(BuildingRecord(p, f, n - 1), t);
        forall k | 0 <= k < |BuildingAssumptions(p, f, n)|
          ensures RecordFor(BuildingAssumptions(p, f, n)[k], TypesWithArea(p, n)[k])
        {
          if k < |recs| {
            assert BuildingAssumptions(p, f, n)[k] == recs[k];
            assert TypesWithArea(p, n)[k] == types[k];
          }
        }
      }
    }
  }

  lemma RecordedKWhSnoc(recs: seq<Audit.Assumption>, a: Audit.Assumption)
    ensures RecordedKWh(recs + [a]) == RecordedKWh(recs) + (if a.formula.BuildingElectricity? then a.formula.kWh else 0.0)
  {
    assert (recs + [a])[..|recs|] == recs;
  }

  /** The kWh that the building records report add up to the buildings' electricity. */
  lemma {:induction false} BuildingRecordsAddUp(p: Profile, f: Factors, n: nat)
    requires FallbacksDefined(f) && n <= |BuildingTypes|
    ensures RecordedKWh(BuildingAssumptions(p, f, n)) == BuildingsKWh(p, f, n)
  {
    if n > 0 {
      BuildingRecordsAddUp(p, f, n - 1);
      BuildingRecordStep(p, f, n);
    }
  }

  /** One more building type adds to the recorded kWh exactly what it adds to the buildings' electricity. */
  lemma BuildingRecordStep(p: Profile, f: Factors, n: nat)
    requires FallbacksDefined(f) && 0 < n <= |BuildingTypes|
    requires RecordedKWh(BuildingAssumptions(p, f, n - 1)) == BuildingsKWh(p, f, n - 1)
    ensures RecordedKWh(BuildingAssumptions(p, f, n)) == BuildingsKWh(p, f, n)
  {
    var recs := BuildingAssumptions(p, f, n - 1);
    if BuildingArea(p, BuildingTypes[n - 1]) > 0.0 {
      var rec := BuildingRecord(p, f, n - 1);
      RecordedKWhSnoc(recs, rec);
      assert BuildingAssumptions(p, f, n) == recs + [rec];
      assert rec.formula.kWh == BuildingKWh(p, f, n - 1);
    } else {
      assert BuildingAssumptions(p, f, n) == recs;
    }
  }

  /** Without an area mapping (absent, or a bare number as in the sample profile) no building consumes electricity. */
  lemma {:induction false} NoMappingNoBuildings(p: Profile, f: Factors, n: nat)
    requires FallbacksDefined(f) && n <= |BuildingTypes|
    requires !p.operations.squareFootage.AreaTable?
    ensures BuildingsKWh(p, f, n) == 0.0 && BuildingAssumptions(p, f, n) == []
  {
    if n > 0 {
      NoMappingNoBuildings(p, f, n - 1);
    }
  }

  /** The assumption list of Scope 2 is never empty: it ends with the grid record, which is not user-provided. */
  lemma Scope2AlwaysRecordsGrid(p: Profile, f: Factors)
    requires FallbacksDefined(f)
    ensures |Scope2Assumptions(p, f)| >= 1
    ensures Scope2Assumptions(p, f)[|Scope2Assumptions(p, f)| - 1] == GridRecord(p, f)
    ensures !GridRecord(p, f).userProvided && GridRecord(p, f).source == GridSource
  {
  }

  /** An HQ country the table does not list (or an absent one) uses the default country's factor. */
  lemma CountryFallback(f: Factors, country: string)
    requires Get(f.gridFactors, DefaultCountry).Some?
    requires forall i :: 0 <= i < |f.gridFactors| ==> f.gridFactors[i].0 != country
    ensures GridFactorFor(f, country) == Get(f.gridFactors, DefaultCountry).value.locationBased
  {
  }

  /** The shipped table supplies every entry the fallbacks need. */
  lemma ShippedFallbacksDefined()
    ensures FallbacksDefined(Table)
  {
    assert Get(Table.buildingIntensity, DefaultRegion) == Some(Table.buildingIntensity[0].1);
  }

  /** With the shipped table every country's grid factor is positive, and an unlisted one is US's 0.386. */
  lemma ShippedGridFactor(country: string)
    ensures GridFactorFor(Table, country) > 0.0
    ensures (forall i :: 0 <= i < |Table.gridFactors| ==> Table.gridFactors[i].0 != country)
            ==> GridFactorFor(Table, country) == 0.386
  {
    GridFactorsWellFormed();
    var own := Get(Table.gridFactors, country);
    if own.Some? {
      var i :| 0 <= i < |Table.gridFactors| && Table.gridFactors[i] == (country, own.value);
    }
  }

  /** With the shipped table, every region reads the North America intensity, which is positive. */
  lemma ShippedBaseIntensity(region: string, i: nat)
    requires i < |BuildingTypes|
    ensures FallbacksDefined(Table) && BaseIntensity(Table, region, i) == Get(DefaultRow(Table), BuildingTypes[i]).value
    ensures FallbacksDefined(Table) && BaseIntensity(Table, region, i) > 0.0
  {
    ShippedFallbacksDefined();
    BuildingIntensityWellFormed();
    assert DefaultRow(Table) == Table.buildingIntensity[0].1;
    var v := Get(DefaultRow(Table), BuildingTypes[i]).value;
    var j :| 0 <= j < |DefaultRow(Table)| && DefaultRow(Table)[j] == (BuildingTypes[i], v);
  }

  /** Every grid and building intensity the table holds is non-negative. */
  predicate IntensitiesNonNegative(f: Factors)
  {
    && (forall i :: 0 <= i < |f.gridFactors| ==> f.gridFactors[i].1.locationBased >= 0.0)
    && (forall r :: 0 <= r < |f.buildingIntensity| ==>
          forall i :: 0 <= i < |f.buildingIntensity[r].1| ==> f.buildingIntensity[r].1[i].1 >= 0.0)
  }
  /** The shipped table meets the non-negativity assumption of the footprint bounds. */
  lemma ShippedIntensitiesNonNegative()
    ensures IntensitiesNonNegative(Table)
  {
    GridFactorsWellFormed();
    BuildingIntensityWellFormed();
  }


  lemma BuildingKWhNonNegative(p: Profile, f: Factors, i: nat)
    requires FallbacksDefined(f) && IntensitiesNonNegative(f) && i < |BuildingTypes|
    requires BuildingArea(p, BuildingTypes[i]) > 0.0
    ensures BuildingKWh(p, f, i) >= 0.0
  {
    BaseIntensityNonNegative(f, Region(p), i);
    HvacMultiplierValues(p.operations.hvac);
    var a, b, c := BuildingArea(p, BuildingTypes[i]), BaseIntensity(f, Region(p), i), HvacMultiplier(p.operations.hvac);
    MulNonNegative(a, b);
    MulNonNegative(a * b, c);
  }

  lemma {:induction false} BuildingsKWhNonNegative(p: Profile, f: Factors, n: nat)
    requires FallbacksDefined(f) && IntensitiesNonNegative(f) && n <= |BuildingTypes|
    ensures BuildingsKWh(p, f, n) >= 0.0
  {
    if n > 0 {
      BuildingsKWhNonNegative(p, f, n - 1);
      if BuildingArea(p, BuildingTypes[n - 1]) > 0.0 {
        BuildingKWhNonNegative(p, f, n - 1);
      }
    }
  }

  lemma BaseIntensityNonNegative(f: Factors, region: string, i: nat)
    requires FallbacksDefined(f) && IntensitiesNonNegative(f) && i < |BuildingTypes|
    ensures BaseIntensity(f, region, i) >= 0.0
  {
    var row := Get(f.buildingIntensity, region);
    if row.Some? {
      var r :| 0 <= r < |f.buildingIntensity| && f.buildingIntensity[r] == (region, row.value);
      var own := Get(row.value, BuildingTypes[i]);
      if own.Some? {
        var j :| 0 <= j < |row.value| && row.value[j] == (BuildingTypes[i], own.value);
      }
    }
    var d := Get(f.buildingIntensity, DefaultRegion).value;
    var r :| 0 <= r < |f.buildingIntensity| && f.buildingIntensity[r] == (DefaultRegion, d);
    var v := Get(d, BuildingTypes[i]).value;
    var j :| 0 <= j < |d| && d[j] == (BuildingTypes[i], v);
  }

  lemma GridFactorNonNegative(f: Factors, country: string)
    requires Get(f.gridFactors, DefaultCountry).Some? && IntensitiesNonNegative(f)
    ensures GridFactorFor(f, country) >= 0.0
  {
    var g := Get(f.gridFactors, DefaultCountry).value;
    var i :| 0 <= i < |f.gridFactors| && f.gridFactors[i] == (DefaultCountry, g);
    var own := Get(f.gridFactors, country);
    if own.Some? {
      var j :| 0 <= j < |f.gridFactors| && f.gridFactors[j] == (country, own.value);
    }
  }

  lemma TotalKWhNonNegative(p: Profile, f: Factors)
    requires FallbacksDefined(f) && IntensitiesNonNegative(f)
    ensures TotalKWh(p, f) >= 0.0
  {
    BuildingsKWhNonNegative(p, f, |BuildingTypes|);
  }

  /**
   * With non-negative intensities, Scope 2 is non-negative whenever the
   * renewable share is at most 100%: building areas and electric vehicles only
   * count when positive, so no other answer can make it negative.
   */
  lemma Scope2NonNegative(p: Profile, f: Factors)
    requires FallbacksDefined(f) && IntensitiesNonNegative(f)
    requires InRange(p.energy.renewablePercent, 0.0, 100.0)
    ensures Scope2Of(p, f).purchasedElectricity >= 0.0
  {
    TotalKWhNonNegative(p, f);
    GridFactorNonNegative(f, Country(p));
    CoerceInRange(p.energy.renewablePercent, 0.0, 0.0, 100.0);
    var total, rp := TotalKWh(p, f), RenewablePercent(p);
    MulNonNegative(total, 1.0 - rp / 100.0);
    MulNonNegative(NetKWh(p, f), GridFactorFor(f, Country(p)));
  }
}
