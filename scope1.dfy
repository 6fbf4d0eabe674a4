/**
 * Scope 1, direct emissions: heating the facilities with an on-site fuel and
 * running an internal-combustion vehicle fleet. On-site process combustion is
 * a reserved category that is always 0.
 */
module Scope1 {
  import opened JsValues
  import opened Profile
  import opened EmissionFactors
  import Audit

  /** The Scope 1 breakdown in tCO2e; `facilities` is NaN when the heating fuel has no per-therm factor. */
  datatype Scope1 = Scope1(facilities: Num, fleet: real, onSiteCombustion: real)

  const TonnesPerIceVehicle: real := 4.6
  const FacilitiesCategory: string := "Scope 1 - Facilities Heating"
  const FleetCategory: string := "Scope 1 - Vehicle Fleet"
  const FleetSource: string := "EPA 2023"

  /** `facilities + fleet + onSiteCombustion`. */
  function Total(s: Scope1): Num
  {
    Add(Add(s.facilities, Fin(s.fleet)), Fin(s.onSiteCombustion))
  }

  /** The reduction over `Object.values(squareFootage)`: every property's `parseFloat(v) || 0`, summed in order. */
  function AreaSum(entries: seq<(string, JsNum)>): (r: real)
    ensures (forall i :: 0 <= i < |entries| ==> !Truthy(entries[i].1)) ==> r == 0.0
  {
    if entries == [] then 0.0
    else AreaSum(entries[..|entries| - 1]) + Coerce(entries[|entries| - 1].1, 0.0)
  }

  /** The total floor area; a bare number (or no mapping) has no property values and contributes nothing. */
  function TotalFloorArea(a: Areas): real
  {
    match a
    case AreaTable(es) => AreaSum(es)
    case _ => 0.0
  }

  /** Therms of heating fuel per square foot and year in a region. */
  function HeatingCoefficient(region: string): real
  {
    if region == "North America" || region == "Europe" then 0.8
    else if region == "South America" || region == "Africa" then 0.2
    else 0.5
  }

  function HeatingThermsPerSqft(p: Profile): real
  {
    HeatingCoefficient(OrElse(p.companyBasics.primaryRegion, DefaultRegion))
  }

  /**
   * The fuel entry that heats the facilities: heating is on over a positive
   * area, the heating source is named and is neither electric nor "don't
   * know", and the table lists that fuel.
   */
  function HeatingFuel(p: Profile, f: Factors): Option<FuelFactor>
  {
    var hvac := p.operations.hvac;
    if TotalFloorArea(p.operations.squareFootage) > 0.0 && hvac.heating
       && hvac.heatingSource != "" && hvac.heatingSource != "electric" && hvac.heatingSource != "dont_know"
    then Get(f.fuels, hvac.heatingSource)
    else None
  }

  /** Heating emissions: therms times the fuel's per-therm factor, in tonnes; NaN when that factor is missing. */
  function Facilities(p: Profile, f: Factors): (r: Num)
    ensures r != Fin(0.0) ==> p.operations.hvac.heating && TotalFloorArea(p.operations.squareFootage) > 0.0
    ensures r != Fin(0.0) ==> HeatingFuel(p, f).Some?
  {
    match HeatingFuel(p, f)
    case None => Fin(0.0)
    case Some(fuel) =>
      var therms := TotalFloorArea(p.operations.squareFootage) * HeatingThermsPerSqft(p);
      match fuel.combustionPerTherm
      case Some(k) => Fin(therms * k / 1000.0)
      case None => NaN
  }

  /** The internal-combustion vehicle count, when a fleet with a truthy vehicle count is declared. */
  function IceVehicles(p: Profile): Option<real>
  {
    var fleet := p.operations.fleet;
    if fleet.hasFleet == "yes" && Truthy(fleet.numVehicles)
    then Some(fleet.numVehicles.v * (1.0 - Coerce(fleet.electricPercent, 0.0) / 100.0))
    else None
  }

  function FleetTonnes(p: Profile): (r: real)
    ensures r >= 0.0
    ensures r > 0.0 ==> p.operations.fleet.hasFleet == "yes" && Truthy(p.operations.fleet.numVehicles)
  {
    match IceVehicles(p)
    case Some(n) => if n > 0.0 then n * TonnesPerIceVehicle else 0.0
    case None => 0.0
  }

  function Scope1Of(p: Profile, f: Factors): (r: Scope1)
    ensures r.onSiteCombustion == 0.0 && r.fleet >= 0.0
  {
    Scope1(Facilities(p, f), FleetTonnes(p), 0.0)
  }

  /** The records Scope 1 appends: heating when a listed fuel heats the facilities, then the fleet when it has ICE vehicles. */
  function Scope1Assumptions(p: Profile, f: Factors): (r: seq<Audit.Assumption>)
    ensures |r| <= 2
    ensures forall i :: 0 <= i < |r| ==> r[i].userProvided && r[i].category in {FacilitiesCategory, FleetCategory}
  {
    (match HeatingFuel(p, f)
     case Some(fuel) =>
       [Audit.Assumption(FacilitiesCategory,
                         Audit.FacilitiesHeating(TotalFloorArea(p.operations.squareFootage), HeatingThermsPerSqft(p), fuel.combustionPerTherm),
                         fuel.source, true)]
     case None => [])
    + (match IceVehicles(p)
       case Some(n) =>
         if n > 0.0 then [Audit.Assumption(FleetCategory, Audit.VehicleFleet(n, TonnesPerIceVehicle), FleetSource, true)] else []
       case None => [])
  }

  /** The `reduce` over the area values: each `parseFloat(v) || 0`, added in order. */
  method SumAreas(values: seq<(string, JsNum)>) returns (totalSqft: real)
    ensures totalSqft == AreaSum(values)
  {
    totalSqft := 0.0;
    for i := 0 to |values|
      invariant totalSqft == AreaSum(values[..i])
    {
      assert values[..i + 1][..i] == values[..i];
      totalSqft := totalSqft + Coerce(values[i].1, 0.0);
    }
    assert values[..|values|] == values;
  }

  /** `calculateScope1`: fills the Scope 1 record and appends its assumptions to the shared list. */
  method CalculateScope1(p: Profile, f: Factors, assumptions: seq<Audit.Assumption>)
    returns (scope1: Scope1, log: seq<Audit.Assumption>)
    ensures scope1 == Scope1Of(p, f)
    ensures log == assumptions + Scope1Assumptions(p, f)
    ensures scope1.onSiteCombustion == 0.0 && scope1.fleet >= 0.0
  {
    scope1 := Scope1(Fin(0.0), 0.0, 0.0);
    log := assumptions;

    var totalSqft := 0.0;
    if p.operations.squareFootage.AreaTable? {
      totalSqft := SumAreas(p.operations.squareFootage.entries);
    }
    assert totalSqft == TotalFloorArea(p.operations.squareFootage);

    var hvac := p.operations.hvac;
    if totalSqft > 0.0 && hvac.heating {
      var heatingSource := hvac.heatingSource;
      if heatingSource != "" && heatingSource != "electric" && heatingSource != "dont_know" {
        var region := OrElse(p.companyBasics.primaryRegion, DefaultRegion);
        var heatingIntensity := 0.5;
        if region == "North America" || region == "Europe" {
          heatingIntensity := 0.8;
        } else if region == "South America" || region == "Africa" {
          heatingIntensity := 0.2;
        }
        assert heatingIntensity == HeatingThermsPerSqft(p);
        var therms := totalSqft * heatingIntensity;
        var fuelFactor := Get(f.fuels, heatingSource);
        if fuelFactor.Some? {
          var fuel := fuelFactor.value;
          var facilities := match fuel.combustionPerTherm
            case Some(k) => Fin(therms * k / 1000.0)
            case None => NaN;
          assert facilities == Facilities(p, f);
          scope1 := scope1.(facilities := facilities);
          log := log + [Audit.Assumption(FacilitiesCategory,
                                         Audit.FacilitiesHeating(totalSqft, heatingIntensity, fuel.combustionPerTherm),
                                         fuel.source, true)];
        }
      }
    }

    assert scope1.facilities == Facilities(p, f);
    var fleet := p.operations.fleet;
    if fleet.hasFleet == "yes" && Truthy(fleet.numVehicles) {
      var numVehicles := fleet.numVehicles.v;
      var electricPercent := Coerce(fleet.electricPercent, 0.0);
      var iceVehicles := numVehicles * (1.0 - electricPercent / 100.0);
      if iceVehicles > 0.0 {
        scope1 := scope1.(fleet := iceVehicles * TonnesPerIceVehicle);
        log := log + [Audit.Assumption(FleetCategory, Audit.VehicleFleet(iceVehicles, TonnesPerIceVehicle), FleetSource, true)];
      }
    }
  }

  /** The heating coefficient is 0.8 exactly for North America and Europe, 0.2 exactly for South America and Africa, else 0.5. */
  lemma HeatingCoefficientCases(region: string)
    ensures HeatingCoefficient(region) == 0.8 <==> region == "North America" || region == "Europe"
    ensures HeatingCoefficient(region) == 0.2 <==> region == "South America" || region == "Africa"
    ensures HeatingCoefficient(region) in {0.8, 0.2, 0.5}
  {
  }

  /** Facility heating is undefined (NaN) exactly when a listed fuel heats the facilities but has no per-therm factor. */
  lemma FacilitiesUndefinedExactly(p: Profile, f: Factors)
    ensures Facilities(p, f) == NaN <==> HeatingFuel(p, f).Some? && HeatingFuel(p, f).value.combustionPerTherm.None?
  {
  }

  /** A heating source the table does not list contributes nothing and records nothing. */
  lemma UnlistedFuelContributesNothing(p: Profile, f: Factors)
    requires forall i :: 0 <= i < |f.fuels| ==> f.fuels[i].0 != p.operations.hvac.heatingSource
    ensures Facilities(p, f) == Fin(0.0)
    ensures forall a :: a in Scope1Assumptions(p, f) ==> a.category != FacilitiesCategory
  {
  }

  /**
   * With the shipped table, heating is NaN exactly when the heating guard passes
   * and the fuel is one of gasoline, diesel, heating oil or propane; natural gas
   * yields a finite value.
   */
  lemma ShippedHeatingUndefinedExactly(p: Profile)
    ensures Facilities(p, Table) == NaN <==>
              var hvac := p.operations.hvac;
              TotalFloorArea(p.operations.squareFootage) > 0.0 && hvac.heating
              && hvac.heatingSource in {"gasoline", "diesel", "heating_oil", "propane"}
  {
    FuelsPerTherm();
  }

  /** The order-independent reading of the area reduction: with non-negative areas the sum is non-negative. */
  lemma {:induction false} AreaSumNonNegative(entries: seq<(string, JsNum)>)
    requires forall i :: 0 <= i < |entries| ==> NonNegative(entries[i].1)
    ensures AreaSum(entries) >= 0.0
  {
    if entries != [] {
      AreaSumNonNegative(entries[..|entries| - 1]);
    }
  }

  /**
   * For a sensible profile and a heating fuel (if any) with a non-negative
   * per-therm factor, every Scope 1 category is finite and non-negative.
   */
  lemma Scope1NonNegative(p: Profile, f: Factors)
    requires Sensible(p)
    requires HeatingFuel(p, f).Some? ==>
               HeatingFuel(p, f).value.combustionPerTherm.Some? && HeatingFuel(p, f).value.combustionPerTherm.value >= 0.0
    ensures Facilities(p, f).Fin? && Facilities(p, f).v >= 0.0
    ensures FleetTonnes(p) >= 0.0
    ensures Total(Scope1Of(p, f)).Fin? && Total(Scope1Of(p, f)).v >= 0.0
  {
    if HeatingFuel(p, f).Some? {
      var area := TotalFloorArea(p.operations.squareFootage);
      var k := HeatingFuel(p, f).value.combustionPerTherm.value;
      assert area > 0.0;
      assert HeatingThermsPerSqft(p) > 0.0;
      assert area * HeatingThermsPerSqft(p) * k >= 0.0;
    }
  }

  /** The fleet category is positive exactly when the fleet record is appended, and then it is 4.6 t per ICE vehicle. */
  lemma FleetRecordedExactly(p: Profile, f: Factors)
    ensures FleetTonnes(p) > 0.0 <==> (exists a :: a in Scope1Assumptions(p, f) && a.category == FleetCategory)
    ensures FleetTonnes(p) > 0.0 ==> FleetTonnes(p) == IceVehicles(p).value * 4.6
  {
    var s := Scope1Assumptions(p, f);
    if FleetTonnes(p) > 0.0 {
      assert s[|s| - 1].category == FleetCategory;
    }
  }
}
