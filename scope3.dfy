/**
 * Scope 3, the value chain: spend-based purchased and capital goods, upstream
 * fuel and energy as a share of Scopes 1 and 2, per-employee waste and
 * commuting, spend-based business travel, per-shipment downstream transport,
 * the lifetime use of sold products and the end of life of sold goods.
 * Upstream transport and investments are reserved categories that stay 0.
 */
module Scope3 {
  import opened JsValues
  import opened Profile
  import Audit
  import Scope1
  import Scope2

  /** The eleven Scope 3 categories in tCO2e; `fuelEnergy` is NaN exactly when Scope 1 is. */
  datatype Scope3 = Scope3(
    purchasedGoods: real,
    capitalGoods: real,
    fuelEnergy: Num,
    upstreamTransport: real,
    waste: real,
    businessTravel: real,
    commuting: real,
    downstreamTransport: real,
    useOfProducts: real,
    endOfLife: real,
    investments: real)

  const RawMaterialsKgPerDollar: real := 0.45
  const ServicesKgPerDollar: real := 0.12
  const CapexKgPerDollar: real := 0.50
  const UpstreamEnergyShare: real := 0.20
  const WasteTonnesPerEmployee: real := 0.5
  const TravelTonnesPerDollar: real := 0.00015
  const CommuteTonnesPerEmployee: real := 2.0
  const DefaultDistributionFactor: real := 1.2
  const DefaultDeviceRate: real := 50.0
  const FuelConsumingRate: real := 4600.0
  const HeavyMassPerDollar: real := 0.5
  const LightMassPerDollar: real := 0.01
  const WasteKgPerKg: real := 0.034

  const GoodsCategory: string := "Scope 3 - Purchased Goods"
  const CapitalCategory: string := "Scope 3 - Capital Goods"
  const FuelEnergyCategory: string := "Scope 3 - Fuel & Energy Related"
  const WasteCategory: string := "Scope 3 - Waste"
  const TravelCategory: string := "Scope 3 - Business Travel"
  const CommutingCategory: string := "Scope 3 - Employee Commuting"
  const DownstreamCategory: string := "Scope 3 - Downstream Transport"
  const UseCategory: string := "Scope 3 - Use of Sold Products"
  const EndOfLifeCategory: string := "Scope 3 - End-of-Life"

  /** The sum of the eleven categories, in the order the summary adds them. */
  function Total(s: Scope3): Num
  {
    Add(Add(Fin(s.purchasedGoods + s.capitalGoods), s.fuelEnergy),
        Fin(s.upstreamTransport + s.waste + s.businessTravel + s.commuting + s.downstreamTransport
            + s.useOfProducts + s.endOfLife + s.investments))
  }

  function RawMaterials(p: Profile): real { Coerce(p.supplyChain.purchasedGoods.rawMaterials, 0.0) }
  function Services(p: Profile): real { Coerce(p.supplyChain.purchasedGoods.services, 0.0) }
  function Capex(p: Profile): real { Coerce(p.supplyChain.purchasedGoods.capitalEquipment, 0.0) }
  function Employees(p: Profile): real { Coerce(p.companyBasics.employees, 0.0) }
  function TravelBudget(p: Profile): real { Coerce(p.travel.travelBudget, 0.0) }
  function RemotePercent(p: Profile): real { Coerce(p.travel.remoteWorkPercent, 0.0) }
  function Shipments(p: Profile): real { Coerce(p.supplyChain.distribution.annualShipments, 0.0) }
  function Revenue(p: Profile): real { Coerce(p.companyBasics.revenue, 0.0) }

  function PurchasedGoods(p: Profile): (r: real)
    ensures RawMaterials(p) >= 0.0 && Services(p) >= 0.0 ==> r >= 0.0
    ensures !Truthy(p.supplyChain.purchasedGoods.rawMaterials) && !Truthy(p.supplyChain.purchasedGoods.services) ==> r == 0.0
  {
    (RawMaterials(p) * RawMaterialsKgPerDollar + Services(p) * ServicesKgPerDollar) / 1000.0
  }

  function CapitalGoods(p: Profile): (r: real)
    ensures r > 0.0 <==> Capex(p) > 0.0
  {
    (Capex(p) * CapexKgPerDollar) / 1000.0
  }

  /** Upstream emissions of the fuel and electricity already counted: 20% of Scope 1 plus 20% of Scope 2. */
  function FuelEnergy(s1: Scope1.Scope1, s2: Scope2.Scope2): (r: Num)
    ensures r.Fin? <==> Scope1.Total(s1).Fin?
  {
    Add(Scale(Scope1.Total(s1), UpstreamEnergyShare), Fin(s2.purchasedElectricity * UpstreamEnergyShare))
  }

  function Waste(p: Profile): (r: real)
    ensures r > 0.0 <==> Employees(p) > 0.0
  {
    Employees(p) * WasteTonnesPerEmployee
  }

  function BusinessTravel(p: Profile): (r: real)
    ensures r > 0.0 <==> TravelBudget(p) > 0.0
  {
    TravelBudget(p) * TravelTonnesPerDollar
  }

  function Commuting(p: Profile): (r: real)
    ensures Employees(p) > 0.0 && RemotePercent(p) < 100.0 ==> r > 0.0
    ensures RemotePercent(p) == 100.0 ==> r == 0.0
  {
    Employees(p) * (1.0 - RemotePercent(p) / 100.0) * CommuteTonnesPerEmployee
  }

  /** `distFactors[distMethod] || 1.2`, in kg CO2e per shipment. */
  function DistributionFactor(distributionMethod: string): (r: real)
    ensures r in {0.5, 1.2, 3.5, 10.0}
  {
    if distributionMethod == "local" then 0.5
    else if distributionMethod == "regional" then 1.2
    else if distributionMethod == "national" then 3.5
    else if distributionMethod == "international" then 10.0
    else DefaultDistributionFactor
  }

  function DownstreamTransport(p: Profile): (r: real)
    ensures r > 0.0 <==> Shipments(p) > 0.0
  {
    (Shipments(p) * DistributionFactor(p.supplyChain.distribution.distributionMethod)) / 1000.0
  }

  /** `intensityMap[intensity] || 50`, in kg CO2e per electric device and year. */
  function DeviceRate(energyIntensity: string): (r: real)
    ensures r in {10.0, 50.0, 200.0}
    ensures r == DefaultDeviceRate <==> energyIntensity != "low" && energyIntensity != "high"
  {
    if energyIntensity == "low" then 10.0
    else if energyIntensity == "medium" then 50.0
    else if energyIntensity == "high" then 200.0
    else DefaultDeviceRate
  }

  /** Annual emissions per unit sold: by device intensity, a flat rate for fuel-consuming products, else 0. */
  function AnnualEmissionPerUnit(products: Products): real
  {
    if products.productType == "electric_devices" then DeviceRate(products.energyIntensity)
    else if products.productType == "fuel_consuming" then FuelConsumingRate
    else 0.0
  }

  function Units(p: Profile): real { Coerce(p.supplyChain.products.annualUnitsSold, 0.0) }
  function Lifetime(p: Profile): real { Coerce(p.supplyChain.products.avgLifetime, 1.0) }

  /** Lifetime use of the products sold in a year; nothing when no product type is named. */
  function UseOfProducts(p: Profile): (r: real)
    ensures p.supplyChain.products.productType == "" ==> r == 0.0
    ensures Units(p) >= 0.0 && Lifetime(p) >= 0.0 ==> r >= 0.0
  {
    if p.supplyChain.products.productType != ""
    then (Units(p) * Lifetime(p) * AnnualEmissionPerUnit(p.supplyChain.products)) / 1000.0
    else 0.0
  }

  /** Mass of goods sold per dollar of revenue: 0.5 kg for manufacturing and food industries, else 0.01 kg. */
  function MassPerDollar(industry: string): (r: real)
    ensures r in {HeavyMassPerDollar, LightMassPerDollar}
    ensures r == HeavyMassPerDollar <==> Contains(industry, "manufacturing") || Contains(industry, "food")
  {
    if industry != "" && (Contains(industry, "manufacturing") || Contains(industry, "food"))
    then HeavyMassPerDollar
    else LightMassPerDollar
  }

  function EndOfLife(p: Profile): (r: real)
    ensures r > 0.0 <==> Revenue(p) > 0.0
  {
    (Revenue(p) * MassPerDollar(p.companyBasics.industry) * WasteKgPerKg) / 1000.0
  }

  function Scope3Of(p: Profile, s1: Scope1.Scope1, s2: Scope2.Scope2): (r: Scope3)
    ensures r.upstreamTransport == 0.0 && r.investments == 0.0
    ensures r.fuelEnergy.Fin? <==> Scope1.Total(s1).Fin?
  {
    Scope3(PurchasedGoods(p), CapitalGoods(p), FuelEnergy(s1, s2), 0.0, Waste(p), BusinessTravel(p),
           Commuting(p), DownstreamTransport(p), UseOfProducts(p), EndOfLife(p), 0.0)
  }

  function RecordIf(condition: bool, a: Audit.Assumption): (r: seq<Audit.Assumption>)
    ensures |r| <= 1
  {
    if condition then [a] else []
  }

  function GoodsRecord(p: Profile): Audit.Assumption
  {
    Audit.Assumption(GoodsCategory, Audit.PurchasedGoods(RawMaterials(p), Services(p)), "EPA EEIO", true)
  }

  function CapitalRecord(p: Profile): Audit.Assumption
  {
    Audit.Assumption(CapitalCategory, Audit.CapitalGoods(Capex(p)), "EPA EEIO", true)
  }

  function FuelEnergyRecord(s1: Scope1.Scope1, s2: Scope2.Scope2): Audit.Assumption
  {
    Audit.Assumption(FuelEnergyCategory, Audit.FuelEnergy(Scope1.Total(s1), s2.purchasedElectricity), "GHG Protocol", false)
  }

  function WasteRecord(p: Profile): Audit.Assumption
  {
    Audit.Assumption(WasteCategory, Audit.Waste(Employees(p)), "EPA averages", true)
  }

  function TravelRecord(p: Profile): Audit.Assumption
  {
    Audit.Assumption(TravelCategory, Audit.BusinessTravel(TravelBudget(p)), "EPA EEIO", true)
  }

  function CommutingRecord(p: Profile): Audit.Assumption
  {
    Audit.Assumption(CommutingCategory, Audit.Commuting(Employees(p), RemotePercent(p)), "EPA averages", true)
  }

  function DownstreamRecord(p: Profile): Audit.Assumption
  {
    var m := p.supplyChain.distribution.distributionMethod;
    Audit.Assumption(DownstreamCategory, Audit.DownstreamTransport(Shipments(p), DistributionFactor(m), m), "DEFRA 2023", true)
  }

  function UseRecord(p: Profile): Audit.Assumption
  {
    Audit.Assumption(UseCategory, Audit.UseOfProducts(Units(p), Lifetime(p), AnnualEmissionPerUnit(p.supplyChain.products)),
                     "Product category averages", true)
  }

  function EndOfLifeRecord(p: Profile): Audit.Assumption
  {
    Audit.Assumption(EndOfLifeCategory, Audit.EndOfLife(Revenue(p), MassPerDollar(p.companyBasics.industry)),
                     "EPA waste factors", false)
  }

  /** The records of the spend and energy categories, each under the guard the engine tests. */
  function SpendAndEnergyAssumptions(p: Profile, s1: Scope1.Scope1, s2: Scope2.Scope2): (r: seq<Audit.Assumption>)
    ensures |r| <= 3
  {
    RecordIf(PurchasedGoods(p) > 0.0, GoodsRecord(p))
    + RecordIf(Capex(p) > 0.0, CapitalRecord(p))
    + RecordIf(Above(FuelEnergy(s1, s2), 0.0), FuelEnergyRecord(s1, s2))
  }

  /** The records of the workforce categories. */
  function WorkforceAssumptions(p: Profile): (r: seq<Audit.Assumption>)
    ensures |r| <= 3
  {
    RecordIf(Employees(p) > 0.0, WasteRecord(p))
    + RecordIf(TravelBudget(p) > 0.0, TravelRecord(p))
    + RecordIf(Commuting(p) > 0.0, CommutingRecord(p))
  }

  /** The records of the sold-products categories. */
  function ProductAssumptions(p: Profile): (r: seq<Audit.Assumption>)
    ensures |r| <= 3
  {
    RecordIf(Shipments(p) > 0.0, DownstreamRecord(p))
    + RecordIf(p.supplyChain.products.productType != "" && UseOfProducts(p) > 0.0, UseRecord(p))
    + RecordIf(EndOfLife(p) > 0.0, EndOfLifeRecord(p))
  }

  /** The records Scope 3 appends, in the engine's order. */
  function Scope3Assumptions(p: Profile, s1: Scope1.Scope1, s2: Scope2.Scope2): (r: seq<Audit.Assumption>)
    ensures |r| <= 9
  {
    SpendAndEnergyAssumptions(p, s1, s2) + WorkforceAssumptions(p) + ProductAssumptions(p)
  }

  lemma AppendAssociative<T>(a: seq<T>, b: seq<T>, c: seq<T>)
    ensures a + b + c == a + (b + c)
  {
  }

  /** The purchased-goods step: spend on raw materials and services times their spend-based rates. */
  method AddPurchasedGoods(p: Profile, scope3: Scope3, assumptions: seq<Audit.Assumption>)
    returns (next: Scope3, log: seq<Audit.Assumption>)
    ensures next == scope3.(purchasedGoods := PurchasedGoods(p))
    ensures log == assumptions + RecordIf(PurchasedGoods(p) > 0.0, GoodsRecord(p))
  {
    var rawMaterials := Coerce(p.supplyChain.purchasedGoods.rawMaterials, 0.0);
    var services := Coerce(p.supplyChain.purchasedGoods.services, 0.0);
    next := scope3.(purchasedGoods := (rawMaterials * RawMaterialsKgPerDollar + services * ServicesKgPerDollar) / 1000.0);
    log := assumptions;
    if next.purchasedGoods > 0.0 {
      log := log + [Audit.Assumption(GoodsCategory, Audit.PurchasedGoods(rawMaterials, services), "EPA EEIO", true)];
    }
  }

  /** The capital-goods step: capital equipment spend times its spend-based rate. */
  method AddCapitalGoods(p: Profile, scope3: Scope3, assumptions: seq<Audit.Assumption>)
    returns (next: Scope3, log: seq<Audit.Assumption>)
    ensures next == scope3.(capitalGoods := CapitalGoods(p))
    ensures log == assumptions + RecordIf(Capex(p) > 0.0, CapitalRecord(p))
  {
    var capex := Coerce(p.supplyChain.purchasedGoods.capitalEquipment, 0.0);
    next := scope3.(capitalGoods := (capex * CapexKgPerDollar) / 1000.0);
    log := assumptions;
    if capex > 0.0 {
      log := log + [Audit.Assumption(CapitalCategory, Audit.CapitalGoods(capex), "EPA EEIO", true)];
    }
  }

  /** The fuel-and-energy step: 20% of the Scope 1 total and of Scope 2, recorded only when positive. */
  method AddFuelEnergy(scope1: Scope1.Scope1, scope2: Scope2.Scope2, scope3: Scope3, assumptions: seq<Audit.Assumption>)
    returns (next: Scope3, log: seq<Audit.Assumption>)
    ensures next == scope3.(fuelEnergy := FuelEnergy(scope1, scope2))
    ensures log == assumptions + RecordIf(Above(FuelEnergy(scope1, scope2), 0.0), FuelEnergyRecord(scope1, scope2))
  {
    var scope1Total := Add(Add(scope1.facilities, Fin(scope1.fleet)), Fin(scope1.onSiteCombustion));
    next := scope3.(fuelEnergy := Add(Scale(scope1Total, UpstreamEnergyShare), Fin(scope2.purchasedElectricity * UpstreamEnergyShare)));
    log := assumptions;
    if Above(next.fuelEnergy, 0.0) {
      log := log + [Audit.Assumption(FuelEnergyCategory, Audit.FuelEnergy(scope1Total, scope2.purchasedElectricity), "GHG Protocol", false)];
    }
  }

  /** The waste step: a flat rate per employee. */
  method AddWaste(p: Profile, scope3: Scope3, assumptions: seq<Audit.Assumption>)
    returns (next: Scope3, log: seq<Audit.Assumption>)
    ensures next == scope3.(waste := Waste(p))
    ensures log == assumptions + RecordIf(Employees(p) > 0.0, WasteRecord(p))
  {
    var employees := Coerce(p.companyBasics.employees, 0.0);
    next := scope3.(waste := employees * WasteTonnesPerEmployee);
    log := assumptions;
    if employees > 0.0 {
      log := log + [Audit.Assumption(WasteCategory, Audit.Waste(employees), "EPA averages", true)];
    }
  }

  /** The business-travel step: travel budget times a spend-based rate. */
  method AddBusinessTravel(p: Profile, scope3: Scope3, assumptions: seq<Audit.Assumption>)
    returns (next: Scope3, log: seq<Audit.Assumption>)
    ensures next == scope3.(businessTravel := BusinessTravel(p))
    ensures log == assumptions + RecordIf(TravelBudget(p) > 0.0, TravelRecord(p))
  {
    var travelBudget := Coerce(p.travel.travelBudget, 0.0);
    next := scope3.(businessTravel := travelBudget * TravelTonnesPerDollar);
    log := assumptions;
    if travelBudget > 0.0 {
      log := log + [Audit.Assumption(TravelCategory, Audit.BusinessTravel(travelBudget), "EPA EEIO", true)];
    }
  }

  /** The commuting step: a flat rate per employee who is not remote. */
  method AddCommuting(p: Profile, scope3: Scope3, assumptions: seq<Audit.Assumption>)
    returns (next: Scope3, log: seq<Audit.Assumption>)
    ensures next == scope3.(commuting := Commuting(p))
    ensures log == assumptions + RecordIf(Commuting(p) > 0.0, CommutingRecord(p))
  {
    var employees := Coerce(p.companyBasics.employees, 0.0);
    var remotePercent := Coerce(p.travel.remoteWorkPercent, 0.0);
    next := scope3.(commuting := employees * (1.0 - remotePercent / 100.0) * CommuteTonnesPerEmployee);
    log := assumptions;
    if next.commuting > 0.0 {
      log := log + [Audit.Assumption(CommutingCategory, Audit.Commuting(employees, remotePercent), "EPA averages", true)];
    }
  }

  /** The downstream-transport step: shipments times the distribution method's factor. */
  method AddDownstreamTransport(p: Profile, scope3: Scope3, assumptions: seq<Audit.Assumption>)
    returns (next: Scope3, log: seq<Audit.Assumption>)
    ensures next == scope3.(downstreamTransport := DownstreamTransport(p))
    ensures log == assumptions + RecordIf(Shipments(p) > 0.0, DownstreamRecord(p))
  {
    var shipments := Coerce(p.supplyChain.distribution.annualShipments, 0.0);
    var distMethod := p.supplyChain.distribution.distributionMethod;
    var distFactor := DistributionFactor(distMethod);
    next := scope3.(downstreamTransport := (shipments * distFactor) / 1000.0);
    log := assumptions;
    if shipments > 0.0 {
      log := log + [Audit.Assumption(DownstreamCategory, Audit.DownstreamTransport(shipments, distFactor, distMethod), "DEFRA 2023", true)];
    }
  }

  /** The use-of-sold-products step, taken only when a product type is named. */
  method AddUseOfProducts(p: Profile, scope3: Scope3, assumptions: seq<Audit.Assumption>)
    returns (next: Scope3, log: seq<Audit.Assumption>)
    requires scope3.useOfProducts == 0.0
    ensures next == scope3.(useOfProducts := UseOfProducts(p))
    ensures log == assumptions + RecordIf(p.supplyChain.products.productType != "" && UseOfProducts(p) > 0.0, UseRecord(p))
  {
    next := scope3;
    log := assumptions;
    var products := p.supplyChain.products;
    if products.productType != "" {
      var units := Coerce(products.annualUnitsSold, 0.0);
      var lifetime := Coerce(products.avgLifetime, 1.0);
      var annualEmissionPerUnit := 0.0;
      if products.productType == "electric_devices" {
        annualEmissionPerUnit := DeviceRate(products.energyIntensity);
      } else if products.productType == "fuel_consuming" {
        annualEmissionPerUnit := FuelConsumingRate;
      }
      next := next.(useOfProducts := (units * lifetime * annualEmissionPerUnit) / 1000.0);
      if next.useOfProducts > 0.0 {
        log := log + [Audit.Assumption(UseCategory, Audit.UseOfProducts(units, lifetime, annualEmissionPerUnit), "Product category averages", true)];
      }
    }
  }

  /** The end-of-life step: revenue times the industry's mass per dollar times the waste factor. */
  method AddEndOfLife(p: Profile, scope3: Scope3, assumptions: seq<Audit.Assumption>)
    returns (next: Scope3, log: seq<Audit.Assumption>)
    ensures next == scope3.(endOfLife := EndOfLife(p))
    ensures log == assumptions + RecordIf(EndOfLife(p) > 0.0, EndOfLifeRecord(p))
  {
    var revenue := Coerce(p.companyBasics.revenue, 0.0);
    var industry := p.companyBasics.industry;
    var massPerDollar := LightMassPerDollar;
    if industry != "" && (Contains(industry, "manufacturing") || Contains(industry, "food")) {
      massPerDollar := HeavyMassPerDollar;
    }
    next := scope3.(endOfLife := (revenue * massPerDollar * WasteKgPerKg) / 1000.0);
    log := assumptions;
    if next.endOfLife > 0.0 {
      log := log + [Audit.Assumption(EndOfLifeCategory, Audit.EndOfLife(revenue, massPerDollar), "EPA waste factors", false)];
    }
  }

  /** The first three steps, in order: purchased goods, capital goods, fuel and energy. */
  method AddSpendAndEnergy(p: Profile, scope1: Scope1.Scope1, scope2: Scope2.Scope2, scope3: Scope3, assumptions: seq<Audit.Assumption>)
    returns (next: Scope3, log: seq<Audit.Assumption>)
    ensures next == scope3.(purchasedGoods := PurchasedGoods(p), capitalGoods := CapitalGoods(p), fuelEnergy := FuelEnergy(scope1, scope2))
    ensures log == assumptions + SpendAndEnergyAssumptions(p, scope1, scope2)
  {
    ghost var r1 := RecordIf(PurchasedGoods(p) > 0.0, GoodsRecord(p));
    ghost var r2 := RecordIf(Capex(p) > 0.0, CapitalRecord(p));
    ghost var r3 := RecordIf(Above(FuelEnergy(scope1, scope2), 0.0), FuelEnergyRecord(scope1, scope2));
    next, log := AddPurchasedGoods(p, scope3, assumptions);
    next, log := AddCapitalGoods(p, next, log);
    next, log := AddFuelEnergy(scope1, scope2, next, log);
    AppendAssociative(assumptions, r1, r2);
    AppendAssociative(assumptions, r1 + r2, r3);
  }

  /** The next three steps, in order: waste, business travel, commuting. */
  method AddWorkforce(p: Profile, scope3: Scope3, assumptions: seq<Audit.Assumption>)
    returns (next: Scope3, log: seq<Audit.Assumption>)
    ensures next == scope3.(waste := Waste(p), businessTravel := BusinessTravel(p), commuting := Commuting(p))
    ensures log == assumptions + WorkforceAssumptions(p)
  {
    ghost var r1 := RecordIf(Employees(p) > 0.0, WasteRecord(p));
    ghost var r2 := RecordIf(TravelBudget(p) > 0.0, TravelRecord(p));
    ghost var r3 := RecordIf(Commuting(p) > 0.0, CommutingRecord(p));
    next, log := AddWaste(p, scope3, assumptions);
    next, log := AddBusinessTravel(p, next, log);
    next, log := AddCommuting(p, next, log);
    AppendAssociative(assumptions, r1, r2);
    AppendAssociative(assumptions, r1 + r2, r3);
  }

  /** The last three steps, in order: downstream transport, use of sold products, end of life. */
  method AddProducts(p: Profile, scope3: Scope3, assumptions: seq<Audit.Assumption>)
    returns (next: Scope3, log: seq<Audit.Assumption>)
    requires scope3.useOfProducts == 0.0
    ensures next == scope3.(downstreamTransport := DownstreamTransport(p), useOfProducts := UseOfProducts(p), endOfLife := EndOfLife(p))
    ensures log == assumptions + ProductAssumptions(p)
  {
    ghost var r1 := RecordIf(Shipments(p) > 0.0, DownstreamRecord(p));
    ghost var r2 := RecordIf(p.supplyChain.products.productType != "" && UseOfProducts(p) > 0.0, UseRecord(p));
    ghost var r3 := RecordIf(EndOfLife(p) > 0.0, EndOfLifeRecord(p));
    next, log := AddDownstreamTransport(p, scope3, assumptions);
    next, log := AddUseOfProducts(p, next, log);
    next, log := AddEndOfLife(p, next, log);
    AppendAssociative(assumptions, r1, r2);
    AppendAssociative(assumptions, r1 + r2, r3);
  }

  /** `calculateScope3`: fills the eleven categories in order and appends a record for each one it applies. */
  method CalculateScope3(p: Profile, scope1: Scope1.Scope1, scope2: Scope2.Scope2, assumptions: seq<Audit.Assumption>)
    returns (scope3: Scope3, log: seq<Audit.Assumption>)
    ensures scope3 == Scope3Of(p, scope1, scope2)
    ensures log == assumptions + Scope3Assumptions(p, scope1, scope2)
    ensures scope3.upstreamTransport == 0.0 && scope3.investments == 0.0
  {
    ghost var r1 := SpendAndEnergyAssumptions(p, scope1, scope2);
    ghost var r2 := WorkforceAssumptions(p);
    ghost var r3 := ProductAssumptions(p);
    scope3 := Scope3(0.0, 0.0, Fin(0.0), 0.0, 0.0, 0.0, 0.0, 0.0, 0.0, 0.0, 0.0);
    scope3, log := AddSpendAndEnergy(p, scope1, scope2, scope3, assumptions);
    scope3, log := AddWorkforce(p, scope3, log);
    scope3, log := AddProducts(p, scope3, log);
    AppendAssociative(assumptions, r1, r2);
    AppendAssociative(assumptions, r1 + r2, r3);
  }

  /** Fuel and energy is 20% of the Scope 1 record's three fields plus 20% of purchased electricity; NaN exactly when heating is. */
  lemma FuelEnergyShares(s1: Scope1.Scope1, s2: Scope2.Scope2)
    ensures s1.facilities.Fin? ==>
              FuelEnergy(s1, s2) == Fin(0.2 * (s1.facilities.v + s1.fleet + s1.onSiteCombustion) + 0.2 * s2.purchasedElectricity)
    ensures FuelEnergy(s1, s2) == NaN <==> s1.facilities == NaN
  {
  }

  /** The four named distribution methods have their own factor; any other method, or none, uses 1.2. */
  lemma DistributionFactorCases(distributionMethod: string)
    ensures distributionMethod == "local" ==> DistributionFactor(distributionMethod) == 0.5
    ensures distributionMethod == "national" ==> DistributionFactor(distributionMethod) == 3.5
    ensures distributionMethod == "international" ==> DistributionFactor(distributionMethod) == 10.0
    ensures distributionMethod !in {"local", "national", "international"} ==> DistributionFactor(distributionMethod) == 1.2
    ensures DistributionFactor(distributionMethod) > 0.0
  {
  }

  /** Electric devices emit 10, 50 or 200 kg a year by intensity (50 when unrated), fuel-consuming products 4600, anything else 0. */
  lemma AnnualEmissionPerUnitCases(products: Products)
    ensures products.productType == "electric_devices" && products.energyIntensity !in {"low", "high"} ==>
              AnnualEmissionPerUnit(products) == 50.0
    ensures products.productType == "electric_devices" && products.energyIntensity == "low" ==> AnnualEmissionPerUnit(products) == 10.0
    ensures products.productType == "electric_devices" && products.energyIntensity == "high" ==> AnnualEmissionPerUnit(products) == 200.0
    ensures products.productType == "fuel_consuming" ==> AnnualEmissionPerUnit(products) == 4600.0
    ensures products.productType !in {"electric_devices", "fuel_consuming"} ==> AnnualEmissionPerUnit(products) == 0.0
  {
  }

  /** The heavy end-of-life mass applies exactly when the industry id contains "manufacturing" or "food". */
  lemma MassPerDollarCases(industry: string)
    ensures MassPerDollar(industry) == 0.5 <==>
              (exists i: nat :: OccursAt(industry, "manufacturing", i)) || (exists i: nat :: OccursAt(industry, "food", i))
    ensures MassPerDollar(industry) in {0.5, 0.01}
  {
    if industry == "" {
      assert !Contains(industry, "manufacturing") && !Contains(industry, "food");
    }
  }

  /** Unlike the intensity metrics, end of life keeps a zero or missing revenue as 0, and its record is then left out. */
  lemma EndOfLifeWithoutRevenue(p: Profile)
    requires !Truthy(p.companyBasics.revenue)
    ensures EndOfLife(p) == 0.0
    ensures ProductAssumptions(p) == RecordIf(Shipments(p) > 0.0, DownstreamRecord(p))
                                     + RecordIf(p.supplyChain.products.productType != "" && UseOfProducts(p) > 0.0, UseRecord(p))
  {
  }

  /** A product type that is not named contributes nothing and its record is left out, whatever the unit count. */
  lemma NoProductTypeNoUse(p: Profile)
    requires p.supplyChain.products.productType == ""
    ensures UseOfProducts(p) == 0.0
    ensures ProductAssumptions(p) == RecordIf(Shipments(p) > 0.0, DownstreamRecord(p)) + RecordIf(EndOfLife(p) > 0.0, EndOfLifeRecord(p))
  {
  }

  /** Each record is marked as not drawn from the user's data exactly when it is a fuel-and-energy or end-of-life record. */
  predicate Provenanced(recs: seq<Audit.Assumption>)
  {
    forall i :: 0 <= i < |recs| ==>
      (!recs[i].userProvided <==> recs[i].category == FuelEnergyCategory || recs[i].category == EndOfLifeCategory)
  }

  lemma ProvenancedAppend(a: seq<Audit.Assumption>, b: seq<Audit.Assumption>)
    requires Provenanced(a) && Provenanced(b)
    ensures Provenanced(a + b)
  {
    forall i | 0 <= i < |a + b|
      ensures (!(a + b)[i].userProvided <==> (a + b)[i].category == FuelEnergyCategory || (a + b)[i].category == EndOfLifeCategory)
    {
      if i >= |a| {
        assert (a + b)[i] == b[i - |a|];
      }
    }
  }

  lemma RecordProvenanced(condition: bool, a: Audit.Assumption)
    requires !a.userProvided <==> a.category == FuelEnergyCategory || a.category == EndOfLifeCategory
    ensures Provenanced(RecordIf(condition, a))
  {
  }

  lemma SpendAndEnergyProvenanced(p: Profile, s1: Scope1.Scope1, s2: Scope2.Scope2)
    ensures Provenanced(SpendAndEnergyAssumptions(p, s1, s2))
  {
    var g := RecordIf(PurchasedGoods(p) > 0.0, GoodsRecord(p));
    var c := RecordIf(Capex(p) > 0.0, CapitalRecord(p));
    var e := RecordIf(Above(FuelEnergy(s1, s2), 0.0), FuelEnergyRecord(s1, s2));
    RecordProvenanced(PurchasedGoods(p) > 0.0, GoodsRecord(p));
    RecordProvenanced(Capex(p) > 0.0, CapitalRecord(p));
    RecordProvenanced(Above(FuelEnergy(s1, s2), 0.0), FuelEnergyRecord(s1, s2));
    ProvenancedAppend(g, c);
    ProvenancedAppend(g + c, e);
  }

  lemma WorkforceProvenanced(p: Profile)
    ensures Provenanced(WorkforceAssumptions(p))
  {
    var w := RecordIf(Employees(p) > 0.0, WasteRecord(p));
    var t := RecordIf(TravelBudget(p) > 0.0, TravelRecord(p));
    var m := RecordIf(Commuting(p) > 0.0, CommutingRecord(p));
    RecordProvenanced(Employees(p) > 0.0, WasteRecord(p));
    RecordProvenanced(TravelBudget(p) > 0.0, TravelRecord(p));
    RecordProvenanced(Commuting(p) > 0.0, CommutingRecord(p));
    ProvenancedAppend(w, t);
    ProvenancedAppend(w + t, m);
  }

  lemma ProductProvenanced(p: Profile)
    ensures Provenanced(ProductAssumptions(p))
  {
    var d := RecordIf(Shipments(p) > 0.0, DownstreamRecord(p));
    var u := RecordIf(p.supplyChain.products.productType != "" && UseOfProducts(p) > 0.0, UseRecord(p));
    var l := RecordIf(EndOfLife(p) > 0.0, EndOfLifeRecord(p));
    RecordProvenanced(Shipments(p) > 0.0, DownstreamRecord(p));
    RecordProvenanced(p.supplyChain.products.productType != "" && UseOfProducts(p) > 0.0, UseRecord(p));
    RecordProvenanced(EndOfLife(p) > 0.0, EndOfLifeRecord(p));
    ProvenancedAppend(d, u);
    ProvenancedAppend(d + u, l);
  }

  /** Only the fuel-and-energy and end-of-life records are marked as not drawn from the user's data. */
  lemma Scope3Provenance(p: Profile, s1: Scope1.Scope1, s2: Scope2.Scope2)
    ensures Provenanced(Scope3Assumptions(p, s1, s2))
  {
    SpendAndEnergyProvenanced(p, s1, s2);
    WorkforceProvenanced(p);
    ProductProvenanced(p);
    ProvenancedAppend(SpendAndEnergyAssumptions(p, s1, s2), WorkforceAssumptions(p));
    ProvenancedAppend(SpendAndEnergyAssumptions(p, s1, s2) + WorkforceAssumptions(p), ProductAssumptions(p));
  }

  /** On a sensible profile the spend- and headcount-based categories are non-negative. */
  lemma SpendCategoriesNonNegative(p: Profile)
    requires Sensible(p)
    ensures PurchasedGoods(p) >= 0.0 && CapitalGoods(p) >= 0.0 && Waste(p) >= 0.0 && BusinessTravel(p) >= 0.0
    ensures Commuting(p) >= 0.0
  {
    CoerceInRange(p.travel.remoteWorkPercent, 0.0, 0.0, 100.0);
    MulNonNegative(Employees(p), 1.0 - RemotePercent(p) / 100.0);
  }

  /** On a sensible profile the categories of sold products are non-negative. */
  lemma ProductCategoriesNonNegative(p: Profile)
    requires Sensible(p)
    ensures DownstreamTransport(p) >= 0.0 && UseOfProducts(p) >= 0.0 && EndOfLife(p) >= 0.0
  {
    var rate := AnnualEmissionPerUnit(p.supplyChain.products);
    assert rate >= 0.0;
    MulNonNegative(Units(p), Lifetime(p));
    MulNonNegative(Units(p) * Lifetime(p), rate);
    MulNonNegative(Shipments(p), DistributionFactor(p.supplyChain.distribution.distributionMethod));
    MulNonNegative(Revenue(p), MassPerDollar(p.companyBasics.industry));
  }

  /**
   * On a sensible profile, and given non-negative Scope 1 and Scope 2 records,
   * every Scope 3 category is non-negative and the Scope 3 total is finite and non-negative.
   */
  lemma Scope3NonNegative(p: Profile, s1: Scope1.Scope1, s2: Scope2.Scope2)
    requires Sensible(p)
    requires Scope1.Total(s1).Fin? && Scope1.Total(s1).v >= 0.0 && s2.purchasedElectricity >= 0.0
    ensures var s := Scope3Of(p, s1, s2);
            && s.purchasedGoods >= 0.0 && s.capitalGoods >= 0.0 && s.fuelEnergy.Fin? && s.fuelEnergy.v >= 0.0
            && s.waste >= 0.0 && s.businessTravel >= 0.0 && s.commuting >= 0.0 && s.downstreamTransport >= 0.0
            && s.useOfProducts >= 0.0 && s.endOfLife >= 0.0
    ensures Total(Scope3Of(p, s1, s2)).Fin? && Total(Scope3Of(p, s1, s2)).v >= 0.0
  {
    SpendCategoriesNonNegative(p);
    ProductCategoriesNonNegative(p);
  }
}
