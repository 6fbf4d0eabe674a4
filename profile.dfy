/**
 * The normalised company profile the engine reads (the record the questionnaire
 * layer builds). Every numeric leaf is a `JsNum`; every text leaf is a string in
 * which "" stands for an empty, null or absent answer; every flag is a boolean
 * (absent reads as false). An absent sub-object behaves as one whose leaves are
 * all absent, except the floor-area mapping, whose shape the engine inspects.
 */
module Profile {
  import opened JsValues

  /** The region assumed when the profile names none; also the building-intensity fallback row. */
  const DefaultRegion: string := "North America"

  /** Identification and size of the company; the engine dereferences it unconditionally. */
  datatype CompanyBasics = CompanyBasics(
    revenue: JsNum,
    industry: string,
    employees: JsNum,
    primaryRegion: string,
    hqCountry: string)

  /**
   * `operations.squareFootage`: absent, a bare number (as the sample profile
   * passes it), or an object whose properties, in their order, map building
   * types to areas. Property names are assumed distinct, as in any JS object.
   */
  datatype Areas =
    | NoAreas
    | ScalarArea(n: JsNum)
    | AreaTable(entries: seq<(string, JsNum)>)

  datatype Hvac = Hvac(heating: bool, airConditioning: bool, heatingSource: string, coolingIntensity: string)

  datatype Fleet = Fleet(hasFleet: string, numVehicles: JsNum, electricPercent: JsNum)

  datatype Operations = Operations(squareFootage: Areas, hvac: Hvac, fleet: Fleet)

  datatype PurchasedGoods = PurchasedGoods(rawMaterials: JsNum, services: JsNum, capitalEquipment: JsNum)

  datatype Suppliers = Suppliers(domestic: bool, regional: bool, international: bool)

  datatype Distribution = Distribution(annualShipments: JsNum, distributionMethod: string)

  datatype Products = Products(productType: string, annualUnitsSold: JsNum, avgLifetime: JsNum, energyIntensity: string)

  datatype SupplyChain = SupplyChain(
    purchasedGoods: PurchasedGoods,
    suppliers: Suppliers,
    distribution: Distribution,
    products: Products)

  datatype Travel = Travel(travelBudget: JsNum, remoteWorkPercent: JsNum)

  datatype Energy = Energy(renewablePurchases: bool, renewablePercent: JsNum)

  datatype Profile = Profile(
    companyBasics: CompanyBasics,
    operations: Operations,
    supplyChain: SupplyChain,
    travel: Travel,
    energy: Energy)

  /** The entirely empty questionnaire: every leaf absent. */
  const EmptyProfile: Profile :=
    Profile(
      CompanyBasics(Undefined, "", Undefined, "", ""),
      Operations(NoAreas, Hvac(false, false, "", ""), Fleet("", Undefined, Undefined)),
      SupplyChain(
        PurchasedGoods(Undefined, Undefined, Undefined),
        Suppliers(false, false, false),
        Distribution(Undefined, ""),
        Products("", Undefined, Undefined, "")),
      Travel(Undefined, Undefined),
      Energy(false, Undefined))

  predicate AreasNonNegative(a: Areas)
  {
    match a
    case NoAreas => true
    case ScalarArea(n) => NonNegative(n)
    case AreaTable(es) => forall i :: 0 <= i < |es| ==> NonNegative(es[i].1)
  }

  /**
   * Every numeric answer is absent or non-negative, and every percentage is
   * absent or within [0, 100].
   */
  predicate Sensible(p: Profile)
  {
    && NonNegative(p.companyBasics.revenue)
    && NonNegative(p.companyBasics.employees)
    && AreasNonNegative(p.operations.squareFootage)
    && NonNegative(p.operations.fleet.numVehicles)
    && InRange(p.operations.fleet.electricPercent, 0.0, 100.0)
    && NonNegative(p.supplyChain.purchasedGoods.rawMaterials)
    && NonNegative(p.supplyChain.purchasedGoods.services)
    && NonNegative(p.supplyChain.purchasedGoods.capitalEquipment)
    && NonNegative(p.supplyChain.distribution.annualShipments)
    && NonNegative(p.supplyChain.products.annualUnitsSold)
    && NonNegative(p.supplyChain.products.avgLifetime)
    && NonNegative(p.travel.travelBudget)
    && InRange(p.travel.remoteWorkPercent, 0.0, 100.0)
    && InRange(p.energy.renewablePercent, 0.0, 100.0)
  }
}
