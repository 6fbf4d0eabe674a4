/**
 * The audit trail the engine returns: one assumption record per calculation step
 * that it applied, appended in evaluation order, and the data-quality warnings.
 */
module Audit {
  import opened JsValues

  /**
   * The values a step's human-readable formula interpolates, step by step. The
   * text around them and the number formatting (`toLocaleString`, `toFixed`) are
   * not modelled.
   */
  datatype Formula =
    | FacilitiesHeating(sqft: real, thermsPerSqft: real, kgPerTherm: Option<real>)
    | VehicleFleet(iceVehicles: real, tonnesPerVehicle: real)
    | BuildingElectricity(sqft: real, buildingType: string, kWhPerSqft: real, hvacMultiplier: real, kWh: real)
    | ElectricVehicles(evs: real)
    | GridEmissionFactor(kWh: real, kgPerKWh: real)
    | PurchasedGoods(rawMaterials: real, services: real)
    | CapitalGoods(capex: real)
    | FuelEnergy(scope1Total: Num, scope2Total: real)
    | Waste(employees: real)
    | BusinessTravel(budget: real)
    | Commuting(employees: real, remotePercent: real)
    | DownstreamTransport(shipments: real, kgPerShipment: real, distributionMethod: string)
    | UseOfProducts(units: real, lifetime: real, kgPerUnitYear: real)
    | EndOfLife(revenue: real, kgPerDollar: real)

  /** One applied step: its category label, formula, source citation and whether it used the user's data. */
  datatype Assumption = Assumption(category: string, formula: Formula, source: string, userProvided: bool)

  /** An advisory data-quality observation: a type tag and a message. */
  datatype Warning = Warning(kind: string, message: string)
}
