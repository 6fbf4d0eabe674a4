/**
 * The reference table of emission factors: its shape, the shipped values, and
 * the industry display-name helper. The engine reads the table and never
 * changes it. Each keyed sub-table is a JavaScript object, read as the ordered
 * list of its properties.
 */
module EmissionFactors {
  import opened JsValues

  /** An entry of the `industries` array. */
  datatype IndustryRecord = IndustryRecord(
    id: string,
    name: string,
    revenueIntensity: real,  // tCO2e per $M revenue
    naicsCount: nat,
    source: string)

  /** Grid factors of one country, in kg CO2e per kWh. */
  datatype GridFactor = GridFactor(locationBased: real, upstream: real, tdLoss: real, source: string, year: nat)

  /** Factors of one fuel; only some fuels carry a per-therm combustion factor (kg CO2e per therm). */
  datatype FuelFactor = FuelFactor(combustion: real, combustionPerTherm: Option<real>, upstream: real, source: string)

  datatype Operational = Operational(
    employeeCommute: real,
    employeeWaste: real,
    vehicleAnnual: seq<(string, real)>,
    businessTravel: real)

  datatype Metadata = Metadata(version: string, lastUpdated: string, sources: seq<string>)

  datatype Factors = Factors(
    industries: seq<IndustryRecord>,
    gridFactors: seq<(string, GridFactor)>,
    fuels: seq<(string, FuelFactor)>,
    buildingIntensity: seq<(string, seq<(string, real)>)>,  // region -> building type -> kWh per sqft per year
    transport: seq<(string, real)>,
    transportSource: string,
    spendBased: seq<(string, real)>,
    spendBasedSource: string,
    operational: Operational,
    useOfProducts: seq<(string, seq<(string, real)>)>,
    endOfLife: seq<(string, real)>,
    metadata: Metadata)

  /**
   * The numeric property `name` of an industry record, as `record[name]` reads it
   * in JavaScript: the record's numeric properties are `revenueIntensity` and
   * `naicsCount`; every other name is a text property or no property at all.
   */
  function NumericProperty(r: IndustryRecord, name: string): JsNum
  {
    if name == "revenueIntensity" then Number(r.revenueIntensity)
    else if name == "naicsCount" then Number(r.naicsCount as real)
    else Undefined
  }

  /** The shipped table, version 1.0.0, one constant per sub-table. */
  const Table: Factors := Factors(
    Industries, GridFactors, Fuels, BuildingIntensity,
    Transport, TransportSource, SpendBased, SpendBasedSource,
    OperationalFactors, UseOfProducts, EndOfLife, TableMetadata)

  /** The `industries` array: tCO2e per $M revenue by industry. */
  const Industries: seq<IndustryRecord> := [
    IndustryRecord("tech_software", "Technology & Software", 84.3, 6, "EPA EEIO v1.3 (2022 data)"),
    IndustryRecord("financial_services", "Financial Services & Insurance", 78.0, 41, "EPA EEIO v1.3 (2022 data)"),
    IndustryRecord("professional_services", "Professional Services", 90.5, 45, "EPA EEIO v1.3 (2022 data)"),
    IndustryRecord("healthcare", "Healthcare & Life Sciences", 118.5, 30, "EPA EEIO v1.3 (2022 data)"),
    IndustryRecord("retail", "Retail & E-commerce", 123.7, 66, "EPA EEIO v1.3 (2022 data)"),
    IndustryRecord("food_beverage", "Food & Beverage Production", 486.3, 49, "EPA EEIO v1.3 (2022 data)"),
    IndustryRecord("hospitality", "Restaurant & Hospitality", 150.4, 15, "EPA EEIO v1.3 (2022 data)"),
    IndustryRecord("manufacturing_electronics", "Manufacturing - Electronics", 95.8, 24, "EPA EEIO v1.3 (2022 data)"),
    IndustryRecord("manufacturing_machinery", "Manufacturing - Machinery", 204.8, 39, "EPA EEIO v1.3 (2022 data)"),
    IndustryRecord("manufacturing_consumer", "Manufacturing - Consumer Goods", 186.3, 39, "EPA EEIO v1.3 (2022 data)"),
    IndustryRecord("construction", "Construction & Real Estate", 226.2, 31, "EPA EEIO v1.3 (2022 data)"),
    IndustryRecord("transportation", "Transportation & Logistics", 518.7, 57, "EPA EEIO v1.3 (2022 data)"),
    IndustryRecord("energy_utilities", "Energy & Utilities", 566.5, 4, "EPA EEIO v1.3 (2022 data)"),
    IndustryRecord("telecommunications", "Telecommunications", 81.0, 5, "EPA EEIO v1.3 (2022 data)"),
    IndustryRecord("education", "Education", 116.4, 17, "EPA EEIO v1.3 (2022 data)"),
    IndustryRecord("agriculture", "Agriculture", 726.6, 64, "EPA EEIO v1.3 (2022 data)"),
    IndustryRecord("pharmaceuticals", "Pharmaceuticals", 155.3, 4, "EPA EEIO v1.3 (2022 data)"),
    IndustryRecord("automotive", "Automotive", 259.1, 15, "EPA EEIO v1.3 (2022 data)"),
    IndustryRecord("aerospace", "Aerospace & Defense", 199.2, 6, "EPA EEIO v1.3 (2022 data)"),
    IndustryRecord("media", "Media & Entertainment", 58.5, 14, "EPA EEIO v1.3 (2022 data)")
  ]

  /** Grid factors by ISO country code. */
  const GridFactors: seq<(string, GridFactor)> := [
    ("US", GridFactor(0.386, 0.077, 0.06, "EPA eGRID 2023", 2023)),
    ("CA", GridFactor(0.12, 0.024, 0.08, "Environment Canada 2023", 2023)),
    ("MX", GridFactor(0.46, 0.092, 0.12, "IEA 2023", 2023)),
    ("BR", GridFactor(0.08, 0.016, 0.15, "IEA 2023 (hydro-dominant)", 2023)),
    ("AR", GridFactor(0.35, 0.07, 0.13, "IEA 2023", 2023)),
    ("GB", GridFactor(0.233, 0.047, 0.08, "UK BEIS 2023", 2023)),
    ("DE", GridFactor(0.42, 0.084, 0.06, "German EPA 2023", 2023)),
    ("FR", GridFactor(0.052, 0.01, 0.06, "IEA 2023 (nuclear-dominant)", 2023)),
    ("IT", GridFactor(0.28, 0.056, 0.06, "IEA 2023", 2023)),
    ("ES", GridFactor(0.21, 0.042, 0.08, "IEA 2023", 2023)),
    ("RU", GridFactor(0.45, 0.09, 0.10, "IEA 2023", 2023)),
    ("TR", GridFactor(0.48, 0.096, 0.14, "IEA 2023", 2023)),
    ("SA", GridFactor(0.62, 0.124, 0.08, "IEA 2023 (oil/gas)", 2023)),
    ("CN", GridFactor(0.555, 0.111, 0.06, "IEA 2023 (coal-heavy)", 2023)),
    ("IN", GridFactor(0.82, 0.164, 0.08, "IEA 2023 (coal-dominant)", 2023)),
    ("JP", GridFactor(0.463, 0.093, 0.05, "IEA 2023", 2023)),
    ("KR", GridFactor(0.436, 0.087, 0.04, "IEA 2023 (South Korea)", 2023)),
    ("ID", GridFactor(0.71, 0.142, 0.10, "IEA 2023 (coal-heavy)", 2023)),
    ("AU", GridFactor(0.71, 0.142, 0.06, "IEA 2023 (coal-heavy)", 2023)),
    ("ZA", GridFactor(0.95, 0.19, 0.08, "IEA 2023 (coal-dominant)", 2023))
  ]

  /** Fuel factors by fuel name. */
  const Fuels: seq<(string, FuelFactor)> := [
    ("natural_gas", FuelFactor(0.0053, Some(5.3), 0.0011, "EPA 2025")),
    ("gasoline", FuelFactor(8.89, None, 1.78, "EPA 2025")),
    ("diesel", FuelFactor(10.21, None, 2.04, "EPA 2025")),
    ("heating_oil", FuelFactor(10.15, None, 2.03, "EPA 2025")),
    ("propane", FuelFactor(5.74, None, 1.15, "EPA 2025"))
  ]

  /** Electricity intensity by region and building type, in kWh per sqft per year. */
  const BuildingIntensity: seq<(string, seq<(string, real)>)> := [
    ("North America", [
      ("office", 15.5),
      ("warehouse", 8.2),
      ("retail", 18.1),
      ("manufacturing_light", 25.0),
      ("manufacturing_heavy", 45.0),
      ("data_center", 250.0)
    ])
  ]

  const Transport: seq<(string, real)> := [
    ("truck", 0.162), ("rail", 0.022), ("air", 0.602), ("sea", 0.011),
    ("parcel_local", 0.5), ("parcel_regional", 1.2), ("parcel_national", 3.5), ("parcel_international", 10.0)
  ]

  const TransportSource: string := "DEFRA 2023"

  const SpendBased: seq<(string, real)> := [
    ("raw_materials_general", 0.45), ("professional_services", 0.12), ("capital_equipment", 0.5),
    ("goods_for_resale_general", 0.35), ("upstream_transport_domestic", 0.1),
    ("upstream_transport_international", 0.2)
  ]

  const SpendBasedSource: string := "EPA EEIO 2023"

  const OperationalFactors: Operational := Operational(
    2.0,
    0.5,
    [("gasoline_annual", 4.6), ("diesel_annual", 5.2), ("electric_annual", 1.2), ("hybrid_annual", 2.5)],
    0.00015)

  const UseOfProducts: seq<(string, seq<(string, real)>)> := [
    ("electric_devices", [("high", 200.0), ("medium", 50.0), ("low", 10.0)]),
    ("fuel_consuming", [("vehicles", 4600.0), ("generators", 1200.0), ("equipment", 800.0)]),
    ("indirect_use", [("washing", 5.0), ("cooking", 15.0)])
  ]

  const EndOfLife: seq<(string, real)> := [("landfill", 0.5), ("incineration", 0.3), ("recycling", 0.1)]

  const TableMetadata: Metadata := Metadata("1.0.0", "2025-12-11", ["EPA EEIO v1.3 (2022 data)", "EPA GHG Emission Factors Hub (2025)", "EPA eGRID 2023"])

  /** The display names `getIndustryName` knows, as its `names` object lists them. */
  const IndustryNames: seq<(string, string)> := [
    ("tech_software", "Technology & Software"),
    ("financial_services", "Financial Services & Insurance"),
    ("professional_services", "Professional Services"),
    ("healthcare", "Healthcare & Life Sciences"),
    ("retail", "Retail & E-commerce"),
    ("food_beverage", "Food & Beverage Production"),
    ("hospitality", "Restaurant & Hospitality"),
    ("manufacturing_electronics", "Manufacturing - Electronics"),
    ("manufacturing_machinery", "Manufacturing - Machinery"),
    ("manufacturing_consumer", "Manufacturing - Consumer Goods"),
    ("construction", "Construction & Real Estate"),
    ("transportation", "Transportation & Logistics"),
    ("energy_utilities", "Energy & Utilities"),
    ("telecommunications", "Telecommunications"),
    ("education", "Education"),
    ("agriculture", "Agriculture"),
    ("pharmaceuticals", "Pharmaceuticals"),
    ("automotive", "Automotive"),
    ("aerospace", "Aerospace & Defense"),
    ("media", "Media & Entertainment")
  ]

  /** `names[id] || id`: the display name of a known industry id, otherwise the id itself. */
  function GetIndustryName(id: string): (r: string)
    ensures r == id || exists i :: 0 <= i < |IndustryNames| && IndustryNames[i] == (id, r)
    ensures r != "" || id == ""
  {
    match Get(IndustryNames, id)
    case Some(name) => if name != "" then name else id
    case None => id
  }

  /** The fallback country `US` is listed first with location-based factor 0.386; every grid factor is positive and cites a source. */
  lemma GridFactorsWellFormed()
    ensures Get(Table.gridFactors, "US") == Some(Table.gridFactors[0].1)
    ensures Table.gridFactors[0].1.locationBased == 0.386
    ensures |Table.gridFactors| == 20
    ensures forall i :: 0 <= i < |Table.gridFactors| ==>
              Table.gridFactors[i].1.locationBased > 0.0 && Table.gridFactors[i].1.source != ""
  {
  }

  /** The building table has the single region `North America`, with a positive intensity for each building type. */
  lemma BuildingIntensityWellFormed()
    ensures |Table.buildingIntensity| == 1 && Table.buildingIntensity[0].0 == "North America"
    ensures forall i :: 0 <= i < |Table.buildingIntensity[0].1| ==> Table.buildingIntensity[0].1[i].1 > 0.0
  {
  }

  /** Of the five fuels, only natural gas carries a per-therm combustion factor, 5.3 kg CO2e per therm. */
  lemma FuelsPerTherm()
    ensures |Table.fuels| == 5
    ensures forall i :: 0 <= i < |Table.fuels| ==>
              (Table.fuels[i].1.combustionPerTherm.Some? <==> i == 0) && Table.fuels[i].1.source != ""
    ensures Table.fuels[0] == ("natural_gas", FuelFactor(0.0053, Some(5.3), 0.0011, "EPA 2025"))
  {
  }

  /**
   * `industries` is an array of 20 records with a positive revenue intensity
   * and a source each; no record has a property named `intensity`.
   */
  lemma IndustriesWellFormed()
    ensures |Table.industries| == 20
    ensures forall i :: 0 <= i < |Table.industries| ==>
              Table.industries[i].revenueIntensity > 0.0 && Table.industries[i].source != ""
              && Table.industries[i].name != ""
              && NumericProperty(Table.industries[i], "intensity") == Undefined
  {
  }

  /** The `names` object of `getIndustryName` lists exactly the ids and names of the industries array, in order. */
  lemma IndustryNamesAreTableColumns()
    ensures |IndustryNames| == |Table.industries|
    ensures forall i :: 0 <= i < |IndustryNames| ==>
              IndustryNames[i] == (Table.industries[i].id, Table.industries[i].name)
  {
  }

  /** A fingerprint of a name, its length and first character: equal names have equal fingerprints. */
  function Fingerprint(s: string): int
  {
    |s| * 256 + (if |s| > 0 then s[0] as int else 0)
  }

  const IndustryFingerprints: seq<int> :=
    [3444, 4710, 5488, 2664, 1650, 3430, 2920, 6509, 5997, 5741, 3171, 3700, 4197, 4724, 2405, 2913, 3952, 2657, 2401, 1389]

  lemma IndustryFingerprintsListed()
    ensures |IndustryFingerprints| == |IndustryNames|
    ensures forall i :: 0 <= i < |IndustryNames| ==> Fingerprint(IndustryNames[i].0) == IndustryFingerprints[i]
  {
  }

  lemma IndustryFingerprintsDistinct()
    ensures forall i, j :: 0 <= i < j < |IndustryFingerprints| ==> IndustryFingerprints[i] != IndustryFingerprints[j]
  {
  }

  /** The industry ids are pairwise distinct (already their fingerprints are), so `names` is a well-formed object. */
  lemma IndustryIdsDistinct()
    ensures forall i, j :: 0 <= i < j < |Table.industries| ==> Table.industries[i].id != Table.industries[j].id
    ensures DistinctKeys(IndustryNames)
  {
    IndustryFingerprintsListed();
    IndustryFingerprintsDistinct();
    IndustryNamesAreTableColumns();
    forall i, j | 0 <= i < j < |IndustryNames| ensures IndustryNames[i].0 != IndustryNames[j].0 {
      assert Fingerprint(IndustryNames[i].0) != Fingerprint(IndustryNames[j].0);
    }
  }

  /** `getIndustryName` gives each industry of the table the display name the table records for it. */
  lemma GetIndustryNameKnown(i: nat)
    requires i < |Table.industries|
    ensures GetIndustryName(Table.industries[i].id) == Table.industries[i].name
  {
    IndustryIdsDistinct();
    IndustryNamesAreTableColumns();
    IndustriesWellFormed();
    var entry := IndustryNames[i];
    GetOwnProperty(IndustryNames, i);
    assert Get(IndustryNames, entry.0) == Some(entry.1);
  }

  /** An id that is none of the table's industries comes back unchanged. */
  lemma GetIndustryNameUnknown(id: string)
    requires forall i :: 0 <= i < |Table.industries| ==> Table.industries[i].id != id
    ensures GetIndustryName(id) == id
  {
    IndustryNamesAreTableColumns();
  }
}
