# Carbon footprint engine, modelled in Dafny

This project models the calculation engine of a small-business carbon footprint estimator. The engine takes a normalised questionnaire profile and the constant emission-factor table. It runs three calculators in order, over one shared list of assumption records:

- Scope 1 covers on-site heating fuel and the vehicle fleet.
- Scope 2 covers purchased electricity: buildings and electric vehicles, net of renewables, times the grid factor.
- Scope 3 covers eleven value-chain categories. Fuel and energy is derived from the finished Scope 1 and Scope 2 records.

The engine then adds the three scopes into a summary and grand total. From that it derives:

- the intensity metrics per employee and per $M of revenue;
- a comparison with an industry average;
- a confidence score based on how many questions were answered;
- a sanity warning when Scope 3 looks low.

The model keeps the JavaScript behaviour that matters:

- `parseFloat(x) || d` turns a missing, NaN *or zero* answer into `d` (`JsValues.Coerce`).
- A heating fuel without a per-therm factor multiplies by `undefined`. The result is NaN, and it propagates to the totals (`JsValues.Num`).
- `x / 0` in the sanity check gives an infinity or NaN (`Sanity.Quotient`).
- The industry lookup indexes an *array* by an industry id and reads a property that no record has. It therefore always falls back to 100 t per $M.
- Scope 1 sums every value of the floor-area mapping. Scope 2 reads only the five fixed building types, in order. A bare number as the floor area, as the sample profile passes it, gives no area to either.

Modules, one per file:

| module | file | models |
|---|---|---|
| `JsValues` | js_values.dfy | JavaScript numbers, coercions, `Math.round`, `includes`, property lookup |
| `EmissionFactors` | emission_factors.dfy | the `EMISSION_FACTORS` table and `getIndustryName` |
| `Audit` | audit.dfy | assumption records and warnings |
| `Profile` | profile.dfy | the questionnaire profile |
| `Scope1`, `Scope2`, `Scope3` | scope1.dfy, scope2.dfy, scope3.dfy | the three calculators |
| `Comparison` | comparison.dfy | `calculateIndustryComparison` |
| `Confidence` | confidence.dfy | `calculateConfidence` |
| `Sanity` | sanity.dfy | `performSanityChecks` |
| `Footprint` | footprint.dfy | `calculateFootprint` |
| `Examples` | examples.dfy | the empty profile and the sample profile of the test script, traced through the engine |

Each imperative part of the source is a `method`: the calculators push onto the shared list, Scope 2 loops over the building types, the confidence counter is incremented question by question, and the result object is filled field by field. Each method is proved equal to a specification function of its inputs, for example `Scope2.Scope2Of` and `Scope2.Scope2Assumptions`, with `log == assumptions + Scope2Assumptions(p, f)` for the list. The properties are then lemmas about those functions. The assumption list is threaded through the methods as an in/out sequence; this replaces the shared array that the source pushes onto.

## Model

| member | source | states |
|---|---|---|
| JsValues.Coerce | src/js/calculations.js:217-218 | `parseFloat(x) \|\| d`: a truthy number is kept, anything else (absent, NaN, 0) becomes `d`; a non-zero default gives a non-zero result |
| JsValues.Add | src/js/calculations.js:40-47 | a sum is finite exactly when both operands are; NaN absorbs |
| JsValues.Scale | src/js/calculations.js:53 | scaling keeps finiteness; NaN stays NaN |
| JsValues.Divide | src/js/calculations.js:52-53 | division by a non-zero number keeps finiteness; NaN stays NaN |
| JsValues.Round | src/js/calculations.js:415 | `Math.round` gives the integer within half of `x`: `x - 0.5 < n <= x + 0.5` |
| JsValues.RoundNum | src/js/calculations.js:361 | `Math.round` of an engine number: finite exactly when the input is, and then the rounded value |
| JsValues.RoundBounds | src/js/calculations.js:415 | rounding a value within two integers stays within them |
| JsValues.Contains | src/js/calculations.js:330 | `s.includes(sub)` holds exactly when `sub` occurs at some position of `s` |
| JsValues.ContainedCharacter | src/js/calculations.js:330 | if `sub` occurs in `s`, every character of `sub` is a character of `s` |
| JsValues.ArrayIndex | src/js/calculations.js:351 | a string indexes an array only when it is a non-empty run of decimal digits |
| JsValues.Get | src/js/calculations.js:84 | a property lookup that finds a value finds it under the name asked for |
| JsValues.GetMisses | src/js/calculations.js:188 | a lookup misses exactly when no property has that name |
| JsValues.GetOwnProperty | src/js/data/emissionFactors.js:395-417 | in an object with distinct names, each property's name yields its own value |
| EmissionFactors.GridFactorsWellFormed | src/js/data/emissionFactors.js:148-289 | 20 countries, `US` first with location-based factor 0.386 and found by lookup; every factor positive with a source |
| EmissionFactors.BuildingIntensityWellFormed | src/js/data/emissionFactors.js:318-327 | a single region, `North America`, with a positive intensity for every building type |
| EmissionFactors.FuelsPerTherm | src/js/data/emissionFactors.js:290-317 | five fuels, only natural gas (first) has a per-therm factor, 5.3; every fuel cites a source |
| EmissionFactors.IndustriesWellFormed | src/js/data/emissionFactors.js:6-147 | 20 industry records with positive `revenueIntensity`, a name and a source, and no property named `intensity` |
| EmissionFactors.IndustryNamesAreTableColumns | src/js/data/emissionFactors.js:394-418 | the `names` object of `getIndustryName` lists the industry ids and names of the table, in order |
| EmissionFactors.IndustryIdsDistinct | src/js/data/emissionFactors.js:6-147 | the 20 industry ids are pairwise distinct, so `names` is a well-formed object |
| EmissionFactors.GetIndustryName | src/js/data/emissionFactors.js:394-418 | the display name is either the id itself or the name listed against that id; it is empty only for the empty id |
| EmissionFactors.GetIndustryNameKnown | src/js/data/emissionFactors.js:394-418 | each of the 20 known ids yields its listed display name |
| EmissionFactors.GetIndustryNameUnknown | src/js/data/emissionFactors.js:417 | any other id comes back unchanged |
| Scope1.AreaSum | src/js/calculations.js:67-68 | an area list with no truthy value sums to 0 |
| Scope1.SumAreas | src/js/calculations.js:67-68 | the `reduce` loop computes `AreaSum` of the area values |
| Scope1.Facilities | src/js/calculations.js:70-96 | heating is non-zero only when the heating flag is set, the floor area is positive and the table lists the fuel |
| Scope1.FleetTonnes | src/js/calculations.js:100-117 | the fleet category is non-negative, and positive only for a declared fleet with a truthy vehicle count |
| Scope1.Scope1Of | src/js/calculations.js:64-120 | on-site combustion is 0 and the fleet is non-negative |
| Scope1.Scope1Assumptions | src/js/calculations.js:89-115 | at most two records, each user-provided and either the heating or the fleet record |
| Scope1.CalculateScope1 | src/js/calculations.js:64-120 | the method computes `Scope1Of(p, f)` and appends exactly `Scope1Assumptions(p, f)`; on-site combustion is 0 and the fleet is non-negative |
| Scope1.HeatingCoefficientCases | src/js/calculations.js:75-81 | 0.8 exactly for North America and Europe, 0.2 exactly for South America and Africa, else 0.5 |
| Scope1.FacilitiesUndefinedExactly | src/js/calculations.js:84-87 | heating is NaN exactly when a listed fuel heats the facilities but has no per-therm factor |
| Scope1.UnlistedFuelContributesNothing | src/js/calculations.js:84-86 | a heating source the table does not list gives 0 and no heating record |
| Scope1.ShippedHeatingUndefinedExactly | src/js/calculations.js:70-87 | with the shipped table, heating is NaN exactly when the heating guard passes and the fuel is gasoline, diesel, heating oil or propane |
| Scope1.AreaSumNonNegative | src/js/calculations.js:67-68 | the reduction over non-negative areas is non-negative |
| Scope1.Scope1NonNegative | src/js/calculations.js:64-120 | on a sensible profile, with a non-negative per-therm factor when one is needed, every Scope 1 category and the total are finite and non-negative |
| Scope1.FleetRecordedExactly | src/js/calculations.js:100-116 | the fleet category is positive exactly when the fleet record is appended, and then it is 4.6 t per ICE vehicle |
| Scope2.BaseIntensity | src/js/calculations.js:135-136 | the intensity is the North America value for the type, or the region's own non-zero value for it |
| Scope2.HvacMultiplier | src/js/calculations.js:138-152 | one of 1.0, 1.15, 1.3, 1.45, 1.6; exactly 1.0 without air conditioning or electric heating |
| Scope2.BuildingsKWh | src/js/calculations.js:126-166 | without an area mapping the buildings use no electricity |
| Scope2.GridFactorFor | src/js/calculations.js:187-188 | the factor is the US location-based one, or the country's own non-zero one |
| Scope2.AfterRenewables | src/js/calculations.js:195 | no electricity, or a 100% renewable share, leaves nothing to emit |
| Scope2.GridTonnes | src/js/calculations.js:196 | no electricity gives no emissions |
| Scope2.Scope2Of | src/js/calculations.js:190-196 | no electricity, or a 100% renewable share, gives 0 purchased-electricity emissions |
| Scope2.Scope2Assumptions | src/js/calculations.js:157-204 | never empty; the last record is the grid record, not user-provided |
| Scope2.ComputeHvacMultiplier | src/js/calculations.js:138-152 | the bump-by-bump multiplier equals `HvacMultiplier` and is one of 1.0, 1.15, 1.3, 1.45, 1.6 |
| Scope2.AccumulateBuildings | src/js/calculations.js:126-166 | with an area mapping, the loop sums `BuildingsKWh` over the five types and appends `BuildingAssumptions`; without one, nothing |
| Scope2.AddElectricVehicles | src/js/calculations.js:168-185 | adds `EvKWh(p)` and appends the EV record exactly when there are electric vehicles |
| Scope2.CalculateScope2 | src/js/calculations.js:122-207 | the method computes `Scope2Of(p, f)` and appends exactly `Scope2Assumptions(p, f)`, whose last entry is the grid record with `userProvided` false |
| Scope2.HvacMultiplierValues | src/js/calculations.js:138-152 | the multiplier is one of 1.0, 1.15, 1.3, 1.45, 1.6, and at least 1 |
| Scope2.ElectricBumpIgnoresHeatingFlag | src/js/calculations.js:149-151 | electric heating adds 0.3 whether or not the heating flag is set |
| Scope2.TypesWithAreaMembers | src/js/calculations.js:129-134 | a type is counted exactly when it is one of the five building types and has a positive area |
| Scope2.BuildingRecordsOnePerType | src/js/calculations.js:131-164 | one building record per building type with positive area, in the fixed order, each naming its type |
| Scope2.BuildingRecordsAddUp | src/js/calculations.js:154-163 | the kWh the building records report add up to the buildings' electricity |
| Scope2.NoMappingNoBuildings | src/js/calculations.js:126-134 | without an area mapping (absent or a bare number) no building consumes electricity or is recorded |
| Scope2.Scope2AlwaysRecordsGrid | src/js/calculations.js:198-204 | the Scope 2 records are never empty: the last is the grid record, not user-provided, citing EPA eGRID 2023 |
| Scope2.CountryFallback | src/js/calculations.js:187-188 | an unlisted or absent HQ country uses the US location-based factor |
| Scope2.ShippedFallbacksDefined | src/js/data/emissionFactors.js:148-155 | the shipped table has the US grid entry and all five North America building intensities |
| Scope2.ShippedGridFactor | src/js/calculations.js:187-188 | with the shipped table every country's factor is positive, and an unlisted one is 0.386 |
| Scope2.ShippedBaseIntensity | src/js/calculations.js:135-136 | with the shipped table every region reads the positive North America intensity |
| Scope2.ShippedIntensitiesNonNegative | src/js/data/emissionFactors.js:148-327 | the shipped grid factors and building intensities are all non-negative |
| Scope2.BuildingKWhNonNegative | src/js/calculations.js:154 | a building with positive area uses non-negative electricity when the intensities are non-negative |
| Scope2.BuildingsKWhNonNegative | src/js/calculations.js:131-165 | the buildings' total electricity is non-negative |
| Scope2.BaseIntensityNonNegative | src/js/calculations.js:135-136 | the base intensity is non-negative when the table's intensities are |
| Scope2.GridFactorNonNegative | src/js/calculations.js:188 | the grid factor is non-negative when the table's factors are |
| Scope2.TotalKWhNonNegative | src/js/calculations.js:124-185 | buildings plus electric vehicles use non-negative electricity |
| Scope2.Scope2NonNegative | src/js/calculations.js:190-196 | with a renewable share in [0, 100], purchased electricity emissions are non-negative |
| Scope3.PurchasedGoods | src/js/calculations.js:217-219 | non-negative for non-negative spend; 0 when neither raw materials nor services is answered |
| Scope3.CapitalGoods | src/js/calculations.js:231-232 | positive exactly when capital spend is |
| Scope3.FuelEnergy | src/js/calculations.js:243-244 | finite exactly when the Scope 1 total is |
| Scope3.Waste | src/js/calculations.js:254-255 | positive exactly when the headcount is |
| Scope3.BusinessTravel | src/js/calculations.js:265-266 | positive exactly when the travel budget is |
| Scope3.Commuting | src/js/calculations.js:276-277 | positive for a positive headcount under 100% remote; 0 at 100% remote |
| Scope3.DistributionFactor | src/js/calculations.js:289-290 | one of 0.5, 1.2, 3.5, 10 |
| Scope3.DownstreamTransport | src/js/calculations.js:287-291 | positive exactly when shipments are |
| Scope3.DeviceRate | src/js/calculations.js:309-310 | one of 10, 50, 200; the default 50 exactly when the rating is neither low nor high |
| Scope3.UseOfProducts | src/js/calculations.js:301-315 | 0 without a product type; non-negative for non-negative units and lifetime |
| Scope3.MassPerDollar | src/js/calculations.js:328-332 | 0.5 exactly when the industry contains "manufacturing" or "food", else 0.01 |
| Scope3.EndOfLife | src/js/calculations.js:327-333 | positive exactly when revenue is |
| Scope3.RecordIf | src/js/calculations.js:221-229 | a conditional push adds at most one record |
| Scope3.SpendAndEnergyAssumptions | src/js/calculations.js:217-253 | at most three records |
| Scope3.WorkforceAssumptions | src/js/calculations.js:254-286 | at most three records |
| Scope3.ProductAssumptions | src/js/calculations.js:287-342 | at most three records |
| Scope3.Scope3Assumptions | src/js/calculations.js:209-344 | at most nine records, one per conditional push |
| Scope3.Scope3Of | src/js/calculations.js:210-215 | upstream transport and investments are 0; fuel and energy is finite exactly when the Scope 1 total is |
| Scope3.AddPurchasedGoods | src/js/calculations.js:217-229 | sets purchased goods and appends its record exactly when the category is positive |
| Scope3.AddCapitalGoods | src/js/calculations.js:231-241 | sets capital goods and appends its record exactly when capital spend is positive |
| Scope3.AddFuelEnergy | src/js/calculations.js:243-253 | sets fuel and energy from the Scope 1 and 2 records and appends its record exactly when it is positive |
| Scope3.AddWaste | src/js/calculations.js:254-264 | sets waste and appends its record exactly when employees are positive |
| Scope3.AddBusinessTravel | src/js/calculations.js:265-275 | sets business travel and appends its record exactly when the budget is positive |
| Scope3.AddCommuting | src/js/calculations.js:276-286 | sets commuting and appends its record exactly when it is positive |
| Scope3.AddDownstreamTransport | src/js/calculations.js:287-300 | sets downstream transport and appends its record exactly when shipments are positive |
| Scope3.AddUseOfProducts | src/js/calculations.js:301-325 | sets use of products and appends its record exactly when a product type is named and the category is positive |
| Scope3.AddEndOfLife | src/js/calculations.js:327-342 | sets end of life and appends its record exactly when it is positive |
| Scope3.AddSpendAndEnergy | src/js/calculations.js:217-253 | the first three steps in order, with their records |
| Scope3.AddWorkforce | src/js/calculations.js:254-286 | the next three steps in order, with their records |
| Scope3.AddProducts | src/js/calculations.js:287-342 | the last three steps in order, with their records |
| Scope3.CalculateScope3 | src/js/calculations.js:209-344 | the method computes `Scope3Of` and appends exactly `Scope3Assumptions`; upstream transport and investments stay 0 |
| Scope3.FuelEnergyShares | src/js/calculations.js:243-244 | fuel and energy is 20% of facilities + fleet + on-site combustion plus 20% of purchased electricity, and NaN exactly when heating is |
| Scope3.DistributionFactorCases | src/js/calculations.js:289-290 | local 0.5, national 3.5, international 10; regional, any other method or none 1.2; always positive |
| Scope3.AnnualEmissionPerUnitCases | src/js/calculations.js:307-313 | electric devices 10/50/200 by intensity, 50 when unrated; fuel-consuming 4600; any other type 0 |
| Scope3.MassPerDollarCases | src/js/calculations.js:329-332 | 0.5 exactly when the industry contains "manufacturing" or "food", otherwise 0.01 |
| Scope3.EndOfLifeWithoutRevenue | src/js/calculations.js:327-341 | a zero or missing revenue stays 0 in end of life, and the end-of-life record is left out |
| Scope3.NoProductTypeNoUse | src/js/calculations.js:301-325 | without a product type, use of products is 0 and its record is left out |
| Scope3.SpendAndEnergyProvenanced | src/js/calculations.js:217-253 | among these records only fuel and energy is marked as not user-provided |
| Scope3.WorkforceProvenanced | src/js/calculations.js:254-286 | the waste, travel and commuting records are all user-provided |
| Scope3.ProductProvenanced | src/js/calculations.js:287-342 | among these records only end of life is marked as not user-provided |
| Scope3.Scope3Provenance | src/js/calculations.js:209-344 | a Scope 3 record is not user-provided exactly when it is the fuel-and-energy or the end-of-life record |
| Scope3.SpendCategoriesNonNegative | src/js/calculations.js:217-286 | on a sensible profile the spend- and headcount-based categories are non-negative |
| Scope3.ProductCategoriesNonNegative | src/js/calculations.js:287-342 | on a sensible profile the sold-product categories are non-negative |
| Scope3.Scope3NonNegative | src/js/calculations.js:209-344 | on a sensible profile with non-negative Scope 1 and 2 records, every Scope 3 category and the total are finite and non-negative |
| Comparison.IndustryLookup | src/js/calculations.js:351 | the lookup always reads `undefined` |
| Comparison.IndustryIntensity | src/js/calculations.js:351 | the intensity is always the fallback 100 |
| Comparison.Variance | src/js/calculations.js:354 | finite exactly when the total is; 0 for a total equal to the industry average |
| Comparison.RevenueMillions | src/js/calculations.js:348-349 | revenue in millions is never 0, and positive for non-negative revenue |
| Comparison.IndustryAverage | src/js/calculations.js:351-352 | the industry average is never 0, so the variance is always defined |
| Comparison.CalculateIndustryComparison | src/js/calculations.js:346-366 | interpretation is one of three; below average iff variance < -10; above average iff variance > 10; the variance is finite iff the total is; the reported total and average are their `Math.round` |
| Comparison.IndustryAlwaysFallsBack | src/js/calculations.js:351 | for any table and any industry, the lookup misses and the intensity is 100 |
| Comparison.InterpretationByTotal | src/js/calculations.js:352-358 | with non-negative revenue the average is positive; below average iff total < 0.9 × average, above average iff total > 1.1 × average |
| Comparison.UndefinedTotalReadsAverage | src/js/calculations.js:354-361 | a NaN total reads as average and rounds to NaN |
| Comparison.RoundedAverage | src/js/calculations.js:362 | the reported average is round(revenue in millions × 100), and at least 0 for non-negative revenue |
| Confidence.QuestionsAnswered | src/js/calculations.js:369-413 | at most 27 questions are counted |
| Confidence.ScoreFor | src/js/calculations.js:415 | a count within 27 scores in [0, 100]; no answers score 0 |
| Confidence.LevelFor | src/js/calculations.js:417-421 | one of the five levels; High exactly from 80, Low exactly below 20 |
| Confidence.ConfidenceOf | src/js/calculations.js:368-429 | 27 questions in total, at most 27 answered, a score in [0, 100] and the level its thresholds give |
| Confidence.CountBasics | src/js/calculations.js:372-376 | adds exactly the company-basics share of `QuestionsAnswered` to the running count |
| Confidence.CountAreas | src/js/calculations.js:378-383 | adds exactly the number of building types with a counted area to the running count |
| Confidence.CountOperations | src/js/calculations.js:378-393 | adds exactly the area, HVAC and fleet shares of `QuestionsAnswered` to the running count |
| Confidence.CountSupplyChain | src/js/calculations.js:395-410 | adds exactly the supply-chain and product shares of `QuestionsAnswered` to the running count |
| Confidence.CalculateConfidence | src/js/calculations.js:368-429 | the method computes `ConfidenceOf(p)`: answered ≤ 27, score = round(answered / 27 × 100) in [0, 100], level by thresholds |
| Confidence.Grade | src/js/calculations.js:415-421 | the score is the rounded percentage and the level is the one its thresholds give |
| Confidence.QuestionsAnsweredAtMostTotal | src/js/calculations.js:369-413 | at most 27 questions are ever counted as answered |
| Confidence.ScoreBounds | src/js/calculations.js:415 | any count within 27 scores between 0 and 100 |
| Confidence.ScoreMonotone | src/js/calculations.js:415 | answering more questions never lowers the score |
| Confidence.LevelThresholds | src/js/calculations.js:417-421 | High iff ≥ 80, Medium-High iff in [60, 80), Medium iff in [40, 60), Medium-Low iff in [20, 40), Low iff < 20 |
| Confidence.LevelMonotone | src/js/calculations.js:417-421 | a higher score never gives a lower level |
| Confidence.EmptyProfileConfidence | src/js/calculations.js:368-421 | the empty profile answers nothing and scores 0, Low |
| Confidence.FullCoverage | src/js/calculations.js:415-418 | all 27 answered scores 100, High |
| Sanity.LowScope3 | src/js/calculations.js:434-435 | the warning needs both numbers finite; a zero Scope 3 under a non-zero total always warns |
| Sanity.SanityWarnings | src/js/calculations.js:431-443 | at most one warning, present exactly when Scope 3 is low, always of type `low_scope3` |
| Sanity.Quotient | src/js/calculations.js:434 | division gives the real quotient for a non-zero divisor, and NaN exactly for 0/0 or a NaN operand |
| Sanity.PerformSanityChecks | src/js/calculations.js:431-443 | the method returns `SanityWarnings`: at most one warning, always of type `low_scope3` |
| Sanity.LowScope3PositiveTotal | src/js/calculations.js:434-435 | with a positive total, the warning is raised iff 2 × scope 3 < total |
| Sanity.LowScope3NegativeTotal | src/js/calculations.js:434-435 | with a negative total, the warning is raised iff 2 × scope 3 > total |
| Sanity.LowScope3ZeroTotal | src/js/calculations.js:434-435 | with a zero total, the warning is raised iff scope 3 is negative; 0/0 raises none |
| Sanity.LowScope3Undefined | src/js/calculations.js:434-435 | a NaN scope 3 or total raises no warning |
| Footprint.SummaryOf | src/js/calculations.js:40-47 | the total is finite exactly when Scope 1 and Scope 3 are, and is then their sum with Scope 2 |
| Footprint.IntensityMetricsOf | src/js/calculations.js:49-53 | both metrics are finite exactly when the total is |
| Footprint.FootprintOf | src/js/calculations.js:3-62 | the summary, metrics, comparison and warnings are those of the reported breakdown and total; version 1.0.0 |
| Footprint.AssumptionsOf | src/js/calculations.js:29-58 | the Scope 2 grid record sits right after the Scope 1 records and the other Scope 2 records |
| Footprint.SummaryFuelEnergy | src/js/calculations.js:40-47 | a derived fuel-and-energy category is 20% of the summary's Scope 1 plus 20% of its Scope 2 |
| Footprint.EmployeesOrOne | src/js/calculations.js:50 | the per-employee denominator is never 0 |
| Footprint.RevenueOrOne | src/js/calculations.js:49 | the per-revenue denominator is never 0 |
| Footprint.CalculateScopes | src/js/calculations.js:29-38 | the three calculators in order compute `BreakdownOf` and the shared list `AssumptionsOf` |
| Footprint.Summarize | src/js/calculations.js:40-47 | the method computes `SummaryOf` of the breakdown |
| Footprint.CalculateFootprint | src/js/calculations.js:3-62 | the method fills the result object to `FootprintOf(p, f)` |
| Footprint.SummaryAdds | src/js/calculations.js:40-47 | the scope totals are the sums of their categories and the total is their sum; the total is finite iff heating and fuel-and-energy are |
| Footprint.ReservedCategoriesZero | src/js/calculations.js:9-15 | on-site combustion, upstream transport and investments are always 0 |
| Footprint.FuelEnergyFromScopes | src/js/calculations.js:243-244 | fuel and energy is 20% of the reported Scope 1 total plus 20% of Scope 2, NaN when Scope 1 is |
| Footprint.UndefinedTotalExactly | src/js/calculations.js:40-57 | the total is NaN exactly when heating is; it then reads as average and raises no warning |
| Footprint.AssumptionsNeverEmpty | src/js/calculations.js:29-58 | the trail is never empty: the Scope 2 grid record, not user-provided, sits right after the Scope 1 records and the other Scope 2 records |
| Footprint.IntensityMetricsDefaults | src/js/calculations.js:49-53 | a zero or missing headcount makes per-employee the total itself; a zero or missing revenue makes per-revenue the total times 10^6; otherwise per-employee is total / employees |
| Footprint.WarningExactly | src/js/calculations.js:434-435 | with a positive total, the footprint carries a warning iff 2 × scope 3 < total |
| Footprint.SummaryNonNegative | src/js/calculations.js:40-47 | non-negative categories give finite, non-negative totals |
| Footprint.IntensityMetricsNonNegative | src/js/calculations.js:49-53 | a non-negative total, headcount and revenue give finite, non-negative metrics |
| Footprint.FootprintNonNegative | src/js/calculations.js:3-62 | on a sensible profile, with non-negative table intensities and a per-therm factor when one is needed, every total and metric is finite and non-negative |
| Examples.EmptyScopes | src/js/calculations.js:64-207 | the empty profile scores 0 in Scopes 1 and 2, and only the grid record is appended |
| Examples.EmptyScope3 | src/js/calculations.js:209-344 | the empty profile scores 0 in every Scope 3 category |
| Examples.EmptyScope3Records | src/js/calculations.js:209-344 | the empty profile appends no Scope 3 record |
| Examples.EmptyBreakdown | src/js/calculations.js:32-38 | the empty profile's breakdown is all zeros |
| Examples.ZeroSummary | src/js/calculations.js:40-47 | an all-zero breakdown has all-zero totals |
| Examples.EmptyProfileIntensities | src/js/calculations.js:49-53 | a zero total without headcount or revenue gives zero metrics |
| Examples.EmptyProfileAssumptions | src/js/calculations.js:29-58 | the empty profile's audit trail is the grid record alone |
| Examples.EmptyProfileReadings | src/js/calculations.js:346-358 | a zero total raises no warning, and the empty profile reads as below average |
| Examples.TestScope1 | test-calculations.js:10-50 | the sample profile has Scope 1 = 0 and no Scope 1 record |
| Examples.TestScope2 | test-calculations.js:19 | the bare-number floor area gives Scope 2 = 0 |
| Examples.TestScope2Records | test-calculations.js:19-28 | the sample profile appends only the grid record in Scope 2 |
| Examples.TestMassPerDollar | test-calculations.js:13 | `tech_software` contains neither "manufacturing" nor "food" |
| Examples.TestScope3 | test-calculations.js:10-50 | the sample profile's Scope 3 is 60 + 100 + 0 + 25 + 15 + 60 + 0 + 0 + 1.7 |
| Examples.TestSpend | test-calculations.js:31-36 | purchased goods 60 t, capital goods 100 t, no fuel and energy |
| Examples.TestWorkforce | test-calculations.js:10-50 | waste 25 t, business travel 15 t, commuting 60 t |
| Examples.TestProducts | test-calculations.js:12-13 | no downstream transport or use of products; end of life 1.7 t |
| Examples.TestScope3Records | test-calculations.js:10-50 | six Scope 3 records: goods, capital, waste, travel, commuting, end of life |
| Examples.TestScope3Total | test-calculations.js:10-50 | the sample profile's Scope 3 categories add up to 261.7 |
| Examples.TestBreakdown | test-calculations.js:63 | the sample profile's breakdown |
| Examples.TestSummary | test-calculations.js:121-135 | total 261.7 > 0, all of it Scope 3, which exceeds both other scopes |
| Examples.TestIntensities | test-calculations.js:136-140 | 5.234 t per employee, inside (0, 100), and 52.34 t per $M |
| Examples.TestAssumptions | test-calculations.js:63 | the audit trail is the grid record, then the six Scope 3 records |
| Examples.TestComparison | test-calculations.js:141-144 | company total 262, industry average 500 > 0, below average |
| Examples.TestNoWarning | test-calculations.js:110-115 | the sample profile raises no warning |
| Examples.TestConfidence | test-calculations.js:105-108 | 11 of 27 answered: score 41, Medium |

## Left out

- The timestamp field (`calculatedAt`) is left out. So are the `console.log` calls and the `metadata` wrapper; `calculationVersion` is a plain field of the result.
- The formula text is left out: `toLocaleString` and `toFixed` formatting, and each record's `dataPoint`. A record keeps its category, source and `userProvided`, plus the values the formula interpolates (`Audit.Formula`).
- IEEE-754 floating point is not modelled. Numbers are exact reals. NaN is modelled only where the engine produces it: a heating fuel without a per-therm factor, and 0/0 in the sanity check. `x / 0` is modelled only in the sanity check, since every other divisor is provably non-zero.
- `parseFloat` of strings is not modelled. A numeric answer is absent, null/NaN, or a number (`JsNum`). Text answers use "" for empty, null and absent alike, which JavaScript truthiness treats the same.
- Property lookups see only an object's own properties, and their names are assumed distinct. Prototype-chain names (`toString` and the like) are not modelled.
- `Scope2.CalculateScope2` requires `FallbacksDefined(f)`: the table has a US grid entry and a North America row with all five building types. The source reads these entries only on its fallback paths: a building type with positive area whose region has no value of its own (src/js/calculations.js:135-136), and an HQ country that is unlisted or has factor 0 (src/js/calculations.js:188). So the requirement asks more of the table than a profile that never reaches a fallback needs. Without these entries a fallback throws or computes NaN. The shipped table satisfies it (`Scope2.ShippedFallbacksDefined`).
- The `factors` parameter of `calculateScope3` is never read, so `Scope3.CalculateScope3` does not take it.
- `formData.operations` and the other sub-objects are total records here. An absent sub-object reads as one whose answers are all absent; the floor-area field keeps its three shapes (absent, bare number, mapping).
- The industry lookup of `calculateIndustryComparison` is modelled as written: it indexes the `industries` array by the industry id and reads a property named `intensity`. It therefore always falls back to 100 (`Comparison.IndustryAlwaysFallsBack`); this concerns `src/js/calculations.js:351`. The matching `revenueIntensity` values are in the table but are never used by the engine.
- processFactors.js (building the table from spreadsheets) is left out: it is file and spreadsheet I/O, and the table it writes is taken as given. Also out: formHandler.js, sessionStorage.js, resultsDisplay.js, methodology.js, sources.js and pdfExport.js (browser, DOM, storage and PDF glue).
