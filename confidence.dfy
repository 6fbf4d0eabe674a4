/**
 * The data-coverage confidence: how many of the questionnaire's 27 questions
 * were answered, as a rounded percentage and a five-step level. The fleet and
 * product follow-up questions count only when their opening question is
 * answered.
 */
module Confidence {
  import opened JsValues
  import opened Profile

  const TotalQuestions: nat := 27

  const High: string := "High"
  const MediumHigh: string := "Medium-High"
  const Medium: string := "Medium"
  const MediumLow: string := "Medium-Low"
  const Low: string := "Low"

  datatype Confidence = Confidence(score: int, level: string, questionsAnswered: nat, totalQuestions: nat)

  function Count(b: bool): nat
  {
    if b then 1 else 0
  }

  /** `squareFootage?.[buildingType]` is truthy; a bare number or no mapping has no such property. */
  predicate AreaAnswered(a: Areas, buildingType: string)
  {
    match a
    case AreaTable(es) =>
      (match Get(es, buildingType)
       case Some(v) => Truthy(v)
       case None => false)
    case _ => false
  }

  /** Revenue, industry, employees, region and headquarters country: at most 5. */
  function BasicsAnswered(b: CompanyBasics): nat
  {
    Count(Truthy(b.revenue)) + Count(b.industry != "") + Count(Truthy(b.employees))
    + Count(b.primaryRegion != "") + Count(b.hqCountry != "")
  }

  /** The five building types' areas: at most 5. */
  function AreasAnswered(a: Areas): nat
  {
    Count(AreaAnswered(a, "office")) + Count(AreaAnswered(a, "warehouse")) + Count(AreaAnswered(a, "retail"))
    + Count(AreaAnswered(a, "manufacturing_light")) + Count(AreaAnswered(a, "manufacturing_heavy"))
  }

  /** Heating, air conditioning and heating source: at most 3. */
  function HvacAnswered(h: Hvac): nat
  {
    Count(h.heating) + Count(h.airConditioning) + Count(h.heatingSource != "")
  }

  /** A declared fleet, then its size and (even when null) its electric share: at most 3. */
  function FleetAnswered(f: Fleet): nat
  {
    if f.hasFleet == "yes" then 1 + Count(Truthy(f.numVehicles)) + Count(f.electricPercent != Undefined) else 0
  }

  /** Raw materials, services, capital equipment, any supplier geography, shipments and distribution method: at most 6. */
  function SupplyAnswered(s: SupplyChain): nat
  {
    Count(Truthy(s.purchasedGoods.rawMaterials)) + Count(Truthy(s.purchasedGoods.services))
    + Count(Truthy(s.purchasedGoods.capitalEquipment))
    + Count(s.suppliers.domestic || s.suppliers.regional || s.suppliers.international)
    + Count(Truthy(s.distribution.annualShipments)) + Count(s.distribution.distributionMethod != "")
  }

  /** A product type, then units sold and lifetime: at most 3. */
  function ProductsAnswered(p: Products): nat
  {
    if p.productType != "" then 1 + Count(Truthy(p.annualUnitsSold)) + Count(Truthy(p.avgLifetime)) else 0
  }

  /** The number of questions `calculateConfidence` counts as answered. */
  function QuestionsAnswered(p: Profile): (r: nat)
    ensures r <= TotalQuestions
  {
    BasicsAnswered(p.companyBasics) + AreasAnswered(p.operations.squareFootage) + HvacAnswered(p.operations.hvac)
    + FleetAnswered(p.operations.fleet) + SupplyAnswered(p.supplyChain) + ProductsAnswered(p.supplyChain.products)
    + Count(Truthy(p.travel.travelBudget)) + Count(p.energy.renewablePurchases)
  }

  /** `Math.round(answered / 27 * 100)`. */
  function ScoreFor(answered: nat): (r: int)
    ensures answered <= TotalQuestions ==> 0 <= r <= 100
    ensures answered == 0 ==> r == 0
  {
    Round(answered as real / TotalQuestions as real * 100.0)
  }

  /** The level of a score: thresholds 80, 60, 40 and 20. */
  function LevelFor(score: int): (r: string)
    ensures r in {High, MediumHigh, Medium, MediumLow, Low}
    ensures r == High <==> score >= 80
    ensures r == Low <==> score < 20
  {
    if score >= 80 then High
    else if score >= 60 then MediumHigh
    else if score >= 40 then Medium
    else if score >= 20 then MediumLow
    else Low
  }

  /** The position of a level on the five-step scale, Low being 0. */
  function Rank(level: string): nat
  {
    if level == High then 4
    else if level == MediumHigh then 3
    else if level == Medium then 2
    else if level == MediumLow then 1
    else 0
  }

  /** Counts the company-basics questions onto `answered`. */
  method CountBasics(b: CompanyBasics, answered: nat) returns (count: nat)
    ensures count == answered + BasicsAnswered(b)
  {
    count := answered;
    if Truthy(b.revenue) { count := count + 1; }
    if b.industry != "" { count := count + 1; }
    if Truthy(b.employees) { count := count + 1; }
    if b.primaryRegion != "" { count := count + 1; }
    if b.hqCountry != "" { count := count + 1; }
  }

  /** Counts the five building types with a truthy area onto `answered`. */
  method CountAreas(sqft: Areas, answered: nat) returns (count: nat)
    ensures count == answered + AreasAnswered(sqft)
  {
    count := answered;
    if AreaAnswered(sqft, "office") { count := count + 1; }
    if AreaAnswered(sqft, "warehouse") { count := count + 1; }
    if AreaAnswered(sqft, "retail") { count := count + 1; }
    if AreaAnswered(sqft, "manufacturing_light") { count := count + 1; }
    if AreaAnswered(sqft, "manufacturing_heavy") { count := count + 1; }
  }

  /** Counts the floor-area, HVAC and fleet questions onto `answered`. */
  method CountOperations(o: Operations, answered: nat) returns (count: nat)
    ensures count == answered + AreasAnswered(o.squareFootage) + HvacAnswered(o.hvac) + FleetAnswered(o.fleet)
  {
    count := CountAreas(o.squareFootage, answered);

    var hvac := o.hvac;
    if hvac.heating { count := count + 1; }
    if hvac.airConditioning { count := count + 1; }
    if hvac.heatingSource != "" { count := count + 1; }

    var fleet := o.fleet;
    if fleet.hasFleet == "yes" {
      count := count + 1;
      if Truthy(fleet.numVehicles) { count := count + 1; }
      if fleet.electricPercent != Undefined { count := count + 1; }
    }
  }

  /** Counts the purchasing, supplier, distribution and product questions onto `answered`. */
  method CountSupplyChain(s: SupplyChain, answered: nat) returns (count: nat)
    ensures count == answered + SupplyAnswered(s) + ProductsAnswered(s.products)
  {
    count := answered;
    if Truthy(s.purchasedGoods.rawMaterials) { count := count + 1; }
    if Truthy(s.purchasedGoods.services) { count := count + 1; }
    if Truthy(s.purchasedGoods.capitalEquipment) { count := count + 1; }
    if s.suppliers.domestic || s.suppliers.regional || s.suppliers.international { count := count + 1; }
    if Truthy(s.distribution.annualShipments) { count := count + 1; }
    if s.distribution.distributionMethod != "" { count := count + 1; }
    assert count == answered + SupplyAnswered(s);
    if s.products.productType != "" {
      count := count + 1;
      if Truthy(s.products.annualUnitsSold) { count := count + 1; }
      if Truthy(s.products.avgLifetime) { count := count + 1; }
    }
  }

  /** The confidence record of a profile: its answered count out of 27, the rounded percentage and its level. */
  function ConfidenceOf(p: Profile): (r: Confidence)
    ensures r.totalQuestions == TotalQuestions && r.questionsAnswered <= r.totalQuestions
    ensures 0 <= r.score <= 100 && r.level == LevelFor(r.score)
  {
    var answered := QuestionsAnswered(p);
    Confidence(ScoreFor(answered), LevelFor(ScoreFor(answered)), answered, TotalQuestions)
  }

  /** `calculateConfidence`: counts the answered questions one by one, then scores and grades the count. */
  method CalculateConfidence(p: Profile) returns (c: Confidence)
    ensures c == ConfidenceOf(p)
    ensures c.questionsAnswered == QuestionsAnswered(p) && c.totalQuestions == TotalQuestions
    ensures c.questionsAnswered <= c.totalQuestions
    ensures c.score == ScoreFor(c.questionsAnswered) && 0 <= c.score <= 100
    ensures c.level == LevelFor(c.score)
  {
    var answered := CountBasics(p.companyBasics, 0);
    answered := CountOperations(p.operations, answered);
    answered := CountSupplyChain(p.supplyChain, answered);
    if Truthy(p.travel.travelBudget) { answered := answered + 1; }
    if p.energy.renewablePurchases { answered := answered + 1; }
    assert answered == QuestionsAnswered(p);

    QuestionsAnsweredAtMostTotal(p);
    var score, level := Grade(answered);
    c := Confidence(score, level, answered, TotalQuestions);
  }

  /** The rounded percentage of a count out of 27, and the level its thresholds give. */
  method Grade(answered: nat) returns (score: int, level: string)
    requires answered <= TotalQuestions
    ensures score == ScoreFor(answered) && 0 <= score <= 100
    ensures level == LevelFor(score)
  {
    score := Round(answered as real / 27.0 * 100.0);
    ScoreBounds(answered);
    level := Low;
    if score >= 80 {
      level := High;
    } else if score >= 60 {
      level := MediumHigh;
    } else if score >= 40 {
      level := Medium;
    } else if score >= 20 {
      level := MediumLow;
    }
  }

  /** Each group counts at most its number of questions, so at most 27 questions are ever answered. */
  lemma QuestionsAnsweredAtMostTotal(p: Profile)
    ensures QuestionsAnswered(p) <= TotalQuestions
  {
  }

  /** Any count within the 27 questions scores between 0 and 100. */
  lemma ScoreBounds(answered: nat)
    requires answered <= TotalQuestions
    ensures 0 <= ScoreFor(answered) <= 100
  {
    RoundBounds(answered as real / TotalQuestions as real * 100.0, 0, 100);
  }

  /** Answering more questions never lowers the score. */
  lemma ScoreMonotone(a: nat, b: nat)
    requires a <= b
    ensures ScoreFor(a) <= ScoreFor(b)
  {
    var x := a as real / TotalQuestions as real * 100.0;
    var y := b as real / TotalQuestions as real * 100.0;
    assert x <= y;
    RoundMonotone(x, y);
  }

  lemma RoundMonotone(x: real, y: real)
    requires x <= y
    ensures Round(x) <= Round(y)
  {
  }

  /** The level is a step function of the score: it names the highest threshold the score reaches. */
  lemma LevelThresholds(score: int)
    ensures LevelFor(score) == High <==> score >= 80
    ensures LevelFor(score) == MediumHigh <==> 60 <= score < 80
    ensures LevelFor(score) == Medium <==> 40 <= score < 60
    ensures LevelFor(score) == MediumLow <==> 20 <= score < 40
    ensures LevelFor(score) == Low <==> score < 20
  {
  }

  /** A higher score never gives a lower level. */
  lemma LevelMonotone(s: int, t: int)
    requires s <= t
    ensures Rank(LevelFor(s)) <= Rank(LevelFor(t))
  {
  }

  /** The empty questionnaire answers nothing: score 0, level Low. */
  lemma EmptyProfileConfidence()
    ensures QuestionsAnswered(EmptyProfile) == 0
    ensures ScoreFor(0) == 0 && LevelFor(ScoreFor(0)) == Low
  {
  }

  /** All 27 questions answered score 100, level High. */
  lemma FullCoverage()
    ensures ScoreFor(TotalQuestions) == 100 && LevelFor(100) == High
  {
  }
}
