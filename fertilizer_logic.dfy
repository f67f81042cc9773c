/** The fertilizer calculator (backend/utils/fertilizerLogic.js): soil N, P and K
    readings are compared with the crop's optimal levels; the deficiencies
    decide which products are recommended and in what quantity, pH decides a
    corrective, and the crop's growth stages give the application schedule. */
module FertilizerLogic {
  import opened Common

  datatype Npk = Npk(n: int, p: int, k: int)

  datatype Stage = Stage(stage: string, days: nat, npk: string, quantity: nat)

  datatype CropRequirement = CropRequirement(optimalNpk: Npk, stages: seq<Stage>)

  const FertilizerDatabase: map<string, CropRequirement> := map[
    "Rice" := CropRequirement(Npk(120, 60, 40), [
      Stage("Basal", 0, "20-20-0", 100), Stage("Tillering", 25, "46-0-0", 50),
      Stage("Panicle Initiation", 45, "46-0-0", 50)]),
    "Wheat" := CropRequirement(Npk(100, 50, 30), [
      Stage("Basal", 0, "12-32-16", 150), Stage("Crown Root", 21, "46-0-0", 70),
      Stage("Flowering", 60, "46-0-0", 30)]),
    "Cotton" := CropRequirement(Npk(120, 60, 60), [
      Stage("Basal", 0, "12-32-16", 125), Stage("Squaring", 30, "46-0-0", 75),
      Stage("Flowering", 60, "0-0-60", 50)]),
    "Maize" := CropRequirement(Npk(150, 75, 50), [
      Stage("Basal", 0, "12-32-16", 140), Stage("Knee High", 30, "46-0-0", 100),
      Stage("Tasseling", 50, "46-0-0", 60)]),
    "Sugarcane" := CropRequirement(Npk(250, 115, 115), [
      Stage("Planting", 0, "12-32-16", 300), Stage("Tillering", 45, "46-0-0", 150),
      Stage("Grand Growth", 90, "46-0-0", 150)]),
    "Potato" := CropRequirement(Npk(180, 80, 100), [
      Stage("Basal", 0, "19-19-19", 200), Stage("Tuber Initiation", 30, "0-0-60", 100)]),
    "Tomato" := CropRequirement(Npk(150, 100, 100), [
      Stage("Basal", 0, "19-19-19", 180), Stage("Flowering", 25, "13-0-45", 100),
      Stage("Fruiting", 45, "13-0-45", 100)])
  ]

  /** `fertilizerDatabase[cropName] || fertilizerDatabase.Wheat`. */
  function RequirementsFor(cropName: string): CropRequirement
  {
    if cropName in FertilizerDatabase then FertilizerDatabase[cropName] else FertilizerDatabase["Wheat"]
  }

  datatype SoilData = SoilData(nitrogen: real, phosphorus: real, potassium: real, pH: Option<real>)

  datatype FertilizerItem = FertilizerItem(
    fertilizerName: string,
    kind: string,
    quantity: real,
    unit: string,
    npkRatio: string,
    applicationMethod: string,
    applicationTiming: string,
    frequency: string,
    estimatedCost: int)

  datatype ScheduleEntry = ScheduleEntry(stage: string, days: nat, fertilizers: string, notes: string)

  datatype FertilizerPlan = FertilizerPlan(
    recommendations: seq<FertilizerItem>,
    customAdvice: string,
    applicationSchedule: seq<ScheduleEntry>,
    totalEstimatedCost: int)

  /** `Math.max(0, optimal - measured)`. */
  function Deficiency(optimal: int, measured: real): (d: real)
    ensures d >= 0.0
    ensures d == 0.0 <==> measured >= optimal as real
  {
    if optimal as real - measured > 0.0 then optimal as real - measured else 0.0
  }

  function Max3(a: real, b: real, c: real): real
  {
    if a >= b && a >= c then a else if b >= c then b else c
  }

  /** `calculateNPKQuantity`: kilograms of a 12-32-16 complex that cover the largest need. */
  function NpkQuantity(nDef: real, pDef: real, kDef: real): int
  {
    JsRound(Max3(nDef / 0.12, pDef / 0.32, kDef / 0.16))
  }

  function NpkComplex(quantity: int): FertilizerItem
  {
    FertilizerItem("NPK Complex", "Inorganic", quantity as real, "kg", "12-32-16", "Broadcasting",
                   "At the time of sowing/planting", "One time", 1200)
  }

  function Urea(quantity: int): FertilizerItem
  {
    FertilizerItem("Urea", "Inorganic", quantity as real, "kg", "46-0-0", "Side-dressing",
                   "25-30 days after sowing", "1-2 times", 600)
  }

  function MuriateOfPotash(quantity: int): FertilizerItem
  {
    FertilizerItem("Muriate of Potash", "Inorganic", quantity as real, "kg", "0-0-60", "Broadcasting",
                   "Before flowering", "One time", 800)
  }

  const FarmYardManure := FertilizerItem("Farm Yard Manure (FYM)", "Organic", 5.0, "tons", "Variable",
                                         "Broadcasting", "2-3 weeks before sowing", "One time", 2000)
  const AgriculturalLime := FertilizerItem("Agricultural Lime", "Organic", 2.5, "tons", "N/A",
                                           "Broadcasting", "1 month before sowing", "One time", 1500)
  const Gypsum := FertilizerItem("Gypsum", "Organic", 2.0, "tons", "N/A",
                                 "Broadcasting", "1 month before sowing", "One time", 1200)

  const AcidicAdvice := "Soil is acidic. " + "Apply 2-3 tons of lime per acre to raise pH. "
  const AlkalineAdvice := "Soil is alkaline. " + "Apply gypsum or sulfur to lower pH. "

  predicate Acidic(soil: SoilData)
  {
    soil.pH.Some? && soil.pH.value < 5.5
  }

  /** `pH > 8`, only reached when the soil is not acidic. */
  predicate Alkaline(soil: SoilData)
  {
    soil.pH.Some? && soil.pH.value > 8.0
  }

  /** The deficiencies of a crop's optimal levels. */
  function Deficiencies(cropName: string, soil: SoilData): (real, real, real)
  {
    var opt := RequirementsFor(cropName).optimalNpk;
    (Deficiency(opt.n, soil.nitrogen), Deficiency(opt.p, soil.phosphorus), Deficiency(opt.k, soil.potassium))
  }

  /** The complex is recommended when any nutrient is short. */
  function ComplexPart(nDef: real, pDef: real, kDef: real): seq<FertilizerItem>
  {
    if nDef > 0.0 || pDef > 0.0 || kDef > 0.0 then [NpkComplex(NpkQuantity(nDef, pDef, kDef))] else []
  }

  /** Urea top dressing, `Math.round((nDef * 0.46) / 0.46)` kilograms. */
  function UreaPart(nDef: real): seq<FertilizerItem>
  {
    if nDef > 50.0 then [Urea(JsRound((nDef * 0.46) / 0.46))] else []
  }

  function PotashPart(kDef: real): seq<FertilizerItem>
  {
    if kDef > 30.0 then [MuriateOfPotash(JsRound(kDef * 1.67))] else []
  }

  function CorrectivePart(soil: SoilData): seq<FertilizerItem>
  {
    if Acidic(soil) then [AgriculturalLime] else if Alkaline(soil) then [Gypsum] else []
  }

  /** The products of the calculator in the order they are pushed. */
  function Products(cropName: string, soil: SoilData): seq<FertilizerItem>
  {
    var (nDef, pDef, kDef) := Deficiencies(cropName, soil);
    ComplexPart(nDef, pDef, kDef) + UreaPart(nDef) + PotashPart(kDef) + [FarmYardManure] + CorrectivePart(soil)
  }

  /** Sum of the estimated costs of a list of products. */
  function CostOf(items: seq<FertilizerItem>): int
  {
    if |items| == 0 then 0 else CostOf(items[..|items| - 1]) + items[|items| - 1].estimatedCost
  }

  lemma {:induction false} CostOfAppend(a: seq<FertilizerItem>, b: seq<FertilizerItem>)
    ensures CostOf(a + b) == CostOf(a) + CostOf(b)
  {
    if |b| == 0 {
      assert a + b == a;
    } else {
      assert (a + b)[..|a + b| - 1] == a + b[..|b| - 1];
      CostOfAppend(a, b[..|b| - 1]);
    }
  }

  function ScheduleEntryFor(s: Stage, index: nat): ScheduleEntry
  {
    ScheduleEntry(s.stage, s.days, s.npk + " @ " + NatToString(s.quantity) + " kg/acre",
                  if index == 0 then "Apply with soil preparation" else "Apply as top dressing")
  }

  /** `stages.map((stage, index) => ...)`. */
  function Schedule(stages: seq<Stage>): (r: seq<ScheduleEntry>)
    ensures |r| == |stages|
  {
    seq(|stages|, i requires 0 <= i < |stages| => ScheduleEntryFor(stages[i], i))
  }

  /** The deficiency-driven pushes of the calculator, with the running total of their costs. */
  method AddInorganic(nDeficiency: real, pDeficiency: real, kDeficiency: real)
    returns (recommendations: seq<FertilizerItem>, totalCost: int)
    ensures recommendations == ComplexPart(nDeficiency, pDeficiency, kDeficiency) + UreaPart(nDeficiency) + PotashPart(kDeficiency)
    ensures totalCost == CostOf(recommendations)
  {
    recommendations, totalCost := [], 0;
    if nDeficiency > 0.0 || pDeficiency > 0.0 || kDeficiency > 0.0 {
      CostOfAppend(recommendations, [NpkComplex(NpkQuantity(nDeficiency, pDeficiency, kDeficiency))]);
      recommendations := recommendations + [NpkComplex(NpkQuantity(nDeficiency, pDeficiency, kDeficiency))];
      totalCost := totalCost + 1200;
    }
    if nDeficiency > 50.0 {
      CostOfAppend(recommendations, [Urea(JsRound((nDeficiency * 0.46) / 0.46))]);
      recommendations := recommendations + [Urea(JsRound((nDeficiency * 0.46) / 0.46))];
      totalCost := totalCost + 600;
    }
    if kDeficiency > 30.0 {
      CostOfAppend(recommendations, [MuriateOfPotash(JsRound(kDeficiency * 1.67))]);
      recommendations := recommendations + [MuriateOfPotash(JsRound(kDeficiency * 1.67))];
      totalCost := totalCost + 800;
    }
  }

  /** The pH block of the calculator: lime for acidic soil, gypsum for alkaline soil,
      each with its line of advice and its cost added to the running total. */
  method CorrectPh(soil: SoilData, recommendations: seq<FertilizerItem>, totalCost: int)
    returns (items: seq<FertilizerItem>, cost: int, advice: string)
    requires totalCost == CostOf(recommendations)
    ensures items == recommendations + CorrectivePart(soil)
    ensures cost == CostOf(items)
    ensures advice == PhAdvice(soil)
  {
    items, cost, advice := recommendations, totalCost, "";
    if soil.pH.Some? && soil.pH.value < 5.5 {
      advice := AcidicAdvice;
      CostOfAppend(items, [AgriculturalLime]);
      items := items + [AgriculturalLime];
      cost := cost + 1500;
    } else if soil.pH.Some? && soil.pH.value > 8.0 {
      advice := AlkalineAdvice;
      CostOfAppend(items, [Gypsum]);
      items := items + [Gypsum];
      cost := cost + 1200;
    }
  }

  /** The sentence reporting the soil test; `numberText` is JavaScript's
      conversion of a number to text inside a template literal. */
  function NutrientSentence(soil: SoilData, numberText: real -> string): string
  {
    "Current soil nutrients - N: " + numberText(soil.nitrogen) + " kg/ha, P: " + numberText(soil.phosphorus)
    + " kg/ha, K: " + numberText(soil.potassium) + " kg/ha. "
  }

  /** The pH line of the advice, empty for neutral soil or soil without a pH reading. */
  function PhAdvice(soil: SoilData): string
  {
    if Acidic(soil) then AcidicAdvice else if Alkaline(soil) then AlkalineAdvice else ""
  }

  function MoistureAdvice(cropName: string): string
  {
    "For " + cropName + ", maintain adequate moisture during fertilizer application. "
  }

  /** The advice text: the pH line (if any), the moisture line for the crop,
      then the soil test. */
  function CustomAdvice(cropName: string, soil: SoilData, numberText: real -> string): string
  {
    PhAdvice(soil) + MoistureAdvice(cropName) + NutrientSentence(soil, numberText)
  }

  /** `generateFertilizerRecommendation`: products are pushed one by one while
      a running total of their costs is kept, and the advice text is built
      piece by piece. */
  method GenerateFertilizerRecommendation(cropName: string, soil: SoilData, numberText: real -> string)
    returns (plan: FertilizerPlan)
    ensures plan.recommendations == Products(cropName, soil)
    ensures plan.totalEstimatedCost == CostOf(plan.recommendations)
    ensures plan.applicationSchedule == Schedule(RequirementsFor(cropName).stages)
    ensures plan.customAdvice == CustomAdvice(cropName, soil, numberText)
  {
    var requirements := RequirementsFor(cropName);
    var nDeficiency := Deficiency(requirements.optimalNpk.n, soil.nitrogen);
    var pDeficiency := Deficiency(requirements.optimalNpk.p, soil.phosphorus);
    var kDeficiency := Deficiency(requirements.optimalNpk.k, soil.potassium);

    assert (nDeficiency, pDeficiency, kDeficiency) == Deficiencies(cropName, soil);
    var recommendations, totalCost := AddInorganic(nDeficiency, pDeficiency, kDeficiency);
    CostOfAppend(recommendations, [FarmYardManure]);
    recommendations := recommendations + [FarmYardManure];
    totalCost := totalCost + 2000;
    var customAdvice;
    recommendations, totalCost, customAdvice := CorrectPh(soil, recommendations, totalCost);
    var schedule := Schedule(requirements.stages);
    customAdvice := customAdvice + MoistureAdvice(cropName);
    customAdvice := customAdvice + NutrientSentence(soil, numberText);
    plan := FertilizerPlan(recommendations, customAdvice, schedule, totalCost);
  }

  /** Which pH line, if any, opens a text that otherwise starts with 'F'. */
  lemma PhLineDecidesOpening(soil: SoilData, rest: string)
    requires |rest| > 0 && rest[0] == 'F'
    ensures Acidic(soil) <==> AcidicAdvice <= PhAdvice(soil) + rest
    ensures Alkaline(soil) <==> AlkalineAdvice <= PhAdvice(soil) + rest
    ensures !Acidic(soil) && !Alkaline(soil) ==> PhAdvice(soil) + rest == rest
  {
    assert AcidicAdvice[9] == 'c' && AlkalineAdvice[9] == 'l';
    assert AcidicAdvice[0] == 'S' && AlkalineAdvice[0] == 'S';
    if Acidic(soil) {
      assert (AcidicAdvice + rest)[9] == 'c';
    } else if Alkaline(soil) {
      assert (AlkalineAdvice + rest)[9] == 'l';
    } else {
      assert PhAdvice(soil) + rest == rest;
    }
  }

  /** The advice opens with the lime line exactly for acidic soil, with the
      gypsum line exactly for alkaline soil, and otherwise with the crop's
      moisture line; it always closes with the soil test. */
  lemma AdviceOpensWithPhLine(cropName: string, soil: SoilData, numberText: real -> string)
    ensures Acidic(soil) <==> AcidicAdvice <= CustomAdvice(cropName, soil, numberText)
    ensures Alkaline(soil) <==> AlkalineAdvice <= CustomAdvice(cropName, soil, numberText)
    ensures !Acidic(soil) && !Alkaline(soil) ==> "For " + cropName <= CustomAdvice(cropName, soil, numberText)
    ensures var advice := CustomAdvice(cropName, soil, numberText);
            var tail := NutrientSentence(soil, numberText);
            |tail| <= |advice| && advice[|advice| - |tail|..] == tail
  {
    var moisture := MoistureAdvice(cropName);
    var rest := moisture + NutrientSentence(soil, numberText);
    assert CustomAdvice(cropName, soil, numberText) == PhAdvice(soil) + rest;
    assert "For " + cropName <= moisture;
    assert rest[0] == 'F';
    PhLineDecidesOpening(soil, rest);
  }

  function Named(items: seq<FertilizerItem>, name: string): seq<FertilizerItem>
  {
    if |items| == 0 then []
    else Named(items[..|items| - 1], name)
         + (if items[|items| - 1].fertilizerName == name then [items[|items| - 1]] else [])
  }

  lemma {:induction false} NamedAppend(a: seq<FertilizerItem>, b: seq<FertilizerItem>, name: string)
    ensures Named(a + b, name) == Named(a, name) + Named(b, name)
  {
    if |b| == 0 {
      assert a + b == a;
    } else {
      assert (a + b)[..|a + b| - 1] == a + b[..|b| - 1];
      NamedAppend(a, b[..|b| - 1], name);
    }
  }

  lemma NamedInProducts(cropName: string, soil: SoilData, name: string)
    ensures Named(Products(cropName, soil), name)
            == var (nDef, pDef, kDef) := Deficiencies(cropName, soil);
               Named(ComplexPart(nDef, pDef, kDef), name) + Named(UreaPart(nDef), name)
               + Named(PotashPart(kDef), name) + Named([FarmYardManure], name)
               + Named(CorrectivePart(soil), name)
  {
    var (nDef, pDef, kDef) := Deficiencies(cropName, soil);
    var a, b, c, e := ComplexPart(nDef, pDef, kDef), UreaPart(nDef), PotashPart(kDef), CorrectivePart(soil);
    NamedAppend(a + b + c + [FarmYardManure], e, name);
    NamedAppend(a + b + c, [FarmYardManure], name);
    NamedAppend(a + b, c, name);
    NamedAppend(a, b, name);
  }

  /** The complex is present exactly when some deficiency is positive, in the quantity that covers the largest need. */
  lemma ComplexIffDeficient(cropName: string, soil: SoilData)
    ensures var (nDef, pDef, kDef) := Deficiencies(cropName, soil);
            Named(Products(cropName, soil), "NPK Complex")
            == if nDef > 0.0 || pDef > 0.0 || kDef > 0.0 then [NpkComplex(NpkQuantity(nDef, pDef, kDef))] else []
  {
    NamedInProducts(cropName, soil, "NPK Complex");
  }

  /** Urea is present exactly when nitrogen is short by more than 50, and
      its quantity is the rounded deficiency (the 0.46 factors cancel). */
  lemma UreaIffNitrogenShort(cropName: string, soil: SoilData)
    ensures var (nDef, _, _) := Deficiencies(cropName, soil);
            Named(Products(cropName, soil), "Urea") == if nDef > 50.0 then [Urea(JsRound(nDef))] else []
  {
    var (nDef, _, _) := Deficiencies(cropName, soil);
    assert (nDef * 0.46) / 0.46 == nDef;
    NamedInProducts(cropName, soil, "Urea");
  }

  /** Potash is present exactly when potassium is short by more than 30, at 1.67 kg per unit short. */
  lemma PotashIffPotassiumShort(cropName: string, soil: SoilData)
    ensures var (_, _, kDef) := Deficiencies(cropName, soil);
            Named(Products(cropName, soil), "Muriate of Potash")
            == if kDef > 30.0 then [MuriateOfPotash(JsRound(kDef * 1.67))] else []
  {
    NamedInProducts(cropName, soil, "Muriate of Potash");
  }

  /** Manure is always recommended, exactly once. */
  lemma ManureAlwaysPresent(cropName: string, soil: SoilData)
    ensures Named(Products(cropName, soil), "Farm Yard Manure (FYM)") == [FarmYardManure]
  {
    NamedInProducts(cropName, soil, "Farm Yard Manure (FYM)");
  }

  /** Lime exactly for pH below 5.5, gypsum exactly for pH above 8, never both. */
  lemma CorrectiveByPh(cropName: string, soil: SoilData)
    ensures Named(Products(cropName, soil), "Agricultural Lime") == if Acidic(soil) then [AgriculturalLime] else []
    ensures Named(Products(cropName, soil), "Gypsum") == if Alkaline(soil) then [Gypsum] else []
    ensures !(Acidic(soil) && Alkaline(soil))
    ensures soil.pH.Some? && 5.5 <= soil.pH.value <= 8.0 ==> CorrectivePart(soil) == []
  {
    NamedInProducts(cropName, soil, "Agricultural Lime");
    NamedInProducts(cropName, soil, "Gypsum");
  }

  /** The plan's cost is the list price of what is in it: 2000 for manure, plus
      1200 for the complex, 600 for urea, 800 for potash and 1500 or 1200 for the corrective. */
  lemma PlanCost(cropName: string, soil: SoilData)
    ensures var (nDef, pDef, kDef) := Deficiencies(cropName, soil);
            CostOf(Products(cropName, soil))
            == (if nDef > 0.0 || pDef > 0.0 || kDef > 0.0 then 1200 else 0)
               + (if nDef > 50.0 then 600 else 0)
               + (if kDef > 30.0 then 800 else 0)
               + 2000
               + (if Acidic(soil) then 1500 else if Alkaline(soil) then 1200 else 0)
  {
    var (nDef, pDef, kDef) := Deficiencies(cropName, soil);
    var a, b, c, e := ComplexPart(nDef, pDef, kDef), UreaPart(nDef), PotashPart(kDef), CorrectivePart(soil);
    CostOfAppend(a + b + c + [FarmYardManure], e);
    CostOfAppend(a + b + c, [FarmYardManure]);
    CostOfAppend(a + b, c);
    CostOfAppend(a, b);
  }

  /** An unknown crop is treated as wheat. */
  lemma UnknownCropIsWheat(cropName: string, soil: SoilData)
    requires cropName !in FertilizerDatabase
    ensures Products(cropName, soil) == Products("Wheat", soil)
    ensures Schedule(RequirementsFor(cropName).stages) == Schedule(RequirementsFor("Wheat").stages)
  {
  }

  /** One schedule entry per stage, in table order; only the first is applied with soil preparation. */
  lemma ScheduleFollowsStages(cropName: string, i: nat)
    requires i < |RequirementsFor(cropName).stages|
    ensures var st := RequirementsFor(cropName).stages[i];
            var e := Schedule(RequirementsFor(cropName).stages)[i];
            e.stage == st.stage && e.days == st.days
            && e.fertilizers == st.npk + " @ " + NatToString(st.quantity) + " kg/acre"
            && e.notes == (if i == 0 then "Apply with soil preparation" else "Apply as top dressing")
  {
  }
}
