/** A stored fertilizer recommendation of the newer backend: the soil test
    it answers, the suggested applications, its defaults (generated by 'ai',
    'pending', total cost 0), the schema checks that guard a write and the
    save hook that totals the estimated costs. */
module FertilizerRecommendationModel {
  import opened Common

  const FertilizerSoilTypes: set<string> := {"clay", "sandy", "loamy", "silt", "peaty", "chalky"}
  const FertilizerKinds: set<string> := {"organic", "inorganic", "bio-fertilizer"}
  const ApplicationMethods: set<string> := {"broadcasting", "drilling", "foliar_spray", "fertigation", "side_dressing"}
  const FertilizerSeasons: set<string> := {"kharif", "rabi", "zaid", "perennial"}
  const FertilizerStatuses: set<string> := {"pending", "applied", "completed"}
  const FertilizerOrigins: set<string> := {"ai", "expert", "manual"}

  datatype Fertilizer = Fertilizer(name: string, kind: Option<string>, npkRatio: string)

  /** One suggested application: a fertilizer, how much, how and when, and its estimated cost. */
  datatype Application = Application(fertilizer: Fertilizer, quantity: real, unit: string,
                                     applicationMethod: Option<string>, applicationStage: string, frequency: string,
                                     estimatedCost: Option<real>, benefits: seq<string>, precautions: seq<string>)

  /** The soil test: nitrogen, phosphorus and potassium are required, pH is optional. */
  datatype SoilNutrients = SoilNutrients(nitrogen: real, phosphorus: real, potassium: real, pH: Option<real>)

  datatype FertilizerRecord = FertilizerRecord(
    user: nat, crop: Option<nat>, cropName: string, soilType: string, soilNutrients: SoilNutrients,
    recommendations: seq<Application>, season: Option<string>, totalEstimatedCost: real,
    status: string, generatedBy: string)

  predicate ValidApplication(a: Application)
  {
    && (a.fertilizer.kind.None? || a.fertilizer.kind.value in FertilizerKinds)
    && (a.applicationMethod.None? || a.applicationMethod.value in ApplicationMethods)
  }

  /** The schema validators: a crop name, an enumerated soil type, season,
      status and origin, a pH between 0 and 14 when given, and enumerated
      fertilizer kinds and application methods. */
  predicate ValidFertilizerRecommendation(r: FertilizerRecord)
  {
    && r.cropName != ""
    && r.soilType in FertilizerSoilTypes
    && (r.soilNutrients.pH.None? || 0.0 <= r.soilNutrients.pH.value <= 14.0)
    && (r.season.None? || r.season.value in FertilizerSeasons)
    && r.status in FertilizerStatuses
    && r.generatedBy in FertilizerOrigins
    && forall i :: 0 <= i < |r.recommendations| ==> ValidApplication(r.recommendations[i])
  }

  /** The body of a create request with the schema defaults filled in. */
  function FertilizerWithDefaults(user: nat, crop: Option<nat>, cropName: string, soilType: string,
                                  soilNutrients: SoilNutrients, recommendations: seq<Application>,
                                  season: Option<string>, totalEstimatedCost: Option<real>, status: Option<string>)
    : (r: FertilizerRecord)
    ensures r.user == user && r.crop == crop && r.cropName == cropName && r.soilType == soilType
    ensures r.soilNutrients == soilNutrients && r.recommendations == recommendations && r.season == season
    ensures r.generatedBy == "ai"
    ensures r.totalEstimatedCost == (if totalEstimatedCost.Some? then totalEstimatedCost.value else 0.0)
    ensures r.status == (if status.Some? then status.value else "pending")
  {
    FertilizerRecord(user, crop, cropName, soilType, soilNutrients, recommendations, season,
                     if totalEstimatedCost.Some? then totalEstimatedCost.value else 0.0,
                     if status.Some? then status.value else "pending", "ai")
  }

  /** Each application's contribution to the total: `rec.estimatedCost || 0`. */
  function Costs(apps: seq<Application>): (costs: seq<real>)
    ensures |costs| == |apps|
    ensures forall i :: 0 <= i < |apps| ==>
              costs[i] == (if apps[i].estimatedCost.Some? && apps[i].estimatedCost.value != 0.0
                           then apps[i].estimatedCost.value else 0.0)
  {
    seq(|apps|, i requires 0 <= i < |apps| => OrZero(apps[i].estimatedCost))
  }

  /** The total the save hook computes. */
  function CostTotal(apps: seq<Application>): real
  {
    Total(Costs(apps))
  }

  /** Appending applications adds their costs to the total. */
  lemma CostTotalAppend(xs: seq<Application>, ys: seq<Application>)
    ensures CostTotal(xs + ys) == CostTotal(xs) + CostTotal(ys)
  {
    assert Costs(xs + ys) == Costs(xs) + Costs(ys);
    TotalAppend(Costs(xs), Costs(ys));
  }

  /** With no negative estimate, the total is not negative. */
  lemma CostTotalNonNegative(apps: seq<Application>)
    requires forall i :: 0 <= i < |apps| ==> apps[i].estimatedCost.None? || apps[i].estimatedCost.value >= 0.0
    ensures CostTotal(apps) >= 0.0
  {
    TotalNonNegative(Costs(apps));
  }

  /** The record a save writes: with suggestions, the total is the sum of
      their estimates (a missing estimate counts 0); with none, the stored
      total is kept. Nothing else changes. */
  function FertilizerAfterSave(r: FertilizerRecord): (s: FertilizerRecord)
    ensures |r.recommendations| > 0 ==> s.totalEstimatedCost == CostTotal(r.recommendations)
    ensures |r.recommendations| == 0 ==> s == r
    ensures s == r.(totalEstimatedCost := s.totalEstimatedCost)
  {
    if |r.recommendations| > 0 then r.(totalEstimatedCost := CostTotal(r.recommendations)) else r
  }

  lemma FertilizerSaveIdempotent(r: FertilizerRecord)
    ensures FertilizerAfterSave(FertilizerAfterSave(r)) == FertilizerAfterSave(r)
  {
  }

  lemma FertilizerSaveKeepsValidity(r: FertilizerRecord)
    requires ValidFertilizerRecommendation(r)
    ensures ValidFertilizerRecommendation(FertilizerAfterSave(r))
  {
  }

  /** A fertilizer recommendation document held in memory until it is saved. */
  class FertilizerDocument {
    var user: nat
    var crop: Option<nat>
    var cropName: string
    var soilType: string
    var soilNutrients: SoilNutrients
    var recommendations: seq<Application>
    var season: Option<string>
    var totalEstimatedCost: real
    var status: string
    var generatedBy: string

    function Snapshot(): FertilizerRecord
      reads this
    {
      FertilizerRecord(user, crop, cropName, soilType, soilNutrients, recommendations, season,
                       totalEstimatedCost, status, generatedBy)
    }

    constructor (r: FertilizerRecord)
      ensures Snapshot() == r
    {
      user, crop, cropName, soilType, soilNutrients := r.user, r.crop, r.cropName, r.soilType, r.soilNutrients;
      recommendations, season, totalEstimatedCost := r.recommendations, r.season, r.totalEstimatedCost;
      status, generatedBy := r.status, r.generatedBy;
    }

    /** The `pre('save')` hook: the reduce over the suggestions, run only when there are some. */
    method PreSave()
      modifies this
      ensures Snapshot() == FertilizerAfterSave(old(Snapshot()))
    {
      if |recommendations| > 0 {
        var total := 0.0;
        for i := 0 to |recommendations|
          invariant total == Total(Costs(recommendations)[..i])
        {
          assert Costs(recommendations)[..i + 1][..i] == Costs(recommendations)[..i];
          total := total + OrZero(recommendations[i].estimatedCost);
        }
        assert Costs(recommendations)[..|recommendations|] == Costs(recommendations);
        totalEstimatedCost := total;
      }
    }
  }
}
