/** The fertilizer recommendation handlers of the newer backend: the rule
    helper that suggests one application per deficient nutrient plus
    vermicompost, and the owner-checked store of the resulting
    recommendations (401 for a requester who does not own one). */
module FertilizerRecommendationController {
  import opened Common
  import opened RecordStore
  import opened FertilizerRecommendationModel

  /** Nutrient levels below which the helper suggests a fertilizer. */
  const NitrogenThreshold: real := 280.0
  const PhosphorusThreshold: real := 11.0
  const PotassiumThreshold: real := 110.0

  const UreaApplication: Application := Application(
    Fertilizer("Urea", Some("inorganic"), "46-0-0"), 130.0, "kg/acre", Some("broadcasting"),
    "At sowing and 30 days after sowing", "2 times during crop cycle", Some(1500.0),
    ["Promotes vegetative growth", "Increases protein content", "Enhances leaf development"],
    ["Apply in split doses", "Do not apply during waterlogged conditions", "Incorporate into soil"])

  const SspApplication: Application := Application(
    Fertilizer("Single Super Phosphate (SSP)", Some("inorganic"), "0-16-0"), 200.0, "kg/acre", Some("drilling"),
    "At the time of sowing", "Once at sowing", Some(1200.0),
    ["Promotes root development", "Improves flowering and fruiting", "Enhances disease resistance"],
    ["Apply near root zone", "Mix with organic matter for better efficiency"])

  const MopApplication: Application := Application(
    Fertilizer("Muriate of Potash (MOP)", Some("inorganic"), "0-0-60"), 50.0, "kg/acre", Some("broadcasting"),
    "At flowering stage", "Once during flowering", Some(800.0),
    ["Improves fruit quality", "Enhances stress tolerance", "Increases shelf life of produce"],
    ["Apply when soil has adequate moisture", "Avoid over-application"])

  const VermicompostApplication: Application := Application(
    Fertilizer("Vermicompost", Some("organic"), "1.5-1-1"), 500.0, "kg/acre", Some("broadcasting"),
    "Before sowing", "Once before crop establishment", Some(2500.0),
    ["Improves soil structure", "Enhances beneficial microbial activity", "Provides slow-release nutrients",
     "Improves water retention"],
    ["Apply well-decomposed compost", "Mix thoroughly with soil"])

  /** The applications the helper suggests for a soil test, in the order it pushes them. */
  function FertilizerPlan(nutrients: SoilNutrients): seq<Application>
  {
    (if nutrients.nitrogen < NitrogenThreshold then [UreaApplication] else [])
    + (if nutrients.phosphorus < PhosphorusThreshold then [SspApplication] else [])
    + (if nutrients.potassium < PotassiumThreshold then [MopApplication] else [])
    + [VermicompostApplication]
  }

  /** `generateFertilizerRecommendations(cropName, soilType, soilNutrients)`:
      one push per deficient nutrient, then vermicompost. The crop name, the
      soil type and the pH are passed in but do not change the answer. */
  method GenerateFertilizerRecommendations(cropName: string, soilType: string, nutrients: SoilNutrients)
    returns (recommendations: seq<Application>)
    ensures recommendations == FertilizerPlan(nutrients)
    ensures 1 <= |recommendations| <= 4 && recommendations[|recommendations| - 1] == VermicompostApplication
    ensures forall pH :: recommendations == FertilizerPlan(nutrients.(pH := pH))
  {
    recommendations := [];
    if nutrients.nitrogen < NitrogenThreshold {
      recommendations := recommendations + [UreaApplication];
    }
    if nutrients.phosphorus < PhosphorusThreshold {
      recommendations := recommendations + [SspApplication];
    }
    if nutrients.potassium < PotassiumThreshold {
      recommendations := recommendations + [MopApplication];
    }
    recommendations := recommendations + [VermicompostApplication];
  }

  /** Each mineral fertilizer is suggested exactly when its nutrient is below
      the threshold, and vermicompost always. */
  lemma PlanFollowsDeficiencies(nutrients: SoilNutrients)
    ensures UreaApplication in FertilizerPlan(nutrients) <==> nutrients.nitrogen < NitrogenThreshold
    ensures SspApplication in FertilizerPlan(nutrients) <==> nutrients.phosphorus < PhosphorusThreshold
    ensures MopApplication in FertilizerPlan(nutrients) <==> nutrients.potassium < PotassiumThreshold
    ensures VermicompostApplication in FertilizerPlan(nutrients)
  {
    var plan := FertilizerPlan(nutrients);
    assert UreaApplication.fertilizer.name != SspApplication.fertilizer.name;
    assert UreaApplication.fertilizer.name != MopApplication.fertilizer.name;
    assert SspApplication.fertilizer.name != MopApplication.fertilizer.name;
    assert VermicompostApplication == plan[|plan| - 1];
  }

  /** The plan's cost: 1500 for urea, 1200 for SSP, 800 for MOP when
      suggested, and 2500 for vermicompost, so between 2500 and 6000. */
  lemma {:induction false} PlanCost(nutrients: SoilNutrients)
    ensures CostTotal(FertilizerPlan(nutrients)) ==
              (if nutrients.nitrogen < NitrogenThreshold then 1500.0 else 0.0)
              + (if nutrients.phosphorus < PhosphorusThreshold then 1200.0 else 0.0)
              + (if nutrients.potassium < PotassiumThreshold then 800.0 else 0.0)
              + 2500.0
    ensures 2500.0 <= CostTotal(FertilizerPlan(nutrients)) <= 6000.0
  {
    var n := if nutrients.nitrogen < NitrogenThreshold then [UreaApplication] else [];
    var p := if nutrients.phosphorus < PhosphorusThreshold then [SspApplication] else [];
    var k := if nutrients.potassium < PotassiumThreshold then [MopApplication] else [];
    var v := [VermicompostApplication];
    assert FertilizerPlan(nutrients) == n + p + k + v;
    CostTotalAppend(n + p + k, v);
    CostTotalAppend(n + p, k);
    CostTotalAppend(n, p);
    SingleCost(UreaApplication);
    SingleCost(SspApplication);
    SingleCost(MopApplication);
    SingleCost(VermicompostApplication);
    assert CostTotal([]) == 0.0 by { assert Costs([]) == []; }
  }

  lemma SingleCost(a: Application)
    ensures CostTotal([a]) == OrZero(a.estimatedCost)
  {
    var c := Costs([a]);
    assert c[..0] == [];
    assert Total(c) == Total(c[..0]) + c[0];
  }

  /** The suggested applications always pass the schema checks. */
  lemma PlanValid(nutrients: SoilNutrients)
    ensures forall i :: 0 <= i < |FertilizerPlan(nutrients)| ==> ValidApplication(FertilizerPlan(nutrients)[i])
  {
    assert ValidApplication(UreaApplication) && ValidApplication(SspApplication);
    assert ValidApplication(MopApplication) && ValidApplication(VermicompostApplication);
  }

  /** The recommendation collection: records owned by their `user`, a 401 guard, the schema validators. */
  ghost predicate IsFertilizerStore(store: OwnedStore<FertilizerRecord>)
    reads store
  {
    && store.Valid()
    && store.denied == Unauthorized
    && (forall r :: store.accepts(r) == ValidFertilizerRecommendation(r))
    && (forall r :: store.ownerOf(r) == r.user)
  }

  /** The record a create request builds before validation: the requester as
      owner, the helper's suggestions and 'ai' as origin. */
  function CreatedRecord(requester: UserId, crop: Option<nat>, cropName: string, soilType: string, nutrients: SoilNutrients,
                         season: Option<string>, totalEstimatedCost: Option<real>, status: Option<string>): FertilizerRecord
  {
    FertilizerWithDefaults(requester, crop, cropName, soilType, nutrients, FertilizerPlan(nutrients), season,
                           totalEstimatedCost, status)
  }

  /** `createRecommendation`: a body without a soil test fails at the
      destructuring; otherwise the helper's suggestions are stored with the
      requester as owner and 'ai' as origin, the validators run, and the save
      hook replaces any total in the body by the sum of the estimates. */
  method CreateFertilizerRecommendation(store: OwnedStore<FertilizerRecord>, requester: UserId, crop: Option<nat>,
                                        cropName: string, soilType: string, soilNutrients: Option<SoilNutrients>,
                                        season: Option<string>, totalEstimatedCost: Option<real>, status: Option<string>)
    returns (result: Status, recommendation: Option<FertilizerRecord>)
    requires IsFertilizerStore(store)
    modifies store
    ensures IsFertilizerStore(store)
    ensures soilNutrients.None? ==> result == Error && recommendation.None? && store.rows == old(store.rows)
    ensures soilNutrients.Some? ==>
              var record := CreatedRecord(requester, crop, cropName, soilType, soilNutrients.value, season,
                                          totalEstimatedCost, status);
              (ValidFertilizerRecommendation(record) ==>
                 result == Created && recommendation == Some(FertilizerAfterSave(record))
                 && recommendation.value.totalEstimatedCost == CostTotal(FertilizerPlan(soilNutrients.value))
                 && store.rows == old(store.rows)[old(store.nextId) := FertilizerAfterSave(record)])
              && (!ValidFertilizerRecommendation(record) ==>
                    result == Error && recommendation.None? && store.rows == old(store.rows))
  {
    if soilNutrients.None? {
      return Error, None;
    }
    var generated := GenerateFertilizerRecommendations(cropName, soilType, soilNutrients.value);
    var record := FertilizerWithDefaults(requester, crop, cropName, soilType, soilNutrients.value, generated, season,
                                         totalEstimatedCost, status);
    if !store.accepts(record) {
      return Error, None;
    }
    var doc := new FertilizerDocument(record);
    doc.PreSave();
    var saved := doc.Snapshot();
    var id := store.Insert(saved);
    result, recommendation := Created, Some(saved);
  }

  /** A created recommendation is accepted exactly when the body names a
      crop, a known soil type, season and status, and a pH in range. */
  lemma CreateAcceptance(requester: UserId, crop: Option<nat>, cropName: string, soilType: string, nutrients: SoilNutrients,
                         season: Option<string>, totalEstimatedCost: Option<real>, status: Option<string>)
    ensures ValidFertilizerRecommendation(CreatedRecord(requester, crop, cropName, soilType, nutrients, season,
                                                        totalEstimatedCost, status))
            <==> && cropName != "" && soilType in FertilizerSoilTypes
                 && (nutrients.pH.None? || 0.0 <= nutrients.pH.value <= 14.0)
                 && (season.None? || season.value in FertilizerSeasons)
                 && (status.None? || status.value in FertilizerStatuses)
  {
    PlanValid(nutrients);
  }

  /** `getRecommendation`. */
  method GetFertilizerRecommendation(store: OwnedStore<FertilizerRecord>, id: nat, requester: UserId)
    returns (result: Status, recommendation: Option<FertilizerRecord>)
    requires IsFertilizerStore(store)
    ensures id !in store.rows ==> result == NotFound && recommendation.None?
    ensures id in store.rows && store.rows[id].user != requester ==> result == Unauthorized && recommendation.None?
    ensures id in store.rows && store.rows[id].user == requester ==> result == Ok && recommendation == Some(store.rows[id])
  {
    result, recommendation := store.Get(id, requester);
  }

  /** `updateRecommendation`: the guard, then `findByIdAndUpdate` with the
      body's fields and the validators; the total is not recomputed. */
  method UpdateFertilizerRecommendation(store: OwnedStore<FertilizerRecord>, id: nat, requester: UserId,
                                        change: FertilizerRecord -> FertilizerRecord)
    returns (result: Status, recommendation: Option<FertilizerRecord>)
    requires IsFertilizerStore(store)
    modifies store
    ensures IsFertilizerStore(store)
    ensures id !in old(store.rows) ==> result == NotFound && store.rows == old(store.rows)
    ensures id in old(store.rows) && old(store.rows)[id].user != requester ==>
              result == Unauthorized && store.rows == old(store.rows)
    ensures id in old(store.rows) && old(store.rows)[id].user == requester ==>
              var changed := change(old(store.rows)[id]);
              (ValidFertilizerRecommendation(changed) ==> result == Ok && recommendation == Some(changed)
                                                          && store.rows == old(store.rows)[id := changed])
              && (!ValidFertilizerRecommendation(changed) ==> result == Error && store.rows == old(store.rows))
  {
    result, recommendation := store.Update(id, requester, change);
  }

  /** `deleteRecommendation`. */
  method DeleteFertilizerRecommendation(store: OwnedStore<FertilizerRecord>, id: nat, requester: UserId)
    returns (result: Status)
    requires IsFertilizerStore(store)
    modifies store
    ensures IsFertilizerStore(store)
    ensures id !in old(store.rows) ==> result == NotFound && store.rows == old(store.rows)
    ensures id in old(store.rows) && old(store.rows)[id].user != requester ==>
              result == Unauthorized && store.rows == old(store.rows)
    ensures id in old(store.rows) && old(store.rows)[id].user == requester ==>
              result == Ok && store.rows == old(store.rows) - {id}
  {
    result := store.Delete(id, requester);
  }

  predicate FertilizerMatches(r: FertilizerRecord, status: Option<string>)
  {
    !Given(status) || r.status == status.value
  }

  function FertilizerFilter(status: Option<string>): FertilizerRecord -> bool
  {
    r => FertilizerMatches(r, status)
  }

  /** `getRecommendations`: the requester's recommendations with the given
      status, newest first, one page of them, with the count of all of them. */
  method GetFertilizerRecommendations(store: OwnedStore<FertilizerRecord>, requester: UserId, status: Option<string>,
                                      page: Option<int>, limit: Option<nat>)
    returns (result: Status, listing: Option<Page<FertilizerRecord>>)
    requires IsFertilizerStore(store)
    ensures result == Error <==> Skip(PageParam(page), LimitParam(limit)) < 0
    ensures result == Ok ==>
              listing.Some?
              && listing.value.total == |store.Listing(requester, FertilizerFilter(status))|
              && listing.value.pages == PageCount(listing.value.total, LimitParam(limit))
              && listing.value.data == PageOf(store.RowsOf(store.Listing(requester, FertilizerFilter(status))), PageParam(page), LimitParam(limit)).value
              && listing.value.count == |listing.value.data|
              && (forall k :: 0 <= k < |listing.value.data| ==>
                    listing.value.data[k].user == requester && FertilizerMatches(listing.value.data[k], status))
  {
    result, listing := FindPage(store, requester, FertilizerFilter(status), PageParam(page), LimitParam(limit));
  }
}
