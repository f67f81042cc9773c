/** The crop recommendation handlers of the newer backend: the rule helper
    that picks crops from a per-season table by soil and irrigation and
    scores them, and the owner-checked store of the resulting
    recommendations (401 for a requester who does not own one). */
module CropRecommendationController {
  import opened Common
  import opened RecordStore
  import opened CropRecommendationModel

  /** A row of the helper's per-season table. */
  datatype TableCrop = TableCrop(cropName: string, variety: string, category: string, waterRequirement: string,
                                 soilTypes: seq<string>)

  const KharifTable: seq<TableCrop> := [
    TableCrop("Rice", "Basmati", "cereals", "high", ["clay", "loamy"]),
    TableCrop("Cotton", "Bt Cotton", "cash_crops", "moderate", ["clay", "loamy", "sandy"]),
    TableCrop("Maize", "Hybrid", "cereals", "moderate", ["loamy", "sandy"]),
    TableCrop("Soybean", "JS 335", "oilseeds", "moderate", ["loamy", "clay"])
  ]

  const RabiTable: seq<TableCrop> := [
    TableCrop("Wheat", "HD 2967", "cereals", "moderate", ["loamy", "clay"]),
    TableCrop("Mustard", "Pusa Bold", "oilseeds", "low", ["loamy", "sandy"]),
    TableCrop("Chickpea", "Pusa 256", "pulses", "low", ["loamy", "clay"]),
    TableCrop("Barley", "RD 2715", "cereals", "low", ["loamy", "sandy"])
  ]

  const ZaidTable: seq<TableCrop> := [
    TableCrop("Watermelon", "Sugar Baby", "fruits", "high", ["sandy", "loamy"]),
    TableCrop("Cucumber", "Hybrid", "vegetables", "moderate", ["loamy", "sandy"]),
    TableCrop("Muskmelon", "Hybrid", "fruits", "moderate", ["sandy", "loamy"])
  ]

  /** `cropDatabase[season] || []`: the table of a known season, nothing otherwise. */
  function SeasonalCrops(season: string): (crops: seq<TableCrop>)
    ensures season == "kharif" ==> crops == KharifTable
    ensures season == "rabi" ==> crops == RabiTable
    ensures season == "zaid" ==> crops == ZaidTable
    ensures season !in {"kharif", "rabi", "zaid"} ==> crops == []
  {
    if season == "kharif" then KharifTable
    else if season == "rabi" then RabiTable
    else if season == "zaid" then ZaidTable
    else []
  }

  /** The soil check and the irrigation check of the helper: a crop is kept
      when it grows in the soil and needs little water or can be irrigated. */
  predicate Compatible(crop: TableCrop, soilType: string, irrigated: bool)
  {
    && soilType in crop.soilTypes
    && (crop.waterRequirement == "low"
        || (crop.waterRequirement == "moderate" && irrigated)
        || (crop.waterRequirement == "high" && irrigated))
  }

  /** The additive score: 50, +20 for the crop's first-listed soil, +15 for
      an irrigated high-water crop, +10 for a low-water crop, capped at 100. */
  function SuitabilityScore(crop: TableCrop, soilType: string, irrigated: bool): (score: int)
    ensures 50 <= score <= 85
    ensures score == 50 + (if |crop.soilTypes| > 0 && crop.soilTypes[0] == soilType then 20 else 0)
                        + (if irrigated && crop.waterRequirement == "high" then 15 else 0)
                        + (if crop.waterRequirement == "low" then 10 else 0)
  {
    var score := 50 + (if |crop.soilTypes| > 0 && crop.soilTypes[0] == soilType then 20 else 0)
                    + (if irrigated && crop.waterRequirement == "high" then 15 else 0)
                    + (if crop.waterRequirement == "low" then 10 else 0);
    if score < 100 then score else 100
  }

  /** Growth duration in days: 120 for kharif, 135 for rabi, 90 otherwise. */
  function GrowthDays(season: string): int
  {
    if season == "kharif" then 120 else if season == "rabi" then 135 else 90
  }

  function SowingTime(season: string): string
  {
    if season == "kharif" then "June-July" else if season == "rabi" then "October-November" else "March-April"
  }

  function HarvestTime(season: string): string
  {
    if season == "kharif" then "October-November" else if season == "rabi" then "March-April" else "June-July"
  }

  /** The record the helper pushes for a kept crop with the score it computed. */
  function Suggestion(crop: TableCrop, season: string, soilType: string, irrigated: bool, score: int): SuggestedCrop
  {
    SuggestedCrop(
      crop.cropName, crop.variety, crop.category, score,
      crop.cropName + " is well-suited for " + season + " season in " + soilType + " soil with "
        + (if irrigated then "available" else "limited") + " irrigation.",
      ["High market demand", "Suitable for " + soilType + " soil", crop.waterRequirement + " water requirement",
       "Proven variety for the region"],
      ["Requires proper pest management", "Market price fluctuations", "Weather dependency"],
      GrowthDays(season), crop.waterRequirement, "moderate", SowingTime(season), HarvestTime(season),
      "30cm x 30cm", "10-12 kg/acre")
  }

  /** The suggestion the helper pushes for a kept crop. */
  function Suggest(crop: TableCrop, season: string, soilType: string, irrigated: bool): (s: SuggestedCrop)
    ensures s.cropName == crop.cropName && s.variety == crop.variety && s.category == crop.category
    ensures s.suitabilityScore == SuitabilityScore(crop, soilType, irrigated)
    ensures s.waterRequirement == crop.waterRequirement && s.laborRequirement == "moderate"
    ensures s.growthDays == GrowthDays(season) && s.sowingTime == SowingTime(season) && s.harvestTime == HarvestTime(season)
  {
    Suggestion(crop, season, soilType, irrigated, SuitabilityScore(crop, soilType, irrigated))
  }

  /** The suggestions for the kept crops of a table, in table order. */
  function Suggestions(crops: seq<TableCrop>, season: string, soilType: string, irrigated: bool): (r: seq<SuggestedCrop>)
    ensures |r| <= |crops|
  {
    if |crops| == 0 then []
    else
      var last := crops[|crops| - 1];
      Suggestions(crops[..|crops| - 1], season, soilType, irrigated)
      + (if Compatible(last, soilType, irrigated) then [Suggest(last, season, soilType, irrigated)] else [])
  }

  /** Positions of the kept crops, in increasing order. */
  function KeptPositions(crops: seq<TableCrop>, soilType: string, irrigated: bool): (ps: seq<nat>)
    ensures forall k :: 0 <= k < |ps| ==> ps[k] < |crops| && Compatible(crops[ps[k]], soilType, irrigated)
    ensures forall k, l :: 0 <= k < l < |ps| ==> ps[k] < ps[l]
    ensures forall i :: 0 <= i < |crops| && Compatible(crops[i], soilType, irrigated) ==> i in ps
  {
    if |crops| == 0 then []
    else
      var n := |crops| - 1;
      var before := KeptPositions(crops[..n], soilType, irrigated);
      assert forall i :: 0 <= i < n ==> crops[..n][i] == crops[i];
      before + (if Compatible(crops[n], soilType, irrigated) then [n] else [])
  }

  /** The helper keeps exactly the compatible crops, in table order, each with its suggestion. */
  lemma {:induction false} SuggestionsFollowTable(crops: seq<TableCrop>, season: string, soilType: string, irrigated: bool)
    ensures var ps := KeptPositions(crops, soilType, irrigated);
            var r := Suggestions(crops, season, soilType, irrigated);
            |r| == |ps| && forall k :: 0 <= k < |ps| ==> r[k] == Suggest(crops[ps[k]], season, soilType, irrigated)
  {
    if |crops| > 0 {
      var n := |crops| - 1;
      SuggestionsFollowTable(crops[..n], season, soilType, irrigated);
      assert forall i :: 0 <= i < n ==> crops[..n][i] == crops[i];
    }
  }

  /** Every suggestion scores between 50 and 85, and without irrigation only low-water crops are suggested. */
  lemma {:induction false} SuggestionBounds(crops: seq<TableCrop>, season: string, soilType: string, irrigated: bool)
    ensures forall k :: 0 <= k < |Suggestions(crops, season, soilType, irrigated)| ==>
              var s := Suggestions(crops, season, soilType, irrigated)[k];
              50 <= s.suitabilityScore <= 85 && (irrigated || s.waterRequirement == "low")
  {
    SuggestionsFollowTable(crops, season, soilType, irrigated);
  }

  /** A table row whose suggestion passes the schema checks. */
  predicate RowValid(crop: TableCrop)
  {
    crop.cropName != "" && crop.category in SuggestionCategories && crop.waterRequirement in Levels
  }

  /** Every row of every season's table passes the schema checks. */
  lemma TablesValid(season: string)
    ensures forall i :: 0 <= i < |SeasonalCrops(season)| ==> RowValid(SeasonalCrops(season)[i])
  {
    if season == "kharif" {
      assert RowValid(KharifTable[0]) && RowValid(KharifTable[1]) && RowValid(KharifTable[2]) && RowValid(KharifTable[3]);
    } else if season == "rabi" {
      assert RowValid(RabiTable[0]) && RowValid(RabiTable[1]) && RowValid(RabiTable[2]) && RowValid(RabiTable[3]);
    } else if season == "zaid" {
      assert RowValid(ZaidTable[0]) && RowValid(ZaidTable[1]) && RowValid(ZaidTable[2]);
    }
  }

  /** Generated suggestions always pass the schema checks. */
  lemma {:induction false} SuggestionsValid(season: string, soilType: string, irrigated: bool)
    ensures forall k :: 0 <= k < |Suggestions(SeasonalCrops(season), season, soilType, irrigated)| ==>
              ValidSuggestion(Suggestions(SeasonalCrops(season), season, soilType, irrigated)[k])
  {
    var crops := SeasonalCrops(season);
    TablesValid(season);
    SuggestionsFollowTable(crops, season, soilType, irrigated);
  }

  /** `generateCropRecommendations(data)`: walks the season's table, keeps
      the compatible crops, and builds each suggestion's score step by step. */
  method GenerateCropRecommendations(season: string, soilType: string, irrigated: bool)
    returns (recommendations: seq<SuggestedCrop>)
    ensures recommendations == Suggestions(SeasonalCrops(season), season, soilType, irrigated)
  {
    var crops := SeasonalCrops(season);
    recommendations := [];
    for i := 0 to |crops|
      invariant recommendations == Suggestions(crops[..i], season, soilType, irrigated)
    {
      var crop := crops[i];
      var soilCompatibility := soilType in crop.soilTypes;
      var irrigationCompatibility := crop.waterRequirement == "low"
                                     || (crop.waterRequirement == "moderate" && irrigated)
                                     || (crop.waterRequirement == "high" && irrigated);
      if soilCompatibility && irrigationCompatibility {
        var suitabilityScore := 50;
        if |crop.soilTypes| > 0 && crop.soilTypes[0] == soilType {
          suitabilityScore := suitabilityScore + 20;
        }
        if irrigated && crop.waterRequirement == "high" {
          suitabilityScore := suitabilityScore + 15;
        }
        if crop.waterRequirement == "low" {
          suitabilityScore := suitabilityScore + 10;
        }
        var capped := if suitabilityScore < 100 then suitabilityScore else 100;
        assert capped == SuitabilityScore(crop, soilType, irrigated);
        recommendations := recommendations + [Suggestion(crop, season, soilType, irrigated, capped)];
      }
      assert crops[..i + 1][..i] == crops[..i];
    }
    assert crops[..|crops|] == crops;
  }

  /** The recommendation collection: records owned by their `user`, a 401 guard, the schema validators. */
  ghost predicate IsRecommendationStore(store: OwnedStore<CropRecommendationRecord>)
    reads store
  {
    && store.Valid()
    && store.denied == Unauthorized
    && (forall r :: store.accepts(r) == ValidRecommendation(r))
    && (forall r :: store.ownerOf(r) == r.user)
  }

  /** `createRecommendation`: the owner is the requester, the suggestions are
      the helper's and the origin is 'ai', whatever the body says; then the
      schema defaults, the validators, the save hook and the insert. */
  method CreateRecommendation(store: OwnedStore<CropRecommendationRecord>, requester: UserId, season: string,
                              soilType: string, availableArea: real, irrigationAvailable: Option<bool>,
                              status: Option<string>, expiresAt: Option<int>, now: int)
    returns (result: Status, recommendation: Option<CropRecommendationRecord>)
    requires IsRecommendationStore(store)
    modifies store
    ensures IsRecommendationStore(store)
    ensures var generated := Suggestions(SeasonalCrops(season), season, soilType, irrigationAvailable == Some(true));
            var record := WithDefaults(requester, season, soilType, availableArea, irrigationAvailable, status, expiresAt, generated, now);
            (ValidRecommendation(record) ==>
               result == Created && recommendation == Some(RecommendationAfterSave(record))
               && store.rows == old(store.rows)[old(store.nextId) := RecommendationAfterSave(record)])
            && (!ValidRecommendation(record) ==> result == Error && recommendation.None? && store.rows == old(store.rows))
  {
    var generated := GenerateCropRecommendations(season, soilType, irrigationAvailable == Some(true));
    var record := WithDefaults(requester, season, soilType, availableArea, irrigationAvailable, status, expiresAt, generated, now);
    if !store.accepts(record) {
      return Error, None;
    }
    var doc := new RecommendationDocument(record);
    doc.PreSave();
    var saved := doc.Snapshot();
    var id := store.Insert(saved);
    result, recommendation := Created, Some(saved);
  }

  /** A created recommendation is accepted exactly when the request's season,
      soil type and status are ones the schema knows, because the generated
      suggestions always pass. */
  lemma CreateAcceptance(requester: UserId, season: string, soilType: string, availableArea: real,
                         irrigationAvailable: Option<bool>, status: Option<string>, expiresAt: Option<int>, now: int)
    ensures var generated := Suggestions(SeasonalCrops(season), season, soilType, irrigationAvailable == Some(true));
            var record := WithDefaults(requester, season, soilType, availableArea, irrigationAvailable, status, expiresAt, generated, now);
            ValidRecommendation(record) <==>
              season in RequestSeasons && soilType in SoilTypes && (status.None? || status.value in RecommendationStatuses)
  {
    SuggestionsValid(season, soilType, irrigationAvailable == Some(true));
  }

  /** `getRecommendation`. */
  method GetRecommendation(store: OwnedStore<CropRecommendationRecord>, id: nat, requester: UserId)
    returns (result: Status, recommendation: Option<CropRecommendationRecord>)
    requires IsRecommendationStore(store)
    ensures id !in store.rows ==> result == NotFound && recommendation.None?
    ensures id in store.rows && store.rows[id].user != requester ==> result == Unauthorized && recommendation.None?
    ensures id in store.rows && store.rows[id].user == requester ==> result == Ok && recommendation == Some(store.rows[id])
  {
    result, recommendation := store.Get(id, requester);
  }

  /** `updateRecommendation`: the guard, then `findByIdAndUpdate` with the
      body's fields and the validators; the suggestions are not re-sorted. */
  method UpdateRecommendation(store: OwnedStore<CropRecommendationRecord>, id: nat, requester: UserId,
                              change: CropRecommendationRecord -> CropRecommendationRecord)
    returns (result: Status, recommendation: Option<CropRecommendationRecord>)
    requires IsRecommendationStore(store)
    modifies store
    ensures IsRecommendationStore(store)
    ensures id !in old(store.rows) ==> result == NotFound && store.rows == old(store.rows)
    ensures id in old(store.rows) && old(store.rows)[id].user != requester ==>
              result == Unauthorized && store.rows == old(store.rows)
    ensures id in old(store.rows) && old(store.rows)[id].user == requester ==>
              var changed := change(old(store.rows)[id]);
              (ValidRecommendation(changed) ==> result == Ok && recommendation == Some(changed)
                                                && store.rows == old(store.rows)[id := changed])
              && (!ValidRecommendation(changed) ==> result == Error && store.rows == old(store.rows))
  {
    result, recommendation := store.Update(id, requester, change);
  }

  /** `deleteRecommendation`. */
  method DeleteRecommendation(store: OwnedStore<CropRecommendationRecord>, id: nat, requester: UserId) returns (result: Status)
    requires IsRecommendationStore(store)
    modifies store
    ensures IsRecommendationStore(store)
    ensures id !in old(store.rows) ==> result == NotFound && store.rows == old(store.rows)
    ensures id in old(store.rows) && old(store.rows)[id].user != requester ==>
              result == Unauthorized && store.rows == old(store.rows)
    ensures id in old(store.rows) && old(store.rows)[id].user == requester ==>
              result == Ok && store.rows == old(store.rows) - {id}
  {
    result := store.Delete(id, requester);
  }

  predicate RecommendationMatches(r: CropRecommendationRecord, status: Option<string>, season: Option<string>)
  {
    (!Given(status) || r.status == status.value) && (!Given(season) || r.season == season.value)
  }

  function RecommendationFilter(status: Option<string>, season: Option<string>): CropRecommendationRecord -> bool
  {
    r => RecommendationMatches(r, status, season)
  }

  /** `getRecommendations`: the requester's recommendations that pass the
      given filters, newest first, one page of them, with the count of all of them. */
  method GetRecommendations(store: OwnedStore<CropRecommendationRecord>, requester: UserId, status: Option<string>,
                            season: Option<string>, page: Option<int>, limit: Option<nat>)
    returns (result: Status, listing: Option<Page<CropRecommendationRecord>>)
    requires IsRecommendationStore(store)
    ensures result == Error <==> Skip(PageParam(page), LimitParam(limit)) < 0
    ensures result == Ok ==>
              listing.Some?
              && listing.value.total == |store.Listing(requester, RecommendationFilter(status, season))|
              && listing.value.pages == PageCount(listing.value.total, LimitParam(limit))
              && listing.value.data == PageOf(store.RowsOf(store.Listing(requester, RecommendationFilter(status, season))), PageParam(page), LimitParam(limit)).value
              && listing.value.count == |listing.value.data|
              && (forall k :: 0 <= k < |listing.value.data| ==>
                    listing.value.data[k].user == requester && RecommendationMatches(listing.value.data[k], status, season))
  {
    result, listing := FindPage(store, requester, RecommendationFilter(status, season), PageParam(page), LimitParam(limit));
  }
}
