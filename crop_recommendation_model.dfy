/** A stored crop recommendation: the request it answers, the suggested
    crops, its defaults (generated by 'ai', 'active', expiring 90 days after
    creation), the schema checks that guard a write and the save hook that
    orders the suggestions by score in place. */
module CropRecommendationModel {
  import opened Common
  import opened Sorting

  /** 90 days in milliseconds: `90 * 24 * 60 * 60 * 1000`. */
  const ExpiryMs: int := 90 * 24 * 60 * 60 * 1000

  const RequestSeasons: set<string> := {"kharif", "rabi", "zaid", "perennial"}
  const SoilTypes: set<string> := {"clay", "sandy", "loamy", "silt", "peaty", "chalky"}
  const SuggestionCategories: set<string> := {"cereals", "pulses", "vegetables", "fruits", "oilseeds", "cash_crops", "spices"}
  const Levels: set<string> := {"low", "moderate", "high"}
  const Origins: set<string> := {"ai", "expert", "hybrid"}
  const RecommendationStatuses: set<string> := {"active", "accepted", "rejected", "expired"}

  /** One suggested crop, with the fields that do not come from `Math.random`. */
  datatype SuggestedCrop = SuggestedCrop(cropName: string, variety: string, category: string, suitabilityScore: int,
                                         reasoning: string, advantages: seq<string>, challenges: seq<string>,
                                         growthDays: int, waterRequirement: string, laborRequirement: string,
                                         sowingTime: string, harvestTime: string, spacing: string, seedRate: string)

  datatype CropRecommendationRecord = CropRecommendationRecord(
    user: nat, season: string, soilType: string, availableArea: real, irrigationAvailable: bool,
    recommendations: seq<SuggestedCrop>, generatedBy: string, status: string, expiresAt: int)

  /** The sort key of the save hook. */
  function ScoreOf(s: SuggestedCrop): int
  {
    s.suitabilityScore
  }

  predicate ValidSuggestion(s: SuggestedCrop)
  {
    && s.cropName != ""
    && s.category in SuggestionCategories
    && 0 <= s.suitabilityScore <= 100
    && s.waterRequirement in Levels
    && s.laborRequirement in Levels
  }

  /** The schema validators: enumerated season, soil type, origin and status,
      and suggestions with a name, an enumerated category and levels, and a
      score between 0 and 100. */
  predicate ValidRecommendation(r: CropRecommendationRecord)
  {
    && r.season in RequestSeasons
    && r.soilType in SoilTypes
    && r.generatedBy in Origins
    && r.status in RecommendationStatuses
    && forall i :: 0 <= i < |r.recommendations| ==> ValidSuggestion(r.recommendations[i])
  }

  /** The optional fields of a request body and their schema defaults at
      creation time `now`. */
  function WithDefaults(user: nat, season: string, soilType: string, availableArea: real, irrigationAvailable: Option<bool>,
                        status: Option<string>, expiresAt: Option<int>, recommendations: seq<SuggestedCrop>, now: int)
    : (r: CropRecommendationRecord)
    ensures r.user == user && r.season == season && r.soilType == soilType && r.availableArea == availableArea
    ensures r.recommendations == recommendations && r.generatedBy == "ai"
    ensures r.irrigationAvailable <==> irrigationAvailable == Some(true)
    ensures r.status == (if status.Some? then status.value else "active")
    ensures r.expiresAt == (if expiresAt.Some? then expiresAt.value else now + 7776000000)
  {
    CropRecommendationRecord(user, season, soilType, availableArea,
                             if irrigationAvailable.Some? then irrigationAvailable.value else false,
                             recommendations, "ai",
                             if status.Some? then status.value else "active",
                             if expiresAt.Some? then expiresAt.value else now + ExpiryMs)
  }

  /** The record a save writes: the suggestions in non-increasing score order, a permutation of the old ones. */
  function RecommendationAfterSave(r: CropRecommendationRecord): (s: CropRecommendationRecord)
    ensures SortedDesc(s.recommendations, ScoreOf)
    ensures multiset(s.recommendations) == multiset(r.recommendations)
    ensures |r.recommendations| == 0 ==> s == r
    ensures s == r.(recommendations := s.recommendations)
  {
    SortDescSorted(r.recommendations, ScoreOf);
    if |r.recommendations| > 0 then r.(recommendations := SortDesc(r.recommendations, ScoreOf)) else r
  }

  /** Sorting moves suggestions without changing any, so validity is kept. */
  lemma SortKeepsValidity(r: CropRecommendationRecord)
    requires ValidRecommendation(r)
    ensures ValidRecommendation(RecommendationAfterSave(r))
  {
    var s := RecommendationAfterSave(r).recommendations;
    forall i | 0 <= i < |s| ensures ValidSuggestion(s[i]) {
      assert s[i] in multiset(r.recommendations);
    }
  }

  /** A second save leaves the order as the first one made it. */
  lemma RecommendationSaveIdempotent(r: CropRecommendationRecord)
    ensures RecommendationAfterSave(RecommendationAfterSave(r)) == RecommendationAfterSave(r)
  {
    var s := RecommendationAfterSave(r);
    if |r.recommendations| > 0 {
      SortDescIdempotent(r.recommendations, ScoreOf);
    }
  }

  /** A crop recommendation document held in memory until it is saved. */
  class RecommendationDocument {
    var user: nat
    var season: string
    var soilType: string
    var availableArea: real
    var irrigationAvailable: bool
    var recommendations: seq<SuggestedCrop>
    var generatedBy: string
    var status: string
    var expiresAt: int

    function Snapshot(): CropRecommendationRecord
      reads this
    {
      CropRecommendationRecord(user, season, soilType, availableArea, irrigationAvailable, recommendations,
                               generatedBy, status, expiresAt)
    }

    constructor (r: CropRecommendationRecord)
      ensures Snapshot() == r
    {
      user, season, soilType, availableArea, irrigationAvailable := r.user, r.season, r.soilType, r.availableArea, r.irrigationAvailable;
      recommendations, generatedBy, status, expiresAt := r.recommendations, r.generatedBy, r.status, r.expiresAt;
    }

    /** The `pre('save')` hook: a non-empty suggestion list is sorted by score, largest first. */
    method PreSave()
      modifies this
      ensures Snapshot() == RecommendationAfterSave(old(Snapshot()))
    {
      if |recommendations| > 0 {
        recommendations := SortDesc(recommendations, ScoreOf);
      }
    }
  }
}
