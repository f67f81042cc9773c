/** The rule-table crop suitability engine (backend/utils/cropRecommendation.js):
    every crop of a fixed ten-row table is scored against the requested soil
    type and season; crops scoring above 40 are recommended, best first, at
    most ten of them. */
module CropSuitability {
  import opened Common
  import opened Sorting

  datatype TempRange = TempRange(min: int, max: int)

  datatype CropProfile = CropProfile(
    name: string,
    soilTypes: seq<string>,
    seasons: seq<string>,
    minRainfall: int,
    tempRange: TempRange,
    waterRequirement: string,
    profitability: string)

  /** The crop table, in its declaration order. */
  const CropDatabase: seq<CropProfile> := [
    CropProfile("Rice", ["Clay", "Loamy"], ["Kharif"], 1000, TempRange(20, 35), "High", "Medium"),
    CropProfile("Wheat", ["Loamy", "Clay"], ["Rabi"], 400, TempRange(10, 25), "Medium", "High"),
    CropProfile("Cotton", ["Clay", "Loamy"], ["Kharif"], 600, TempRange(21, 35), "Medium", "High"),
    CropProfile("Maize", ["Loamy", "Sandy"], ["Kharif", "Rabi"], 500, TempRange(20, 30), "Medium", "Medium"),
    CropProfile("Sugarcane", ["Loamy", "Clay"], ["Year-round"], 1500, TempRange(20, 35), "Very High", "High"),
    CropProfile("Soybean", ["Loamy", "Clay"], ["Kharif"], 600, TempRange(20, 32), "Medium", "Medium"),
    CropProfile("Chickpea", ["Loamy", "Clay"], ["Rabi"], 400, TempRange(15, 30), "Low", "High"),
    CropProfile("Groundnut", ["Sandy", "Loamy"], ["Kharif", "Rabi"], 500, TempRange(20, 30), "Medium", "High"),
    CropProfile("Potato", ["Loamy", "Sandy"], ["Rabi"], 500, TempRange(15, 25), "High", "High"),
    CropProfile("Tomato", ["Loamy", "Sandy"], ["Year-round"], 600, TempRange(20, 30), "High", "High")
  ]

  /** Per-acre lookup tables of the estimate helpers. */
  const BaseYields: map<string, int> := map[
    "Rice" := 25, "Wheat" := 20, "Cotton" := 8, "Maize" := 30, "Sugarcane" := 350,
    "Soybean" := 12, "Chickpea" := 10, "Groundnut" := 15, "Potato" := 200, "Tomato" := 250]
  const BaseCosts: map<string, int> := map[
    "Rice" := 25000, "Wheat" := 20000, "Cotton" := 30000, "Maize" := 18000, "Sugarcane" := 60000,
    "Soybean" := 20000, "Chickpea" := 15000, "Groundnut" := 22000, "Potato" := 40000, "Tomato" := 50000]
  const BaseRevenue: map<string, int> := map[
    "Rice" := 45000, "Wheat" := 35000, "Cotton" := 55000, "Maize" := 35000, "Sugarcane" := 120000,
    "Soybean" := 40000, "Chickpea" := 35000, "Groundnut" := 45000, "Potato" := 80000, "Tomato" := 100000]

  /** `table[name] || fallback`: a missing name (or a zero entry) gives the fallback. */
  function LookupOr(table: map<string, int>, name: string, fallback: int): int
  {
    if name in table && table[name] != 0 then table[name] else fallback
  }

  datatype Yield = Yield(value: int, unit: string)

  function EstimatedYield(cropName: string): Yield
  {
    Yield(LookupOr(BaseYields, cropName, 20), "quintals/acre")
  }

  function EstimatedCost(cropName: string): int
  {
    LookupOr(BaseCosts, cropName, 20000)
  }

  function EstimatedRevenue(cropName: string): int
  {
    LookupOr(BaseRevenue, cropName, 35000)
  }

  /** Crops outside the estimate tables get 20 quintals, 20000 cost and 35000 revenue;
      crops inside get their own entry. */
  lemma EstimatesFallBack(cropName: string)
    ensures cropName !in BaseYields ==> EstimatedYield(cropName).value == 20
    ensures cropName !in BaseCosts ==> EstimatedCost(cropName) == 20000
    ensures cropName !in BaseRevenue ==> EstimatedRevenue(cropName) == 35000
    ensures cropName in BaseYields ==> EstimatedYield(cropName).value == BaseYields[cropName]
    ensures cropName in BaseCosts ==> EstimatedCost(cropName) == BaseCosts[cropName]
    ensures cropName in BaseRevenue ==> EstimatedRevenue(cropName) == BaseRevenue[cropName]
  {
  }

  /** `profitScores[p] || 0`. */
  function ProfitPoints(profitability: string): int
  {
    if profitability == "Low" then 5
    else if profitability == "Medium" then 10
    else if profitability == "High" then 20
    else 0
  }

  function WaterPoints(waterRequirement: string): int
  {
    if waterRequirement == "Low" then 10
    else if waterRequirement == "Medium" then 5
    else 0
  }

  predicate SoilMatches(crop: CropProfile, soilType: string)
  {
    soilType in crop.soilTypes
  }

  predicate SeasonMatches(crop: CropProfile, season: string)
  {
    season in crop.seasons || "Year-round" in crop.seasons
  }

  /** The additive score: 30 for the soil, 30 for the season, then the profitability and water points. */
  function Score(crop: CropProfile, soilType: string, season: string): int
  {
    (if SoilMatches(crop, soilType) then 30 else 0)
    + (if SeasonMatches(crop, season) then 30 else 0)
    + ProfitPoints(crop.profitability)
    + WaterPoints(crop.waterRequirement)
  }

  function Reasons(crop: CropProfile, soilType: string, season: string): seq<string>
  {
    (if SoilMatches(crop, soilType) then ["Suitable for " + soilType + " soil"] else [])
    + (if SeasonMatches(crop, season) then ["Ideal for " + season + " season"] else [])
    + (if crop.waterRequirement == "Low" then ["Low water requirement"] else [])
  }

  datatype Recommendation = Recommendation(
    cropName: string,
    score: int,
    suitabilityPercentage: int,
    reasons: seq<string>,
    details: CropProfile,
    estimatedYield: Yield,
    estimatedCostPerAcre: int,
    estimatedRevenuePerAcre: int)

  function Recommend(crop: CropProfile, soilType: string, season: string): Recommendation
  {
    var score := Score(crop, soilType, season);
    Recommendation(crop.name, score, if score < 100 then score else 100,
                   Reasons(crop, soilType, season), crop,
                   EstimatedYield(crop.name), EstimatedCost(crop.name), EstimatedRevenue(crop.name))
  }

  /** The recommendations the loop pushes, in table order: every row scoring above 40. */
  function Qualifying(table: seq<CropProfile>, soilType: string, season: string): seq<Recommendation>
  {
    if |table| == 0 then []
    else
      var last := table[|table| - 1];
      Qualifying(table[..|table| - 1], soilType, season)
      + (if Score(last, soilType, season) > 40 then [Recommend(last, soilType, season)] else [])
  }

  function ByScore(r: Recommendation): int
  {
    r.score
  }

  datatype Parameters = Parameters(
    soilType: string,
    season: string,
    climate: Option<string>,
    farmSize: Option<real>,
    budget: Option<real>)

  datatype Report = Report(
    totalRecommendations: nat,
    recommendations: seq<Recommendation>,
    parameters: Parameters)

  /** The score is exactly the sum of its four parts, each as the table states it. */
  lemma ScoreBounds(crop: CropProfile, soilType: string, season: string)
    ensures 0 <= Score(crop, soilType, season) <= 90
    ensures !SoilMatches(crop, soilType) && !SeasonMatches(crop, season) ==> Score(crop, soilType, season) <= 30
    ensures Recommend(crop, soilType, season).suitabilityPercentage == Score(crop, soilType, season)
  {
  }

  /** A year-round crop earns the season points whatever season is asked for. */
  lemma YearRoundEarnsSeasonPoints(crop: CropProfile, soilType: string, season: string, other: string)
    requires "Year-round" in crop.seasons
    ensures Score(crop, soilType, season) == Score(crop, soilType, other)
  {
  }

  lemma {:induction false} QualifyingAboveForty(table: seq<CropProfile>, soilType: string, season: string)
    ensures |Qualifying(table, soilType, season)| <= |table|
    ensures forall r :: r in Qualifying(table, soilType, season) ==> r.score > 40 && r.suitabilityPercentage == r.score
  {
    if |table| > 0 {
      QualifyingAboveForty(table[..|table| - 1], soilType, season);
    }
  }

  /** A crop that matches neither the soil nor the season is never recommended. */
  lemma {:induction false} UnmatchedNeverRecommended(table: seq<CropProfile>, soilType: string, season: string, crop: CropProfile)
    requires !SoilMatches(crop, soilType) && !SeasonMatches(crop, season)
    ensures forall r :: r in Qualifying(table, soilType, season) ==> r.details != crop
  {
    if |table| > 0 {
      UnmatchedNeverRecommended(table[..|table| - 1], soilType, season, crop);
    }
  }

  /** The body of the scoring loop: the score and the reasons accumulated for one row. */
  method ScoreCrop(crop: CropProfile, soilType: string, season: string) returns (score: int, reasons: seq<string>)
    ensures score == Score(crop, soilType, season)
    ensures reasons == Reasons(crop, soilType, season)
  {
    score := 0;
    reasons := [];
    if soilType in crop.soilTypes {
      score := score + 30;
      reasons := reasons + ["Suitable for " + soilType + " soil"];
    }
    if season in crop.seasons || "Year-round" in crop.seasons {
      score := score + 30;
      reasons := reasons + ["Ideal for " + season + " season"];
    }
    score := score + ProfitPoints(crop.profitability);
    if crop.waterRequirement == "Low" {
      score := score + 10;
      reasons := reasons + ["Low water requirement"];
    } else if crop.waterRequirement == "Medium" {
      score := score + 5;
    }
  }

  /** `generateCropRecommendations`: score each row, keep those above 40,
      sort by score (best first) and keep the first ten; the total counts
      every qualifying row before the cut. */
  method GenerateCropRecommendations(params: Parameters) returns (report: Report)
    ensures report.totalRecommendations == |Qualifying(CropDatabase, params.soilType, params.season)|
    ensures report.recommendations
            == SortDesc(Qualifying(CropDatabase, params.soilType, params.season), ByScore)[..if report.totalRecommendations < 10 then report.totalRecommendations else 10]
    ensures |report.recommendations| <= 10
    ensures SortedDesc(report.recommendations, ByScore)
    ensures forall r :: r in report.recommendations ==> r.score > 40 && r.suitabilityPercentage == r.score
    ensures report.parameters == params
  {
    var soilType, season := params.soilType, params.season;
    var recommendations: seq<Recommendation> := [];
    var i := 0;
    while i < |CropDatabase|
      invariant 0 <= i <= |CropDatabase|
      invariant recommendations == Qualifying(CropDatabase[..i], soilType, season)
    {
      var crop := CropDatabase[i];
      var score, reasons := ScoreCrop(crop, soilType, season);
      if score > 40 {
        recommendations := recommendations + [Recommendation(
          crop.name, score, if score < 100 then score else 100, reasons, crop,
          EstimatedYield(crop.name), EstimatedCost(crop.name), EstimatedRevenue(crop.name))];
      }
      assert CropDatabase[..i + 1][..i] == CropDatabase[..i];
      i := i + 1;
    }
    assert CropDatabase[..i] == CropDatabase;
    QualifyingAboveForty(CropDatabase, soilType, season);
    var sorted := SortDesc(recommendations, ByScore);
    SortDescSorted(recommendations, ByScore);
    var n := |recommendations|;
    var top := sorted[..if n < 10 then n else 10];
    forall r | r in top ensures r.score > 40 && r.suitabilityPercentage == r.score {
      SortDescSameElements(recommendations, ByScore, r);
    }
    report := Report(n, top, params);
  }
}
