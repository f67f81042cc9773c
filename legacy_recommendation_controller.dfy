/** The recommendation handlers of the older backend: crop suggestions from
    the suitability engine for a soil type and a season, crop plans whose
    area, budget and profit totals are computed from their crop lines, kept
    in an owner-checked store (403 for a requester who does not own a plan),
    and the seasonal advice lookups keyed by the current season. */
module LegacyRecommendationController {
  import opened Common
  import opened RecordStore
  import opened Sorting
  import opened CropSuitability

  const PlanSeasons: set<string> := {"Kharif", "Rabi", "Zaid", "Summer", "Winter", "Spring", "Fall", "Year-round"}
  const PlanStatuses: set<string> := {"Draft", "Active", "Completed", "Cancelled"}

  /** `getCropRecommendations`: 400 without a soil type or a season;
      otherwise the engine's report for them, with the request's climate or,
      failing that, the requester's location. */
  method GetCropRecommendations(soilType: Option<string>, season: Option<string>, climate: Option<string>,
                                location: Option<string>, farmSize: Option<real>, budget: Option<real>)
    returns (status: Status, report: Option<Report>)
    ensures !Given(soilType) || !Given(season) <==> status == BadRequest
    ensures status == BadRequest ==> report.None?
    ensures status != BadRequest ==>
              status == Ok && report.Some?
              && report.value.parameters == Parameters(soilType.value, season.value,
                                                       if Given(climate) then climate else location, farmSize, budget)
              && report.value.totalRecommendations == |Qualifying(CropDatabase, soilType.value, season.value)|
              && (var qualifying := Qualifying(CropDatabase, soilType.value, season.value);
                  report.value.recommendations == SortDesc(qualifying, ByScore)[..if |qualifying| < 10 then |qualifying| else 10])
              && SortedDesc(report.value.recommendations, ByScore)
              && |report.value.recommendations| <= 10
  {
    if !Given(soilType) || !Given(season) {
      return BadRequest, None;
    }
    var params := Parameters(soilType.value, season.value, if Given(climate) then climate else location, farmSize, budget);
    var generated := GenerateCropRecommendations(params);
    status, report := Ok, Some(generated);
  }

  /** One crop line of a plan; every number may be missing. */
  datatype PlanLine = PlanLine(cropName: Option<string>, cropType: Option<string>, area: Option<real>,
                               estimatedCost: Option<real>, estimatedRevenue: Option<real>)

  datatype CropPlan = CropPlan(user: nat, planName: string, season: string, year: int, crops: seq<PlanLine>,
                               totalArea: Option<real>, totalBudget: Option<real>, expectedProfit: Option<real>,
                               status: string)

  /** The schema validators: a plan name, and an enumerated season and status. */
  predicate ValidCropPlan(p: CropPlan)
  {
    p.planName != "" && p.season in PlanSeasons && p.status in PlanStatuses
  }

  /** `crop.area || 0`, line by line. */
  function LineAreas(lines: seq<PlanLine>): (xs: seq<real>)
    ensures |xs| == |lines| && forall i :: 0 <= i < |lines| ==> xs[i] == OrZero(lines[i].area)
  {
    seq(|lines|, i requires 0 <= i < |lines| => OrZero(lines[i].area))
  }

  /** `crop.estimatedCost || 0`, line by line. */
  function LineCosts(lines: seq<PlanLine>): (xs: seq<real>)
    ensures |xs| == |lines| && forall i :: 0 <= i < |lines| ==> xs[i] == OrZero(lines[i].estimatedCost)
  {
    seq(|lines|, i requires 0 <= i < |lines| => OrZero(lines[i].estimatedCost))
  }

  /** `crop.estimatedRevenue || 0`, line by line. */
  function LineRevenues(lines: seq<PlanLine>): (xs: seq<real>)
    ensures |xs| == |lines| && forall i :: 0 <= i < |lines| ==> xs[i] == OrZero(lines[i].estimatedRevenue)
  {
    seq(|lines|, i requires 0 <= i < |lines| => OrZero(lines[i].estimatedRevenue))
  }

  /** `(crop.estimatedRevenue || 0) - (crop.estimatedCost || 0)`, line by line. */
  function LineProfits(lines: seq<PlanLine>): (xs: seq<real>)
    ensures |xs| == |lines|
    ensures forall i :: 0 <= i < |lines| ==> xs[i] == OrZero(lines[i].estimatedRevenue) - OrZero(lines[i].estimatedCost)
  {
    seq(|lines|, i requires 0 <= i < |lines| => OrZero(lines[i].estimatedRevenue) - OrZero(lines[i].estimatedCost))
  }

  /** The plan's expected profit is its expected revenue minus its budget. */
  lemma {:induction false} ProfitIsRevenueMinusBudget(lines: seq<PlanLine>)
    ensures Total(LineProfits(lines)) == Total(LineRevenues(lines)) - Total(LineCosts(lines))
  {
    if |lines| > 0 {
      var n := |lines| - 1;
      var init := lines[..n];
      ProfitIsRevenueMinusBudget(init);
      assert LineProfits(lines)[..n] == LineProfits(init);
      assert LineRevenues(lines)[..n] == LineRevenues(init);
      assert LineCosts(lines)[..n] == LineCosts(init);
    }
  }

  /** The totals of a plan whose lines have no negative area or cost are not negative. */
  lemma TotalsNonNegative(lines: seq<PlanLine>)
    requires forall i :: 0 <= i < |lines| ==> OrZero(lines[i].area) >= 0.0 && OrZero(lines[i].estimatedCost) >= 0.0
    ensures Total(LineAreas(lines)) >= 0.0 && Total(LineCosts(lines)) >= 0.0
  {
    TotalNonNegative(LineAreas(lines));
    TotalNonNegative(LineCosts(lines));
  }

  /** A plan with its crop lines replaced and its three totals computed from them. */
  function WithLines(plan: CropPlan, lines: seq<PlanLine>): (p: CropPlan)
    ensures p.crops == lines
    ensures p.totalArea == Some(Total(LineAreas(lines))) && p.totalBudget == Some(Total(LineCosts(lines)))
    ensures p.expectedProfit == Some(Total(LineRevenues(lines)) - Total(LineCosts(lines)))
    ensures p == plan.(crops := lines, totalArea := p.totalArea, totalBudget := p.totalBudget, expectedProfit := p.expectedProfit)
  {
    ProfitIsRevenueMinusBudget(lines);
    plan.(crops := lines, totalArea := Some(Total(LineAreas(lines))), totalBudget := Some(Total(LineCosts(lines))),
          expectedProfit := Some(Total(LineProfits(lines))))
  }

  /** A create body with the owner and the default status filled in; when it
      carries a list of crop lines, the totals are computed from them and any
      totals in the body are overwritten. */
  function NewCropPlan(requester: UserId, planName: string, season: string, year: int, crops: Option<seq<PlanLine>>,
                       totalArea: Option<real>, totalBudget: Option<real>, expectedProfit: Option<real>,
                       status: Option<string>): (p: CropPlan)
    ensures p.user == requester && p.planName == planName && p.season == season && p.year == year
    ensures p.status == (if status.Some? then status.value else "Draft")
    ensures crops.Some? ==> p == WithLines(p, crops.value)
    ensures crops.None? ==> p.crops == [] && p.totalArea == totalArea && p.totalBudget == totalBudget
                            && p.expectedProfit == expectedProfit
  {
    var body := CropPlan(requester, planName, season, year, [], totalArea, totalBudget, expectedProfit,
                         if status.Some? then status.value else "Draft");
    if crops.Some? then WithLines(body, crops.value) else body
  }

  /** The plan collection: records owned by their `user`, a 403 guard, the schema validators. */
  ghost predicate IsCropPlanStore(store: OwnedStore<CropPlan>)
    reads store
  {
    && store.Valid()
    && store.denied == Forbidden
    && (forall r :: store.accepts(r) == ValidCropPlan(r))
    && (forall r :: store.ownerOf(r) == r.user)
  }

  /** `createCropPlan`. */
  method CreateCropPlan(store: OwnedStore<CropPlan>, requester: UserId, planName: string, season: string, year: int,
                        crops: Option<seq<PlanLine>>, totalArea: Option<real>, totalBudget: Option<real>,
                        expectedProfit: Option<real>, status: Option<string>)
    returns (result: Status, plan: Option<CropPlan>)
    requires IsCropPlanStore(store)
    modifies store
    ensures IsCropPlanStore(store)
    ensures var p := NewCropPlan(requester, planName, season, year, crops, totalArea, totalBudget, expectedProfit, status);
            (ValidCropPlan(p) ==> result == Created && plan == Some(p) && store.rows == old(store.rows)[old(store.nextId) := p])
            && (!ValidCropPlan(p) ==> result == Error && plan.None? && store.rows == old(store.rows))
  {
    var p := NewCropPlan(requester, planName, season, year, crops, totalArea, totalBudget, expectedProfit, status);
    var id;
    result, id := store.Create(p);
    plan := if result == Created then Some(p) else None;
  }

  /** The update `findByIdAndUpdate` applies: the body's other fields, then,
      when it carries a list of crop lines, those lines and their totals. */
  function PlanChange(patch: CropPlan -> CropPlan, crops: Option<seq<PlanLine>>): CropPlan -> CropPlan
  {
    r => if crops.Some? then WithLines(patch(r), crops.value) else patch(r)
  }

  /** `updateCropPlan`: the guard, then the update with recomputed totals and the validators. */
  method UpdateCropPlan(store: OwnedStore<CropPlan>, id: nat, requester: UserId, patch: CropPlan -> CropPlan,
                        crops: Option<seq<PlanLine>>)
    returns (result: Status, plan: Option<CropPlan>)
    requires IsCropPlanStore(store)
    modifies store
    ensures IsCropPlanStore(store)
    ensures id !in old(store.rows) ==> result == NotFound && store.rows == old(store.rows)
    ensures id in old(store.rows) && old(store.rows)[id].user != requester ==>
              result == Forbidden && store.rows == old(store.rows)
    ensures id in old(store.rows) && old(store.rows)[id].user == requester ==>
              var changed := PlanChange(patch, crops)(old(store.rows)[id]);
              (ValidCropPlan(changed) ==> result == Ok && plan == Some(changed) && store.rows == old(store.rows)[id := changed]
                                          && (crops.Some? ==> changed == WithLines(patch(old(store.rows)[id]), crops.value)))
              && (!ValidCropPlan(changed) ==> result == Error && store.rows == old(store.rows))
  {
    result, plan := store.Update(id, requester, PlanChange(patch, crops));
  }

  /** `getCropPlan`. */
  method GetCropPlan(store: OwnedStore<CropPlan>, id: nat, requester: UserId) returns (result: Status, plan: Option<CropPlan>)
    requires IsCropPlanStore(store)
    ensures id !in store.rows ==> result == NotFound && plan.None?
    ensures id in store.rows && store.rows[id].user != requester ==> result == Forbidden && plan.None?
    ensures id in store.rows && store.rows[id].user == requester ==> result == Ok && plan == Some(store.rows[id])
  {
    result, plan := store.Get(id, requester);
  }

  /** `deleteCropPlan`. */
  method DeleteCropPlan(store: OwnedStore<CropPlan>, id: nat, requester: UserId) returns (result: Status)
    requires IsCropPlanStore(store)
    modifies store
    ensures IsCropPlanStore(store)
    ensures id !in old(store.rows) ==> result == NotFound && store.rows == old(store.rows)
    ensures id in old(store.rows) && old(store.rows)[id].user != requester ==>
              result == Forbidden && store.rows == old(store.rows)
    ensures id in old(store.rows) && old(store.rows)[id].user == requester ==>
              result == Ok && store.rows == old(store.rows) - {id}
  {
    result := store.Delete(id, requester);
  }

  /** The filters of `getCropPlans`; the year arrives already parsed. */
  predicate CropPlanMatches(p: CropPlan, season: Option<string>, year: Option<int>, status: Option<string>)
  {
    (!Given(season) || p.season == season.value)
    && (year.None? || p.year == year.value)
    && (!Given(status) || p.status == status.value)
  }

  function CropPlanFilter(season: Option<string>, year: Option<int>, status: Option<string>): CropPlan -> bool
  {
    p => CropPlanMatches(p, season, year, status)
  }

  /** `getCropPlans`: every plan of the requester that passes the given filters, newest first. */
  method GetCropPlans(store: OwnedStore<CropPlan>, requester: UserId, season: Option<string>, year: Option<int>,
                      status: Option<string>)
    returns (count: nat, data: seq<CropPlan>)
    requires IsCropPlanStore(store)
    ensures count == |data| == |store.Listing(requester, CropPlanFilter(season, year, status))|
    ensures data == store.RowsOf(store.Listing(requester, CropPlanFilter(season, year, status)))
    ensures forall k :: 0 <= k < |data| ==> data[k].user == requester && CropPlanMatches(data[k], season, year, status)
    ensures forall id :: (id in store.rows && store.rows[id].user == requester
                          && CropPlanMatches(store.rows[id], season, year, status)) ==> store.rows[id] in data
  {
    data := FindAll(store, requester, CropPlanFilter(season, year, status));
    count := |data|;
  }

  /** `getCurrentSeason` for a calendar month (1 to 12): June to September
      is Kharif, October to March is Rabi, April and May are Zaid. */
  function CurrentSeason(month: int): (season: string)
    requires 1 <= month <= 12
    ensures season == "Kharif" <==> 6 <= month <= 9
    ensures season == "Rabi" <==> month >= 10 || month <= 3
    ensures season == "Zaid" <==> 4 <= month <= 5
  {
    if 6 <= month <= 9 then "Kharif"
    else if month >= 10 || month <= 3 then "Rabi"
    else "Zaid"
  }

  /** `seasonalCrops[season] || []`. */
  function SeasonalCrops(season: Option<string>): seq<string>
  {
    if season == Some("Kharif") then ["Rice", "Cotton", "Maize", "Soybean", "Groundnut"]
    else if season == Some("Rabi") then ["Wheat", "Barley", "Mustard", "Chickpea", "Lentils"]
    else if season == Some("Zaid") then ["Watermelon", "Muskmelon", "Cucumber", "Bitter Gourd"]
    else []
  }

  const NoWeatherInfo: string := "Season-specific weather data not available."

  /** `weatherInfo[season] || 'Season-specific weather data not available.'`. */
  function SeasonalWeather(season: Option<string>): string
  {
    if season == Some("Kharif") then "Monsoon season with high rainfall. Ensure proper drainage."
    else if season == Some("Rabi") then "Winter season with cooler temperatures. Good for wheat and pulses."
    else if season == Some("Zaid") then "Summer season. Requires good irrigation facilities."
    else NoWeatherInfo
  }

  /** `tips[season] || []`. */
  function SeasonalTips(season: Option<string>): seq<string>
  {
    if season == Some("Kharif") then
      ["Start sowing with the onset of monsoon", "Ensure field is ready before rains", "Plan for proper drainage"]
    else if season == Some("Rabi") then
      ["Sow after monsoon withdrawal", "Ensure adequate irrigation", "Protect crops from frost"]
    else if season == Some("Zaid") then
      ["Requires intensive irrigation", "Choose short-duration crops", "Protect from heat stress"]
    else []
  }

  /** The three seasons of the lookups have advice; any other key has only the defaults. */
  lemma SeasonLookups(season: Option<string>)
    ensures season.Some? && season.value in {"Kharif", "Rabi", "Zaid"} ==>
              |SeasonalCrops(season)| >= 4 && SeasonalWeather(season) != NoWeatherInfo && |SeasonalTips(season)| == 3
    ensures !(season.Some? && season.value in {"Kharif", "Rabi", "Zaid"}) ==>
              SeasonalCrops(season) == [] && SeasonalWeather(season) == NoWeatherInfo && SeasonalTips(season) == []
  {
  }

  datatype SeasonalAdvice = SeasonalAdvice(season: string, year: int, recommendedCrops: seq<string>,
                                           weatherConsiderations: string, farmingTips: seq<string>)

  /** The season a request is answered for: the one it names, else the current one. */
  function EffectiveSeason(season: Option<string>, month: int): string
    requires 1 <= month <= 12
  {
    if Given(season) then season.value else CurrentSeason(month)
  }

  /** `getSeasonalRecommendations` as written: the reported season falls back
      to the current one, but the three lookups are keyed by the season as
      requested, missing or not. */
  function SeasonalAdviceAsWritten(season: Option<string>, year: Option<int>, currentYear: int, month: int): SeasonalAdvice
    requires 1 <= month <= 12
  {
    SeasonalAdvice(EffectiveSeason(season, month), if year.Some? then year.value else currentYear,
                   SeasonalCrops(season), SeasonalWeather(season), SeasonalTips(season))
  }

  /** Without a season in the request, the code as written reports the
      current season yet answers with no crops, the default weather text and
      no tips, although the current season always has advice. */
  lemma AsWrittenIgnoresCurrentSeason(year: Option<int>, currentYear: int, month: int)
    requires 1 <= month <= 12
    ensures var advice := SeasonalAdviceAsWritten(None, year, currentYear, month);
            advice.season == CurrentSeason(month) && advice.season in {"Kharif", "Rabi", "Zaid"}
            && advice.recommendedCrops == [] && advice.weatherConsiderations == NoWeatherInfo && advice.farmingTips == []
            && |SeasonalCrops(Some(advice.season))| >= 4
  {
    SeasonLookups(None);
    SeasonLookups(Some(CurrentSeason(month)));
  }

  /** `getSeasonalRecommendations` with the lookups keyed by the season it reports. */
  function SeasonalRecommendations(season: Option<string>, year: Option<int>, currentYear: int, month: int): (advice: SeasonalAdvice)
    requires 1 <= month <= 12
    ensures advice.season == EffectiveSeason(season, month)
    ensures advice.year == (if year.Some? then year.value else currentYear)
    ensures advice.recommendedCrops == SeasonalCrops(Some(advice.season))
    ensures advice.weatherConsiderations == SeasonalWeather(Some(advice.season))
    ensures advice.farmingTips == SeasonalTips(Some(advice.season))
  {
    var effective := EffectiveSeason(season, month);
    SeasonalAdvice(effective, if year.Some? then year.value else currentYear,
                   SeasonalCrops(Some(effective)), SeasonalWeather(Some(effective)), SeasonalTips(Some(effective)))
  }

  /** The corrected answer agrees with the code whenever a season is named,
      and without one it always carries the current season's advice. */
  lemma SeasonalRecommendationsAgree(season: Option<string>, year: Option<int>, currentYear: int, month: int)
    requires 1 <= month <= 12
    ensures Given(season) ==> SeasonalRecommendations(season, year, currentYear, month)
                              == SeasonalAdviceAsWritten(season, year, currentYear, month)
    ensures !Given(season) ==> |SeasonalRecommendations(season, year, currentYear, month).recommendedCrops| >= 4
                               && SeasonalRecommendations(season, year, currentYear, month).weatherConsiderations != NoWeatherInfo
  {
    SeasonLookups(Some(CurrentSeason(month)));
  }
}
