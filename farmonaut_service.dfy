/** The response shaping of backend/src/services/farmonautService.js: weather
    advice chains over a loosely shaped reading (fields read with `||`
    defaults), pass-through or fallback crop lists, and the fixed fallback
    payloads served when the remote API is unavailable. */
module FarmonautService {
  import opened Common

  /** A weather reading as the remote API may return it: each value can
      arrive under either of two names, or not at all. */
  datatype WeatherPayload<F> = WeatherPayload(
    temperature: Option<real>,
    temp: Option<real>,
    humidity: Option<real>,
    precipitation: Option<real>,
    rain: Option<real>,
    windSpeed: Option<real>,
    wind: Option<real>,
    description: Option<string>,
    weatherDesc: Option<string>,
    forecast: Option<seq<F>>)

  /** A reading with no field at all. */
  function EmptyReading<F>(): WeatherPayload<F>
  {
    WeatherPayload(None, None, None, None, None, None, None, None, None, None)
  }

  /** `temperature || temp || 25`. */
  function TempOf<F>(w: WeatherPayload<F>): real
  {
    OrDefault(OrElse(w.temperature, w.temp), 25.0)
  }

  /** `humidity || 60`. */
  function HumidityOf<F>(w: WeatherPayload<F>): real
  {
    OrDefault(w.humidity, 60.0)
  }

  /** `precipitation || rain || 0`. */
  function RainOf<F>(w: WeatherPayload<F>): real
  {
    OrDefault(OrElse(w.precipitation, w.rain), 0.0)
  }

  const AvoidIrrigation := "Heavy rainfall expected. Avoid irrigation for next 2-3 days."
  const IncreaseIrrigation := "Hot and dry conditions. Increase irrigation frequency."
  const ModerateIrrigation := "Moderate irrigation recommended based on current conditions."
  const NormalIrrigation := "Normal irrigation schedule can be maintained."

  const PostponePlanting := "Heavy rainfall expected. Postpone planting activities."
  const ColdPlanting := "Temperature too low for most crops. Consider cold-hardy varieties."
  const HotPlanting := "High temperatures. Consider heat-tolerant varieties or wait for cooler weather."
  const GoodPlanting := "Good conditions for planting activities."

  const PostponeHarvest := "Rainfall expected. Postpone harvesting to avoid crop damage."
  const HumidHarvest := "High humidity. Ensure proper drying after harvest to prevent fungal growth."
  const SuitableHarvest := "Weather suitable for harvesting activities."

  /** `getIrrigationAdvice`: rain above 10 first, then hot and dry, then hot. */
  function IrrigationAdvice<F>(w: WeatherPayload<F>): (s: string)
    ensures var t, h, r := TempOf(w), HumidityOf(w), RainOf(w);
            (s == AvoidIrrigation <==> r > 10.0)
            && (s == IncreaseIrrigation <==> r <= 10.0 && t > 35.0 && h < 40.0)
            && (s == ModerateIrrigation <==> r <= 10.0 && !(t > 35.0 && h < 40.0) && t > 30.0)
            && (s == NormalIrrigation <==> r <= 10.0 && t <= 30.0)
  {
    var temp, humidity, rain := TempOf(w), HumidityOf(w), RainOf(w);
    if rain > 10.0 then AvoidIrrigation
    else if temp > 35.0 && humidity < 40.0 then IncreaseIrrigation
    else if temp > 30.0 then ModerateIrrigation
    else NormalIrrigation
  }

  /** `getPlantingAdvice`: rain above 20 first, then cold, then heat. */
  function PlantingAdvice<F>(w: WeatherPayload<F>): (s: string)
    ensures var t, r := TempOf(w), RainOf(w);
            (s == PostponePlanting <==> r > 20.0)
            && (s == ColdPlanting <==> r <= 20.0 && t < 15.0)
            && (s == HotPlanting <==> r <= 20.0 && t > 35.0)
            && (s == GoodPlanting <==> r <= 20.0 && 15.0 <= t <= 35.0)
  {
    var temp, rain := TempOf(w), RainOf(w);
    if rain > 20.0 then PostponePlanting
    else if temp < 15.0 then ColdPlanting
    else if temp > 35.0 then HotPlanting
    else GoodPlanting
  }

  /** `getHarvestingAdvice`: rain above 5 first, then humidity above 80. */
  function HarvestingAdvice<F>(w: WeatherPayload<F>): (s: string)
    ensures var h, r := HumidityOf(w), RainOf(w);
            (s == PostponeHarvest <==> r > 5.0)
            && (s == HumidHarvest <==> r <= 5.0 && h > 80.0)
            && (s == SuitableHarvest <==> r <= 5.0 && h <= 80.0)
  {
    var rain, humidity := RainOf(w), HumidityOf(w);
    if rain > 5.0 then PostponeHarvest
    else if humidity > 80.0 then HumidHarvest
    else SuitableHarvest
  }

  /** A reading with nothing in it (or only zeros) is read as 25 degrees,
      60 % humidity and no rain: normal irrigation, good planting, suitable harvesting. */
  lemma EmptyReadingAdvice<F>(w: WeatherPayload<F>)
    requires w.temperature.None? || w.temperature == Some(0.0)
    requires w.temp.None? || w.temp == Some(0.0)
    requires w.humidity.None? || w.humidity == Some(0.0)
    requires w.precipitation.None? || w.precipitation == Some(0.0)
    requires w.rain.None? || w.rain == Some(0.0)
    ensures IrrigationAdvice(w) == NormalIrrigation
    ensures PlantingAdvice(w) == GoodPlanting
    ensures HarvestingAdvice(w) == SuitableHarvest
  {
  }

  /** The first of two names wins when it holds a non-zero number. */
  lemma PrimaryNameWins<F>(w: WeatherPayload<F>)
    requires w.temperature.Some? && w.temperature.value != 0.0
    requires w.precipitation.Some? && w.precipitation.value != 0.0
    ensures TempOf(w) == w.temperature.value && RainOf(w) == w.precipitation.value
  {
  }

  /** `a || b` on two optional strings: an empty string counts as missing. */
  function StringOrElse(a: Option<string>, b: Option<string>): Option<string>
  {
    if a.Some? && a.value != "" then a else b
  }

  datatype CurrentSummary = CurrentSummary(
    temperature: Option<real>,
    humidity: Option<real>,
    precipitation: Option<real>,
    windSpeed: Option<real>,
    description: Option<string>)

  datatype FarmAdvice = FarmAdvice(irrigation: string, planting: string, harvesting: string)

  /** Where a payload's data came from (`metadata.source`). */
  datatype Source = FarmonautApi | FallbackData

  datatype WeatherResponse<F> = WeatherResponse(
    current: CurrentSummary,
    forecast: seq<F>,
    agriculturalAdvice: FarmAdvice,
    source: Source)

  /** `formatWeatherData`. */
  function FormatWeatherData<F>(data: WeatherPayload<F>): (r: WeatherResponse<F>)
    ensures r.agriculturalAdvice == FarmAdvice(IrrigationAdvice(data), PlantingAdvice(data), HarvestingAdvice(data))
    ensures r.forecast == if data.forecast.Some? then data.forecast.value else []
    ensures r.current.humidity == data.humidity
    ensures r.source == FarmonautApi
  {
    WeatherResponse(
      CurrentSummary(OrElse(data.temperature, data.temp), data.humidity, OrElse(data.precipitation, data.rain),
                     OrElse(data.windSpeed, data.wind), StringOrElse(data.description, data.weatherDesc)),
      if data.forecast.Some? then data.forecast.value else [],
      FarmAdvice(IrrigationAdvice(data), PlantingAdvice(data), HarvestingAdvice(data)),
      FarmonautApi)
  }

  /** `getFallbackWeatherData`: a fixed mild reading with fixed advice. */
  function FallbackWeatherData<F>(): (r: WeatherResponse<F>)
    ensures r.forecast == [] && r.source == FallbackData
    ensures r.current.temperature == Some(28.0) && r.current.humidity == Some(65.0)
  {
    WeatherResponse(
      CurrentSummary(Some(28.0), Some(65.0), Some(0.0), Some(12.0), Some("Partly Cloudy")),
      [],
      FarmAdvice("Moderate irrigation recommended based on current conditions",
                 "Good conditions for planting",
                 "Weather suitable for harvesting activities"),
      FallbackData)
  }

  // ---------------------------------------------------------------------
  // crop recommendations

  datatype FallbackCrop = FallbackCrop(
    name: string,
    suitability: string,
    expectedYield: string,
    waterRequirement: string,
    duration: string)

  const KharifCrops: seq<FallbackCrop> := [
    FallbackCrop("Rice", "high", "3-4 tons/hectare", "high", "120-150 days"),
    FallbackCrop("Cotton", "high", "2-3 tons/hectare", "medium", "150-180 days"),
    FallbackCrop("Maize", "medium", "2.5-3.5 tons/hectare", "medium", "90-120 days"),
    FallbackCrop("Sugarcane", "high", "70-80 tons/hectare", "high", "12-18 months"),
    FallbackCrop("Soybean", "medium", "1.5-2 tons/hectare", "medium", "90-120 days")
  ]

  const RabiCrops: seq<FallbackCrop> := [
    FallbackCrop("Wheat", "high", "3-4 tons/hectare", "medium", "120-150 days"),
    FallbackCrop("Barley", "medium", "2-3 tons/hectare", "low", "120-140 days"),
    FallbackCrop("Mustard", "high", "1-1.5 tons/hectare", "low", "90-120 days"),
    FallbackCrop("Chickpea", "high", "1.5-2 tons/hectare", "low", "120-150 days"),
    FallbackCrop("Peas", "medium", "2-3 tons/hectare", "medium", "90-110 days")
  ]

  const ZaidCrops: seq<FallbackCrop> := [
    FallbackCrop("Watermelon", "high", "25-30 tons/hectare", "high", "80-100 days"),
    FallbackCrop("Muskmelon", "high", "20-25 tons/hectare", "high", "80-100 days"),
    FallbackCrop("Cucumber", "medium", "15-20 tons/hectare", "medium", "50-70 days"),
    FallbackCrop("Tomato", "high", "30-40 tons/hectare", "medium", "90-120 days"),
    FallbackCrop("Green Fodder", "medium", "25-30 tons/hectare", "high", "60-80 days")
  ]

  /** `recommendations[season] || recommendations.kharif`. */
  function SeasonCrops(season: string): seq<FallbackCrop>
  {
    if season == "rabi" then RabiCrops else if season == "zaid" then ZaidCrops else KharifCrops
  }

  /** A crop list answer: the remote list passed through, or the fallback list. */
  datatype CropResponse<R> =
    | ApiCrops(requestedSeason: Option<string>, recommendations: seq<R>)
    | FallbackCrops(season: string, crops: seq<FallbackCrop>, soilType: string)

  /** `getFallbackCropRecommendations`: destructuring defaults apply only to
      absent parameters, so an absent season is 'kharif' and an absent soil 'loamy'. */
  function FallbackCropRecommendations<R>(season: Option<string>, soilType: Option<string>): (r: CropResponse<R>)
    ensures r.FallbackCrops?
    ensures r.season == (if season.Some? then season.value else "kharif")
    ensures r.soilType == (if soilType.Some? then soilType.value else "loamy")
    ensures |r.crops| == 5
  {
    var s := if season.Some? then season.value else "kharif";
    var soil := if soilType.Some? then soilType.value else "loamy";
    FallbackCrops(s, SeasonCrops(s), soil)
  }

  /** Any season other than 'rabi' and 'zaid' (and an absent one) gets the kharif list. */
  lemma UnknownSeasonIsKharif<R>(season: Option<string>, soilType: Option<string>)
    requires season.None? || season.value !in {"rabi", "zaid"}
    ensures FallbackCropRecommendations<R>(season, soilType).crops == KharifCrops
    ensures FallbackCropRecommendations<R>(season, soilType).crops[0].name == "Rice"
  {
  }

  /** The remote answer: absent, or an object whose `recommendations` may be absent. */
  datatype CropPayload<R> = CropPayload(recommendations: Option<seq<R>>)

  /** `formatCropRecommendations`: the remote list when there is one (even an
      empty array), else the fallback for the season with the default soil. */
  function FormatCropRecommendations<R>(data: Option<CropPayload<R>>, season: Option<string>): (r: CropResponse<R>)
    ensures data.Some? && data.value.recommendations.Some? ==>
              r == ApiCrops(season, data.value.recommendations.value)
    ensures data.None? || data.value.recommendations.None? ==>
              r == FallbackCropRecommendations(season, None) && r.soilType == "loamy"
  {
    if data.Some? && data.value.recommendations.Some? then ApiCrops(season, data.value.recommendations.value)
    else FallbackCropRecommendations(season, None)
  }

  // ---------------------------------------------------------------------
  // fertilizer fallback

  datatype FallbackProduct = FallbackProduct(kind: string, quantity: string, timing: string)

  datatype Dosage = Dosage(nitrogen: int, phosphorus: int, potassium: int)

  datatype FertilizerResponse = FertilizerResponse(
    recommendations: seq<FallbackProduct>,
    npkRatio: string,
    applicationTiming: seq<string>,
    dosage: Dosage,
    source: Source,
    cropType: Option<string>)

  /** `getFallbackFertilizerRecommendations`: a fixed three-product plan that only echoes the crop type. */
  function FallbackFertilizerRecommendations(cropType: Option<string>): (r: FertilizerResponse)
    ensures |r.recommendations| == 3
    ensures r.dosage == Dosage(100, 50, 50)
    ensures r.cropType == cropType && r.source == FallbackData
  {
    FertilizerResponse(
      [FallbackProduct("Urea", "100 kg/hectare", "Before sowing"),
       FallbackProduct("DAP", "75 kg/hectare", "At sowing"),
       FallbackProduct("Potash", "50 kg/hectare", "Before sowing")],
      "20:10:10",
      ["Before sowing", "At sowing", "30 days after sowing"],
      Dosage(100, 50, 50),
      FallbackData,
      cropType)
  }

  /** The remote fertilizer answer: any field may be missing; the products,
      timings and dosage are passed through without being read. */
  datatype FertilizerPayload<P, T, D> = FertilizerPayload(
    recommendations: Option<seq<P>>,
    npkRatio: Option<string>,
    timing: Option<seq<T>>,
    dosage: Option<D>)

  /** The formatted remote answer; a missing dosage is the empty object. */
  datatype ApiFertilizerResponse<P, T, D> = ApiFertilizerResponse(
    recommendations: seq<P>,
    npkRatio: Option<string>,
    applicationTiming: seq<T>,
    dosage: Option<D>,
    source: Source)

  /** `formatFertilizerRecommendations`: lists default to empty, an absent or
      empty ratio to null, and the source is the remote API. */
  function FormatFertilizerRecommendations<P, T, D>(data: FertilizerPayload<P, T, D>): (r: ApiFertilizerResponse<P, T, D>)
    ensures r.recommendations == (if data.recommendations.Some? then data.recommendations.value else [])
    ensures r.applicationTiming == (if data.timing.Some? then data.timing.value else [])
    ensures r.npkRatio.Some? <==> data.npkRatio.Some? && data.npkRatio.value != ""
    ensures r.npkRatio.Some? ==> r.npkRatio == data.npkRatio
    ensures r.dosage == data.dosage && r.source == FarmonautApi
  {
    ApiFertilizerResponse(
      if data.recommendations.Some? then data.recommendations.value else [],
      StringOrElse(data.npkRatio, None),
      if data.timing.Some? then data.timing.value else [],
      data.dosage,
      FarmonautApi)
  }

  /** The crop type changes nothing but the echoed metadata. */
  lemma FallbackIgnoresCrop(a: Option<string>, b: Option<string>)
    ensures FallbackFertilizerRecommendations(a) == FallbackFertilizerRecommendations(b).(cropType := a)
  {
  }
}
