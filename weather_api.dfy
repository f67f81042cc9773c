/** The forecast post-processing of backend/utils/weatherAPI.js: three-hourly
    forecast items are grouped by calendar day into daily summaries, and
    agricultural indicators (growing degree days, soil moisture, frost and
    heat flags, advice) are derived from the current reading and the days. */
module WeatherApi {
  import opened Common
  import opened Grouping
  import opened OpenWeather

  function Larger(a: real, b: real): real
  {
    if a >= b then a else b
  }

  /** The dictionary entry of one day while the items are folded in. */
  datatype DayAcc = DayAcc(
    dt: int,
    temps: seq<real>,
    humidity: seq<real>,
    windSpeed: seq<real>,
    descriptions: seq<string>,
    icons: seq<string>,
    precipitation: real,
    precipProb: real)

  /** The entry created for a day's first item. */
  function NewDay(item: ForecastItem): DayAcc
  {
    DayAcc(item.dt, [], [], [], [], [], 0.0, 0.0)
  }

  /** The pushes and updates the loop body applies to a day's entry. */
  function AddReading(acc: DayAcc, item: ForecastItem): DayAcc
  {
    acc.(temps := acc.temps + [item.temp],
         humidity := acc.humidity + [item.humidity],
         windSpeed := acc.windSpeed + [item.windSpeed],
         descriptions := acc.descriptions + [item.description],
         icons := acc.icons + [item.icon],
         precipitation := acc.precipitation + RainOf(item),
         precipProb := if HasPop(item) then Larger(acc.precipProb, item.pop.value * 100.0) else acc.precipProb)
  }

  function Temps(xs: seq<ForecastItem>): seq<real>
  {
    seq(|xs|, j requires 0 <= j < |xs| => xs[j].temp)
  }

  function Humidities(xs: seq<ForecastItem>): seq<real>
  {
    seq(|xs|, j requires 0 <= j < |xs| => xs[j].humidity)
  }

  function WindSpeeds(xs: seq<ForecastItem>): seq<real>
  {
    seq(|xs|, j requires 0 <= j < |xs| => xs[j].windSpeed)
  }

  function Rains(xs: seq<ForecastItem>): seq<real>
  {
    seq(|xs|, j requires 0 <= j < |xs| => RainOf(xs[j]))
  }

  /** The largest `pop * 100` of a day, over the items that carry one, and 0 when none does. */
  function PeakPop(xs: seq<ForecastItem>): (p: real)
    ensures p >= 0.0
    ensures forall j :: 0 <= j < |xs| && HasPop(xs[j]) ==> xs[j].pop.value * 100.0 <= p
    ensures p == 0.0 || exists j :: 0 <= j < |xs| && HasPop(xs[j]) && p == xs[j].pop.value * 100.0
  {
    if |xs| == 0 then 0.0
    else
      var prefix := xs[..|xs| - 1];
      assert forall j :: 0 <= j < |prefix| ==> prefix[j] == xs[j];
      var last := xs[|xs| - 1];
      if HasPop(last) then Larger(PeakPop(prefix), last.pop.value * 100.0) else PeakPop(prefix)
  }

  /** The summary of one day, as `Object.values(dailyData).map(...)` builds it. */
  datatype DailyForecast = DailyForecast(
    dt: int,
    tempMin: real,
    tempMax: real,
    humidity: int,
    precipitation: real,
    precipitationProbability: int,
    windSpeed: real,
    description: string,
    icon: string)

  /** The mapping step: minimum and maximum temperature, rounded mean humidity,
      rain to one decimal, rounded peak probability, mean wind to one decimal,
      and the middle item's description and icon. */
  function Summarize(acc: DayAcc): DailyForecast
    requires |acc.temps| > 0 && |acc.humidity| > 0 && |acc.windSpeed| > 0
    requires |acc.descriptions| > 0 && |acc.icons| > 0
  {
    DailyForecast(
      acc.dt,
      MinOf(acc.temps),
      MaxOf(acc.temps),
      JsRound(Total(acc.humidity) / |acc.humidity| as real),
      RoundTenth(acc.precipitation),
      JsRound(acc.precipProb),
      RoundTenth(Total(acc.windSpeed) / |acc.windSpeed| as real),
      acc.descriptions[|acc.descriptions| / 2],
      acc.icons[|acc.icons| / 2])
  }

  /** The reference summary of a day, read directly off the day's items. */
  function DayFromItems(xs: seq<ForecastItem>): (d: DailyForecast)
    requires |xs| > 0
    ensures d.tempMin <= d.tempMax
  {
    DailyForecast(
      xs[0].dt,
      MinOf(Temps(xs)),
      MaxOf(Temps(xs)),
      JsRound(Total(Humidities(xs)) / |xs| as real),
      RoundTenth(Total(Rains(xs))),
      JsRound(PeakPop(xs)),
      RoundTenth(Total(WindSpeeds(xs)) / |xs| as real),
      xs[|xs| / 2].description,
      xs[|xs| / 2].icon)
  }

  /** Folding a day's items into a fresh entry collects exactly those items'
      readings, in order, with the summed rain and the peak probability. */
  lemma {:induction false} FoldedDay(xs: seq<ForecastItem>)
    requires |xs| > 0
    ensures var acc := FoldGroup(xs, NewDay, AddReading);
            acc.dt == xs[0].dt
            && acc.temps == Temps(xs) && acc.humidity == Humidities(xs) && acc.windSpeed == WindSpeeds(xs)
            && acc.descriptions == seq(|xs|, j requires 0 <= j < |xs| => xs[j].description)
            && acc.icons == seq(|xs|, j requires 0 <= j < |xs| => xs[j].icon)
            && acc.precipitation == Total(Rains(xs))
            && acc.precipProb == PeakPop(xs)
  {
    var prefix := xs[..|xs| - 1];
    if |xs| > 1 {
      FoldedDay(prefix);
      assert Temps(prefix) + [xs[|xs| - 1].temp] == Temps(xs);
      assert Humidities(prefix) + [xs[|xs| - 1].humidity] == Humidities(xs);
      assert WindSpeeds(prefix) + [xs[|xs| - 1].windSpeed] == WindSpeeds(xs);
      assert Rains(xs)[..|xs| - 1] == Rains(prefix);
      assert prefix[0] == xs[0];
    } else {
      assert Rains(xs)[..0] == [];
    }
  }

  /** The summary built from the folded entry is the reference summary. */
  lemma SummaryOfDay(xs: seq<ForecastItem>)
    requires |xs| > 0
    ensures var acc := FoldGroup(xs, NewDay, AddReading);
            |acc.temps| > 0 && |acc.humidity| > 0 && |acc.windSpeed| > 0
            && |acc.descriptions| > 0 && |acc.icons| > 0
            && Summarize(acc) == DayFromItems(xs)
  {
    FoldedDay(xs);
  }

  /** `processForecastData`: one summary per calendar day, in the order the
      days first occur in the forecast list. `dayKey` is the ISO calendar
      date of an item's timestamp (`toISOString().split('T')[0]`). */
  method ProcessForecastData(forecastList: seq<ForecastItem>, dayKey: ForecastItem -> string) returns (days: seq<DailyForecast>)
    ensures |days| == |DayKeys(forecastList, dayKey)|
    ensures forall d :: 0 <= d < |days| ==>
              var xs := ItemsOn(forecastList, dayKey, DayKeys(forecastList, dayKey)[d]);
              |xs| > 0 && days[d] == DayFromItems(xs)
  {
    var order, dailyData := GroupBy(forecastList, dayKey, NewDay, AddReading);
    forall k | k in dailyData
      ensures var acc := dailyData[k];
              |acc.temps| > 0 && |acc.humidity| > 0 && |acc.windSpeed| > 0
              && |acc.descriptions| > 0 && |acc.icons| > 0
              && Summarize(acc) == DayFromItems(ItemsOn(forecastList, dayKey, k))
    {
      SummaryOfDay(ItemsOn(forecastList, dayKey, k));
    }
    days := seq(|order|, d requires 0 <= d < |order| && order[d] in dailyData => Summarize(dailyData[order[d]]));
  }

  /** Every daily summary has its minimum no higher than its maximum, its
      rain the sum of the day's three-hour rain, and its description and icon
      taken from the day's middle item. */
  lemma DailyFacts(forecastList: seq<ForecastItem>, dayKey: ForecastItem -> string, d: nat)
    requires d < |DayKeys(forecastList, dayKey)|
    ensures var xs := ItemsOn(forecastList, dayKey, DayKeys(forecastList, dayKey)[d]);
            |xs| > 0
            && DayFromItems(xs).tempMin <= DayFromItems(xs).tempMax
            && (forall j :: 0 <= j < |xs| ==> DayFromItems(xs).tempMin <= xs[j].temp <= DayFromItems(xs).tempMax)
            && DayFromItems(xs).precipitation == RoundTenth(Total(Rains(xs)))
            && DayFromItems(xs).description == xs[|xs| / 2].description
            && dayKey(xs[0]) == DayKeys(forecastList, dayKey)[d]
  {
    var k := DayKeys(forecastList, dayKey)[d];
    ItemsOnNonEmpty(forecastList, dayKey, k);
    var xs := ItemsOn(forecastList, dayKey, k);
    forall j | 0 <= j < |xs| ensures DayFromItems(xs).tempMin <= xs[j].temp <= DayFromItems(xs).tempMax {
      assert Temps(xs)[j] == xs[j].temp;
    }
  }

  /** Two different summaries never come from the same calendar day. */
  lemma OneSummaryPerDay(forecastList: seq<ForecastItem>, dayKey: ForecastItem -> string, d: nat, e: nat)
    requires d < e < |DayKeys(forecastList, dayKey)|
    ensures DayKeys(forecastList, dayKey)[d] != DayKeys(forecastList, dayKey)[e]
  {
  }

  // ---------------------------------------------------------------------
  // calculateAgriculturalData

  /** The current reading the derivations use. */
  datatype CurrentReading = CurrentReading(temperature: real, humidity: real, windSpeed: real)

  datatype AgriculturalData = AgriculturalData(
    soilTemperature: real,
    soilMoisture: int,
    growingDegreeDays: int,
    frostWarning: bool,
    heatStress: bool,
    recommendations: seq<string>)

  const BaseTemp: real := 10.0

  /** Degrees by which a day's mean temperature exceeds the base, 0 when it does not. */
  function DayExcess(day: DailyForecast): real
  {
    var avgTemp := (day.tempMax + day.tempMin) / 2.0;
    if avgTemp > BaseTemp then avgTemp - BaseTemp else 0.0
  }

  /** Unrounded growing degree days of a run of days. */
  function DegreeDays(days: seq<DailyForecast>): real
  {
    if |days| == 0 then 0.0 else DegreeDays(days[..|days| - 1]) + DayExcess(days[|days| - 1])
  }

  /** Growing degree days never go negative, and a day adds to them exactly when its mean exceeds 10. */
  lemma {:induction false} DegreeDaysNonNegative(days: seq<DailyForecast>)
    ensures DegreeDays(days) >= 0.0
    ensures forall j :: 0 <= j < |days| ==> DayExcess(days[j]) <= DegreeDays(days)
  {
    if |days| > 0 {
      var prefix := days[..|days| - 1];
      DegreeDaysNonNegative(prefix);
      assert forall j :: 0 <= j < |prefix| ==> prefix[j] == days[j];
    }
  }

  /** `humidity > 70 ? 80 : humidity < 40 ? 30 : 60`. */
  function SoilMoisture(humidity: real): (m: int)
    ensures m == 80 <==> humidity > 70.0
    ensures m == 30 <==> humidity < 40.0
    ensures m == 60 <==> 40.0 <= humidity <= 70.0
  {
    if humidity > 70.0 then 80 else if humidity < 40.0 then 30 else 60
  }

  predicate FrostWarning(current: CurrentReading, forecast: seq<DailyForecast>)
  {
    current.temperature < 5.0 || exists j :: 0 <= j < |forecast| && forecast[j].tempMin < 5.0
  }

  predicate HeatStress(current: CurrentReading, forecast: seq<DailyForecast>)
  {
    current.temperature > 38.0 || exists j :: 0 <= j < |forecast| && forecast[j].tempMax > 38.0
  }

  predicate HeavyRainAhead(forecast: seq<DailyForecast>)
  {
    exists j :: 0 <= j < |forecast| && forecast[j].precipitation > 50.0
  }

  const FrostAdvice := "Frost warning: Protect sensitive crops with covers or mulching"
  const HeatAdvice := "Heat stress alert: Increase irrigation frequency"
  const DryAirAdvice := "Low humidity: Monitor crops for water stress"
  const DrainageAdvice := "Heavy rainfall expected: Ensure proper field drainage"

  /** `calculateAgriculturalData` without the evapotranspiration estimate. */
  method CalculateAgriculturalData(current: CurrentReading, forecast: seq<DailyForecast>) returns (data: AgriculturalData)
    ensures data.growingDegreeDays == JsRound(DegreeDays(forecast))
    ensures data.soilTemperature == RoundTenth(current.temperature - 2.0)
    ensures data.soilMoisture == SoilMoisture(current.humidity)
    ensures data.frostWarning == FrostWarning(current, forecast)
    ensures data.heatStress == HeatStress(current, forecast)
    ensures data.recommendations
            == (if FrostWarning(current, forecast) then [FrostAdvice] else [])
               + (if HeatStress(current, forecast) then [HeatAdvice] else [])
               + (if current.humidity < 40.0 then [DryAirAdvice] else [])
               + (if HeavyRainAhead(forecast) then [DrainageAdvice] else [])
  {
    var gdd := 0.0;
    for i := 0 to |forecast|
      invariant gdd == DegreeDays(forecast[..i])
    {
      assert forecast[..i + 1][..i] == forecast[..i];
      var day := forecast[i];
      var avgTemp := (day.tempMax + day.tempMin) / 2.0;
      if avgTemp > BaseTemp {
        gdd := gdd + (avgTemp - BaseTemp);
      }
    }
    assert forecast[..|forecast|] == forecast;

    var soilTemperature := current.temperature - 2.0;
    var soilMoisture := if current.humidity > 70.0 then 80 else if current.humidity < 40.0 then 30 else 60;

    var frostWarning := current.temperature < 5.0 || exists j :: 0 <= j < |forecast| && forecast[j].tempMin < 5.0;
    var heatStress := current.temperature > 38.0 || exists j :: 0 <= j < |forecast| && forecast[j].tempMax > 38.0;

    var recommendations: seq<string> := [];
    if frostWarning {
      recommendations := recommendations + [FrostAdvice];
    }
    if heatStress {
      recommendations := recommendations + [HeatAdvice];
    }
    if current.humidity < 40.0 {
      recommendations := recommendations + [DryAirAdvice];
    }
    if exists j :: 0 <= j < |forecast| && forecast[j].precipitation > 50.0 {
      recommendations := recommendations + [DrainageAdvice];
    }

    data := AgriculturalData(RoundTenth(soilTemperature), soilMoisture, JsRound(gdd),
                             frostWarning, heatStress, recommendations);
  }

  /** Each message is present exactly when its condition holds, at most once,
      and the list holds at most four messages. */
  lemma AdviceIffConditions(current: CurrentReading, forecast: seq<DailyForecast>, recs: seq<string>)
    requires recs == (if FrostWarning(current, forecast) then [FrostAdvice] else [])
                     + (if HeatStress(current, forecast) then [HeatAdvice] else [])
                     + (if current.humidity < 40.0 then [DryAirAdvice] else [])
                     + (if HeavyRainAhead(forecast) then [DrainageAdvice] else [])
    ensures FrostAdvice in recs <==> FrostWarning(current, forecast)
    ensures HeatAdvice in recs <==> HeatStress(current, forecast)
    ensures DryAirAdvice in recs <==> current.humidity < 40.0
    ensures DrainageAdvice in recs <==> HeavyRainAhead(forecast)
    ensures |recs| <= 4
    ensures forall i, j :: 0 <= i < j < |recs| ==> recs[i] != recs[j]
  {
    assert FrostAdvice != HeatAdvice && FrostAdvice != DryAirAdvice && FrostAdvice != DrainageAdvice;
    assert HeatAdvice != DryAirAdvice && HeatAdvice != DrainageAdvice && DryAirAdvice != DrainageAdvice;
  }
}
