/** The weather service of backend/src/services/weatherService.js: formatting
    of the current reading and of the forecast, and the rule chains that turn
    a reading into farming advice. */
module WeatherService {
  import opened Common
  import opened Grouping
  import opened OpenWeather

  /** The current-weather payload (`data.main`, `data.wind`, `data.clouds`, `data.rain`, `data.weather[0]`). */
  datatype CurrentPayload = CurrentPayload(
    name: string,
    country: string,
    lon: real,
    lat: real,
    temp: real,
    feelsLike: real,
    humidity: real,
    pressure: real,
    windSpeed: real,
    windDeg: real,
    cloudiness: real,
    visibility: real,
    rain: Option<Rain>,
    description: string,
    icon: string,
    dt: int)

  datatype Location = Location(name: string, country: string, coordinates: (real, real))

  datatype Current = Current(
    temperature: real,
    feelsLike: real,
    humidity: real,
    pressure: real,
    windSpeed: real,
    windDirection: real,
    cloudiness: real,
    visibility: real,
    rainfall: real,
    description: string,
    icon: string)

  datatype CurrentWeather = CurrentWeather(location: Location, current: Current, timestampSeconds: int)

  /** `data.rain ? data.rain['1h'] || 0 : 0`. */
  function CurrentRainfall(rain: Option<Rain>): (r: real)
    ensures rain.None? || rain.value.oneHour.None? ==> r == 0.0
    ensures rain.Some? && rain.value.oneHour.Some? ==> r == rain.value.oneHour.value
  {
    if rain.Some? then OrZero(rain.value.oneHour) else 0.0
  }

  /** `formatCurrentWeather`: the reading re-shaped, coordinates as [lon, lat]. */
  function FormatCurrentWeather(data: CurrentPayload): (w: CurrentWeather)
    ensures w.current.rainfall == CurrentRainfall(data.rain)
    ensures w.location.coordinates == (data.lon, data.lat)
    ensures w.current.temperature == data.temp && w.current.humidity == data.humidity
  {
    CurrentWeather(
      Location(data.name, data.country, (data.lon, data.lat)),
      Current(data.temp, data.feelsLike, data.humidity, data.pressure, data.windSpeed, data.windDeg,
              data.cloudiness, data.visibility, CurrentRainfall(data.rain), data.description, data.icon),
      data.dt)
  }

  // ---------------------------------------------------------------------
  // formatForecast

  /** A day's dictionary entry: its icon is fixed by the day's first item. */
  datatype DayEntry = DayEntry(
    dt: int,
    temperatures: seq<real>,
    humidity: seq<real>,
    windSpeed: seq<real>,
    rainfall: real,
    descriptions: seq<string>,
    icon: string)

  function NewEntry(item: ForecastItem): DayEntry
  {
    DayEntry(item.dt, [], [], [], 0.0, [], item.icon)
  }

  function AddItem(entry: DayEntry, item: ForecastItem): DayEntry
  {
    entry.(temperatures := entry.temperatures + [item.temp],
           humidity := entry.humidity + [item.humidity],
           windSpeed := entry.windSpeed + [item.windSpeed],
           rainfall := entry.rainfall + RainOf(item),
           descriptions := entry.descriptions + [item.description])
  }

  datatype TemperatureRange = TemperatureRange(min: real, max: real)

  datatype DailyWeather = DailyWeather(
    dt: int,
    temperature: TemperatureRange,
    humidity: int,
    windSpeed: int,
    rainfall: real,
    description: string,
    icon: string)

  /** The mapping step over one entry: rounded means, one-decimal rain, the first description. */
  function DayOf(entry: DayEntry): DailyWeather
    requires |entry.temperatures| > 0 && |entry.humidity| > 0 && |entry.windSpeed| > 0 && |entry.descriptions| > 0
  {
    DailyWeather(
      entry.dt,
      TemperatureRange(MinOf(entry.temperatures), MaxOf(entry.temperatures)),
      JsRound(Total(entry.humidity) / |entry.humidity| as real),
      JsRound(Total(entry.windSpeed) / |entry.windSpeed| as real),
      RoundTenth(entry.rainfall),
      entry.descriptions[0],
      entry.icon)
  }

  function ItemTemps(xs: seq<ForecastItem>): seq<real>
  {
    seq(|xs|, j requires 0 <= j < |xs| => xs[j].temp)
  }

  function ItemHumidities(xs: seq<ForecastItem>): seq<real>
  {
    seq(|xs|, j requires 0 <= j < |xs| => xs[j].humidity)
  }

  function ItemWinds(xs: seq<ForecastItem>): seq<real>
  {
    seq(|xs|, j requires 0 <= j < |xs| => xs[j].windSpeed)
  }

  function ItemRains(xs: seq<ForecastItem>): seq<real>
  {
    seq(|xs|, j requires 0 <= j < |xs| => RainOf(xs[j]))
  }

  /** The reference day summary, read off the day's items: the first item
      gives the description and the icon. */
  function DailyFromItems(xs: seq<ForecastItem>): (d: DailyWeather)
    requires |xs| > 0
    ensures d.temperature.min <= d.temperature.max
    ensures d.description == xs[0].description && d.icon == xs[0].icon
  {
    DailyWeather(
      xs[0].dt,
      TemperatureRange(MinOf(ItemTemps(xs)), MaxOf(ItemTemps(xs))),
      JsRound(Total(ItemHumidities(xs)) / |xs| as real),
      JsRound(Total(ItemWinds(xs)) / |xs| as real),
      RoundTenth(Total(ItemRains(xs))),
      xs[0].description,
      xs[0].icon)
  }

  lemma {:induction false} FoldedEntry(xs: seq<ForecastItem>)
    requires |xs| > 0
    ensures var e := FoldGroup(xs, NewEntry, AddItem);
            e.dt == xs[0].dt && e.icon == xs[0].icon
            && e.temperatures == ItemTemps(xs) && e.humidity == ItemHumidities(xs)
            && e.windSpeed == ItemWinds(xs) && e.rainfall == Total(ItemRains(xs))
            && e.descriptions == seq(|xs|, j requires 0 <= j < |xs| => xs[j].description)
  {
    var prefix := xs[..|xs| - 1];
    if |xs| > 1 {
      FoldedEntry(prefix);
      assert ItemTemps(prefix) + [xs[|xs| - 1].temp] == ItemTemps(xs);
      assert ItemHumidities(prefix) + [xs[|xs| - 1].humidity] == ItemHumidities(xs);
      assert ItemWinds(prefix) + [xs[|xs| - 1].windSpeed] == ItemWinds(xs);
      assert ItemRains(xs)[..|xs| - 1] == ItemRains(prefix);
      assert prefix[0] == xs[0];
    } else {
      assert ItemRains(xs)[..0] == [];
    }
  }

  datatype City = City(name: string, country: string, lon: real, lat: real)

  datatype Forecast = Forecast(location: Location, daily: seq<DailyWeather>)

  /** `formatForecast`: one entry per day (`dayKey` is `new Date(dt).toDateString()`),
      in the order the days first occur. */
  method FormatForecast(city: City, list: seq<ForecastItem>, dayKey: ForecastItem -> string) returns (f: Forecast)
    ensures f.location == Location(city.name, city.country, (city.lon, city.lat))
    ensures |f.daily| == |DayKeys(list, dayKey)|
    ensures forall d :: 0 <= d < |f.daily| ==>
              var xs := ItemsOn(list, dayKey, DayKeys(list, dayKey)[d]);
              |xs| > 0 && f.daily[d] == DailyFromItems(xs)
  {
    var order, dailyData := GroupBy(list, dayKey, NewEntry, AddItem);
    forall k | k in dailyData
      ensures var e := dailyData[k];
              |e.temperatures| > 0 && |e.humidity| > 0 && |e.windSpeed| > 0 && |e.descriptions| > 0
              && DayOf(e) == DailyFromItems(ItemsOn(list, dayKey, k))
    {
      FoldedEntry(ItemsOn(list, dayKey, k));
    }
    var daily := seq(|order|, d requires 0 <= d < |order| && order[d] in dailyData => DayOf(dailyData[order[d]]));
    f := Forecast(Location(city.name, city.country, (city.lon, city.lat)), daily);
  }

  /** A day's description and icon are those of the first item of that day in the list. */
  lemma DayTakesFirstItem(list: seq<ForecastItem>, dayKey: ForecastItem -> string, i: nat)
    requires i < |list|
    requires forall j :: 0 <= j < i ==> dayKey(list[j]) != dayKey(list[i])
    ensures var xs := ItemsOn(list, dayKey, dayKey(list[i]));
            |xs| > 0 && DailyFromItems(xs).description == list[i].description
            && DailyFromItems(xs).icon == list[i].icon
  {
    ItemsOnStartsWithFirst(list, dayKey, i);
  }

  /** Dry items add no rain: a day none of whose items carries rain reports 0. */
  lemma {:induction false} DryDayHasNoRain(xs: seq<ForecastItem>)
    requires forall j :: 0 <= j < |xs| ==> xs[j].rain.None?
    ensures Total(ItemRains(xs)) == 0.0
  {
    if |xs| > 0 {
      var prefix := xs[..|xs| - 1];
      assert ItemRains(xs)[..|xs| - 1] == ItemRains(prefix);
      assert forall j :: 0 <= j < |prefix| ==> prefix[j] == xs[j];
      DryDayHasNoRain(prefix);
    }
  }

  // ---------------------------------------------------------------------
  // generateAgriculturalAdvice

  const HeavyRainIrrigation := "Heavy rainfall expected. Avoid irrigation and ensure proper drainage."
  const ModerateRainIrrigation := "Moderate rainfall expected. Reduce irrigation accordingly."
  const HeatIrrigation := "High temperature. Increase irrigation frequency, preferably in early morning or evening."
  const DryAirIrrigation := "Low humidity. Monitor soil moisture and irrigate as needed."
  const NormalIrrigation := "Normal irrigation schedule can be maintained."

  const PestWatch := "High humidity and moderate temperature favor pest activity. Monitor crops closely."
  const PestReapply := "Rainfall may wash away pesticides. Reapply after rain if necessary."
  const PestRoutine := "Regular monitoring recommended. Weather conditions are moderate."

  const HarvestAvoid := "Avoid harvesting during or immediately after rainfall to prevent crop damage."
  const HarvestGood := "Good conditions for harvesting. Dry weather will help in proper drying."
  const HarvestMonitor := "Monitor weather closely before planning harvest operations."

  const GeneralHeat := "Extreme heat warning. Protect crops from heat stress and ensure adequate water supply."
  const GeneralCold := "Cold weather alert. Protect sensitive crops from frost damage."
  const GeneralFair := "Weather conditions are favorable for normal farming operations."

  /** The irrigation chain: rain first, then heat, then dry air. */
  function IrrigationAdvice(temp: real, humidity: real, rainfall: real): (s: string)
    ensures s == HeavyRainIrrigation <==> rainfall > 10.0
    ensures s == ModerateRainIrrigation <==> 5.0 < rainfall <= 10.0
    ensures s == HeatIrrigation <==> rainfall <= 5.0 && temp > 35.0
    ensures s == DryAirIrrigation <==> rainfall <= 5.0 && temp <= 35.0 && humidity < 40.0
    ensures s == NormalIrrigation <==> rainfall <= 5.0 && temp <= 35.0 && humidity >= 40.0
  {
    if rainfall > 10.0 then HeavyRainIrrigation
    else if rainfall > 5.0 then ModerateRainIrrigation
    else if temp > 35.0 then HeatIrrigation
    else if humidity < 40.0 then DryAirIrrigation
    else NormalIrrigation
  }

  /** The pest chain: humid mild weather first, then any rain. */
  function PestAdvice(temp: real, humidity: real, rainfall: real): (s: string)
    ensures s == PestWatch <==> humidity > 80.0 && 20.0 < temp < 30.0
    ensures s == PestReapply <==> !(humidity > 80.0 && 20.0 < temp < 30.0) && rainfall > 0.0
    ensures s == PestRoutine <==> !(humidity > 80.0 && 20.0 < temp < 30.0) && rainfall <= 0.0
  {
    if humidity > 80.0 && temp > 20.0 && temp < 30.0 then PestWatch
    else if rainfall > 0.0 then PestReapply
    else PestRoutine
  }

  /** The harvest chain: rain above 5 first, then dry still air without rain. */
  function HarvestAdvice(humidity: real, rainfall: real): (s: string)
    ensures s == HarvestAvoid <==> rainfall > 5.0
    ensures s == HarvestGood <==> humidity < 60.0 && rainfall == 0.0
    ensures s == HarvestMonitor <==> rainfall <= 5.0 && !(humidity < 60.0 && rainfall == 0.0)
  {
    if rainfall > 5.0 then HarvestAvoid
    else if humidity < 60.0 && rainfall == 0.0 then HarvestGood
    else HarvestMonitor
  }

  function GeneralAdvice(temp: real): (s: string)
    ensures s == GeneralHeat <==> temp > 40.0
    ensures s == GeneralCold <==> temp < 10.0
    ensures s == GeneralFair <==> 10.0 <= temp <= 40.0
  {
    if temp > 40.0 then GeneralHeat else if temp < 10.0 then GeneralCold else GeneralFair
  }

  datatype Advice = Advice(irrigation: string, pestControl: string, harvesting: string, general: string)

  /** `generateAgriculturalAdvice`: the four fields of the advice object are
      assigned in turn from the current temperature, humidity and rainfall. */
  method GenerateAgriculturalAdvice(weather: CurrentWeather) returns (advice: Advice)
    ensures var c := weather.current;
            advice == Advice(IrrigationAdvice(c.temperature, c.humidity, c.rainfall),
                             PestAdvice(c.temperature, c.humidity, c.rainfall),
                             HarvestAdvice(c.humidity, c.rainfall),
                             GeneralAdvice(c.temperature))
    ensures advice.irrigation != [] && advice.pestControl != [] && advice.harvesting != [] && advice.general != []
  {
    advice := Advice("", "", "", "");
    var temp := weather.current.temperature;
    var humidity := weather.current.humidity;
    var rainfall := weather.current.rainfall;

    if rainfall > 10.0 {
      advice := advice.(irrigation := HeavyRainIrrigation);
    } else if rainfall > 5.0 {
      advice := advice.(irrigation := ModerateRainIrrigation);
    } else if temp > 35.0 {
      advice := advice.(irrigation := HeatIrrigation);
    } else if humidity < 40.0 {
      advice := advice.(irrigation := DryAirIrrigation);
    } else {
      advice := advice.(irrigation := NormalIrrigation);
    }

    if humidity > 80.0 && temp > 20.0 && temp < 30.0 {
      advice := advice.(pestControl := PestWatch);
    } else if rainfall > 0.0 {
      advice := advice.(pestControl := PestReapply);
    } else {
      advice := advice.(pestControl := PestRoutine);
    }

    if rainfall > 5.0 {
      advice := advice.(harvesting := HarvestAvoid);
    } else if humidity < 60.0 && rainfall == 0.0 {
      advice := advice.(harvesting := HarvestGood);
    } else {
      advice := advice.(harvesting := HarvestMonitor);
    }

    if temp > 40.0 {
      advice := advice.(general := GeneralHeat);
    } else if temp < 10.0 {
      advice := advice.(general := GeneralCold);
    } else {
      advice := advice.(general := GeneralFair);
    }
  }

  /** Rain above 5 mm rules the irrigation and harvest advice whatever the
      temperature; a reading without a rain object never yields the rain messages. */
  lemma RainDominates(data: CurrentPayload, other: CurrentPayload)
    requires data.rain.Some? && data.rain.value.oneHour.Some? && data.rain.value.oneHour.value > 5.0
    requires other.rain.None?
    ensures var c := FormatCurrentWeather(data).current;
            HarvestAdvice(c.humidity, c.rainfall) == HarvestAvoid
            && IrrigationAdvice(c.temperature, c.humidity, c.rainfall) in {HeavyRainIrrigation, ModerateRainIrrigation}
    ensures var c := FormatCurrentWeather(other).current;
            HarvestAdvice(c.humidity, c.rainfall) != HarvestAvoid
            && PestAdvice(c.temperature, c.humidity, c.rainfall) != PestReapply
            && IrrigationAdvice(c.temperature, c.humidity, c.rainfall) !in {HeavyRainIrrigation, ModerateRainIrrigation}
  {
  }
}
