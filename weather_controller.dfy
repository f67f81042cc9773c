/** The legacy weather endpoints of backend/controllers/weatherController.js:
    the coordinates come from the query or the user's profile, stored weather
    records serve as a cache with a freshness window, and stored readings are
    turned into a short list of farming recommendations. */
module WeatherController {
  import opened Common
  import opened WeatherApi

  datatype Coordinates = Coordinates(latitude: real, longitude: real)

  /** `lat && lon ? query : profile coordinates`. A query value is present when
      its string is non-empty, and then holds what `parseFloat` made of it;
      None as the result is the 400 answer. */
  function ResolveCoordinates(lat: Option<real>, lon: Option<real>, profile: Option<Coordinates>): (r: Option<Coordinates>)
    ensures lat.Some? && lon.Some? ==> r == Some(Coordinates(lat.value, lon.value))
    ensures !(lat.Some? && lon.Some?) ==> r == profile
    ensures r.None? <==> !(lat.Some? && lon.Some?) && profile.None?
  {
    if lat.Some? && lon.Some? then Some(Coordinates(lat.value, lon.value)) else profile
  }

  datatype Alert = Alert(event: string, severity: string, description: string)

  /** A stored weather document; times are milliseconds since the epoch. */
  datatype WeatherRecord = WeatherRecord(
    user: int,
    coordinates: Coordinates,
    current: Option<CurrentReading>,
    forecast: Option<seq<DailyForecast>>,
    agricultural: Option<AgriculturalData>,
    alerts: seq<Alert>,
    lastUpdated: int)

  /** What the weather fetcher returns; its own timestamp is the current time. */
  datatype FetchedWeather = FetchedWeather(
    current: CurrentReading,
    forecast: seq<DailyForecast>,
    agricultural: AgriculturalData)

  const CurrentWindow: int := 30 * 60 * 1000
  const ForecastWindow: int := 60 * 60 * 1000

  /** `WeatherData.create({ user, ...freshData })`. */
  function NewRecord(user: int, at: Coordinates, fetched: FetchedWeather, now: int): WeatherRecord
  {
    WeatherRecord(user, at, Some(fetched.current), Some(fetched.forecast), Some(fetched.agricultural), [], now)
  }

  /** `findOne({ coordinates, lastUpdated: { $gte: since } })`: the first record,
      in storage order, at the coordinates and updated at or after `since`. */
  function FindSince(records: seq<WeatherRecord>, at: Coordinates, since: int): (r: Option<nat>)
    ensures r.Some? ==> r.value < |records| && records[r.value].coordinates == at
                        && records[r.value].lastUpdated >= since
    ensures r.Some? ==> forall j :: 0 <= j < r.value ==>
                          !(records[j].coordinates == at && records[j].lastUpdated >= since)
    ensures r.None? <==> forall j :: 0 <= j < |records| ==>
                          !(records[j].coordinates == at && records[j].lastUpdated >= since)
  {
    if |records| == 0 then None
    else if records[0].coordinates == at && records[0].lastUpdated >= since then Some(0)
    else
      var rest := FindSince(records[1..], at, since);
      assert forall j :: 1 <= j < |records| ==> records[j] == records[1..][j - 1];
      if rest.Some? then Some(rest.value + 1) else None
  }

  /** `findOne({ coordinates }).sort({ lastUpdated: -1 })`: a most recently
      updated record at the coordinates (the earliest stored among equals). */
  function Newest(records: seq<WeatherRecord>, at: Coordinates): (r: Option<nat>)
    ensures r.Some? ==> r.value < |records| && records[r.value].coordinates == at
    ensures r.Some? ==> forall j :: 0 <= j < |records| && records[j].coordinates == at ==>
                          records[j].lastUpdated <= records[r.value].lastUpdated
    ensures r.None? <==> forall j :: 0 <= j < |records| ==> records[j].coordinates != at
  {
    if |records| == 0 then None
    else
      var rest := Newest(records[1..], at);
      assert forall j :: 1 <= j < |records| ==> records[j] == records[1..][j - 1];
      if records[0].coordinates != at then (if rest.Some? then Some(rest.value + 1) else None)
      else if rest.Some? && records[1..][rest.value].lastUpdated > records[0].lastUpdated then Some(rest.value + 1)
      else Some(0)
  }

  const HeatRecommendation := "High temperature detected. Consider increasing irrigation frequency."
  const DryRecommendation := "Low humidity. Monitor crops for water stress."
  const RainRecommendation := "Heavy rain expected. Ensure proper drainage in fields."
  const FrostRecommendation := "Frost warning! Protect sensitive crops."

  predicate Hot(w: WeatherRecord)
  {
    w.current.Some? && w.current.value.temperature > 35.0
  }

  predicate Dry(w: WeatherRecord)
  {
    w.current.Some? && w.current.value.humidity < 40.0
  }

  predicate RainLikely(w: WeatherRecord)
  {
    w.forecast.Some? && exists j :: 0 <= j < |w.forecast.value| && w.forecast.value[j].precipitationProbability > 70
  }

  predicate Frost(w: WeatherRecord)
  {
    w.agricultural.Some? && w.agricultural.value.frostWarning
  }

  /** One message per condition that holds, in a fixed order. */
  function AgriculturalRecommendations(w: WeatherRecord): seq<string>
  {
    (if Hot(w) then [HeatRecommendation] else [])
    + (if Dry(w) then [DryRecommendation] else [])
    + (if RainLikely(w) then [RainRecommendation] else [])
    + (if Frost(w) then [FrostRecommendation] else [])
  }

  /** `generateAgriculturalRecommendations`: the messages are pushed one condition at a time. */
  method GenerateAgriculturalRecommendations(w: WeatherRecord) returns (recommendations: seq<string>)
    ensures recommendations == AgriculturalRecommendations(w)
  {
    recommendations := [];
    if w.current.Some? && w.current.value.temperature > 35.0 {
      recommendations := recommendations + [HeatRecommendation];
    }
    if w.current.Some? && w.current.value.humidity < 40.0 {
      recommendations := recommendations + [DryRecommendation];
    }
    if w.forecast.Some? && exists j :: 0 <= j < |w.forecast.value| && w.forecast.value[j].precipitationProbability > 70 {
      recommendations := recommendations + [RainRecommendation];
    }
    if w.agricultural.Some? && w.agricultural.value.frostWarning {
      recommendations := recommendations + [FrostRecommendation];
    }
  }

  /** Each message appears exactly when its condition holds, at most once; a
      record without a current reading, forecast or derived data gets none of
      the messages that need it. */
  lemma RecommendationsIffConditions(w: WeatherRecord, recs: seq<string>)
    requires recs == AgriculturalRecommendations(w)
    ensures HeatRecommendation in recs <==> Hot(w)
    ensures DryRecommendation in recs <==> Dry(w)
    ensures RainRecommendation in recs <==> RainLikely(w)
    ensures FrostRecommendation in recs <==> Frost(w)
    ensures |recs| <= 4
    ensures w.current.None? ==> HeatRecommendation !in recs && DryRecommendation !in recs
    ensures w.forecast.None? ==> RainRecommendation !in recs
    ensures w.agricultural.None? ==> FrostRecommendation !in recs
  {
    assert HeatRecommendation != DryRecommendation && HeatRecommendation != RainRecommendation;
    assert HeatRecommendation != FrostRecommendation && DryRecommendation != RainRecommendation;
    assert DryRecommendation != FrostRecommendation && RainRecommendation != FrostRecommendation;
  }

  datatype Insights = Insights(
    current: Option<CurrentReading>,
    agricultural: Option<AgriculturalData>,
    recommendations: seq<string>)

  /** The weather collection. */
  class WeatherCache {
    var records: seq<WeatherRecord>

    constructor (records: seq<WeatherRecord>)
      ensures this.records == records
    {
      this.records := records;
    }

    /** `getCurrentWeather`: a record at the coordinates updated in the last
        30 minutes is served as it is; otherwise fetched data is stored as a new record. */
    method GetCurrentWeather(user: int, lat: Option<real>, lon: Option<real>, profile: Option<Coordinates>,
                             now: int, fetched: FetchedWeather)
      returns (status: Status, record: Option<WeatherRecord>)
      modifies this
      ensures ResolveCoordinates(lat, lon, profile).None? ==>
                status == BadRequest && record.None? && records == old(records)
      ensures ResolveCoordinates(lat, lon, profile).Some? ==>
                var at := ResolveCoordinates(lat, lon, profile).value;
                var hit := FindSince(old(records), at, now - CurrentWindow);
                status == Ok
                && (hit.Some? ==> records == old(records) && record == Some(old(records)[hit.value]))
                && (hit.None? ==> records == old(records) + [NewRecord(user, at, fetched, now)]
                                  && record == Some(NewRecord(user, at, fetched, now)))
    {
      var coordinates := ResolveCoordinates(lat, lon, profile);
      if coordinates.None? {
        return BadRequest, None;
      }
      var at := coordinates.value;
      var hit := FindSince(records, at, now - CurrentWindow);
      if hit.Some? {
        record := Some(records[hit.value]);
      } else {
        var created := NewRecord(user, at, fetched, now);
        records := records + [created];
        record := Some(created);
      }
      status := Ok;
    }

    /** `getWeatherForecast`: the forecast is refetched when no record at the
        coordinates is less than an hour old or that record's forecast is empty;
        an existing record then gets only its forecast and timestamp replaced. */
    method GetWeatherForecast(user: int, lat: Option<real>, lon: Option<real>, profile: Option<Coordinates>,
                              now: int, fetched: FetchedWeather)
      returns (status: Status, forecast: Option<seq<DailyForecast>>)
      modifies this
      ensures ResolveCoordinates(lat, lon, profile).None? ==>
                status == BadRequest && forecast.None? && records == old(records)
      ensures ResolveCoordinates(lat, lon, profile).Some? ==>
                var at := ResolveCoordinates(lat, lon, profile).value;
                var hit := FindSince(old(records), at, now - ForecastWindow);
                status == Ok
                && (hit.None? ==> records == old(records) + [NewRecord(user, at, fetched, now)]
                                  && forecast == Some(fetched.forecast))
                && (hit.Some? && NeedsForecast(old(records)[hit.value]) ==>
                      records == old(records)[hit.value := old(records)[hit.value].(forecast := Some(fetched.forecast), lastUpdated := now)]
                      && forecast == Some(fetched.forecast))
                && (hit.Some? && !NeedsForecast(old(records)[hit.value]) ==>
                      records == old(records) && forecast == old(records)[hit.value].forecast)
    {
      var coordinates := ResolveCoordinates(lat, lon, profile);
      if coordinates.None? {
        return BadRequest, None;
      }
      var at := coordinates.value;
      var hit := FindSince(records, at, now - ForecastWindow);
      if hit.None? {
        var created := NewRecord(user, at, fetched, now);
        records := records + [created];
        forecast := created.forecast;
      } else if NeedsForecast(records[hit.value]) {
        var updated := records[hit.value].(forecast := Some(fetched.forecast), lastUpdated := now);
        records := records[hit.value := updated];
        forecast := updated.forecast;
      } else {
        forecast := records[hit.value].forecast;
      }
      status := Ok;
    }

    /** `getWeatherAlerts`: the alerts of the newest record at the coordinates, or none. */
    function WeatherAlerts(lat: Option<real>, lon: Option<real>, profile: Option<Coordinates>): (r: (Status, seq<Alert>))
      reads this
      ensures ResolveCoordinates(lat, lon, profile).None? <==> r.0 == BadRequest
      ensures r.0 == BadRequest ==> r.1 == []
      ensures r.0 == Ok && Newest(records, ResolveCoordinates(lat, lon, profile).value).None? ==> r.1 == []
      ensures r.0 == Ok && Newest(records, ResolveCoordinates(lat, lon, profile).value).Some? ==>
                r.1 == records[Newest(records, ResolveCoordinates(lat, lon, profile).value).value].alerts
    {
      var coordinates := ResolveCoordinates(lat, lon, profile);
      if coordinates.None? then (BadRequest, [])
      else
        var newest := Newest(records, coordinates.value);
        if newest.None? then (Ok, []) else (Ok, records[newest.value].alerts)
    }

    /** `getAgriculturalInsights`: 404 when nothing is stored at the coordinates,
        otherwise the newest record's readings with the recommendations built from it. */
    method GetAgriculturalInsights(lat: Option<real>, lon: Option<real>, profile: Option<Coordinates>)
      returns (status: Status, insights: Option<Insights>)
      ensures ResolveCoordinates(lat, lon, profile).None? ==> status == BadRequest && insights.None?
      ensures ResolveCoordinates(lat, lon, profile).Some? ==>
                var newest := Newest(records, ResolveCoordinates(lat, lon, profile).value);
                (newest.None? <==> status == NotFound)
                && (newest.None? ==> insights.None?)
                && (newest.Some? ==>
                      var w := records[newest.value];
                      status == Ok && insights.Some?
                      && insights.value.current == w.current && insights.value.agricultural == w.agricultural
                      && insights.value.recommendations == AgriculturalRecommendations(w)
                      && (HeatRecommendation in insights.value.recommendations <==> Hot(w))
                      && (DryRecommendation in insights.value.recommendations <==> Dry(w))
                      && (RainRecommendation in insights.value.recommendations <==> RainLikely(w))
                      && (FrostRecommendation in insights.value.recommendations <==> Frost(w)))
    {
      var coordinates := ResolveCoordinates(lat, lon, profile);
      if coordinates.None? {
        return BadRequest, None;
      }
      var newest := Newest(records, coordinates.value);
      if newest.None? {
        return NotFound, None;
      }
      var w := records[newest.value];
      var recommendations := GenerateAgriculturalRecommendations(w);
      RecommendationsIffConditions(w, recommendations);
      status, insights := Ok, Some(Insights(w.current, w.agricultural, recommendations));
    }
  }

  /** `!forecast || forecast.length === 0`. */
  predicate NeedsForecast(w: WeatherRecord)
  {
    w.forecast.None? || |w.forecast.value| == 0
  }

  /** Serving current weather twice within the window stores at most one new
      record: the second request finds the record the first one stored. */
  lemma SecondRequestHitsCache(records: seq<WeatherRecord>, user: int, at: Coordinates,
                               fetched: FetchedWeather, now: int, later: int)
    requires FindSince(records, at, now - CurrentWindow).None?
    requires now <= later <= now + CurrentWindow
    ensures FindSince(records + [NewRecord(user, at, fetched, now)], at, later - CurrentWindow).Some?
  {
    var extended := records + [NewRecord(user, at, fetched, now)];
    assert extended[|records|].coordinates == at && extended[|records|].lastUpdated >= later - CurrentWindow;
  }
}
