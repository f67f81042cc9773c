/** The payload of the OpenWeatherMap API as the backend reads it. */
module OpenWeather {
  import opened Common

  /** The `rain` object of a reading: millimetres in the last hour and the last three hours. */
  datatype Rain = Rain(oneHour: Option<real>, threeHour: Option<real>)

  /** One three-hourly item of a forecast list (`item.main`, `item.wind`,
      `item.weather[0]`, `item.rain`, `item.pop`). */
  datatype ForecastItem = ForecastItem(
    dt: int,
    temp: real,
    humidity: real,
    windSpeed: real,
    description: string,
    icon: string,
    rain: Option<Rain>,
    pop: Option<real>)

  /** `item.rain ? item.rain['3h'] || 0 : 0`. */
  function RainOf(item: ForecastItem): (r: real)
    ensures item.rain.None? ==> r == 0.0
    ensures item.rain.Some? && item.rain.value.threeHour.Some? && item.rain.value.threeHour.value != 0.0
            ==> r == item.rain.value.threeHour.value
  {
    if item.rain.Some? then OrZero(item.rain.value.threeHour) else 0.0
  }

  /** `if (item.pop)`: a probability counts only when present and non-zero. */
  predicate HasPop(item: ForecastItem)
  {
    item.pop.Some? && item.pop.value != 0.0
  }
}
