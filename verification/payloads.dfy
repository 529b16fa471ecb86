/**
 * The parts of the weather provider's JSON payloads that the dashboard reads.
 * A field the payload may lack is an `Option`; a missing `weather` array and an
 * empty one both read as `[]`, since `weather?.[0]` is `undefined` for either.
 */
module Payloads {
  import opened Maybe

  datatype Coord = Coord(lat: real, lon: real)

  /** One entry of a payload's `weather` array: condition code and description. */
  datatype Condition = Condition(id: int, description: string)

  /** The current-conditions payload (`weatherData`). */
  datatype CurrentWeather = CurrentWeather(
    coord: Option<Coord>,
    weather: seq<Condition>,
    temp: Option<real>,
    humidity: Option<int>,
    windSpeed: Option<real>,
    name: Option<string>,
    country: Option<string>,
    dt: Option<int>)

  /** One 3-hourly sample of the forecast feed. */
  datatype ForecastEntry = ForecastEntry(dt: int, temp: real, tempMin: real, tempMax: real, weather: seq<Condition>)

  /** The forecast payload (`fiveDayForecast`); the dashboard reads its `list`. */
  datatype ForecastFeed = ForecastFeed(list: seq<ForecastEntry>)

  /** One entry of the air-pollution payload's `list`; only `main.aqi` is modelled. */
  datatype AirSample = AirSample(aqi: Option<int>)
}
