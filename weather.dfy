/**
 * The shapes of the forecast service's response, field for field.
 * `Float` fields are modelled as exact reals and `Int` as an unbounded integer.
 */
module Weather {
  datatype Condition = Condition(text: string, icon: string)

  /** One day's aggregated weather: the input of the bike score. */
  datatype Day = Day(
    maxTempC: real,
    minTempC: real,
    avgTempC: real,
    maxWindKph: real,
    dailyChanceOfRain: int,
    condition: Condition)

  datatype ForecastDay = ForecastDay(date: string, day: Day)

  datatype Forecast = Forecast(forecastday: seq<ForecastDay>)

  /** The place the forecast service resolved the query to. */
  datatype Location = Location(name: string, region: string, country: string)

  datatype WeatherResponse = WeatherResponse(location: Location, forecast: Forecast)
}
