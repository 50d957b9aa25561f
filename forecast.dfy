/**
 * The forecast normalizer: the body of `lookupLocation` that turns an
 * already-parsed open-meteo forecast response into the widget's four-section
 * summary. Fetching and JSON parsing are not modelled; temperatures, wind
 * speeds and the UV index are only passed through, so they are `real`s with
 * no arithmetic on them.
 */
module Forecast {
  import opened Wrappers
  import opened WeatherCode
  import opened Days

  /** The `current` section of the response: one value per field. */
  datatype Current = Current(
    weatherCode: int,
    temperature: real,
    apparentTemperature: real,
    windSpeed: real)

  /** The `hourly` section: one sequence per field, aligned by hour. */
  datatype Hourly = Hourly(
    time: seq<string>,
    temperature: seq<real>,
    weatherCode: seq<int>,
    precipitationProbability: seq<int>)

  /** The `daily` section: one sequence per field, aligned by day. */
  datatype Daily = Daily(
    weatherCode: seq<int>,
    temperatureMin: seq<real>,
    temperatureMax: seq<real>,
    uvIndexMax: seq<real>)

  datatype ForecastResponse = ForecastResponse(current: Current, hourly: Hourly, daily: Daily)

  /** The summary's four sections. A rain chance or UV index read from an empty array is `None`. */
  datatype CurrentWeather = CurrentWeather(weather: Label, temperature: real, chanceOfRain: Option<int>)

  datatype TodaysForecast = TodaysForecast(hourlyWeather: seq<Label>, hourlyTemperature: seq<real>, times: seq<string>)

  datatype AirConditions = AirConditions(realFeel: real, wind: real, rainChance: Option<int>, uvIndex: Option<real>)

  datatype WeekForecast = WeekForecast(days: seq<string>, weeklyWeather: seq<int>, lowTemp: seq<real>, highTemp: seq<real>)

  datatype Summary = Summary(
    currentWeather: CurrentWeather,
    todaysForecast: TodaysForecast,
    airConditions: AirConditions,
    weekForecast: WeekForecast)

  /** JavaScript's `Array.prototype.map`: `f` applied to every element, in order. */
  function Map<A, B>(f: A -> B, s: seq<A>): (r: seq<B>)
    ensures |r| == |s|
    ensures forall i :: 0 <= i < |s| ==> r[i] == f(s[i])
  {
    if s == [] then [] else [f(s[0])] + Map(f, s[1..])
  }

  /**
   * The summary `lookupLocation` returns for `response`, on a day of the week
   * `startDay`, with `parseTime` standing for the locale-dependent time
   * formatter.
   */
  function Summarize(response: ForecastResponse, startDay: nat, parseTime: string -> string): (s: Summary)
    requires startDay < 7
    // Current conditions: the classified current code and the first hour's rain chance.
    ensures s.currentWeather.weather == Classify(response.current.weatherCode)
    ensures s.currentWeather.temperature == response.current.temperature
    ensures s.currentWeather.chanceOfRain.Some? <==> response.hourly.precipitationProbability != []
    ensures s.currentWeather.chanceOfRain.Some? ==>
              s.currentWeather.chanceOfRain.value == response.hourly.precipitationProbability[0]
    // Hourly forecast: labels and times correspond hour by hour to the provider's.
    ensures |s.todaysForecast.hourlyWeather| == |response.hourly.weatherCode|
    ensures forall i :: 0 <= i < |response.hourly.weatherCode| ==>
              s.todaysForecast.hourlyWeather[i] == Classify(response.hourly.weatherCode[i])
    ensures s.todaysForecast.hourlyTemperature == response.hourly.temperature
    ensures |s.todaysForecast.times| == |response.hourly.time|
    ensures forall i :: 0 <= i < |response.hourly.time| ==>
              s.todaysForecast.times[i] == parseTime(response.hourly.time[i])
    // Air conditions: the two rain chances are the same reading.
    ensures s.airConditions.realFeel == response.current.apparentTemperature
    ensures s.airConditions.wind == response.current.windSpeed
    ensures s.airConditions.rainChance == s.currentWeather.chanceOfRain
    ensures s.airConditions.uvIndex.Some? <==> response.daily.uvIndexMax != []
    ensures s.airConditions.uvIndex.Some? ==> s.airConditions.uvIndex.value == response.daily.uvIndexMax[0]
    // Weekly forecast: the day labels for today, and the daily sequences unchanged.
    ensures s.weekForecast.days == DayLabels(startDay)
    ensures s.weekForecast.weeklyWeather == response.daily.weatherCode
    ensures s.weekForecast.lowTemp == response.daily.temperatureMin
    ensures s.weekForecast.highTemp == response.daily.temperatureMax
  {
    var current := response.current;
    var hourly := response.hourly;
    var daily := response.daily;
    Summary(
      CurrentWeather(Classify(current.weatherCode), current.temperature, First(hourly.precipitationProbability)),
      TodaysForecast(Map(Classify, hourly.weatherCode), hourly.temperature, Map(parseTime, hourly.time)),
      AirConditions(current.apparentTemperature, current.windSpeed,
                    First(hourly.precipitationProbability), First(daily.uvIndexMax)),
      WeekForecast(DayLabels(startDay), daily.weatherCode, daily.temperatureMin, daily.temperatureMax))
  }

  /** The provider's hourly sequences all cover the same hours. */
  predicate HourlyAligned(h: Hourly)
  {
    |h.time| == |h.temperature| == |h.weatherCode| == |h.precipitationProbability|
  }

  /** The summary's hourly sequences all cover the same hours. */
  predicate ForecastAligned(t: TodaysForecast)
  {
    |t.hourlyWeather| == |t.hourlyTemperature| == |t.times|
  }

  /**
   * Aligned hourly data give an aligned hourly forecast in which hour `i`'s
   * label, temperature and time all come from the provider's hour `i`.
   */
  lemma SummarizePreservesAlignment(response: ForecastResponse, startDay: nat, parseTime: string -> string)
    requires startDay < 7
    requires HourlyAligned(response.hourly)
    ensures ForecastAligned(Summarize(response, startDay, parseTime).todaysForecast)
    ensures forall i :: 0 <= i < |response.hourly.time| ==>
              var t := Summarize(response, startDay, parseTime).todaysForecast;
              t.hourlyWeather[i] == Classify(response.hourly.weatherCode[i]) &&
              t.hourlyTemperature[i] == response.hourly.temperature[i] &&
              t.times[i] == parseTime(response.hourly.time[i])
  {
  }

  /**
   * A week of daily data gives a weekly forecast whose day labels line up
   * one to one with the daily codes and temperatures.
   */
  lemma SummarizeWeekLength(response: ForecastResponse, startDay: nat, parseTime: string -> string)
    requires startDay < 7
    requires |response.daily.weatherCode| == |response.daily.temperatureMin| == |response.daily.temperatureMax| == 7
    ensures var w := Summarize(response, startDay, parseTime).weekForecast;
            |w.days| == |w.weeklyWeather| == |w.lowTemp| == |w.highTemp| == 7
  {
  }
}
