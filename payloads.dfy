/** The upstream payload shapes the weather code reads, and the locale formatters it calls. */
module Payloads {
  import opened Wrappers

  /** A calendar-date label as produced by `Date.prototype.toDateString`. */
  type DateKey = string

  /** The fields of the current-weather reply that are read (`main`, `weather[0].main`,
      `wind.speed`, `rain["1h"]`, `snow["1h"]`, `sys`). Times are Unix seconds. */
  datatype CurrentPayload = CurrentPayload(
    temp: real,
    feelsLike: real,
    condition: string,
    humidity: int,
    windSpeed: real,
    rain1h: Option<real>,
    snow1h: Option<real>,
    sunrise: int,
    sunset: int)

  /** One 3-hour entry of the forecast reply's `list`. */
  datatype ForecastSample = ForecastSample(
    dt: int,
    temp: real,
    condition: string,
    humidity: int,
    windSpeed: real,
    pop: Option<real>)

  /** The locale-dependent conversions, left uninterpreted:
      clockTime   = formatTime (12-hour "h:mm AM"),
      clockHour   = formatHourTime (12-hour "h AM"),
      dateKey     = new Date(dt * 1000).toDateString(),
      weekday     = new Date(key).toLocaleDateString("en-US", { weekday: "long" }),
      monthDay    = new Date(key).toLocaleDateString("en-US", { month: "short", day: "numeric" }). */
  datatype Locale = Locale(
    clockTime: int -> string,
    clockHour: int -> string,
    dateKey: int -> DateKey,
    weekday: DateKey -> string,
    monthDay: DateKey -> string)

  /** The upstream promise on a probability of precipitation: absent, or a fraction in [0, 1]. */
  predicate PopInRange(pop: Option<real>)
  {
    pop.Some? ==> 0.0 <= pop.value <= 1.0
  }
}
