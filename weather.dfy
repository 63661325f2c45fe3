/** `getWeatherByCoords`: the two-request fetch and the normalisation of its replies
    into one `WeatherData` snapshot. */
module WeatherApi {
  import opened Wrappers
  import opened Http
  import opened Js
  import opened Payloads
  import opened DailyGrouping

  /** `WeatherData.current`. */
  datatype CurrentConditions = CurrentConditions(
    temperature: int,
    feelsLike: int,
    condition: string,
    humidity: int,
    windSpeed: real,
    precipitation: real,
    sunrise: string,
    sunset: string)

  /** One entry of `WeatherData.hourly`. */
  datatype HourlyEntry = HourlyEntry(
    time: string,
    temperature: int,
    condition: string,
    precipitation: int,
    humidity: int,
    windSpeed: real)

  /** One entry of `WeatherData.daily`. */
  datatype DailyEntry = DailyEntry(
    day: string,
    date: string,
    high: int,
    low: int,
    condition: string,
    precipitation: int)

  datatype WeatherData = WeatherData(current: CurrentConditions, hourly: seq<HourlyEntry>, daily: seq<DailyEntry>)

  /** The errors `getWeatherByCoords` throws. */
  datatype WeatherError =
    | TransportFailure               // one of the two fetches rejected
    | CurrentWeatherFailed(status: int) // "Failed to fetch current weather: <status>"
    | ForecastFailed(status: int)    // "Failed to fetch forecast: <status>"
    | MalformedPayload               // a reply body that does not have the expected shape

  /** Length of the hourly series: the first 10 forecast samples. */
  const HourlyCount := 10
  /** Length of the daily series: the first 7 calendar dates. */
  const DailyCount := 7
  /** The label of the first daily entry. */
  const TodayLabel := "Today"

  // ---------------------------------------------------------------- current conditions

  /** `rain?.["1h"] || snow?.["1h"] || 0`: rain if truthy, else snow if truthy, else 0.
      A rain amount of 0 is falsy and falls through to snow. */
  function Precipitation(rain1h: Option<real>, snow1h: Option<real>): (p: real)
    ensures Truthy(rain1h) ==> p == rain1h.value
    ensures !Truthy(rain1h) && Truthy(snow1h) ==> p == snow1h.value
    ensures p == 0.0 <==> !Truthy(rain1h) && !Truthy(snow1h)
  {
    Or(rain1h, Or(snow1h, 0.0))
  }

  /** A reported zero rainfall is the same as no rain report. */
  lemma ZeroRainFallsThrough(snow1h: Option<real>)
    ensures Precipitation(Some(0.0), snow1h) == Precipitation(None, snow1h)
  {
  }

  /** The `current` object built from the current-weather reply. */
  function NormalizeCurrent(c: CurrentPayload, locale: Locale): (r: CurrentConditions)
    ensures NearestInteger(r.temperature, c.temp) && NearestInteger(r.feelsLike, c.feelsLike)
    ensures r.precipitation == Precipitation(c.rain1h, c.snow1h)
    ensures r.condition == c.condition && r.humidity == c.humidity && r.windSpeed == c.windSpeed
    ensures r.sunrise == locale.clockTime(c.sunrise) && r.sunset == locale.clockTime(c.sunset)
  {
    CurrentConditions(
      Round(c.temp),
      Round(c.feelsLike),
      c.condition,
      c.humidity,
      c.windSpeed,
      Precipitation(c.rain1h, c.snow1h),
      locale.clockTime(c.sunrise),
      locale.clockTime(c.sunset))
  }

  // ---------------------------------------------------------------- hourly series

  /** `(item.pop || 0) * 100`: the chance of precipitation as a percentage. */
  function PopPercent(pop: Option<real>): (p: real)
    ensures Truthy(pop) ==> p == pop.value * 100.0
    ensures PopInRange(pop) ==> 0.0 <= p <= 100.0
    ensures !Truthy(pop) ==> p == 0.0
  {
    Or(pop, 0.0) * 100.0
  }

  /** One hourly entry from one forecast sample. */
  function HourOf(s: ForecastSample, locale: Locale): (h: HourlyEntry)
    ensures h.time == locale.clockHour(s.dt)
    ensures NearestInteger(h.temperature, s.temp)
    ensures NearestInteger(h.precipitation, PopPercent(s.pop))
    ensures PopInRange(s.pop) ==> 0 <= h.precipitation <= 100
    ensures h.condition == s.condition && h.humidity == s.humidity && h.windSpeed == s.windSpeed
  {
    HourlyEntry(
      locale.clockHour(s.dt),
      Round(s.temp),
      s.condition,
      Round(PopPercent(s.pop)),
      s.humidity,
      s.windSpeed)
  }

  /** `samples.map(HourOf)`: one entry per sample, in the same order. */
  function MapHours(samples: seq<ForecastSample>, locale: Locale): (r: seq<HourlyEntry>)
    ensures |r| == |samples|
    ensures forall i :: 0 <= i < |r| ==> r[i] == HourOf(samples[i], locale)
  {
    if samples == [] then []
    else [HourOf(samples[0], locale)] + MapHours(samples[1..], locale)
  }

  /** `forecastData.list.slice(0, 10).map(...)`. */
  function HourlySeries(list: seq<ForecastSample>, locale: Locale): (r: seq<HourlyEntry>)
    ensures |r| == if |list| < HourlyCount then |list| else HourlyCount
    ensures forall i :: 0 <= i < |r| ==> r[i] == HourOf(list[i], locale)
  {
    MapHours(list[..if |list| < HourlyCount then |list| else HourlyCount], locale)
  }

  // ---------------------------------------------------------------- daily series

  /** `items.map(item => item.main.temp)`. */
  function Temps(items: seq<ForecastSample>): (t: seq<real>)
  {
    seq(|items|, i requires 0 <= i < |items| => items[i].temp)
  }

  /** `items.map(item => (item.pop || 0) * 100)`. */
  function PopPercents(items: seq<ForecastSample>): (p: seq<real>)
  {
    seq(|items|, i requires 0 <= i < |items| => PopPercent(items[i].pop))
  }

  /** The rounded maximum and minimum temperature are the greatest and least rounded
      sample temperatures of the day. */
  lemma TempExtremes(items: seq<ForecastSample>)
    requires |items| > 0
    ensures forall s :: s in items ==> Round(Min(Temps(items))) <= Round(s.temp) <= Round(Max(Temps(items)))
    ensures exists s :: s in items && Round(s.temp) == Round(Max(Temps(items)))
    ensures exists s :: s in items && Round(s.temp) == Round(Min(Temps(items)))
  {
    var temps := Temps(items);
    forall s | s in items
      ensures Round(Min(temps)) <= Round(s.temp) <= Round(Max(temps))
    {
      var i :| 0 <= i < |items| && items[i] == s;
      assert temps[i] in temps;
      RoundMonotone(Min(temps), s.temp);
      RoundMonotone(s.temp, Max(temps));
    }
    var hi :| 0 <= hi < |temps| && temps[hi] == Max(temps);
    assert items[hi] in items;
    var lo :| 0 <= lo < |temps| && temps[lo] == Min(temps);
    assert items[lo] in items;
  }

  /** The rounded maximum chance of precipitation is the greatest rounded sample
      chance, and stays within 0..100 when every sample's pop does. */
  lemma PopExtremes(items: seq<ForecastSample>)
    requires |items| > 0
    ensures forall s :: s in items ==> Round(PopPercent(s.pop)) <= Round(Max(PopPercents(items)))
    ensures exists s :: s in items && Round(PopPercent(s.pop)) == Round(Max(PopPercents(items)))
    ensures (forall s :: s in items ==> PopInRange(s.pop)) ==> 0 <= Round(Max(PopPercents(items))) <= 100
  {
    var pops := PopPercents(items);
    forall s | s in items
      ensures Round(PopPercent(s.pop)) <= Round(Max(pops))
    {
      var i :| 0 <= i < |items| && items[i] == s;
      assert pops[i] in pops;
      RoundMonotone(PopPercent(s.pop), Max(pops));
    }
    var hi :| 0 <= hi < |pops| && pops[hi] == Max(pops);
    assert items[hi] in items;
    if forall s :: s in items ==> PopInRange(s.pop) {
      RoundWithin(Max(pops), 0, 100);
    }
  }

  /** The summary of one date group; `index` is its position among the groups. */
  function DaySummary(group: DayGroup, index: nat, locale: Locale): (d: DailyEntry)
    requires |group.1| > 0
    ensures d.day == if index == 0 then TodayLabel else locale.weekday(group.0)
    ensures d.date == locale.monthDay(group.0)
    ensures d.low <= d.high
    ensures forall s :: s in group.1 ==> d.low <= Round(s.temp) <= d.high
    ensures exists s :: s in group.1 && Round(s.temp) == d.high
    ensures exists s :: s in group.1 && Round(s.temp) == d.low
    ensures d.condition == group.1[|group.1| / 2].condition
    ensures forall s :: s in group.1 ==> Round(PopPercent(s.pop)) <= d.precipitation
    ensures exists s :: s in group.1 && Round(PopPercent(s.pop)) == d.precipitation
    ensures (forall s :: s in group.1 ==> PopInRange(s.pop)) ==> 0 <= d.precipitation <= 100
  {
    var (key, items) := group;
    TempExtremes(items);
    PopExtremes(items);
    DailyEntry(
      if index == 0 then TodayLabel else locale.weekday(key),
      locale.monthDay(key),
      Round(Max(Temps(items))),
      Round(Min(Temps(items))),
      items[|items| / 2].condition,
      Round(Max(PopPercents(items))))
  }

  /** `Array.from(dailyMap.entries()).slice(0, 7).map(...)`. */
  function DailySeries(groups: seq<DayGroup>, locale: Locale): (r: seq<DailyEntry>)
    requires forall i :: 0 <= i < |groups| ==> |groups[i].1| > 0
    ensures |r| == if |groups| < DailyCount then |groups| else DailyCount
    ensures |r| > 0 ==> r[0].day == TodayLabel
    ensures forall i :: 1 <= i < |r| ==> r[i].day == locale.weekday(groups[i].0)
    ensures forall i :: 0 <= i < |r| ==> r[i].date == locale.monthDay(groups[i].0)
    ensures forall i :: 0 <= i < |r| ==> r[i].low <= r[i].high
    ensures forall i :: 0 <= i < |r| ==> r[i].condition == groups[i].1[|groups[i].1| / 2].condition
    ensures forall i :: 0 <= i < |r| ==> r[i] == DaySummary(groups[i], i, locale)
  {
    var n := if |groups| < DailyCount then |groups| else DailyCount;
    seq(n, i requires 0 <= i < n => DaySummary(groups[i], i, locale))
  }

  // ---------------------------------------------------------------- the whole fetch

  /** Both requests came back with a 200-299 status and a well-formed body. */
  predicate BothDelivered(current: Fetched<CurrentPayload>, forecast: Fetched<seq<ForecastSample>>)
  {
    && current.Response? && IsOk(current.status) && current.body.Some?
    && forecast.Response? && IsOk(forecast.status) && forecast.body.Some?
  }

  /** The checks made before the replies are read: a rejected fetch (through
      `Promise.all`), then the current-weather status, then the forecast status, then
      the two bodies. None when both replies can be normalised. */
  function FetchFailure(current: Fetched<CurrentPayload>, forecast: Fetched<seq<ForecastSample>>)
    : (e: Option<WeatherError>)
    ensures e.None? <==> BothDelivered(current, forecast)
    ensures current.NetworkError? || forecast.NetworkError? ==> e == Some(TransportFailure)
    ensures current.Response? && forecast.Response? && !IsOk(current.status) ==>
      e == Some(CurrentWeatherFailed(current.status))
    ensures current.Response? && forecast.Response? && IsOk(current.status) && !IsOk(forecast.status) ==>
      e == Some(ForecastFailed(forecast.status))
    ensures (current.Response? && forecast.Response? && IsOk(current.status) && IsOk(forecast.status) &&
             !BothDelivered(current, forecast)) ==> e == Some(MalformedPayload)
  {
    if current.NetworkError? || forecast.NetworkError? then Some(TransportFailure)
    else if !IsOk(current.status) then Some(CurrentWeatherFailed(current.status))
    else if !IsOk(forecast.status) then Some(ForecastFailed(forecast.status))
    else if current.body.None? || forecast.body.None? then Some(MalformedPayload)
    else None
  }

  /** What `getWeatherByCoords` resolves to, given what its two requests returned:
      the failure of `FetchFailure`, or the snapshot of the two bodies. */
  function WeatherOf(current: Fetched<CurrentPayload>, forecast: Fetched<seq<ForecastSample>>, locale: Locale)
    : (r: Result<WeatherData, WeatherError>)
    ensures r.Ok? <==> BothDelivered(current, forecast)
    ensures current.NetworkError? || forecast.NetworkError? ==> r == Err(TransportFailure)
    ensures current.Response? && forecast.Response? && !IsOk(current.status) ==>
      r == Err(CurrentWeatherFailed(current.status))
    ensures current.Response? && forecast.Response? && IsOk(current.status) && !IsOk(forecast.status) ==>
      r == Err(ForecastFailed(forecast.status))
    ensures (current.Response? && forecast.Response? && IsOk(current.status) && IsOk(forecast.status) &&
             !BothDelivered(current, forecast)) ==> r == Err(MalformedPayload)
    ensures r.Ok? ==> r.value.current == NormalizeCurrent(current.body.value, locale)
  {
    match FetchFailure(current, forecast)
    case Some(e) => Err(e)
    case None =>
      var list := forecast.body.value;
      Ok(WeatherData(
        NormalizeCurrent(current.body.value, locale),
        HourlySeries(list, locale),
        DailySeries(DayGroups(list, locale.dateKey), locale)))
  }

  /** `getWeatherByCoords`, with the grouping done by the map-filling pass. */
  method GetWeatherByCoords(current: Fetched<CurrentPayload>, forecast: Fetched<seq<ForecastSample>>, locale: Locale)
    returns (r: Result<WeatherData, WeatherError>)
    ensures r == WeatherOf(current, forecast, locale)
  {
    var failure := FetchFailure(current, forecast);
    if failure.Some? {
      return Err(failure.value);
    }
    var list := forecast.body.value;
    var now := NormalizeCurrent(current.body.value, locale);
    var hourly := HourlySeries(list, locale);
    var groups := GroupByDate(list, locale.dateKey);
    var daily := DailySeries(groups, locale);
    r := Ok(WeatherData(now, hourly, daily));
  }

  // ---------------------------------------------------------------- properties of a snapshot

  /** The daily series covers the first seven dates of the forecast, in order of first
      appearance; each entry summarises every sample of its date; the first is "Today"
      and the others carry their weekday. */
  lemma DailyCoversFirstSevenDates(list: seq<ForecastSample>, locale: Locale)
    ensures var daily := DailySeries(DayGroups(list, locale.dateKey), locale);
            var keys := DateKeys(list, locale.dateKey);
            && |daily| == (if |keys| < DailyCount then |keys| else DailyCount)
            && (|daily| > 0 ==> daily[0].day == TodayLabel)
            && (forall i :: 1 <= i < |daily| ==> daily[i].day == locale.weekday(keys[i]))
            && (forall i :: 0 <= i < |daily| ==>
                  daily[i] == DaySummary((keys[i], SamplesOn(list, locale.dateKey, keys[i])), i, locale))
  {
  }

  /** For a forecast list whose pops are fractions in [0, 1], every hourly and daily
      percentage lies in 0..100 and every day's low is at most its high. */
  lemma ForecastBounds(list: seq<ForecastSample>, locale: Locale)
    requires forall s :: s in list ==> PopInRange(s.pop)
    ensures var hourly := HourlySeries(list, locale);
            forall i :: 0 <= i < |hourly| ==> 0 <= hourly[i].precipitation <= 100
    ensures var daily := DailySeries(DayGroups(list, locale.dateKey), locale);
            forall i :: 0 <= i < |daily| ==> daily[i].low <= daily[i].high && 0 <= daily[i].precipitation <= 100
  {
    var groups := DayGroups(list, locale.dateKey);
    forall i, s | 0 <= i < |groups| && s in groups[i].1
      ensures PopInRange(s.pop)
    {
      SamplesMembers(list, locale.dateKey, groups[i].0, s);
    }
  }

  /** What `getWeatherByCoords` returns when both replies are delivered: the hourly
      series is the first 10 samples one to one; the daily series covers the first seven
      dates, "Today" first; with pops in [0, 1] every percentage lies in 0..100; and
      every day's low is at most its high. */
  lemma SnapshotProperties(current: Fetched<CurrentPayload>, forecast: Fetched<seq<ForecastSample>>, locale: Locale)
    requires BothDelivered(current, forecast)
    ensures var w, list := WeatherOf(current, forecast, locale).value, forecast.body.value;
            && |w.hourly| == (if |list| < HourlyCount then |list| else HourlyCount)
            && (forall i :: 0 <= i < |w.hourly| ==> w.hourly[i] == HourOf(list[i], locale))
            && |w.daily| == (if |DateKeys(list, locale.dateKey)| < DailyCount then |DateKeys(list, locale.dateKey)| else DailyCount)
            && (|w.daily| > 0 ==> w.daily[0].day == TodayLabel)
            && (forall i :: 0 <= i < |w.daily| ==> w.daily[i].low <= w.daily[i].high)
    ensures var w, list := WeatherOf(current, forecast, locale).value, forecast.body.value;
            var keys := DateKeys(list, locale.dateKey);
            && w.current == NormalizeCurrent(current.body.value, locale)
            && |w.daily| <= |keys|
            && (forall i :: 0 <= i < |w.daily| ==>
                  w.daily[i] == DaySummary((keys[i], SamplesOn(list, locale.dateKey, keys[i])), i, locale))
    ensures (forall s :: s in forecast.body.value ==> PopInRange(s.pop)) ==>
            var w := WeatherOf(current, forecast, locale).value;
            && (forall i :: 0 <= i < |w.hourly| ==> 0 <= w.hourly[i].precipitation <= 100)
            && (forall i :: 0 <= i < |w.daily| ==> 0 <= w.daily[i].precipitation <= 100)
  {
    var list := forecast.body.value;
    DailyCoversFirstSevenDates(list, locale);
    if forall s :: s in list ==> PopInRange(s.pop) {
      ForecastBounds(list, locale);
    }
  }

  /** A day of three samples at 10, 15 and 12 degrees with pops 0.1, 0.6 and 0.3
      reports a high of 15, a low of 10, a 60 percent chance and the middle condition. */
  lemma DaySummaryExample(locale: Locale)
    ensures var items := [ForecastSample(0, 10.0, "Clouds", 50, 1.0, Some(0.1)),
                          ForecastSample(1, 15.0, "Rain", 50, 1.0, Some(0.6)),
                          ForecastSample(2, 12.0, "Clear", 50, 1.0, Some(0.3))];
            var d := DaySummary(("Mon Nov 13 2023", items), 0, locale);
            d.high == 15 && d.low == 10 && d.precipitation == 60 && d.condition == "Rain" && d.day == TodayLabel
  {
    var items := [ForecastSample(0, 10.0, "Clouds", 50, 1.0, Some(0.1)),
                  ForecastSample(1, 15.0, "Rain", 50, 1.0, Some(0.6)),
                  ForecastSample(2, 12.0, "Clear", 50, 1.0, Some(0.3))];
    var temps, pops := [10.0, 15.0, 12.0], [10.0, 60.0, 30.0];
    assert Temps(items) == temps;
    assert PopPercents(items) == pops;
    assert temps[1..] == [15.0, 12.0] && temps[1..][1..] == [12.0];
    assert pops[1..] == [60.0, 30.0] && pops[1..][1..] == [30.0];
    assert Max(temps) == 15.0 && Min(temps) == 10.0 && Max(pops) == 60.0;
  }

  /** The current reply with temperature 21.4, feels-like 20.1, humidity 55 and no rain
      or snow report normalises to 21, 20, 55 and no precipitation. */
  lemma CurrentExample(locale: Locale)
    ensures var c := NormalizeCurrent(CurrentPayload(21.4, 20.1, "Clouds", 55, 3.2, None, None, 1700000000, 1700040000), locale);
            c.temperature == 21 && c.feelsLike == 20 && c.condition == "Clouds" && c.humidity == 55 && c.precipitation == 0.0
  {
  }
}
