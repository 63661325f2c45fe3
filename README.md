# Weather dashboard data layer, modelled in Dafny

This project models `lib/weather-api.ts`, the only part of the weather dashboard
that computes anything. The dashboard looks places up by name, fetches current
conditions and a 3-hour forecast for a place's coordinates, and turns the two replies
into one `WeatherData` snapshot:

- `current`: rounded temperatures, and precipitation from rain, then snow, then 0;
- `hourly`: the first 10 forecast samples;
- `daily`: the forecast grouped by calendar date, with the first 7 dates summarised.

Modules:

- `Wrappers` (wrappers.dfy): `Option` (a JSON field that may be `undefined`) and `Result` (a thrown error).
- `Http` (http.dfy): `Fetched<T>`, the outcome of one request: a rejected fetch, or a status with a decoded body. `IsOk` is `Response.ok`.
- `Js` (js.dfy): `Math.round` as `Floor(x + 1/2)` (halves go toward +infinity, as in JavaScript), `Math.max`/`Math.min` of a non-empty list, truthiness and `||` on optional numbers, and `String.length` in UTF-16 code units.
- `Payloads` (payloads.dfy): the fields of the two replies that are read, and `Locale`, the locale formatters (`toDateString`, `toLocaleDateString`, `toLocaleTimeString`) kept as uninterpreted function values.
- `LocationSearch` (location_search.dfy): `searchLocations`.
- `DailyGrouping` (daily_grouping.dfy): the `dailyMap` pass, an imperative loop over the forecast list that keeps the key order and a map of groups, proved against the specification functions `DateKeys` and `SamplesOn`.
- `WeatherApi` (weather.dfy): `getWeatherByCoords`, i.e. the failure rule of the two requests, and the current, hourly and daily normalisation.

The network is not modelled; what the requests return is an input. The geocoding
request is a function `lookup` from the query to its outcome, so "no request is made"
means "the result does not depend on `lookup`". The two weather requests are passed in
as their outcomes.

Points where the code's behaviour is easy to misread:

- High and low both go through `Math.round` (lib/weather-api.ts:131-132), so a high of 15.4 reports 15.
- The short-query guard compares `query.length`, which counts UTF-16 code units. So one character outside the Basic Multilingual Plane (an emoji, say) counts as 2 and reaches the geocoder.
- A rejected fetch is rethrown unchanged (lib/weather-api.ts:147-149). Only a non-ok status gets a message naming the call and the status.

Calling the model twice on the same replies gives the same snapshot, because every
member is a function of its inputs.

## Model

| member | source | states |
|---|---|---|
| `Js.Round` | lib/weather-api.ts:95 | `Math.round(x)` is the integer `n` with `n - 1/2 <= x < n + 1/2`, i.e. the nearest integer with halves rounded up |
| `Js.Max` | lib/weather-api.ts:131 | `Math.max(...xs)` of a non-empty list is an element of the list and at least every element |
| `Js.Min` | lib/weather-api.ts:132 | `Math.min(...xs)` of a non-empty list is an element of the list and at most every element |
| `Js.Utf16Length` | lib/weather-api.ts:44 | `query.length` lies between the number of characters and twice that, and equals it when every character is in the Basic Multilingual Plane |
| `Js.Truthy` | lib/weather-api.ts:100 | JavaScript truthiness of an optional number: `undefined` and 0 are falsy, every other number is truthy |
| `Js.Or` | lib/weather-api.ts:110 | `o || fallback`: the fallback when `o` is `undefined` or 0, and `o` itself otherwise |
| `Http.IsOk` | lib/weather-api.ts:78 | `response.ok` holds exactly for the 2xx class of statuses |
| `LocationSearch.ToLocations` | lib/weather-api.ts:52-58 | the mapped list has the upstream list's length and order; each entry copies name, country, state, lat and lon of the record at the same index |
| `LocationSearch.SearchLocations` | lib/weather-api.ts:43-63 | a query shorter than 2 returns `[]`; any failure (rejected fetch, non-ok status, undecodable body) returns `[]` and never an error; otherwise the result is the field-by-field copy of the upstream records, in their order |
| `LocationSearch.ShortQueryMakesNoLookup` | lib/weather-api.ts:44 | for a short query the result is `[]` whatever the lookup would have returned: no lookup is consulted |
| `LocationSearch.ShortQueries` | lib/weather-api.ts:44 | the empty query is short; a one-character query is short exactly when its character is in the Basic Multilingual Plane |
| `WeatherApi.Precipitation` | lib/weather-api.ts:100 | rain 1h if truthy, else snow 1h if truthy, else 0; the result is 0 exactly when neither is truthy |
| `WeatherApi.ZeroRainFallsThrough` | lib/weather-api.ts:100 | a rain report of 0 is treated like a missing one, so snow decides |
| `WeatherApi.NormalizeCurrent` | lib/weather-api.ts:94-103 | temperature and feels-like are the nearest integers to the upstream values; precipitation follows the rain/snow/0 fallback; condition, humidity and wind speed are passed through; sunrise and sunset are the formatted clock times of the upstream timestamps |
| `WeatherApi.PopPercent` | lib/weather-api.ts:110 | `(pop or 0) * 100` is `pop * 100` when pop is present and non-zero; it lies in 0..100 when pop is a fraction in [0, 1], and is 0 when pop is missing or 0 |
| `WeatherApi.HourOf` | lib/weather-api.ts:107-112 | one hourly entry: its temperature is the nearest integer to the sample's, its precipitation the nearest integer to the pop percentage and within 0..100 for pop in [0, 1]; time is the sample's hour label |
| `WeatherApi.MapHours` | lib/weather-api.ts:106 | `map` keeps length and order: entry i comes from sample i |
| `WeatherApi.HourlySeries` | lib/weather-api.ts:106-113 | the hourly series has `min(10, |list|)` entries and entry i is derived from `list[i]` |
| `WeatherApi.TempExtremes` | lib/weather-api.ts:130-132 | the rounded max and min temperatures bound every sample's rounded temperature and are each attained by a sample |
| `WeatherApi.PopExtremes` | lib/weather-api.ts:134 | the rounded max pop percentage bounds every sample's, is attained by a sample, and lies in 0..100 when every pop is in [0, 1] |
| `WeatherApi.DaySummary` | lib/weather-api.ts:128-143 | for a non-empty group: low <= high, both are rounded sample temperatures bounding all others; the condition is that of sample `floor(n/2)`; precipitation is the largest rounded pop percentage, within 0..100 for pops in [0, 1]; the label is "Today" at index 0 and the weekday of the key otherwise |
| `WeatherApi.DailySeries` | lib/weather-api.ts:126-144 | `min(7, #groups)` entries, later groups ignored; entry 0 is labelled "Today" and entry i >= 1 the weekday of its key; every entry's date is its key's month/day label, its low is at most its high, and its condition is that of the group's middle sample `floor(n/2)` |
| `WeatherApi.WeatherOf` | lib/weather-api.ts:66-151 | a snapshot exactly when both replies have an ok status and a decodable body, so no partial snapshot exists; a rejected fetch is a transport failure; otherwise a non-ok current-weather status fails with that status, whatever status the forecast returned; otherwise a non-ok forecast status fails with its status; with both statuses ok, an undecodable body is a malformed-payload failure; a snapshot's current conditions are the normalised current reply |
| `WeatherApi.FetchFailure` | lib/weather-api.ts:73-88 | the checks before the replies are read: none fails exactly when both replies are delivered; a rejected fetch comes first, then a non-ok current-weather status with its status, then a non-ok forecast status with its status, then a malformed-payload failure when both statuses are ok but a body does not decode |
| `WeatherApi.GetWeatherByCoords` | lib/weather-api.ts:66-151 | the fetch with the imperative grouping pass returns exactly `WeatherOf` of the two replies |
| `WeatherApi.DailyCoversFirstSevenDates` | lib/weather-api.ts:116-144 | the daily series has `min(7, #distinct dates)` entries; entry i summarises all samples of the i-th date in first-occurrence order; entry 0 is "Today", the others are their date's weekday |
| `WeatherApi.ForecastBounds` | lib/weather-api.ts:106-144 | for a forecast whose pops are in [0, 1], every hourly and daily percentage lies in 0..100 and every day's low is at most its high |
| `WeatherApi.SnapshotProperties` | lib/weather-api.ts:66-151 | when both replies are delivered, the returned snapshot's hourly series is the first `min(10, |list|)` samples one to one, its daily series has `min(7, #distinct dates)` entries with "Today" first and low <= high for each day, its current conditions are the normalised current reply, entry i of its daily series summarises every sample of the i-th date, and with pops in [0, 1] every percentage lies in 0..100 |
| `WeatherApi.DaySummaryExample` | lib/weather-api.ts:129-134 | temperatures 10, 15, 12 and pops 0.1, 0.6, 0.3 give high 15, low 10, 60 percent and the middle sample's condition |
| `WeatherApi.CurrentExample` | lib/weather-api.ts:94-103 | temperature 21.4 and feels-like 20.1 with no rain or snow give 21, 20 and precipitation 0 |
| `DailyGrouping.DateKeys` | lib/weather-api.ts:117-126 | the map's keys in insertion order: no more keys than samples, and none exactly when there are no samples |
| `DailyGrouping.FirstKeyIsFirstDate` | lib/weather-api.ts:119-121 | the first key, the one labelled "Today", is the date of the first forecast sample |
| `DailyGrouping.SamplesOn` | lib/weather-api.ts:117-124 | a group holds only samples of its date key |
| `DailyGrouping.FirstIndex` | lib/weather-api.ts:120 | the position of the first sample with a given date key: every earlier sample has another key |
| `DailyGrouping.DayGroups` | lib/weather-api.ts:116-126 | one entry per distinct date key, in key order, and no entry is empty |
| `DailyGrouping.GroupByDate` | lib/weather-api.ts:116-126 | the map-filling pass yields exactly `DayGroups`: distinct keys in first-occurrence order, and the groups together hold every sample exactly once |
| `DailyGrouping.DateKeysDistinct` | lib/weather-api.ts:120-122 | no date key is listed twice |
| `DailyGrouping.KeysAreTheDates` | lib/weather-api.ts:117-122 | a key is listed exactly when some sample carries it |
| `DailyGrouping.KeysInFirstOccurrenceOrder` | lib/weather-api.ts:120-121 | key a comes before key b exactly in the order of their first samples in the list |
| `DailyGrouping.GroupNonEmptyIff` | lib/weather-api.ts:120-123 | a date's group is non-empty exactly when the date is a key |
| `DailyGrouping.GroupsNonEmpty` | lib/weather-api.ts:120-123 | every listed key has a non-empty group, so `items[floor(n/2)]` is always in range |
| `DailyGrouping.SamplesOnConcat` | lib/weather-api.ts:123 | grouping an earlier stretch of the list then a later one puts the earlier samples first in every group: input order is kept |
| `DailyGrouping.GroupsPartitionSamples` | lib/weather-api.ts:117-124 | the groups laid end to end are a permutation of the forecast list: every sample lands in exactly one group |
| `DailyGrouping.SampleInOwnGroup` | lib/weather-api.ts:119-123 | every sample lands in the group of its own date key |
| `DailyGrouping.DayGroupsKeysDistinct` | lib/weather-api.ts:120-121 | the groups' keys, in order, are pairwise distinct |
| `DailyGrouping.SamplesMembers` | lib/weather-api.ts:123 | every sample of a group is a sample of the list |

## Left out

- Network I/O: `fetch`, the API key from the environment, URL construction with `encodeURIComponent` and `limit=5`, `response.json()` and `response.text()`. Request outcomes are inputs. The geocoder's cap of 5 results is the service's, so the model keeps whatever length the reply has, as the code does.
- `Promise.all` concurrency: when a fetch rejects, the model reports `TransportFailure` without saying which request failed. Which rejection wins depends on timing.
- `console.error` logging.
- Locale formatting (`toDateString`, `toLocaleDateString`, `toLocaleTimeString`) is foreign library behaviour. These are uninterpreted fields of `Locale`. So whether the daily series is chronological depends on the forecast list being chronological and on `dateKey`, which the model does not interpret. The model proves the order of first occurrence.
- Floating point: numbers are exact reals. Products like `0.6 * 100`, NaN and -0 are not modelled, and truthiness is "present and not zero".
- Payload shape: each reply is decoded into the fields that are read, or into nothing, which gives `MalformedPayload` for the weather call and `[]` for the search. In the code, a forecast entry with an empty `weather` array only throws when that entry is one whose condition is read (an hourly entry or a day's middle sample). The model treats any shape error as the whole body failing to decode.
- `WeatherApi.GetWeatherByCoords`: the thrown error's message text is represented by the constructor (`CurrentWeatherFailed(status)`, `ForecastFailed(status)`), not by a string.
- The UI components, the page's effects (including unsequenced refetches), the unit conversions for display, and the layout are not part of this model.
