# Weather widget core, modelled in Dafny

The weather widget asks the open-meteo forecast service about a location and
shows the answer. This project models the parts of `updateWeather.js` that
are logic rather than I/O:

- **Weather classifier** (`WeatherCode`, file `weather_code.dfy`).
  `stringifyWeatherCode` maps an integer weather code to one of six labels:
  sunny, cloudy, overcast, rainy, snow or thunder. It is an ordered chain of
  comparisons where the first match wins. The labels are a datatype, and
  `Name` gives the string that also names the icon file; it is the spelling
table behind `StringifyWeatherCode`, whose contract (and `NameInjective`)
states what it promises. The contract of
  `Classify` gives the exact range of codes for each label, in both
  directions. A separate table of bands with upper bounds is proved to agree
  with the chain on every integer.
- **Day labels** (`Days`, file `days.dfy`). `listDays` starts from
  `["Today"]` and, in a loop, appends `daysOfWeek[(startDay + i) % 7]` for i
  from 1 to 6. `ListDays` is that loop. It is proved equal to `DayLabels`,
  which is defined as a rotation of the week. The day of the week is a
  parameter `startDay` (0 = Sunday).
- **Forecast normalizer** (`Forecast`, file `forecast.dfy`). This is the
  object literal that `lookupLocation` returns. It is built from an
  already-parsed response that has `current`, `hourly` and `daily` sections.
  `Summarize` maps the classifier over the hourly codes and the time
  formatter over the hourly timestamps. It reads element 0 of the
  precipitation and UV arrays, and passes the daily sequences through
  unchanged. `parseTime` is a function parameter with no further properties.
- `Wrappers` (file `wrappers.dfy`) holds `Option`. It is used for reading
  element 0 of an array, which in JavaScript gives `undefined` when the
  array is empty.

Indexing an empty `precipitation_probability` or `uv_index_max` array does
not fail in JavaScript; it gives `undefined`. The model therefore returns
`None` for those fields and does not require the arrays to be non-empty.

## Model

| member | source | states |
|---|---|---|
| `WeatherCode.Classify` | updateWeather.js:58-74 | Each label covers exactly one range of codes, in both directions. Codes ≤ 1 are sunny. 2 is cloudy. 3..50 is overcast. 51..70 and 80..83 are rainy. 71..79 and 84..90 are snow. Above 90 is thunder. So negative and very large codes get a label too. |
| `WeatherCode.StringifyWeatherCode` | updateWeather.js:58-74 | The returned string is always one of the six icon names. It is "thunder" exactly when the code is above 90. |
| `WeatherCode.NameInjective` | updateWeather.js:52-54 | Distinct labels have distinct names, so each label picks its own icon. |
| `WeatherCode.ClassifyIsFirstMatch` | updateWeather.js:58-74 | Take the ordered band table {≤1 sunny, ≤2 cloudy, ≤50 overcast, ≤70 rainy, ≤79 snow, ≤83 rainy, ≤90 snow} with thunder as the catch-all. For every integer, its first-match result equals the classifier's. |
| `WeatherCode.NotMonotone` | updateWeather.js:64-70 | Some codes a < b < c are rainy, snow and rainy. The banding is not monotone. |
| `WeatherCode.ClassifyExamples` | updateWeather.js:58-74 | The classifier's result on 0, 2, 45, 63, 75, 82, 95, -7 and 1000. |
| `Wrappers.First` | updateWeather.js:25 | Element 0 when the array is non-empty. Absent when it is empty. |
| `Days.RotateLeft` | updateWeather.js:140 | The week rotated left by k keeps its length, and position i holds the entry i places after k, wrapping past the end as `% 7` does. It is the helper `DayLabels` is built from. |
| `Days.DayLabels` | updateWeather.js:134-143 | The labels for day `startDay` (used by `Summarize` in place of the `listDays()` call at line 41): seven entries, "Today" first. Element by element it is stated by `DayLabelsAt`. |
| `Days.DayLabelsAt` | updateWeather.js:134-142 | The labels have length 7. Element 0 is "Today". Element i (1 ≤ i < 7) is `daysOfWeek[(startDay + i) % 7]`. |
| `Days.DaysOfWeekDistinct` | updateWeather.js:134 | The seven abbreviations are pairwise distinct, and none of them is "Today". |
| `Days.WeekdaysDistinct` | updateWeather.js:134-141 | The six weekday entries are pairwise distinct. None of them is today's own abbreviation, and none is "Today". |
| `Days.WeekdaysAreRotation` | updateWeather.js:139-141 | After "Today", the labels are the contiguous run of the week repeated twice, from position startDay + 1 through startDay + 6. |
| `Days.WednesdayExample` | updateWeather.js:134-142 | Day 3 (Wednesday) gives ["Today","Thurs","Fri","Sat","Sun","Mon","Tues"]. |
| `Days.ListDays` | updateWeather.js:135-143 | The appending loop returns exactly `DayLabels(startDay)`: length 7, "Today" first, then `daysOfWeek[(startDay + i) % 7]` at position i. |
| `Forecast.Map` | updateWeather.js:28 | Like `Array.prototype.map`: the output has the input's length, and element i is `f` applied to input element i. |
| `Forecast.Summarize` | updateWeather.js:21-46 | The current label is the classified current code. `hourly_weather` matches the hourly codes in length and, position by position, is their classification. `times` matches the timestamps in length and, position by position, is `parseTime` of them. Both rain chances are the same reading: element 0 of the precipitation array, absent when that array is empty. `uv_index` is element 0 of `uv_index_max`, absent when empty. Temperatures, feels-like and wind come from the response. The daily codes and min/max temperatures pass through unchanged. The day labels are `DayLabels(startDay)`. |
| `Forecast.SummarizePreservesAlignment` | updateWeather.js:27-32 | Suppose the provider's hourly sequences have equal length. Then the forecast's labels, temperatures and times have equal length, and hour i of each comes from the provider's hour i. |
| `Forecast.SummarizeWeekLength` | updateWeather.js:39-45 | Given seven days of daily data, the day labels, codes, lows and highs all have length 7. |

## Left out

- The forecast request (line 11): the URL, and which fields it asks for, are network I/O. The model starts from a parsed response.
- The geocoding request (line 151) and the IP lookup (line 189): network I/O.
- JSON parsing, and payloads with missing fields. In the code, a missing section or a missing `hourly.time` throws when a property is read or `.map` is called. The model's response is a typed record with every field present.
- `updateWeather` (lines 80-122), the result list in `lookupLocationName` (lines 153-176) and the event listeners (lines 179-184, 202-213): DOM updates and UI wiring.
- `estimateLocation` (lines 188-197): an IP lookup followed by DOM writes.
- `parseTime` (lines 130-132): it depends on the locale through `Date.toLocaleTimeString`. It is a function parameter of `Summarize`, with no properties assumed.
- `new Date().getDay()` (line 137): reads the clock. It is the `startDay` parameter instead. `Summarize` uses `DayLabels`, which `ListDays` is proved equal to.
- Device geolocation (`watchPosition`), and the race where the last lookup to finish wins (lines 163-168, 192-196, 204-212): asynchronous concurrency.
- Floating-point values: temperatures, wind speeds and the UV index are only passed along, so they are `real` with no arithmetic. The display rounding `Math.round(lat*10)/10` (line 209) is not modelled.
- JavaScript's loose typing: a `null` entry in a provider array, or a non-integer weather code, is not modelled. Codes are `int`, and precipitation probabilities are `int` percentages.
