# Coast-to-coast weather: a Dafny model of the forecast proxy and the dashboard's selection rules

The repository is a two-city weather dashboard. A serverless function, the forecast proxy, takes a
latitude and a longitude and looks them up at the national weather service's `points` endpoint. It
then fetches the daily and hourly forecasts that the points answer names, and replies with one
envelope `{updated, dailyPeriods, hourlyPeriods}` or with one error. The browser script keeps two
cities (HER, New York, selected on load; ME, Los Angeles) and a cache of each city's envelope. From
that data it picks the hero panel, the hourly strip, the 7-day strip and a comparison of the two
cities.

This model covers the decision logic of the proxy and the data selection of the script:

- `optional.dfy`: `Optional`. `null`/`undefined` against a present value, and JavaScript's `??`.
- `text.dfy`: `Text`. The string operations the script relies on: `toLowerCase` on ASCII letters,
  `includes`, `trim`, and the decimal writing and reading of non-negative integers.
- `forecast.dfy`: `Forecast`. A forecast period and a city's envelope, as the proxy passes them
  through and the script reads them.
- `weather_function.dfy`: `WeatherFunction`. The proxy's handler. The weather service is a
  parameter (the answer it gives to each request). So the handler is a total function from the
  incoming event and that answer to the reply, plus the list of requests it sent.
- `conditions.dfy`: `Conditions`. `conditionClass` and the comparison's rainy/snowy/clear tests.
- `wind.dfy`: `Wind`. `mphFromWindSpeed`. The first match of its regular expression is modelled as
  a scan over the text.
- `selection.dfy`: `Selection`. The first-period pickers, the 18-hour strip and the hero fallbacks.
- `forecast_strip.dfy`: `ForecastStrip`. The day/night grouping loop of the 7-day strip, as a
  method proved against a specification function.
- `cities.dfy`: `Cities`. The two cities and the choice of the other one.
- `comparison.dfy`: `Comparison`. The temperature line, the precipitation line and the mood line.
- `dashboard.dfy`: `Dashboard`. The page state `current`/`cache` as a class, with `setCity` and
  `loadCity` as methods.

The model follows the code in these points:

- An empty `lat` or `lon` is rejected like a missing one, because the code tests truthiness.
- When both forecast responses are failures, the daily failure is the one reported, because the
  daily status is checked first.
- A fetch that throws, or a body that is not JSON, ends in a 500 reply that carries the
  exception's description.

## Model

| member | source | states |
|---|---|---|
| `WeatherFunction.Handler` | netlify/functions/weather.js:2-85 | The reply is 200, 400, 500 or 502. Every outbound request carries the one User-Agent/Accept header object. The reply is 400 exactly when a coordinate is missing or empty, and then nothing is fetched. Otherwise the points request comes first, and exactly three requests are made iff the points answer names both forecast locations. The reply is 200 exactly when it is an envelope; only then does it carry the five-minute Cache-Control header, and all three answers were parsed successes. |
| `WeatherFunction.QueryParam` | netlify/functions/weather.js:4 | With no query object no parameter is present. Otherwise a parameter is found exactly when the query holds its name, and it is the query's value under that name. |
| `WeatherFunction.MissingCoordinatesFetchNothing` | netlify/functions/weather.js:4-11 | Missing or empty `lat`/`lon`, or no query at all: 400 with "Missing lat/lon" and no outbound request, whatever the service would answer. |
| `WeatherFunction.PointsRequestShape` | netlify/functions/weather.js:13-20 | For any query holding `lat` and `lon`, the points request is the points base URL followed by `lat,lon`, with the fixed header object. |
| `WeatherFunction.PointsFailureStops` | netlify/functions/weather.js:20-28 | A points response that is not ok gives 502 "points failed" with the upstream status, and only the points request is made. |
| `WeatherFunction.MissingUrlsStop` | netlify/functions/weather.js:30-41 | An ok, parsed points answer lacking either forecast location gives 502 "Missing forecast urls", and no forecast is fetched. |
| `WeatherFunction.ForecastFailuresReported` | netlify/functions/weather.js:43-61 | A daily failure is reported with the daily status whatever the hourly response. An hourly failure is reported when the daily answer is ok. Either way no envelope is returned, and all three requests are made. |
| `WeatherFunction.SuccessEnvelope` | netlify/functions/weather.js:63-77 | On success: 200 with `public, max-age=300`. Both period lists are the upstream `properties.periods` exactly, or empty when absent. `updated` is the daily one, else the hourly one, else null. |
| `WeatherFunction.ExceptionsReported` | netlify/functions/weather.js:13-84 | A rejected points fetch, an unparsable points body, a rejected daily or hourly fetch (ahead of any forecast status) and an unparsable daily or hourly body (once both statuses are ok, the daily body first) each give 500 with that exception's description. |
| `WeatherFunction.DependsOnlyOnFetched` | netlify/functions/weather.js:19-46 | Two services that agree on the requests the handler made give the same result. So the handler consults nothing beyond the recorded fetches. |
| `Conditions.WeatherClass.CssClass` | assets/app.js:113-121 | Every class is one of the six names `wx-snow`, `wx-thunder`, `wx-rain`, `wx-fog`, `wx-cloudy`, `wx-clear`. |
| `Conditions.CssClassesDistinct` | assets/app.js:115-120 | The six classes have six different class names, so each class is drawn with its own name. |
| `Conditions.FirstRule` | assets/app.js:113-121 | Reference reading of a priority table: the class of the first rule whose words the text mentions, and clear when it mentions none. |
| `Conditions.ConditionClass` | assets/app.js:113-121 | `conditionClass` is the priority table snow/sleet/flurr, thunder, rain/showers/drizzle, fog/haze, cloud/overcast, read first rule first on the lower-cased text. |
| `Conditions.ThunderOutranksRain` | assets/app.js:115-117 | Text mentioning thunder and no snow word is classed thunder, even when it also mentions rain. |
| `Conditions.ThunderstormsAndRain` | assets/app.js:113-121 | "Thunderstorms and Rain" is classed `wx-thunder`. |
| `Conditions.EmptyIsClear` | assets/app.js:113-121 | The empty text is classed `wx-clear`. |
| `Conditions.ClassAgreesWithMood` | assets/app.js:390-391 | The comparison's `snowy` is exactly the snow class. For text that is not snowy, `rainy` holds exactly for the thunder and rain classes. |
| `Wind.MatchAtGreedy` | assets/app.js:57 | A match at the start of the text begins with a digit, and its first capture is the whole leading digit run (the greedy `\d+`). |
| `Wind.FirstMatchNone` | assets/app.js:57-58 | The search finds nothing exactly when the pattern matches at no position of the text. |
| `Wind.FirstMatchLeftmost` | assets/app.js:57 | A match found is the match at a position before which the pattern matches nowhere: the leftmost one. |
| `Wind.MphFromWindSpeed` | assets/app.js:55-62 | A reading, when there is one, is non-negative. |
| `Wind.CapturesAreDigits` | assets/app.js:57 | Both captures of a match are non-empty digit strings. |
| `Wind.SingleSpeed` | assets/app.js:55-62 | "N mph" gives N, with any spacing, any letter case of the unit and anything after it. |
| `Wind.SpeedRange` | assets/app.js:55-62 | "A to B mph" gives (A+B)/2 when B is not zero, and A when B is zero. |
| `Wind.RangeZero` | assets/app.js:60-61 | A zero second number is falsy, so the reading is the first number. |
| `Wind.NoUnitNoSpeed` | assets/app.js:57-58 | A text with no "mph" in any letter case has no match and gives null. |
| `Wind.DigitFreePrefix` | assets/app.js:57 | Text without digits in front of the speed does not change the reading. |
| `Selection.PickNow` | assets/app.js:213-218 | The first entry of the list, or null when the list is missing or empty. |
| `Selection.HourlyStrip` | assets/app.js:283 | The strip holds exactly the first min(18, n) hourly periods, in their order. |
| `Selection.PreferredTemperature` | assets/app.js:240 | The current hour's temperature when it has one, zero included, else the daily one, else null. |
| `Selection.PreferredShortForecast` | assets/app.js:242 | The daily short forecast when present, else the hourly one. |
| `Text.Trim` | assets/app.js:263 | `.trim()`: the input is the result with only white space before and after it, and the result neither starts nor ends with white space. |
| `Selection.WindLine` | assets/app.js:261-264 | The wind line is never empty. It is "—" when speed and direction are both blank. Otherwise it is the trimmed speed when there is no direction, the trimmed direction when there is no speed, and the trimmed "speed direction" when there are both, so it neither starts nor ends with white space. |
| `Selection.WindLineOfParts` | assets/app.js:263 | A non-empty speed and direction without surrounding white space are shown as "speed direction". |
| `Selection.RenderHero` | assets/app.js:233-264 | Temperature and unit prefer the hour, then the day. Feels equals the plain temperature, which overwrites the feels-like value. With no short forecast the condition is "—", and the theme is the condition's class. Precipitation, humidity and sky cover come from the hour only. The wind line is built from the daily speed, else the hourly one, else "", and the daily direction, else the hourly one, else ""; it is never empty. |
| `Selection.HeroKeepsZero` | assets/app.js:240-249 | A current-hour temperature of 0 is shown as the temperature and as the feels value, not skipped. |
| `Selection.HeroTemperatureFallsBack` | assets/app.js:240 | Without a current-hour temperature the hero shows the daily one, or nothing. |
| `Selection.HeroConditionPrefersDaily` | assets/app.js:242 | The condition is the daily short forecast, else the hourly one, else "—". |
| `Selection.HeroWindPrefersDaily` | assets/app.js:261-264 | Any daily speed and direction without surrounding white space are shown as "speed direction", whatever the current hour says. |
| `Selection.HeroWindFallsBack` | assets/app.js:261-264 | With neither a daily speed nor a daily direction, the wind line is the current hour's. |
| `ForecastStrip.NightAfter` | assets/app.js:323 | The night is exactly the next entry when there is one, it is not null and it is not daytime. Otherwise there is none. |
| `ForecastStrip.DayIndices` | assets/app.js:317-322 | The positions of the daytime periods, in increasing order, and all of them. |
| `ForecastStrip.Entries` | assets/app.js:316-326 | One entry per daytime position, in that order, holding the period and its night. |
| `ForecastStrip.GroupDays` | assets/app.js:311-326 | The loop's result is the specification's strip: all grouped entries when there are at most seven, otherwise the first seven. |
| `ForecastStrip.StripShape` | assets/app.js:316-326 | The strip has min(7, number of daytime periods) entries. Each is a daytime period of the list, with its night exactly the following night period, and the entries are in list order. |
| `ForecastStrip.DayThenNight` | assets/app.js:322-324 | A day followed by a night gives one entry holding both. |
| `ForecastStrip.LeadingNightDropped` | assets/app.js:322 | A leading night period is dropped. |
| `Cities.Other` | assets/app.js:349 | The compared city is one of the two cities, and never the selected one. |
| `Comparison.CompareTemperatures` | assets/app.js:360-371 | Unknown iff a temperature is missing. Otherwise the size of the difference, with "Same temp" iff equal, warmer iff the selected city is higher and colder iff it is lower. |
| `Comparison.TempLineReadsBack` | assets/app.js:364-371 | The temperature line is "Δ Temp: —" exactly when the temperature is unknown. Otherwise the digits after "Δ Temp: " read back as the size of the difference, and the verdict's text follows in parentheses. |
| `Comparison.VerdictTextNames` | assets/app.js:367-370 | Different verdicts ("Same temp", "X is warmer", "X is colder") never read the same. |
| `Comparison.PrecipitationDelta` | assets/app.js:375-381 | Known iff both chances of precipitation are present, and then the size of their difference. |
| `Comparison.PrecipitationTextReadsBack` | assets/app.js:377-381 | The precipitation line is "Δ Precip: —" exactly when the difference is unknown. Otherwise the digits after "Δ Precip: " read back as the difference, followed by "%". |
| `Comparison.MoodOf` | assets/app.js:387-399 | The first that applies: shared rain iff both are rainy; shared snow iff not that and both are snowy; clear in both iff neither of those and both are clear; rain in one city iff none of those and exactly one is rainy, naming the rainy city; two different skies iff none of those and neither is rainy. |
| `Comparison.MoodTextNames` | assets/app.js:393-399 | Different moods never read the same, so a one-sided rain's text names its city unambiguously. |
| `Comparison.MoodSymmetric` | assets/app.js:394-399 | Swapping the two cities gives the same mood. |
| `Comparison.ThunderIsSharedRain` | assets/app.js:390-395 | Thunder counts as rain: thunder in both cities is shared rain, ahead of shared snow. |
| `Comparison.OneSidedRain` | assets/app.js:398 | Showers only in the selected city, with no shared snow or clear sky, names the selected city. |
| `Comparison.ReadingOf` | assets/app.js:351-388 | A city that has not loaded contributes nothing. Otherwise its temperature uses the hour-then-day fallback, its chance of precipitation comes from the current hour only, and its mood text is the daily-then-hourly short forecast, lower-cased character by character. |
| `Comparison.Compare` | assets/app.js:347-402 | Each line compares the selected city's reading with the other city's: the temperature line, the precipitation difference and the mood with the selected city named first. So the verdict is warmer iff the selected city's temperature is higher, and the lines are known iff both cities have the value. |
| `Comparison.CompareFromOtherSide` | assets/app.js:347-402 | Selecting the other city turns the comparison around: the same difference, the verdict reversed, and the same precipitation and mood. |
| `Dashboard.Render` | assets/app.js:409-412 | One city's view is its hero, its strip of at most seven days and its hourly strip of at most eighteen periods. |
| `Dashboard.Page.ComparisonNow` | assets/app.js:347-399 | The comparison sets the selected city's cached reading against the other, distinct, city's: temperature line, precipitation difference and mood from those two readings. While either city is not loaded, temperature and precipitation are unknown. |
| `Dashboard.Page.constructor` | assets/app.js:5-6 | HER is selected and neither city is loaded. |
| `Dashboard.Page.SetCity` | assets/app.js:417-435 | Selects ME iff the key is "ME", else HER, and never changes the cache. Draws the selected city iff its forecast is cached, and redraws the comparison except when the drawn hourly strip holds a null period, which throws first. |
| `Dashboard.Page.LoadCity` | assets/app.js:405-415 | Writes only `cache[city.key]`, leaving the other city's entry and the selection unchanged. Draws the city only when it is the selected one, and redraws the comparison except when that drawing meets a null hourly period, which throws first. A failed fetch changes nothing. |
| `Dashboard.Start` | assets/app.js:442 | The first `setCity("HER")` leaves HER selected with nothing loaded, draws no view, and redraws a comparison with unknown temperature and precipitation. |

## Left out

- `feelsLikeF`, `windChillF`, `heatIndexF` and `sunriseSunset` are not modelled. They are
  floating-point formulas and trigonometry. The hero's first feels value is overwritten by the
  plain temperature anyway, and that overwrite is modelled.
- `fmtHour`, `fmtTime`, `fmtUpdated`, `weekdayFromISO` and `updateClockLine` are not modelled.
  They format with the host's locale and time-zone library. The "Updated:" line, the clock line,
  the weekday names and the sunset line are therefore not part of the model.
- The DOM work is not modelled. This covers the `innerHTML` templates, the per-hour and per-day
  markup (including the 28-character description cut and the icon URL), `applyWeatherTheme`'s
  overlay opacities, `setLoveMode`, the segment buttons' `active` class and the forced emerald
  theme. The model keeps the selected data (`Hero`, the strips and `Comparison`), not the markup.
- The note bar (`localStorage`) and the interval and timeout timers are not modelled: they are
  browser I/O.
- `fetch`, JSON parsing and `Promise.all` are not modelled as such. The weather service is a
  function from request to answer, and the client's `fetchWeather` result is a method argument
  (null when it threw). The client's error text "Weather failed N" is not modelled.
- `WeatherFunction.Handler`: when both forecast fetches reject, `Promise.all` reports whichever
  rejects first in time. Time is not modelled, so the model reports the daily one.
- The page's boot runs the two `loadCity` calls concurrently. Their interleaving is not modelled;
  each call is modelled on its own by `Dashboard.Page.LoadCity`.
- `isValentineWindow` and `numOrDash` are not modelled: neither is called.
- `Text.ToLower` changes ASCII letters only. Without the `u` flag, the regular expression's `i`
  flag never matches a non-ASCII character against an ASCII letter, so `to` and `mph` match exactly
  their ASCII case variants, as `StartsWithWord` (built on `Text.ToLower`) does. For
  `conditionClass` and the mood tests, the non-ASCII letters whose
  lower case is ASCII (the Kelvin sign gives `k`; `İ` gives `i` followed by a combining dot) cannot
  complete any of the key words.
- JSON values of unexpected types are not modelled. Examples are a forecast location that is not
  a string, `periods` that is not an array, and a period without `isDaytime`: the model's types
  fix these.
- `Dashboard.Page.SetCity` and `Dashboard.Page.LoadCity`: when the drawn city's hourly strip holds a
  null period, `renderHourlyStrip` throws and the comparison is not redrawn, which the model states.
  The hourly strip's markup then stays as it was, while the returned view still lists those periods.
- `Wind.MphFromWindSpeed`: JavaScript's `Number` is a double, but the model reads each captured digit
  run as an exact integer and the mean as an exact rational. Runs above 2^53 would round and runs of
  more than about 309 digits would give Infinity; the model does not capture either.
- `Comparison.CompareTemperatures`: temperatures are modelled as integers, as the weather service
  sends them. A fractional or out-of-range double, and its rounding in the subtraction, are not
  modelled.
- `Comparison.PrecipitationDelta`: chances of precipitation are modelled as integers, for the same
  reason; doubles and their rounding are not modelled.
