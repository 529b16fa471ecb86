# Weather dashboard — a Dafny model of its logic

The dashboard is a single-page React application. It shows the current weather of a city, its air
quality, sunrise, sunset and day length, and a five-day forecast strip, all taken from the
OpenWeatherMap API. This project models the logic behind those panels and proves its properties:

- **Five-day strip** (`forecast.dfy`, module `Forecast`). The 3-hourly forecast feed is folded
  into one entry per calendar date, and the first five are shown. The model is a method with the
  source's loop over a dictionary plus the dictionary's key insertion order. It is proved against
  a specification: the strip lists, in order of first occurrence, the first five dates of the
  feed. For each date it keeps the first entry whose local hour is closest to noon.
- **Condition codes** (`weather_code.dfy`). A reference grouping of codes by hundreds digit.
  The icon chain, which the forecast strip and the card each write out identically, is modelled
  once and proved to agree with it. So is the card's background chain (`main_weather.dfy`).
- **Current-weather card** (`main_weather.dfy`). The `?.`/`||` defaults: a value of `0` or `""`
  falls back like a missing one. Also the background chain.
- **Today's highlights** (`highlights.dfy`). The air-quality badge, the `h:mm AM/PM` clock
  strings and the day length.
  - The clock string is proved to determine the local hour and minute it was made from, through a
    parser written for the purpose.
  - `decimal.dfy` models how JavaScript prints an integer.
  - `clock.dfy` models how `Date` reads a timestamp: the calendar day in UTC, hours and minutes in
    a time zone given as a fixed offset.
- **Application state** (`app.dfy`, class `App.AppState`):
  - which URL each fetch builds;
  - how each fetch outcome changes `weatherData`, `airQualityData`, `fiveDayForecast` and
    `loading`;
  - the search, location and theme handlers;
  - the rule that picks the spinner, the dashboard or the "No weather data" message.

  Fetches are events. A fetch method returns the request it would send. Its success or failure
  arrives later as a call of an `On…` method.
- **Navigation bar** (`nav_bar.dfy`, class `NavBar.NavBarState`):
  - the search box, which submits only text that is not blank after JavaScript's `trim`, hands it
    on untrimmed and clears the box;
  - the scrolled flag.

Two points of the forecast strip's own behaviour shape the model:

- The strip groups entries by **UTC** calendar date (`toISOString`,
  src/components/FiveDayForecast.jsx:11), but measures closeness to noon on the **local** clock
  (`getHours`, line 13). Near midnight an entry can therefore count for one date while its hour
  is read on the clock of the neighbouring one.
- An empty forecast list is handled: the reducer starts from `{}` and yields an empty strip, so
  `DailyForecast` has no precondition.

## Model

| member | source | states |
|---|---|---|
| Forecast.DailyForecast | src/components/FiveDayForecast.jsx:9-20 | the strip has min(5, number of dates) entries; entry p has the p-th date in order of first occurrence; each entry is the feed entry kept for its date (closest local hour to noon, earliest on a tie) |
| Forecast.NoonDistance | src/components/FiveDayForecast.jsx:13 | the distance is the absolute difference of the local hour and 12: one of `hour - 12` and `12 - hour`, in 0..12, and 0 exactly at local hour 12 |
| Forecast.Reduce | src/components/FiveDayForecast.jsx:9-18 | the reducer loop leaves the dates as keys in first-seen order, each holding the entry kept for its date |
| Forecast.FirstValues | src/components/FiveDayForecast.jsx:20 | `Object.values(...).slice(0, n)`: the stored values of the first n keys, in key order |
| Forecast.DateOrderCoversDates | src/components/FiveDayForecast.jsx:9-18 | the reducer's keys are exactly the calendar dates occurring in the feed |
| Forecast.DateOrderDistinct | src/components/FiveDayForecast.jsx:13-14 | no date is stored twice |
| Forecast.DateOrderFirstSeen | src/components/FiveDayForecast.jsx:9-20 | keys come in the order their dates first occur in the feed (object key insertion order) |
| Forecast.DateOrderCountsDates | src/components/FiveDayForecast.jsx:9-20 | the number of keys equals the number of distinct dates |
| Forecast.FirstOfItsDate | src/components/FiveDayForecast.jsx:13-14 | the first entry of a date is stored (`!acc[dateStr]`) |
| Forecast.CloserEntryTakesOver | src/components/FiveDayForecast.jsx:13-14 | an entry strictly closer to noon replaces the stored one |
| Forecast.StoredEntryStays | src/components/FiveDayForecast.jsx:13-14 | an entry no closer to noon leaves the stored one in place |
| Forecast.OtherDateUnaffected | src/components/FiveDayForecast.jsx:13-14 | an entry of another date does not disturb a stored one |
| Forecast.ClosestToNoonUnique | src/components/FiveDayForecast.jsx:13-14 | at most one entry per date is the one kept |
| Forecast.LaterTieNotKept | src/components/FiveDayForecast.jsx:13 | on a tie (strict `<`) the later entry is never kept |
| Forecast.CloserEntryDisplaces | src/components/FiveDayForecast.jsx:13 | an entry with a same-date rival strictly closer to noon is never kept |
| WeatherCode.ConditionIcon | src/components/FiveDayForecast.jsx:31-45 | the icon chain equals the icon of the code's condition group; the card repeats the same chain with larger icons (src/components/Mainweather.jsx, lines 29-44) |
| Clock.DateKey | src/components/FiveDayForecast.jsx:10-11 | the day number is the UTC day containing the timestamp |
| Clock.LocalHour | src/components/FiveDayForecast.jsx:13 | the local hour lies in 0..23 and is the hour of the shifted time of day |
| Clock.LocalMinute | src/components/TodayHighlights.jsx:41 | the local minute lies in 0..59 and is the minute of the shifted time of hour |
| Clock.LocalClockIsDaily | src/components/TodayHighlights.jsx:38-41 | local hour and minute repeat every 86400 seconds |
| WeatherCode.Classify | src/components/Mainweather.jsx:29-44 | each group holds exactly its code range: 2xx, 3xx-5xx, 6xx, 7xx, exactly 800, everything else |
| WeatherCode.IconFor | src/components/Mainweather.jsx:29-44 | the cloud glyph stands for atmosphere and clouds, the sun for clear sky only |
| MainWeather.BgGradient | src/components/Mainweather.jsx:46-61 | the background chain equals the gradient of the code's condition group |
| MainWeather.GradientCategory | src/components/Mainweather.jsx:46-61 | a gradient maps back only to a group whose gradient it is |
| MainWeather.GradientNamesItsCategory | src/components/Mainweather.jsx:46-61 | each gradient maps back to its own group: the six backgrounds are distinct |
| MainWeather.IconAndBackgroundAgree | src/components/Mainweather.jsx:29-61 | the card icon and the card background always pick the same condition group |
| MainWeather.RealReading | src/components/Mainweather.jsx:11 | a temperature or wind reading is shown iff present and non-zero, and then unchanged |
| MainWeather.IntReading | src/components/Mainweather.jsx:17 | humidity is shown iff present and non-zero, and then unchanged |
| MainWeather.TextOr | src/components/Mainweather.jsx:14-15 | city and country fall back to their placeholder exactly when missing or empty |
| MainWeather.Description | src/components/Mainweather.jsx:12 | the description is the first condition's, or 'N/A' when missing or empty |
| MainWeather.ConditionCode | src/components/Mainweather.jsx:13 | the code is 800 exactly when missing, zero or 800; otherwise the first condition's code |
| MainWeather.DateLabelOf | src/components/Mainweather.jsx:16-27 | the date is 'Date Not Available' exactly when the timestamp is missing or zero |
| MainWeather.Summarize | src/components/Mainweather.jsx:11-18 | each card field is its own reader applied to its own payload field: temperature and wind by the real reading, humidity by the integer one, the description and code from the first condition, city and country with their placeholders, the date label from the timestamp |
| MainWeather.ZeroCodeShowsClear | src/components/Mainweather.jsx:13 | a condition code of 0 (a cloud code by the grouping) is drawn as clear sky |
| MainWeather.ZeroTemperatureNotShown | src/components/Mainweather.jsx:11 | a temperature of exactly 0 °C shows as 'N/A' |
| Highlights.AirQualityBadge | src/components/TodayHighlights.jsx:19-34 | levels 1-5 get a label that maps back to the level; anything else gets the grey "Unknown" badge; black text exactly for levels 2 and 3 |
| Highlights.LevelOfLabel | src/components/TodayHighlights.jsx:19-34 | a label maps back only to a level in 1..5 |
| Highlights.AirQualityBadgeInjective | src/components/TodayHighlights.jsx:19-34 | distinct levels get distinct labels and colours |
| Highlights.TwelveHour | src/components/TodayHighlights.jsx:43-44 | the 12-hour clock shows 1..12 and agrees with the hour modulo 12 |
| Highlights.PadMinutes | src/components/TodayHighlights.jsx:45 | minutes are written with exactly two digits that read back as the minutes |
| Highlights.Meridiem | src/components/TodayHighlights.jsx:42 | 'PM' exactly from hour 12, 'AM' exactly before it |
| Highlights.FormatTime | src/components/TodayHighlights.jsx:42-46 | the string is `h:mm AM` or `h:mm PM` with a one- or two-digit hour that has no leading zero, two digits of minutes and the suffix, PM exactly from hour 12 |
| Highlights.TimeString | src/components/TodayHighlights.jsx:38-47 | the clock string reads back as the local hour and minute of the timestamp |
| Highlights.FormatTimeRoundTrip | src/components/TodayHighlights.jsx:38-47 | parsing the formatted string gives back the 24-hour reading |
| Highlights.ParseJoined | src/components/TodayHighlights.jsx:46 | a string joined as hour, ':', minutes, ' ', suffix reads back as those parts |
| Highlights.DayLength | src/components/TodayHighlights.jsx:364-369 | the hours part is the floor of the span in hours |
| Highlights.DayLengthSplit | src/components/TodayHighlights.jsx:364-369 | for a non-negative span the minutes lie in 0..59 and hours and minutes give the span to the minute |
| Highlights.DayLengthNegative | src/components/TodayHighlights.jsx:364-369 | a 30-second negative span shows as "-1h -1m" (the `%` keeps the sign) |
| Highlights.DayLengthBeforeSunrise | src/components/TodayHighlights.jsx:364-369 | whenever sunset precedes sunrise, hours are at most -1 and minutes lie in -60..0 |
| Highlights.DayLengthText | src/components/TodayHighlights.jsx:364-369 | the `${hours}h ${minutes}m` text reads back: an integer text up to "h ", then an integer text and a final 'm', giving the day length's hours and minutes; it starts with '-' exactly when sunset precedes sunrise |
| Highlights.JsRemainder | src/components/TodayHighlights.jsx:367 | JavaScript's remainder lies strictly within the divisor and has the sign of the dividend |
| Highlights.JsQuotient | src/components/TodayHighlights.jsx:367 | the quotient that goes with `%` is rounded toward zero, so it has the sign of the dividend |
| Highlights.JsDivision | src/components/TodayHighlights.jsx:367 | dividend = truncated quotient × divisor + remainder, which pins the remainder's value |
| Decimal.NatString | src/components/TodayHighlights.jsx:46 | an integer prints as at least one digit, without a leading zero, one digit exactly below 10 |
| Decimal.NatRoundTrip | src/components/TodayHighlights.jsx:46 | a printed natural number reads back as itself |
| Decimal.IntString | src/components/TodayHighlights.jsx:368 | an integer prints with a leading '-' exactly when negative |
| Decimal.IntRoundTrip | src/components/TodayHighlights.jsx:368 | a printed integer reads back as itself |
| App.LocationRequest | src/App.jsx:24-30 | coordinates exactly when both are truthy, else the city exactly when it is truthy, else no URL; the request carries the given values |
| App.ZeroCoordinateHasNoUrl | src/App.jsx:61-65 | a coordinate of exactly 0 without a city leaves the request without a URL |
| App.FollowUps | src/App.jsx:36-37 | after a weather payload the air-quality request always goes by coordinates; the forecast request has no URL exactly when a coordinate is 0 |
| App.SelectView | src/App.jsx:113-233 | spinner iff loading without weather; dashboard iff weather and air quality; forecast strip iff forecast present; the message otherwise |
| App.LoadingIrrelevantWithWeather | src/App.jsx:113 | once weather data is present the loading flag does not change the view |
| App.AppState.constructor | src/App.jsx:10-15 | London, loading, dark theme, no data; the spinner shows |
| App.AppState.FetchWeatherData | src/App.jsx:21-32 | sets loading, sends the chosen request, changes no data; spinner iff no weather yet, else the view is unchanged |
| App.AppState.OnWeatherLoaded | src/App.jsx:34-42 | stores the payload; with coordinates issues the two follow-ups; without them only loading drops; the spinner is gone; with air-quality data already stored the dashboard shows, whatever the payload holds |
| App.AppState.OnWeatherFailed | src/App.jsx:39-42 | only loading drops; with no weather the message shows |
| App.AppState.OnAirQualityLoaded | src/App.jsx:51-53 | stores the first list entry (none for an empty list) and nothing else |
| App.AppState.OnAirQualityFailed | src/App.jsx:54 | changes nothing, loading included |
| App.AppState.OnForecastLoaded | src/App.jsx:69-72 | stores the forecast and drops loading; a dashboard shows the strip |
| App.AppState.OnForecastFailed | src/App.jsx:73-76 | only loading drops |
| App.AppState.HandleSearch | src/App.jsx:79-82 | sets the city and fetches by that name (no URL for an empty name) |
| App.AppState.CityEffect | src/App.jsx:17-19 | fetches the current city by name |
| App.AppState.HandleCurrentLocation | src/App.jsx:84-86 | fetches by coordinates, with no URL if one is 0; the city is unchanged |
| App.AppState.ToggleDarkMode | src/App.jsx:88-90 | flips the theme only; the view is unchanged |
| NavBar.TrimStart | src/components/NavBar.jsx:30 | removes exactly the leading JavaScript whitespace |
| NavBar.TrimEnd | src/components/NavBar.jsx:30 | removes exactly the trailing JavaScript whitespace |
| NavBar.Trim | src/components/NavBar.jsx:30 | the result is a slice with only whitespace around it and no whitespace at either end |
| NavBar.TrimEmptyIffBlank | src/components/NavBar.jsx:30 | the trimmed text is empty iff the text is all whitespace |
| NavBar.Submission | src/components/NavBar.jsx:29-41 | a submission happens iff the text has a non-whitespace character, and hands on the untrimmed text |
| NavBar.NavBarState.constructor | src/components/NavBar.jsx:12-13 | empty box, not scrolled |
| NavBar.NavBarState.OnChange | src/components/NavBar.jsx:184 | the box holds the typed text |
| NavBar.NavBarState.HandleSearchClick | src/components/NavBar.jsx:29-34 | hands on the submission; clears the box exactly when it submits, else leaves it unchanged |
| NavBar.NavBarState.HandleKeyPress | src/components/NavBar.jsx:36-41 | Enter acts as the button; any other key submits nothing and changes nothing |
| NavBar.NavBarState.HandleScroll | src/components/NavBar.jsx:17-23 | scrolled exactly when scrollY exceeds 10, whatever it was before (so repeating it is idempotent) |

## Left out

- Network, JSON parsing and the API key (src/App.jsx:23-77). Fetches are events. The request is a
  `Request` value. A success or failure is a call to the matching `On…` method. Which requests
  are pending, and outcomes arriving out of order, are not tracked.
- Effect scheduling. `handleSearch` both sets `city`, which re-runs the effect, and fetches
  directly, so two identical fetches go out. The model has the effect as its own method
  (`CityEffect`) that the environment calls. It does not model when React runs it.
- `fetch(undefined)`. A request without a URL is returned as `NoUrl`, and its outcome is left to
  the environment like any other failure.
- Geolocation (src/components/NavBar.jsx:43-57) and the scroll-listener registration (16-27).
  Only the listener body is modelled.
- Floating-point formatting: `Math.round` and `toFixed` on temperatures, visibility and pollutant
  values. The card keeps a temperature as a `real`. `NaN` is not a value of the model.
- `Intl`/`toLocaleDateString` date labels (src/components/FiveDayForecast.jsx:22-29;
  src/components/Mainweather.jsx:21-26). The card keeps the timestamp itself.
- Time zones with daylight saving. Local time is UTC plus a fixed offset in seconds.
- JSX layout, theme colours and src/components/HighlightBox.jsx, which is presentational.
- Crashes while rendering. The model's payloads may lack fields that the components read
  without `?.`, and it does not mark the views that would throw. One reachable case: a search for
  an unknown city returns an error body with no `coord` and no `main`. That body is still stored
  (src/App.jsx:35) before `data.coord.lat` throws (line 36). If air-quality data from an earlier
  search is present, `View()` is `Dashboard` (`OnWeatherLoaded` states this). The real highlights
  panel then throws on `main.humidity` (src/components/TodayHighlights.jsx:15, 52). Other such
  crashes: a forecast payload without `list` (src/components/FiveDayForecast.jsx:9), or a
  highlights panel without `sys`.
- Decimal.NatString, Decimal.IntString: the model prints every integer in full, while JavaScript's
  `${n}` switches to exponent notation from 1e21 on (`${1e21}` is "1e+21"). `NatRoundTrip` and
  `IntRoundTrip` describe JavaScript only below that bound. The numbers the dashboard prints (clock
  parts, day-length parts) are far below it.
- Clock.LocalHour, Clock.LocalMinute, Highlights.TimeString: every integer timestamp gets a valid
  clock reading, while in JavaScript a timestamp outside Date's range (more than 8.64e12 seconds
  from the epoch) reads as NaN, and `getTimeString` (src/components/TodayHighlights.jsx:38-47)
  then returns "12:NaN AM". The dashboard's timestamps (about 1.7e9 seconds) are far inside it.
- Clock.LocalClockIsDaily: the daily period is a property of the fixed-offset abstraction; the
  real `getHours` breaks it across a daylight-saving change.
- Clock.DateKey: does not model `toISOString` throwing a RangeError for a timestamp outside the
  range of `Date` (src/components/FiveDayForecast.jsx:11). Every integer gets a day number.
- The pollutant components of the air-quality payload. Only `main.aqi` is modelled.
