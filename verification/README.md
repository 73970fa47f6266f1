# Embeddable widget renderer — Dafny model

The system serves three small HTML widgets (a clock, a weather card and an
event countdown) from one GET endpoint, configured entirely by the query
string and meant to be embedded in iframes. This project models the
renderer's logic as pure functions over an abstract rendered result: the
values and flags that end up in each document, not the HTML text itself.

Modules, following the structure of `app/api/render/route.tsx`:

- `Query` (query.dfy): the query as a map from key to first value,
  `params.get`, and the `params.get(k) || default` idiom, under which an
  empty value counts as a missing one.
- `Style` (style.dfy): `getFontFamily` and `getPaddingValue`, and the four
  styling parameters every widget shares (`bg`, `color`, `font`, `padding`).
- `Clock` (clock.dfy): the clock parameters, the analog/digital choice, the
  time-format options, and the hand angles the analog script computes. The
  hour-hand angle is kept exact as whole half-degrees.
- `Weather` (weather.dfy): the weather parameters, the unit symbol, the fixed
  demo data and the optional three-day forecast grid.
- `Countdown` (countdown.dfy): the countdown parameters, the split of a
  millisecond distance into days, hours, minutes and seconds, and the
  script's display as a state machine driven by one distance per tick.
- `Route` (route.dfy): the `type` validation, dispatch, status codes and
  headers of `GET`.

Inputs that come from the browser or the wall clock become parameters: the
time of day read by the clock script (`Clock.TimeOfDay`), the distance to
the countdown target on each tick, and the countdown's fallback date
(`defaultDate`, the UTC calendar date 24 hours after rendering).

Once the "Event has passed!" message has replaced the countdown grid, the
grid cells no longer exist. A later tick with a negative distance writes the
same message again. A later tick with a non-negative distance throws at its
first cell write (`getElementById('days')` is null), so the message stays.
Either way the message is final; `Countdown.Update` models both cases.

## Model

| member | source | states |
|---|---|---|
| Query.Param | app/api/render/route.tsx:31-37 | the `params.get(k) or default` idiom yields the default or the supplied value verbatim; the default when the key is missing; the supplied value when it is non-empty; never empty when the default is not |
| Query.ParamEmptyIsMissing | app/api/render/route.tsx:31-37 | an empty value reads exactly as a missing key, giving the default |
| Query.ParamIgnoresOtherKeys | app/api/render/route.tsx:31-37 | parameters under other keys do not change the value read for a key |
| Style.FontFamily | app/api/render/route.tsx:6-15 | the serif stack exactly for "serif", the monospace stack exactly for "mono", the sans-serif stack for every other string including "" |
| Style.PaddingValue | app/api/render/route.tsx:18-27 | "12px" exactly for "small", "32px" exactly for "large", "20px" for every other string |
| Style.StyleOf | app/api/render/route.tsx:34-37 | the shared styling: `bg` and `color` verbatim when supplied and non-empty, else `#ffffff` and `#37352F`; the font stack and padding are `getFontFamily`/`getPaddingValue` of the supplied name, so a missing or empty one gives sans-serif and 20px |
| Style.StyleDefaults | app/api/render/route.tsx:34-37 | with no styling parameters: sans-serif stack, `#ffffff`, `#37352F`, 20px |
| Style.FallbackNamesAreUnrecognised | app/api/render/route.tsx:36-37 | the fallbacks "sans" and "medium" resolve like any unrecognised name |
| Clock.ClockParamsOf | app/api/render/route.tsx:31-37 | `tz` and `clockType` verbatim when supplied and non-empty, else "America/New_York" and "12h"; seconds shown only for the literal "true"; style shared with the other widgets |
| Clock.AnalogHands | app/api/render/route.tsx:122-124 | exactly the hour and minute hands, then the second hand exactly when seconds are shown: two or three elements |
| Clock.Render | app/api/render/route.tsx:39-160 | analog layout iff the clock type is "analog", its face holding exactly the hour, minute and (when shown) second hands; `hour12` iff it is "12h"; `second: '2-digit'` and the second hand iff seconds are shown |
| Clock.Generate | app/api/render/route.tsx:30-229 | the same choices stated on the raw query, including that an empty `clockType` is the 12-hour default and that an analog face holds exactly the hour, minute and (when shown) second hands; the timezone is `tz` verbatim or "America/New_York" |
| Clock.ClockDefaults | app/api/render/route.tsx:31-37 | with only the type given: 12-hour digital clock for America/New_York, no seconds, default styling |
| Clock.HourFormatIsTheOnlyDifference | app/api/render/route.tsx:203-208 | "24h" and "12h" documents differ only in the `hour12` flag |
| Clock.UnrecognisedClockTypeIs24h | app/api/render/route.tsx:32-39 | any non-empty type other than "analog" and "12h" renders as the "24h" clock |
| Clock.EmptyClockTypeIs12h | app/api/render/route.tsx:32 | an empty `clockType` renders as "12h" |
| Clock.AnalogReadoutIs24h | app/api/render/route.tsx:145-149 | the readout under the analog face is never in 12-hour form |
| Clock.HourHalfDegrees | app/api/render/route.tsx:137 | the hour angle in half-degrees lies in 0..719 |
| Clock.HourDegrees | app/api/render/route.tsx:137 | `hourDeg` is the half-degree count halved and lies in [0, 359.5] |
| Clock.MinuteDegrees | app/api/render/route.tsx:138 | `minuteDeg` is a multiple of 6 in [0, 354] and gives back the minutes when divided by 6 |
| Clock.SecondDegrees | app/api/render/route.tsx:139 | `secondDeg` is a multiple of 6 in [0, 354] and gives back the seconds when divided by 6 |
| Clock.Tick | app/api/render/route.tsx:141-143 | one tick rotates the hour and the minute hand, and the second hand only when seconds are shown, in that order, every angle in [0, 360) |
| Clock.RotatedHandsExist | app/api/render/route.tsx:122-143 | every hand the analog script rotates has an element on the face |
| Clock.HourHandEncodesTime | app/api/render/route.tsx:137-138 | the hour angle determines hours mod 12 and the minutes, and agrees with the minute hand |
| Clock.HourHandInjective | app/api/render/route.tsx:137 | two times show the same hour hand iff they agree on the 12-hour clock to the minute |
| Clock.TwelveHourPeriod | app/api/render/route.tsx:137-139 | times twelve hours apart show identical hands |
| Weather.WeatherParamsOf | app/api/render/route.tsx:233-239 | units are "celsius" iff missing, empty or "celsius"; 3-day mode only for the literal "3day"; `city` verbatim when supplied and non-empty, else "New York" |
| Weather.Demo | app/api/render/route.tsx:328-336 | three forecast days "Today", "Tomorrow", "Wed" in order at 22/24/20 for Celsius and 72/75/68 otherwise, the current temperature equal to today's |
| Weather.Render | app/api/render/route.tsx:241-356 | °C iff units are "celsius"; current temperature 22 for Celsius and 72 otherwise; three labelled forecast days in 3-day mode, none otherwise, the first repeating the current reading |
| Weather.Generate | app/api/render/route.tsx:232-371 | the same choices stated on the raw query; current temperature 22 with °C and 72 with °F; `city` verbatim or "New York" |
| Weather.WeatherDefaults | app/api/render/route.tsx:233-235 | with only the type given: New York, °C, 22, no grid, default styling |
| Weather.ThreeDayForecast | app/api/render/route.tsx:345-356 | with `forecast=3day`: exactly "Today", "Tomorrow", "Wed", the first matching the current reading, at 22/24/20 in Celsius and 72/75/68 otherwise |
| Weather.OtherUnitsAreFahrenheit | app/api/render/route.tsx:241 | every non-empty unit other than "celsius" renders exactly as "fahrenheit", with °F |
| Countdown.CountdownParamsOf | app/api/render/route.tsx:375-380 | `event` and `date` verbatim when supplied and non-empty, else "Event" and the fallback date |
| Countdown.Decompose | app/api/render/route.tsx:474-477 | hours < 24, minutes < 60, seconds < 60, days >= 0, and the parts plus the leftover milliseconds add back to the distance |
| Countdown.DecomposeUnique | app/api/render/route.tsx:474-477 | the split is the only in-range way to write the distance |
| Countdown.TwoDaysThreeHours | app/api/render/route.tsx:467-477 | a target two days and three hours ahead shows 2, 3, 0, 0 |
| Countdown.DecomposeMonotone | app/api/render/route.tsx:474-477 | less time remaining never shows more time |
| Countdown.Update | app/api/render/route.tsx:465-483 | the terminal message iff the distance is negative or already shown; otherwise an in-range grid that adds back to the distance |
| Countdown.UpdateIdempotent | app/api/render/route.tsx:469-472 | repeating an update with the same distance changes nothing |
| Countdown.Run | app/api/render/route.tsx:493-494 | after a run of ticks the message shows iff some distance was negative; otherwise the grid shows the last distance |
| Countdown.PassedIsFinal | app/api/render/route.tsx:469-483 | once any tick saw a negative distance, no later tick brings the grid back |
| Countdown.Generate | app/api/render/route.tsx:374-498 | `event` verbatim or "Event", `date` verbatim or the fallback date, and a grid of zeros before the first tick |
| Countdown.CountdownDefaults | app/api/render/route.tsx:375-376 | with only the type given: "Event", the fallback date, default styling |
| Countdown.EmptyEventParamsAreMissing | app/api/render/route.tsx:375-376 | an empty `event` or `date` renders exactly as a missing one |
| Route.ParseWidgetType | app/api/render/route.tsx:504-507 | a widget kind exactly for "clock", "weather", "countdown", none for a missing or other value |
| Route.Dispatch | app/api/render/route.tsx:517-527 | each kind yields its own page, holding exactly that generator's document for the query |
| Route.Handle | app/api/render/route.tsx:501-538 | 400 with the plain-text message iff the type is invalid; else 200 with exactly the four embedding headers and the matching generator's document |
| Route.RejectionIgnoresOtherParams | app/api/render/route.tsx:507-512 | all rejected requests get the identical response, so no generator contributes |
| Route.MissingOrEmptyTypeRejected | app/api/render/route.tsx:507 | a missing or empty `type` is rejected |
| Route.SuccessIsEmbeddable | app/api/render/route.tsx:530-537 | every 200 response allows framing and any origin and is served as UTF-8 HTML |
| Route.DefaultDateOnlyForCountdown | app/api/render/route.tsx:376 | only a countdown request depends on the fallback date |

## Left out

- The HTML and CSS template text: documents are records of the values and flags they carry, not strings.
- Escaping: query values are interpolated into HTML and script text unescaped. The model assumes they do not break that syntax. A `forecast` value that is a script string literal evaluating to "3day" (written with an escape sequence) would also enable the grid; this is not modelled.
- DOM writes and the `setInterval` timers with their periods (1 s for clock and countdown, 30 min for weather). `Countdown.Run` takes the ticks as a sequence of distances, with no timing.
- The weather script's `try`/`catch`: with fixed demo data nothing in it can throw. The "Loading weather data..." placeholder is also left out: the weather record shows the content after the script has run.
- The commented-out weather API call: it is a comment and does nothing.
- Timezone conversion and `toLocaleString`/`toLocaleTimeString`/`toLocaleDateString` formatting: the clock takes the hour, minute and second as a `TimeOfDay`, and the timezone is carried as an unchecked string.
- Date parsing of `"<date>T00:00:00"` and the countdown's event-date line: the countdown takes the distance in milliseconds per tick. An unparseable date gives a NaN distance in the source, and the grid then shows "NaN". This case is not modelled.
- The fallback date `new Date(Date.now() + 86400000).toISOString().split("T")[0]`: it depends on the wall clock and on ISO formatting, so it is the parameter `defaultDate`.
- JavaScript numbers are doubles. The model uses unbounded integers; the angles and millisecond counts involved are exact in a double.
- The 500 path with `console.error`, and the `NextRequest`/`URL`/`Response` plumbing. The query is a map from key to its first value, with URL decoding left out.
- lib/timezones.ts: a static label table the renderer never consults.
