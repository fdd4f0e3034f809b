# WeatherNow: a Dafny model of the search-and-weather component

The widget is one React component, `App` in `src/App.jsx`. The user types a city
name. After 400 ms without typing, the component asks the Open-Meteo geocoding
service for matching cities and lists them in a dropdown. Clicking one fetches
the current weather for its coordinates. The page then shows an emoji and a
background photograph chosen from the WMO weather code. The background also
depends on the time of day, detected once when the component mounts.

The model has three parts:

- **Pure classifiers** (`Theme`): hour to time of day, weather code and time of
  day to background, weather code to emoji. Images and emoji are enumerations;
  `Theme.Glyph` gives each emoji's exact code points.
- **The component state** (`WeatherApp.App`): a class whose fields are the seven
  `useState` variables. Three more fields hold what the effects leave behind:
  - the single debounce timer slot (the text its callback captured);
  - the geocoding requests sent and not yet answered;
  - the forecast requests sent and not yet answered.

  Each event is one method. Network outcomes are method parameters. Field frames
  (`modifies this`field`) state which fields an event may change; everything else
  is unchanged. `Render` is the page as a pure function of the state.
- **Debounce over many changes** (`Debounce`) and event-sequence scenarios
  (`Scenarios`).

`JsString.JsLength` models JavaScript's `length`, which counts UTF-16 code units.
So a single character outside the Basic Multilingual Plane counts as two
and passes the two-character guard.

Behaviour of the code worth noting:

- **Stale lookups.** A geocoding answer is applied whenever it arrives. There is
  no check that it belongs to the current query (`Scenarios.LateLookupWins`).
  The only guard is the cancelled timer.
- **HTTP error statuses.** `fetch` does not fail on a non-2xx status. A non-2xx
  geocoding answer whose body is a JSON object without a `results` field is
  treated as a success without results: the suggestions become empty and the
  dropdown opens. The caller expresses this as `LookupSucceeded(q, None)`. A
  body that is not JSON, or is JSON `null`, makes line 42 or 43 throw, so it is
  a failure (`LookupFailed`).
- **Negative weather codes.** The WMO code table starts the partly-cloudy band
  at 1; the code's `code <= 3` branch also gives negative codes the
  sun-behind-cloud emoji.
- **The previous reading.** It is never cleared, neither while loading nor after
  a failed fetch. It is only hidden behind the loader.
- **Repeating the same text.** Setting the same query text again does not re-run
  the effect, since React compares dependencies. The slot is kept.

## Model

| member | source | states |
|---|---|---|
| `Theme.ClassifyHour` | src/App.jsx:22-29 | 5-11 is morning, 12-16 afternoon, 17-19 evening, every other hour night; the initial "day" is never produced |
| `Theme.HoursPartitionDay` | src/App.jsx:25-28 | each hour 0-23 gets exactly one of the four labels; night is exactly 20-23 and 0-4 |
| `Theme.WeatherImage` | src/App.jsx:72-86 | the exact preimage of each photograph: thunderstorm for >= 95, showers 80-94, rain 51-79, clear <= 3; evening or night photograph only for 4-50 at that time of day; daytime for 4-50 otherwise, including the initial "day" |
| `Theme.ImageIgnoresTimeOutsideMiddleBand` | src/App.jsx:72-80 | outside codes 4-50 the background does not depend on the time of day |
| `Theme.WeatherEmoji` | src/App.jsx:88-97 | the exact preimage of each of the eight emoji, with first-match overlaps resolved: sun only for 0, sun-behind-cloud for 1-3 and negatives, cloud for the gaps 4-44, 49-50, 68-70, 78-79, 83-94 |
| `Theme.EmojiAgreesWithImage` | src/App.jsx:72-97 | emoji and background name the same weather class: clear emoji with clear photo (both ways), thunder with thunderstorm (both ways), rain/snow with rain, showers with showers, fog with a time-of-day photo |
| `Theme.Glyph` | src/App.jsx:89-96 | every emoji is one pictograph followed by the emoji presentation selector U+FE0F |
| `Theme.GlyphInjective` | src/App.jsx:89-96 | different emoji render as different text |
| `JsString.JsLength` | src/App.jsx:33 | the UTF-16 length lies between the character count and twice it, and equals the character count exactly when no character is outside the Basic Multilingual Plane |
| `Debounce.IsShortQuery` | src/App.jsx:33 | the empty query is short; a short query has at most one character; a one-character query is short exactly when that character is in the Basic Multilingual Plane |
| `Debounce.Reschedule` | src/App.jsx:32-50 | one query change keeps the slot consistent with the text; a changed short text leaves no timer, a changed longer text leaves exactly one timer for itself, an unchanged text keeps the slot |
| `Debounce.AfterChanges` | src/App.jsx:32-50 | after the effect re-runs over successive changes, a scheduled timer is either the one scheduled before or one for a typed text that is not short |
| `Debounce.DebounceKeepsLatest` | src/App.jsx:37-49 | after any sequence of changes at most one timer is scheduled and it carries the latest text, which is not short; if the last change changed the text, a timer exists exactly when that text is not short |
| `WeatherApp.App.constructor` | src/App.jsx:13-19 | the initial values of the seven state variables, no timer, no request outstanding |
| `WeatherApp.App.DetectTimeOfDay` | src/App.jsx:22-29 | only `timeOfDay` changes, to the classification of the given hour |
| `WeatherApp.App.ChangeQuery` | src/App.jsx:32-50 | a new short text empties the suggestions and cancels the timer; a new longer text replaces the timer by one for itself and keeps the suggestions; the same text changes nothing; dropdown flag, error, weather and loader are never touched |
| `WeatherApp.App.FireTimer` | src/App.jsx:37-41 | the slot empties and exactly one geocoding request is sent, for the current query text; nothing else changes |
| `Options.Option.GetOr` | src/App.jsx:43 | the suggestions become `results` when present and the empty list when absent |
| `WeatherApp.App.LookupSucceeded` | src/App.jsx:42-44 | the suggestions become the results, or empty when absent, and the dropdown opens, for any outstanding query even if the text has changed since; error, weather and loader untouched |
| `WeatherApp.App.LookupFailed` | src/App.jsx:45-47 | the error becomes the cities-failed message; suggestions and dropdown flag unchanged |
| `WeatherApp.App.GetWeather` | src/App.jsx:53-60 | loader on, dropdown closed, error cleared, one forecast request sent for the given coordinates and name; the previous reading is kept but not displayed |
| `WeatherApp.App.SelectCity` | src/App.jsx:163-169 | a click on a listed suggestion sends one forecast request with that city's coordinates and name and closes the dropdown |
| `WeatherApp.App.WeatherArrived` | src/App.jsx:61-67 | loader off; with a payload the reading is replaced by it, tagged with the requested name, error untouched; without one the error becomes the no-data message and the reading stays |
| `WeatherApp.App.WeatherFailed` | src/App.jsx:64-67 | loader off and the error becomes the fetch-failed message; the reading stays |
| `WeatherApp.App.Render` | src/App.jsx:119-244 | exactly one of loader, weather panel and empty-state hint is shown; the dropdown lists the suggestions only when open and non-empty; the error region shows exactly the error text when it is not empty; the panel shows the reading, its name and its emoji; with no reading the background is the clear photograph |
| `Scenarios.LookUpLondon` | src/App.jsx:37-69 | typing, firing, choosing London and receiving code 2 shows London with the sun-behind-cloud emoji, closed dropdown and no error, after exactly one forecast request |
| `Scenarios.LateLookupWins` | src/App.jsx:37-46 | a geocoding answer for an older query that arrives last overwrites the suggestions for the newer query |
| `Scenarios.ShortQueryCancels` | src/App.jsx:32-49 | shortening to one character cancels the scheduled lookup; one astral character schedules one |
| `Scenarios.OverlappingForecasts` | src/App.jsx:53-68 | with two forecast requests answered in reverse order, the older one's reading is shown last, and the loader goes with the first answer while one request is outstanding |
| `Scenarios.MissingDataKeepsReading` | src/App.jsx:61-63 | a forecast without `current_weather` keeps the earlier reading on screen under the no-data message |

## Left out

- Network I/O: the `fetch` calls, URL construction (including `count=5`), `res.json()` and the JSON payload shapes. Responses are method parameters: optional city list, optional current-weather record, or failure.
- A `results` or `current_weather` value that is present but not a list or an object. Only present and absent are modelled.
- Real timers (`setTimeout`, `clearTimeout`, the 400 ms delay). Modelled as one slot that a change overwrites or clears and that `FireTimer` consumes. The caller decides when the timer fires.
- The timer cleanup on unmount. The model has no unmount.
- The wall clock (`new Date().getHours()`). The hour is a parameter of `DetectTimeOfDay`.
- Floating point: temperature, wind speed and wind direction are passed through as `real`. `Math.round` and the displayed numbers are not modelled.
- Fields of `current_weather` other than the four shown (for example `time`, `is_day`). The spread copies them, but nothing reads them.
- JavaScript strings with lone surrogates. Dafny strings hold Unicode scalar values only.
- Seeing a dropdown entry's text. `Render` lists only the `City` values, not the "name, country" label.
- JSX layout, framer-motion animations, lucide icons, Tailwind classes, `FloatingClouds` and the Unsplash URLs. These are presentation; images are an enumeration.
- tailwind.config.js. It holds styling configuration and no logic.
- A staleness guard for responses. The code does not have one, so none is modelled.
