# weather-app in Dafny

A model of the logic of the weather app (a React page that looks up the current weather
for a place picked in a Google Places autocomplete box), with proofs about it.

- `js.dfy` (module `Js`): the JavaScript built-ins the helpers use — `null`/`undefined`
  as `Option`, `Number.prototype.toString()` on non-negative integers below 10^21 (from
  10^21 on it writes exponent form; the app uses it only below 100),
  `String.prototype.padStart` with a one-character pad, and `length`, which counts
  UTF-16 code units. A Dafny string holds Unicode scalar values, so a character above
  U+FFFF is one element of it and two code units of `length` (`Js.Utf16Length`).
- `clock.dfy` (module `Clock`): `convertTimestamptoTime(unixTimestamp, timezone)`, which
  shifts a UNIX time by a UTC offset and writes the wall-clock time as `HH:MM:SS`. The
  `Date` getters are modelled on the millisecond time value as ECMA-262 defines them
  (section 21.4.1, HourFromTime, MinFromTime, SecFromTime), so negative instants
  floor. A time value beyond 8.64e15 ms is an invalid `Date`, and the result is then
  `NaN:NaN:NaN`. App.jsx defines a copy of this function that is character for
  character the same (src/App.jsx:12-26); the model defines it once and the page uses it.
- `font_size.dfy` (module `FontSize`): `getDynamicFontSize(str)` of
  src/getDynamicFontSize.js, three sizes chosen by `str.length`, the name's length in
  UTF-16 code units.
- `app.dfy` (module `App`): the component in src/App.jsx.
  - Pure parts: `getAddressComponent`, the component's own font-size heuristic
    (48/36/24px, cut-offs 10 and 18), and the choice of what the page shows.
  - State: a `Ui` record holds the component's state, and pure transition functions
    give what each handler does to it. The class `WeatherApp` holds the same fields.
    Each of its methods performs a handler's setter calls in the source's order and is
    proved to reach the state the transition function gives.
  - Fetch: `fetchWeatherData` is split in two. The handler that starts a request
    returns a `WeatherRequest`. `ReceiveWeather` is the `.then`/`.catch` continuation
    that runs when the outcome arrives. The request carries the `weather.name` that the
    starting handler could see, because that stale value is what the continuation
    compares with (src/App.jsx:138). The `place_changed` listener is registered once, in
    the render where the widget loaded (src/App.jsx:55-59). No request can start before
    then, so that render's weather is `{}`, and every request the listener starts carries
    no name: its answer is recorded as the last search unless it is the not-found
    answer or the request fails (`App.PlaceSelectedUnrecordedOnError`).

Four behaviours of the source are modelled as written:

- `processLocation` ignores the name handed to it. Its `searchLocation` is never read.
  So clicking "Last searched" puts the name in the input box and then searches for
  whatever place the autocomplete widget holds.
- `handleKeyDown` (src/App.jsx:61-68) is defined but attached to no element. Pressing
  Enter in the input box submits the form (src/App.jsx:195), which runs
  `processLocation`. `App.KeyPressed` and `App.WeatherApp.HandleKeyDown` model the
  function as written.
- `handlePlaceChanged` (src/App.jsx:70-88) neither shows the spinner nor clears the
  error, and a successful answer leaves the error as it was (src/App.jsx:137-145). Picking
  a place in the widget is the usual way to search. So after an error, for instance
  "Location was not found!" from submitting typed text, every place picked still ends on
  that error once its weather arrives, until `processLocation` runs (Search, Enter in
  the input box or the "Last searched" link) or a pick is answered not-found or fails
  (`App.PlaceSelectedKeepsError`). While a pick's request is in flight, the pane already
  shows the new name, state and country over the previous place's weather
  (`App.PlaceSelectedShowsOldWeather`).
- The test for "Koło" in src/getDynamicFontSize.test.js expects `48px`. The standalone
  function gives `44px`, as `FontSize.FontSizeExampleKolo` shows. `48px` is what App.jsx's
  own variant gives, as `App.InlineFontSizeExampleKolo` shows.

## Model

| member | source | states |
|---|---|---|
| `Clock.ConvertTimestampToTime` | src/convertTimestampToTime.js:1-15 | out of the `Date` range the result is `NaN:NaN:NaN`; within it, eight characters with colons at positions 2 and 5 |
| `Clock.UtcHours` | src/convertTimestampToTime.js:3 | `getUTCHours()` of a valid time value, floored for negative instants, is below 24 |
| `Clock.UtcMinutes` | src/convertTimestampToTime.js:4 | `getUTCMinutes()` is below 60 |
| `Clock.UtcSeconds` | src/convertTimestampToTime.js:5 | `getUTCSeconds()` is below 60 |
| `Clock.ConvertAsWritten` | src/convertTimestampToTime.js:7-12 | within the `Date` range the result is the three getters, each written with `toString().padStart(2, "0")`, joined by colons |
| `Js.DecimalString` | src/convertTimestampToTime.js:8 | `toString()` of an integer below 10^21 is non-empty decimal digits, one digit exactly below 10, with no leading zero except for 0 |
| `Js.DecimalRoundTrip` | src/convertTimestampToTime.js:8 | reading back what `toString()` wrote gives the number |
| `Clock.ConvertIsClockText` | src/convertTimestampToTime.js:1-13 | within the `Date` range the result is the `HH:MM:SS` text of second `(t + tz) mod 86400` of the day |
| `Clock.GettersOfSecondOfDay` | src/convertTimestampToTime.js:2-5 | `getUTCHours`, `getUTCMinutes` and `getUTCSeconds` of `x * 1000` ms are the hours, minutes and seconds of second `x mod 86400` of the day, negative `x` included |
| `Js.PadStart` | src/convertTimestampToTime.js:8-12 | `padStart` gives a string as long as the longer of `s` and `targetLength` that ends with `s` and is `fill` before it; for the formatter's fields `Js.TwoDigitField` gives its contents |
| `Js.TwoDigitField` | src/convertTimestampToTime.js:7-12 | `n.toString().padStart(2, "0")` of a getter's result, a number below 100, is its two decimal digits, with a leading zero below 10 |
| `Clock.ConvertOutOfRange` | src/convertTimestampToTime.js:2-12 | beyond the `Date` range the result is `NaN:NaN:NaN` |
| `Clock.ConvertShape` | src/convertTimestampToTime.js:2-12 | every valid result has length 8 and shape `DD:DD:DD`, with hours 0..23 and minutes and seconds 0..59 |
| `Clock.ParseConvertRoundTrip` | src/convertTimestampToTime.js:2-12 | reading the result back as `HH*3600 + MM*60 + SS` gives `(t + tz) mod 86400` |
| `Clock.ConvertParseRoundTrip` | src/convertTimestampToTime.js:7-12 | every well-formed `HH:MM:SS` text is what the formatter writes, at offset 0, for the second it denotes |
| `Clock.DependsOnlyOnSum` | src/convertTimestampToTime.js:2 | `f(t, tz) == f(t + tz, 0)` |
| `Clock.ConvertPeriodic` | src/convertTimestampToTime.js:2-5 | `f(t + 86400, tz) == f(t, tz)` |
| `Clock.OffsetHourLater` | src/convertTimestampToTime.test.js:7-13 | one more hour of offset moves the hours field on by one, modulo 24, and leaves minutes and seconds unchanged |
| `Clock.ConvertExampleUtc` | src/convertTimestampToTime.test.js:3-5 | `f(1621620000, 0) == "18:00:00"` |
| `Clock.ConvertExampleHourAdded` | src/convertTimestampToTime.test.js:7-9 | `f(1621620000, 3600) == "19:00:00"` |
| `Clock.ConvertExampleHourSubtracted` | src/convertTimestampToTime.test.js:11-13 | `f(1621620000, -3600) == "17:00:00"` |
| `FontSize.Px` | src/getDynamicFontSize.js:7 | the template literal `${size}px` is a pixel length that reads back as `size` |
| `Js.Utf16Length` | src/getDynamicFontSize.js:6 | `str.length` counts one or two code units per character, so it lies between the number of characters and twice that |
| `Js.BmpLength` | src/getDynamicFontSize.js:6 | `str.length` equals the number of characters when none lies above U+FFFF |
| `Js.Utf16LengthAstral` | src/getDynamicFontSize.js:6 | every character above U+FFFF counts two in `str.length`; one emoji is one character but length 2 |
| `FontSize.GetDynamicFontSize` | src/getDynamicFontSize.js:1-13 | `str.length` below 9 gives `44px`, 9 to 15 gives `36px`, above 15 gives `24px` |
| `FontSize.FontSizeIsOneOfThree` | src/getDynamicFontSize.js:2-12 | the result is always `44px`, `36px` or `24px`, a pixel length of 24, 36 or 44 |
| `FontSize.FontSizeDependsOnlyOnLength` | src/getDynamicFontSize.js:6-12 | names of equal length get the same size |
| `FontSize.FontSizeMonotone` | src/getDynamicFontSize.js:6-12 | a longer name never gets a larger size |
| `FontSize.FontSizeBoundaries` | src/getDynamicFontSize.js:6-11 | lengths 8, 9, 15 and 16 sit on the sides of the cut-offs as `<` and `<=` place them |
| `FontSize.FontSizeExampleOuagadougou` | src/getDynamicFontSize.test.js:3-5 | "Ouagadougou" gets `36px` |
| `FontSize.FontSizeExampleSantaEulalia` | src/getDynamicFontSize.test.js:11-13 | "Santa Eulàlia de Ronçana" gets `24px` |
| `FontSize.FontSizeCountsCodeUnits` | src/getDynamicFontSize.js:6-12 | eight emoji, 16 code units, get `24px` |
| `FontSize.FontSizeExampleKolo` | src/getDynamicFontSize.js:4 | "Koło" gets `44px` from this function, not the `48px` the test expects |
| `App.GetAddressComponent` | src/App.jsx:28-31 | the `long_name` of the first component whose types include the kind, or `""` when none does (also for no components) |
| `App.InlineFontSize` | src/App.jsx:177-189 | `str.length` up to 10 gives `48px`, 11 to 18 gives `36px`, above 18 gives `24px` |
| `App.InlineFontSizeExampleKolo` | src/getDynamicFontSize.test.js:7-9 | "Koło" gets `48px` from the component's own heuristic |
| `App.FontSizeVariantsDisagree` | src/App.jsx:177-189 | the two heuristics differ exactly on lengths up to 10 and 16 to 18 |
| `App.InlineFontSizeMonotone` | src/App.jsx:182-188 | a longer name never gets a larger size from the inline heuristic |
| `App.StoredOrEmpty` | src/App.jsx:48-50 | a stored non-empty name is used as is; a non-empty result was stored |
| `App.Initial` | src/App.jsx:41-51 | the page starts not loading, with no error, `{}` as weather, empty location, state, country and input, the widget not loaded, and `lastSearched` read from storage |
| `App.Searched` | src/App.jsx:90-125 | `processLocation` always clears location and weather; it starts a request iff the widget has loaded and the place has geometry, and then it is loading with no error, the input cleared and the place's state and country shown; otherwise it stops not loading, with "Autocomplete not initialized" or "Location was not found!" |
| `App.PlaceChanged` | src/App.jsx:70-88 | for a place with geometry, shows its name, state and country and starts a request for its coordinates and name; otherwise changes nothing |
| `App.PlaceSelected` | src/App.jsx:55-59 | the `place_changed` listener runs `handlePlaceChanged` of the render where the widget loaded, so its requests carry no previous name |
| `App.KeyPressed` | src/App.jsx:61-68 | as written, Enter acts as the current render's `handlePlaceChanged` once the widget has loaded, and anything else changes nothing; the function is attached to no element |
| `App.LastSearchedClicked` | src/App.jsx:153-156 | puts the name in the input box and then runs `processLocation`, which searches the widget's place; on an early stop the name stays in the box |
| `App.IsNotFound` | src/App.jsx:133 | `data.cod === "404"` holds only for the text `"404"`, never for a numeric code or a missing one |
| `App.WeatherReceived` | src/App.jsx:132-150 | never leaves the spinner on and never touches state, country or the widget; not-found (`cod === "404"`) shows "<name> not found!" and empties the weather; another answer leaves the error as it was, replaces the weather, shows the requested name and records it as the last search, in memory and in storage, only when it differs from the name the starting handler saw; a failure shows the generic message |
| `App.IsTruthy` | src/App.jsx:236 | the `error ?` test: a truthy error is a non-empty message |
| `App.Render` | src/App.jsx:232-320 | priority spinner, then a truthy error, then the pane when the weather has `main`, then an empty paragraph; the pane shows the location in the inline font size, state, country, and the current time, sunset and sunrise written by the formatter |
| `App.LastSearchedLink` | src/App.jsx:215-229 | the "Last searched" link appears exactly when there is a last search, and names it |
| `App.InitialConsistent` | src/App.jsx:41-51 | the initial state is consistent |
| `App.SearchedConsistent` | src/App.jsx:90-125 | `processLocation` keeps the state consistent |
| `App.PlaceChangedConsistent` | src/App.jsx:70-88 | `handlePlaceChanged` keeps the state consistent |
| `App.WeatherReceivedConsistent` | src/App.jsx:132-150 | the fetch continuation keeps the state consistent |
| `App.ErrorShownIffSet` | src/App.jsx:236-237 | in a consistent state the error is shown exactly when one is set and nothing is loading |
| `App.SearchThenWeather` | src/App.jsx:90-151 | a search for a place with geometry shows the spinner; a weather answer with `main` then shows that place's pane with its state and country, and records it as the last search unless the weather shown before already bore its name |
| `App.SearchThenNotFound` | src/App.jsx:133-136 | a search answered with not-found ends showing "<name> not found!" |
| `App.SearchWithoutRequest` | src/App.jsx:117-124 | a search that starts no request ends showing an error |
| `App.PlaceSelectedRecordsName` | src/App.jsx:137-142 | a place picked in the widget is always recorded as the last search, in memory and in storage, once an answer other than not-found arrives |
| `App.PlaceSelectedUnrecordedOnError` | src/App.jsx:133-135 | a pick answered not-found, or whose request fails (src/App.jsx:147-150), leaves the last search as it was and ends on an error |
| `App.PlaceSelectedKeepsError` | src/App.jsx:70-88 | after an error, a place picked in the widget still ends on that error once its weather arrives |
| `App.PlaceSelectedShowsOldWeather` | src/App.jsx:70-88 | while a pick's request is in flight, the pane shows the new name and country over the previous weather |
| `App.WeatherShowsPane` | src/App.jsx:137-145 | after a weather answer with `main`, with no error set, the page shows the pane for the requested name in its font size |
| `App.WeatherApp.constructor` | src/App.jsx:41-51 | the mounted component's fields are the initial state |
| `App.WeatherApp.OnLoad` | src/App.jsx:173-175 | the widget is marked loaded and nothing else changes |
| `App.WeatherApp.OnInputChange` | src/App.jsx:208 | the input box holds the typed value and nothing else changes |
| `App.WeatherApp.ProcessLocation` | src/App.jsx:90-125 | the setter calls reach the state and request `Searched` gives, and keep the state consistent |
| `App.WeatherApp.HandlePlaceChanged` | src/App.jsx:70-88 | the setter calls reach the state and request `PlaceChanged` gives |
| `App.WeatherApp.OnPlaceChanged` | src/App.jsx:55-59 | the listener reaches the state and request `PlaceSelected` gives |
| `App.WeatherApp.HandleKeyDown` | src/App.jsx:61-68 | reaches the state and request `KeyPressed` gives |
| `App.WeatherApp.HandleLastSearchedClick` | src/App.jsx:153-156 | reaches the state and request `LastSearchedClicked` gives |
| `App.WeatherApp.ReceiveWeather` | src/App.jsx:127-151 | the continuation's setter calls reach the state `WeatherReceived` gives, and keep the state consistent |

"Consistent" means three things. While loading there is neither an error nor weather.
Every error is a non-empty message. `lastSearched` equals the stored copy, or `""` when
nothing is stored.

## Left out

- Rendering details are not modelled: the JSX layout, CSS classes, the `GoogleMap`, `Marker` and `Autocomplete` widgets, and the map styles (src/mapStyles.js is constant style data).
- `useJsApiLoader`, `useRef` and the `useEffect` that registers the `place_changed` listener are left out as framework plumbing. `getPlace()` becomes a parameter of each handler. Whether the widget has loaded is a field.
- `fetch` itself, the request URL with its API key, and JSON parsing are network I/O and are left out. A request's outcome is an input: a parsed response, or a failure.
- The response fields the pane shows through `Math.round` are left out: temperature, feels-like and coordinates (src/App.jsx:262-275). They are floating-point display.
- The conditions text and description and the icon path (src/App.jsx:256-261, 276-279) are strings copied from the response as they are; the pane does not model them. The pane keeps the place fields and the fields the formatter writes.
- `sessionStorage` is a field of the state: the stored `lastSearched` entry.
- Concurrency: two requests in flight may finish in either order, and each continuation is one atomic step taken whenever its outcome arrives. The one stale closure modelled is `weather.name`: each request carries the value its starting handler saw, which for the `place_changed` listener is always the initial `{}`.
- `preventDefault` on the form and key events has no effect on the state and is left out.
- Timestamps are integers. Fractional seconds from the weather service are not modelled.
- Lengths are counted in UTF-16 code units, as `str.length` counts them. Grapheme clusters are not considered.
- `Js.PadStart`: models `padStart` with a one-character pad only, the only form the source uses.
