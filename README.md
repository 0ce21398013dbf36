# Celestial Orrery Clock — verified model of its discrete logic

The clock is a browser page that shows the time as a small solar system:
bodies orbit a sun at angles given by the hour, minute and second, a
digital readout shows the same time as text, and a few controls switch the
readout between 12- and 24-hour form, open a settings panel and show the
local weather. The orbits, the scene and the rendering are floating-point
work done through a 3D library; this project models the integer-valued,
discrete part of `script.js` and proves its properties:

- `display.dfy` (module `Display`): the digital readout. The wall-clock
  hour is shown unchanged in 24-hour form and as `h % 12`, or 12 when that
  is 0, in 12-hour form. Each field is prefixed with `'0'` when below 10 and
  otherwise written as the number's own decimal text. The model proves the
  12-hour table, that every field of a real time is exactly two digits and
  reads back as its value, and that the format flag affects the hour field
  alone.
- `weather.dfy` (module `Weather`): the classification of a WMO
  present-weather code (code table 4677 of the WMO Manual on Codes,
  WMO-No. 306) into one of eight icons by a chain of inclusive ranges with
  a generic fallback. The chain is related to a table of bands. The model
  proves that the bands are pairwise disjoint, so that any order of the
  checks gives the same icon.
- `controls.dfy` (module `Controls`): the page's control state. The weather
  button flips `showWeather`, sets the weather panel's `hidden` class and
  starts a fetch only on the hidden-to-shown edge. The settings buttons add
  and remove the panel's `open` class. The format selector sets `is24Hour`
  to whether its value is `"24"`, and `is24Hour` defaults to true. A pure
  transition function `Step` over a `Ui` snapshot is the reference definition; the
  class `UiControls` holds the same state in fields, and each handler method
  is proved to move its state exactly as `Step` does. A ghost counter counts
  requested fetches.

Where the code and its own comments differ, the model follows the code.
The comment in `getWeatherIcon` lists drizzle as 51-55 and rain as 61-65.
The code shows rain for the whole of 51-67, which includes freezing drizzle
(56-57) and freezing rain (66-67). It gives rain showers (80-82) their own
icon, which the comment does not mention. Snow showers (85-86) get the
generic icon. The weather toggle is not idempotent: two clicks undo each
other, and the model proves what the code does. The code treats every
format value other than `"24"` as 12-hour form (script.js:374), and so does
the model.

## Model

| member | source | states |
|---|---|---|
| `Display.Decimal` | script.js:274-276 | a number assigned to a text field shows as at least one decimal digit, a single digit exactly for values below 10, and no leading zero otherwise |
| `Display.ParseDecimalOfDecimal` | script.js:274-276 | the decimal text of every natural number reads back as that number |
| `Display.Pad` | script.js:274-276 | a padded field is all digits; for a value below 100 it is exactly two characters, starting with '0' exactly when the value is below 10 |
| `Display.PadDigits` | script.js:274-276 | a value below 100 shows as its tens digit followed by its units digit |
| `Display.PadRoundTrip` | script.js:274-276 | reading a padded field back yields the value it was made from |
| `Display.PadInjective` | script.js:274-276 | two different values never produce the same field |
| `Display.DisplayHour` | script.js:266-272 | in 24-hour form the hour passes through unchanged; in 12-hour form the result is the value in 1..12 that is congruent to the hour modulo 12 |
| `Display.TwelveHourTable` | script.js:270-272 | in 12-hour form hours 0 and 12 show 12, hours 1..11 show as they are, and hours 13..23 show h-12 |
| `Display.TwentyFourHourRange` | script.js:266-272 | in 24-hour form a valid hour (0..23) stays in 0..23 |
| `Display.TwelveHourCollisions` | script.js:270-272 | two hours of the day show the same 12-hour value exactly when they are equal modulo 12 |
| `Display.DigitalReadout` | script.js:265-277 | the three fields are digit strings of at least two characters |
| `Display.ReadoutRoundTrip` | script.js:265-277 | for every hour in 0..23 and minute and second in 0..59, each field is exactly two digits and reads back as the displayed hour, the minute and the second |
| `Display.FormatOnlyAffectsHours` | script.js:267-276 | the minutes and seconds fields do not depend on the format flag |
| `Display.HourFieldAgrees` | script.js:270-274 | the hour field is the same in both formats exactly for hours 1..12 |
| `Display.ReadoutExamples` | script.js:265-277 | 14:05:09 shows "14" "05" "09" in 24-hour form and "02" "05" "09" in 12-hour form; midnight shows hour "12" in 12-hour form |
| `Weather.WeatherIcon` | script.js:345-362 | code 0 is clear, 1-3 partly cloudy, 45-48 fog, 51-67 rain, 71-77 snow, 80-82 showers and 95-99 thunderstorm, each in both directions; every other integer code gets the generic icon |
| `Weather.FirstMatch` | script.js:354-361 | the icon of an ordered band lookup is the generic icon or the icon of a band that covers the code |
| `Weather.FirstMatchIsAnyMatch` | script.js:354-360 | over disjoint bands, the lookup answers with the icon of any band that covers the code |
| `Weather.FirstMatchNoMatch` | script.js:361 | a code that no band covers gets the generic icon |
| `Weather.OrderIndependent` | script.js:354-360 | over disjoint bands, any reordering of the same bands classifies every code the same way |
| `Weather.BandsDisjoint` | script.js:354-360 | the seven guarded ranges of the chain are pairwise disjoint |
| `Weather.WeatherIconIsTable` | script.js:354-361 | the if-chain and the band table give the same icon for every code |
| `Weather.WeatherIconOrderIndependent` | script.js:354-361 | checking the seven ranges in any order would give the same icon for every code |
| `Weather.WeatherIconExamples` | script.js:354-361 | code 0 gives clear, 61 rain and 96 thunderstorm; 12, 85 and 100 give the generic icon |
| `Controls.Initial` | script.js:33 | on load the weather is not shown, the readout is in 24-hour form and nothing has been fetched; the panel classes are those of the page markup |
| `Controls.WeatherClickEffect` | script.js:296-304 | a weather click flips visibility; the panel is hidden exactly when the new value is false; a fetch is requested exactly when the new value is true; nothing else changes |
| `Controls.WeatherClickTwice` | script.js:296-304 | two weather clicks restore the original visibility, and exactly one of them requested a fetch |
| `Controls.SettingsIdempotent` | script.js:369-370 | opening leaves the settings panel open and closing leaves it closed; each is idempotent and changes nothing else |
| `Controls.FormatChangeEffect` | script.js:373-375 | a format change selects 24-hour form exactly when the chosen value is "24", and changes nothing else |
| `Controls.ClicksAppend` | script.js:296-297 | the weather clicks of two consecutive event sequences add up |
| `Controls.RunWeather` | script.js:295-304 | after any sequence of events the weather is shown exactly when an odd number of weather clicks toggled it, and one fetch was requested per hidden-to-shown edge |
| `Controls.InitialConsistent` | script.js:295-304 | a page whose weather panel starts hidden starts with the hidden class in agreement with the toggle |
| `Controls.RunConsistent` | script.js:296-304 | once the weather panel's hidden class agrees with the toggle, every event sequence keeps them in agreement |
| `Controls.RunFormatLast` | script.js:373-375 | after a sequence of events the format flag is set by the last format change in it |
| `Controls.RunFormatUnchanged` | script.js:373-375 | events other than format changes leave the format flag as it was |
| `Controls.UiControls.constructor` | script.js:295 | the handler state starts as the initial snapshot: weather not shown, 24-hour form, no fetch |
| `Controls.UiControls.ClickWeather` | script.js:296-304 | the weather handler moves the state as one weather click does, and reports a fetch request exactly when the weather becomes shown |
| `Controls.UiControls.OpenSettings` | script.js:369 | the settings button moves the state as one open event does |
| `Controls.UiControls.CloseSettings` | script.js:370 | the close button moves the state as one close event does |
| `Controls.UiControls.ChangeFormat` | script.js:373-375 | the format handler moves the state as one format change does |
| `Controls.UiControls.DigitalDisplay` | script.js:265-277 | with the current format flag, the readout of a valid time is three two-digit fields that read back as the displayed hour, the minute and the second |

## Left out

- Orbital angles, body positions, cumulative spin and the starfield's rotation (script.js:216-259): floating-point arithmetic with `Math.sin`, `Math.cos` and reads of the system clock.
- Scene construction (script.js:48-210): meshes, materials, textures, lights, orbit guides and the randomly placed starfield are calls into the 3D library.
- `fetchWeather` (script.js:307-343): geolocation, the HTTP request, JSON parsing, rounding of the temperature and the status texts are asynchronous I/O. Only the request to start a fetch is modelled, as the out-parameter of `ClickWeather` and the ghost fetch counter.
- Window resize, the orbit camera controls and the animation loop's rendering call (script.js:261-262, 279-284): renderer plumbing.
- The speed and bloom sliders (script.js:377-387): they store `parseFloat` of the slider text, a floating-point value consumed only by the spin and the bloom effect, which are out of scope.
- Writes to the page (`textContent`, `classList`): modelled as the produced strings and booleans.
- The initial `hidden` class of the weather panel and `open` class of the settings panel come from the page markup, which is not part of this model. They are parameters of `Initial` and of the `UiControls` constructor.
- `Weather.WeatherIcon`: takes an integer code; a weather code that is not an integer, or is missing from the response, is not modelled.
- `Display.DigitalReadout`: the hour, minute and second are natural numbers, as the date getters return them; the getters themselves and the clock read are not modelled.
