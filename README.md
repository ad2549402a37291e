# Weather calculations server: a Dafny model

This project models the calculation core of the weather calculations MCP server
(`examples/weather_calculations_server.py`). That core has two parts:

- the ten stateless tool handlers: temperature conversion both ways, heat index
  (Rothfusz regression with the two NWS humidity adjustments), NWS wind chill, Magnus dew
  point, barometric sea-level pressure, the composite "feels like", sunrise/sunset with
  polar day/night detection, UV index from solar elevation, and Tetens saturation vapour
  pressure;
- the static catalogue of ten tool descriptors that `_register_tools` registers.

The formulas run in floating point. The model works over exact `real`s and proves the logic
around the formulas: which branch is taken, the error cases, the risk and comfort bands, the
UV clamp, the unit conversions, the three-way choice in "feels like", and the three outcomes of
sunrise/sunset.

How it is laid out:

- `Numerics.dfy` (module `Numerics`) holds the numeric library the handlers call: `exp`,
  `log`, `sqrt`, `sin`, `cos`, `tan`, `asin`, `acos`, `x ** e` and Python's `round`. Each is a
  field of a `Numerics` record that every calculation takes as a parameter, and nothing is
  assumed about them. A lemma that needs a fact about one of them asks for exactly that fact
  through a named predicate. Examples: `SqrtNonNegative`, `AcosInRange` (values in [0, `math.pi`]),
  `ExpAroundZero`, and `WindPowerBound` (`v ** 0.16 >= 1.19` from 3 mph up). `math.pi` is the
  constant `Pi`, written out as the exact value of that double, and `int()` on a float is `Trunc` (truncation toward zero).
- `WeatherCalculations.dfy` (module `WeatherCalculations`) holds one function per handler.
  Each returns a record of the exact values and labels. The record's `Rounded` member applies
  the `round(..., digits)` that the tool output uses. When Python would raise
  `ZeroDivisionError`, or `ValueError` for `math.log` at a humidity ≤ 0, the function returns
  `Err` of a `Result`.
- `ToolCatalogue.dfy` (module `ToolCatalogue`) holds the descriptor list as a constant
  sequence. Each descriptor has its name, handler, description, typed properties (with the
  UV tool's defaults) and required names.

"Feels like" is modelled as the code composes it. The heat-index and wind-chill branches read
back the nested tool's output after `json.loads`, which is the value already rounded to one
decimal. The Celsius output is then converted from that Fahrenheit value. The
apparent-temperature branch adds corrections sized for Celsius to the Fahrenheit temperature;
the model keeps this as written.

The code's comment equates 4.8 km/h with 3 mph, but 3 mph is 3 / 0.621371 ≈ 4.828 km/h. For winds
between the two, at or below 10 °C (50 °F), "feels like" chooses the wind-chill method, yet the nested wind chill is
inapplicable and returns the air temperature (`FeelsLikeWindChillGap`).

## Model

| member | source | states |
|---|---|---|
| `Numerics.Trunc` | examples/weather_calculations_server.py:527-528 | `int()` of a float truncates toward zero: the result's magnitude is the input's magnitude rounded down, and it keeps the input's sign |
| `WeatherCalculations.CelsiusToFahrenheit` | examples/weather_calculations_server.py:267 | converting Celsius to Fahrenheit and back with `(f - 32) * 5/9` returns the original temperature |
| `WeatherCalculations.ConversionsAreInverse` | examples/weather_calculations_server.py:265-291 | the two conversions are exact inverses in both orders and preserve the order of temperatures |
| `WeatherCalculations.FahrenheitToCelsius` | examples/weather_calculations_server.py:279-291 | the handler's `(f - 32) * 5/9` is undone by the Celsius-to-Fahrenheit formula, and a temperature below freezing in Fahrenheit is below 0 in Celsius; the reported value is this rounded to 2 digits (`FahrenheitToCelsiusReport`) |
| `WeatherCalculations.HeatRiskBand` | examples/weather_calculations_server.py:323-333 | the heat risk label's band is the number of the thresholds 80, 90, 105 and 130 that the heat index has reached |
| `WeatherCalculations.HeatIndex` | examples/weather_calculations_server.py:293-345 | the handler's result (before the output rounding of `Rounded`): the risk label is the band of the heat index reported beside it, and below 80°F the heat index is the temperature itself; further properties in `HeatIndexBelowEighty`, `HeatIndexAdjustmentDirection`, `HeatRiskMonotone` |
| `WeatherCalculations.HeatIndexBelowEighty` | examples/weather_calculations_server.py:299-300 | below 80°F the heat index is exactly the temperature and the label is "No risk" |
| `WeatherCalculations.HeatIndexAdjustmentsExclusive` | examples/weather_calculations_server.py:312-319 | the low- and high-humidity adjustments never both apply, and the low-humidity guard keeps the square root's argument in [0, 1] |
| `WeatherCalculations.HeatIndexAdjustmentDirection` | examples/weather_calculations_server.py:301-321 | from 80°F up the heat index is the regression lowered by the low-humidity adjustment, raised by the high-humidity one, or the regression unchanged |
| `WeatherCalculations.HeatRiskMonotone` | examples/weather_calculations_server.py:323-333 | a higher heat index never gets a milder risk label |
| `WeatherCalculations.WindChillSeverity` | examples/weather_calculations_server.py:366-373 | the wind chill risk band counts the thresholds 16, -15 and -35 that the wind chill is at or below |
| `WeatherCalculations.WindChill` | examples/weather_calculations_server.py:347-387 | the handler's result: when applicable the value is the NWS formula and the label is the band of that value; applicability and the inapplicable result are in `WindChillApplicability`, the direction in `WindChillBelowAirTemperature` |
| `WeatherCalculations.WindChillApplicability` | examples/weather_calculations_server.py:352-373 | the result is applicable exactly when T ≤ 50°F and V ≥ 3 mph; otherwise the value is T and the label is "Not applicable"; an applicable result carries one of the four risk labels |
| `WeatherCalculations.WindChillBelowAirTemperature` | examples/weather_calculations_server.py:355-361 | where the formula applies (and `v ** 0.16 >= 1.19` from 3 mph up), the wind chill is colder than the air |
| `WeatherCalculations.WindChillRiskMonotone` | examples/weather_calculations_server.py:363-373 | a colder wind chill never gets a milder risk label |
| `WeatherCalculations.DewComfortBand` | examples/weather_calculations_server.py:403-415 | the comfort band is the number of the thresholds 50, 55, 60, 65 and 70°F that the dew point has reached |
| `WeatherCalculations.DewPoint` | examples/weather_calculations_server.py:389-428 | the handler's result: it succeeds only for humidity above 0 and T ≠ -237.7°C, reports the Fahrenheit value as the conversion of the Celsius one, and labels it with the comfort band of the Fahrenheit value; the exact error cases are in `DewPointErrors` |
| `WeatherCalculations.DewPointErrors` | examples/weather_calculations_server.py:398-400 | the calculation fails with a division by zero exactly at T = -237.7 or when alpha equals 17.27, and with a domain error exactly when the humidity is ≤ 0 (when the first division is defined) |
| `WeatherCalculations.DewPointAtSaturation` | examples/weather_calculations_server.py:394-400 | at 100 % humidity (given log 1 = 0) the dew point equals the air temperature |
| `WeatherCalculations.DewPointNotAboveTemperature` | examples/weather_calculations_server.py:394-400 | for humidity in (0, 100] and T above -237.7°C the calculation succeeds and the dew point is at most the air temperature |
| `WeatherCalculations.DewComfortInCelsius` | examples/weather_calculations_server.py:402-415 | the comfort label decided in Fahrenheit is the band of the Celsius dew point against 10, 115/9, 140/9, 165/9 and 190/9 °C; a higher dew point is never more comfortable |
| `WeatherCalculations.SeaLevelPressureDirection` | examples/weather_calculations_server.py:430-451 | the reduction fails only at -273.15°C; at altitude 0 it returns the station pressure and a difference of 0; for a temperature above -273.15°C and a non-negative reading, above sea level it never lowers the reading and below sea level it never raises it (below -273.15°C the exponent changes sign and so does the direction) |
| `WeatherCalculations.PressureAltitudeToSeaLevel` | examples/weather_calculations_server.py:430-454 | the handler's result: it fails exactly at -273.15°C (a zero Kelvin temperature divides by zero), and the reported difference is the sea-level pressure less the reading; the direction of the change is in `SeaLevelPressureDirection` |
| `WeatherCalculations.FeelsLikeMethodChoice` | examples/weather_calculations_server.py:456-482 | exactly one method is chosen: heat index from 80/3 °C up; otherwise wind chill at ≤ 10°C with wind ≥ 4.8 km/h; otherwise the apparent temperature, which fails only at -237.7°C; the Celsius output converts the Fahrenheit output |
| `WeatherCalculations.FeelsLike` | examples/weather_calculations_server.py:456-496 | the handler's result: it fails only at -237.7°C, and the Celsius output converts back to the Fahrenheit output; the choice of method is in `FeelsLikeMethodChoice` |
| `WeatherCalculations.FeelsLikeWindChillGap` | examples/weather_calculations_server.py:470-476 | at or below 10 °C (50 °F), for winds in [4.8, 3 / 0.621371) km/h the wind-chill method is chosen, but the result is the rounded air temperature |
| `WeatherCalculations.DecimalToTimeAsWritten` | examples/weather_calculations_server.py:526-529 | hours are always 0..23 (floored `% 24`); minutes lie strictly between -60 and 60, take the sign of the decimal hour (≥ 0 for a non-negative one, ≤ 0 for a non-positive one), and are the truncated total minutes less 60 per truncated hour |
| `WeatherCalculations.TruncatedMinutes` | examples/weather_calculations_server.py:527-528 | the minutes left after truncating the hour equal the truncated total minutes less 60 for each truncated hour, on either sign |
| `WeatherCalculations.DecimalToTime` | examples/weather_calculations_server.py:526-529 | with floor in place of truncation: hours 0..23, minutes 0..59, and hours·60 + minutes is the decimal hour's minute of the day |
| `WeatherCalculations.DecimalToTimeAgrees` | examples/weather_calculations_server.py:526-529 | for a non-negative decimal hour the written and the floored conversions agree |
| `WeatherCalculations.DecimalToTimeDiffersBelowZero` | examples/weather_calculations_server.py:526-529 | for every negative decimal hour whose written conversion has non-zero minutes, those minutes are negative and the written conversion differs from the floored time of day |
| `WeatherCalculations.SunConditionBands` | examples/weather_calculations_server.py:505-519 | polar day exactly when the hour-angle argument is < -1, polar night exactly when it is > 1, normal otherwise |
| `WeatherCalculations.SunEvents` | examples/weather_calculations_server.py:498-523 | the decimal-hour sunrise and sunset: a normal day exactly when the hour-angle argument is within [-1, 1], and then the two are symmetric about solar noon 12 - longitude/15 |
| `WeatherCalculations.SunriseSunset` | examples/weather_calculations_server.py:498-546 | the handler's result, with the floored time conversion in place of the truncating one (see Findings): the same condition as `SunEvents`, and on a normal day both times are valid clock readings (hours 0..23, minutes 0..59) |
| `WeatherCalculations.NormalDayShape` | examples/weather_calculations_server.py:517-523 | on a normal day (given `acos` in [0, `math.pi`] on [-1, 1], `Pi` being the exact value of `math.pi`) the hour angle is in [0, 12], sunrise ≤ sunset ≤ sunrise + 24, and their mean is 12 - longitude/15 |
| `WeatherCalculations.HourAngleAtEdges` | examples/weather_calculations_server.py:519 | with `acos(-1)` = `math.pi` and `acos(1)` = 0, the half-day is 12 h at the edge of polar day and 0 h at the edge of polar night |
| `WeatherCalculations.NegativeSunriseAsWritten` | examples/weather_calculations_server.py:517-532 | given `tan(0)` = 0 and `acos(0)` = `math.pi` / 2, at latitude 0, longitude 95 the sunrise falls at -1/3 h; over exact reals the written conversion gives 00:-20 (in double precision 00:-19) and the floored one gives 23:40 |
| `WeatherCalculations.UvBand` | examples/weather_calculations_server.py:568-583 | the UV risk band counts the thresholds 3, 6, 8 and 11 that the index has reached; the label and the protection advice come from the same band |
| `WeatherCalculations.UvIndexValue` | examples/weather_calculations_server.py:550-566 | the index is always within [0, 11] and is 0 when the elevation is ≤ 0 |
| `WeatherCalculations.UvIndexFromSolarElevation` | examples/weather_calculations_server.py:548-597 | the handler's result: the index is within [0, 11], and the risk label and the protection advice are both those of the index's band |
| `WeatherCalculations.UvIndexWithDefaults` | examples/weather_calculations_server.py:548-566 | called with the default ozone (300) and cloud cover (0), the handler attenuates nothing: above the horizon the index is `11 * sin(elevation)` clamped to [0, 11] |
| `WeatherCalculations.UvIndexBounds` | examples/weather_calculations_server.py:552-583 | at or below the horizon the result is 0, "Low", "Minimal protection required" whatever the ozone and cloud; "Extreme" is reported exactly when the index is 11 |
| `WeatherCalculations.UvOzoneFloor` | examples/weather_calculations_server.py:560 | an ozone thickness below 100 Dobson units gives the same result as 100 |
| `WeatherCalculations.UvAttenuationMonotone` | examples/weather_calculations_server.py:557-566 | for elevations up to 180° and cloud cover in [0, 100] %, thicker ozone or more cloud never raises the index |
| `WeatherCalculations.AttenuatedUvMonotone` | examples/weather_calculations_server.py:557-565 | before the clamp, for the sun above the horizon up to 180° and cloud cover in [0, 100] %, thicker ozone or more cloud never raises the index |
| `WeatherCalculations.SaturationVapourPressurePhases` | examples/weather_calculations_server.py:599-615 | the water constants apply exactly from 0°C up and the ice constants below; the only failure is at -265.5°C; Pa is 100× and mmHg 0.750062× the hPa value; a positive `exp` gives a positive pressure; at 0°C the pressure is 6.1078 hPa |
| `WeatherCalculations.SaturationVapourPressure` | examples/weather_calculations_server.py:599-629 | the handler's result: it fails exactly at -265.5°C, and otherwise reports one pressure in hPa, Pa and mmHg with the water phase exactly from 0°C up |
| `ToolCatalogue.CatalogueWellFormed` | examples/weather_calculations_server.py:53-259 | ten descriptors with distinct names and distinct handlers, each with distinct property names, every required name declared, and defaults only on optional properties |
| `ToolCatalogue.ToolNamesDistinct` | examples/weather_calculations_server.py:53-250 | no two descriptors share a name |
| `ToolCatalogue.HandlersDistinct` | examples/weather_calculations_server.py:53-250 | no two descriptors share a handler |
| `ToolCatalogue.ToolWellFormed` | examples/weather_calculations_server.py:53-250 | every descriptor in the list (each transcribed from its block of lines 54-249) is well formed: distinct property names, distinct required names that are all declared, no default on a required property |
| `ToolCatalogue.UvDefaultsMatchHandler` | examples/weather_calculations_server.py:221-232 | the UV tool advertises the defaults ozone 300 and cloud 0, which are the handler's own defaults (line 548) |

## Left out

- Floating point: all values are exact reals. IEEE rounding inside the formulas is not modelled. `OverflowError` from `math.exp` on huge arguments is not modelled either.
- The numeric library: `exp`, `log`, `sqrt`, the trigonometric functions, `x ** 0.16` and `round` are parameters with no fixed values. Only the facts each lemma names are assumed about them. The `asin` domain error cannot occur because `0.39795 * cos(..)` stays within [-1, 1], and that fact is not stated.
- JSON: the handlers return records, not `json.dumps` strings. The input echo and the `formula`/`note` texts are not modelled. The two-digit `HH:MM` string formatting of the times is not modelled; times are `ClockTime` pairs.
- `SunriseSunset`: it uses the floored time conversion (see Findings), not the truncating one the code has. The code's behaviour is kept in `DecimalToTimeAsWritten`.
- `_register_tools`: the loop that calls the inherited `register_tool` is not modelled, because the base server's registry is not part of this model. The catalogue is the constant list the loop walks.
- The base server (`BaseMCPServer`, `register_tool`, dispatch, transports, `main`), `ServerConfig` and `WeatherCalculationsServerConfig`: these are not part of this model, and the config class only sets keyword defaults.
- The HTTP and stdio clients, the benchmark, the debug scripts, the test fixtures and the package `__init__`: these are network, subprocess, timing and import glue around the server.

## Findings

| source | as written | input that shows it | evidently intended | confidence | as-written member | corrected member |
|---|---|---|---|---|---|---|
| examples/weather_calculations_server.py:526-529 | `int()` truncates toward zero, so a negative decimal hour keeps its whole hour and gets negative minutes | latitude 0, longitude 95 (any day): sunrise at -1/3 h UTC is printed with negative minutes, `00:-19` in double precision (`00:-20` over exact reals) | the time of day modulo 24 h, here 23:40 | high; not executed | `WeatherCalculations.DecimalToTimeAsWritten` | `WeatherCalculations.DecimalToTime` |
