# GeoEssentials core logic in Dafny

GeoEssentials is an Android app. The user searches for a source and a target place by name, and the map shows both. The app then compares their weather, currency and local time. This project models the app's deterministic rules and proves properties of them:

- the distance-to-zoom step table and the map re-centring of `adjustZoom` (`LocationUtils.kt`);
- how `mapDrawables` rebuilds the map's overlay list and appends to the `markers` list, and how `DistanceOverlay.draw` places, rotates and paints the distance label (`MapViewComposable.kt`);
- the country-code-to-flag conversion (`Widgets.kt`);
- the icon table, the `UTC±HH:MM` parser and `epochToDate` (`WeatherAPIService.kt`);
- the weather records and the null-coalescing display fields (`WeatherResponse.kt`);
- the country-to-currency pipeline (`CountryAPIService.kt`);
- the mutable `Location` pin record (`Location.kt`).

All the code is in Dafny files, one module per source file:

| file | module |
|---|---|
| `optional.dfy` | `Optional`: Kotlin null as `Option` |
| `kotlin_numbers.dfy` | `KotlinNumbers`: `Int`/`Long` and their wrap-around, and Kotlin's truncating `/ 2` |
| `location.dfy` | `LocationRecord` |
| `location_utils.dfy` | `LocationUtils` |
| `map_view.dfy` | `MapOverlays` |
| `widgets.dfy` | `Widgets` |
| `weather_service.dfy` | `WeatherService` |
| `weather_response.dfy` | `WeatherData` |
| `country_service.dfy` | `CountryService` |

Code that updates state in place is modelled as classes: the `Location` record, the map view's overlay list, the `markers` list, the map controller and the canvas. Their methods state the whole new state. The map controller and the canvas are observed through the calls they receive, in order. Each foreign computation is a function-typed parameter:

- the map library's geodesic distance and projection to pixels;
- `atan2`;
- `calculateMidPoint`;
- the two HTTP lookups;
- the `%.2f` formatting;
- the clock-reading `getTimeForOffset`.

Kotlin `Double` and `Float` are `real`. The modelled code compares, adds and subtracts these values, divides the distance by 1000.0 and converts the label position and angle to `Float`. All of this is exact on reals. `Int` and `Long` are bounded types, and their overflow is written out where the code can overflow. Text is `string`, except in the flag conversion: there the input is a sequence of UTF-16 code units and the output a sequence of Unicode code points.

In three places the code behaves in a way a reader may not expect; the model follows the code as written:

- The label angle ends in the closed range [-90, 90], not (-90, 90]. A raw angle of 90 becomes -90, because both flip ranges are closed.
- Zoom falls, or stays the same, as the distance GROWS. A distance of 0 gives 12.0 without any special case.
- The second-point guard `b.latitude != null || b.longitude != null && isSource` is reproduced as written. The screen only ever creates pins with both coordinates set or both null. For those pins the guard agrees with "both coordinates set" (`GuardAgreesOnPairedCoordinates`). When a pin has only one coordinate, the `!!` that follows can fail. `GuardQuirks` exhibits such pins that pass the guard. The failure itself is the `NullDereference` outcome in the contract of `MapDrawables`.

## Model

| member | source | states |
|---|---|---|
| KotlinNumbers.WrapInt | app/src/main/java/com/example/geoessentials/WeatherAPIService.kt:259 | An `Int` result is the exact result reduced modulo 2^32 into the signed range, and equals it when there is no overflow (used for `timezone * 1000` and the pixel sums). |
| KotlinNumbers.WrapLong | app/src/main/java/com/example/geoessentials/WeatherResponse.kt:132-133 | A `Long` result is the exact result reduced modulo 2^64 into the signed range, and equals it when there is no overflow. |
| KotlinNumbers.HalfTowardZero | app/src/main/java/com/example/geoessentials/MapViewComposable.kt:177-178 | Kotlin `x / 2` rounds toward zero: the remainder is 0 or 1 for x >= 0 and 0 or -1 for x < 0. |
| KotlinNumbers.HalfTowardZeroIsNotDafnyDivision | app/src/main/java/com/example/geoessentials/MapViewComposable.kt:177-178 | -3 / 2 is -1 in Kotlin but -2 with Euclidean division; the two agree on non-negative numbers. |
| LocationRecord.Location.constructor | app/src/main/java/com/example/geoessentials/Location.kt:3 | A new record holds exactly the given latitude, longitude, search name, country code and currency; the last three default to "". |
| LocationRecord.Location.Equals | app/src/main/java/com/example/geoessentials/Location.kt:3 | Data-class equality holds exactly when the two records hold the same five field values. |
| LocationRecord.EqualsIsStructural | app/src/main/java/com/example/geoessentials/Location.kt:3 | Equality is field-by-field over all five fields and symmetric. |
| LocationRecord.NewUnselected | app/src/main/java/com/example/geoessentials/Widgets.kt:32-33 | The "nothing selected" pin is (null, null, "", "", ""), a fresh object. |
| LocationUtils.ZoomForDistance | app/src/main/java/com/example/geoessentials/LocationUtils.kt:27-47 | The zoom lies in [3, 12] and is a multiple of 0.5; any distance above 5,000,000 m gives 3.0; any distance up to 5,000 m, including 0, gives 12.0. |
| LocationUtils.ZoomIsFirstMatch | app/src/main/java/com/example/geoessentials/LocationUtils.kt:27-47 | The `when` chain equals first-match lookup over the ordered (threshold, zoom) list with fallback 12.0. |
| LocationUtils.FirstMatchAntitone | app/src/main/java/com/example/geoessentials/LocationUtils.kt:27-47 | For any table whose zooms ascend row to row, the lookup result never increases as the distance grows. |
| LocationUtils.FirstMatchAtThreshold | app/src/main/java/com/example/geoessentials/LocationUtils.kt:27-47 | For any table whose thresholds strictly descend, a distance exactly equal to row k's threshold gets row k+1's zoom, or the fallback after the last row. |
| LocationUtils.ZoomStepsOrdered | app/src/main/java/com/example/geoessentials/LocationUtils.kt:27-47 | The table's thresholds strictly descend, and its zooms ascend up to the 12.0 fallback. |
| LocationUtils.ZoomMonotone | app/src/main/java/com/example/geoessentials/LocationUtils.kt:27-47 | A larger distance never gives a larger zoom. |
| LocationUtils.ZoomAtThreshold | app/src/main/java/com/example/geoessentials/LocationUtils.kt:28-46 | Comparisons are strict: a distance exactly at threshold k falls into the next, closer bucket. |
| LocationUtils.HundredKilometres | app/src/main/java/com/example/geoessentials/LocationUtils.kt:38-39 | Exactly 100,000 m gives 8.5, not 8.0. |
| LocationUtils.AdjustZoom | app/src/main/java/com/example/geoessentials/LocationUtils.kt:25-55 | The controller receives `setZoom(table zoom of the distance)` and then `animateTo(midpoint)`, and that same midpoint is returned. |
| MapOverlays.GuardAgreesOnPairedCoordinates | app/src/main/java/com/example/geoessentials/MapViewComposable.kt:92 | When b's coordinates are both set or both null, the guard as written is taken exactly when b has a point. |
| MapOverlays.SecondPointGuard | app/src/main/java/com/example/geoessentials/MapViewComposable.kt:92 | Any pin with both coordinates takes the second-point branch, and a pin with neither never does. For the target pin only the latitude decides; for the source pin either coordinate does. |
| MapOverlays.GuardQuirks | app/src/main/java/com/example/geoessentials/MapViewComposable.kt:92-94 | Because `&&` binds tighter than `\|\|`: a latitude without a longitude passes the guard, so the `!!` on line 94 fails; a longitude alone passes only for the source pin. |
| MapOverlays.PlaceMarker | app/src/main/java/com/example/geoessentials/MapViewComposable.kt:129-149 | A null map view fails with a null dereference. Otherwise exactly one marker is appended to the overlays, at the given point, titled with the pin's search name and with the given icon; the earlier overlays are kept. |
| MapOverlays.MapDrawables | app/src/main/java/com/example/geoessentials/MapViewComposable.kt:72-127 | Overlays are always cleared first. If a lacks a coordinate, it returns with overlays empty and markers unchanged. Otherwise a is appended to markers. Then: one point gives overlays [marker(a)] and zoom 10.0 centred on a. Two points give [marker(a), line(a,b), label(a,b), marker(b)], markers += [a, b] and the adjustZoom calls. Each `!!` on a null value gives NullDereference. a is red iff isSource, and b takes the other colour. |
| MapOverlays.Midpoint | app/src/main/java/com/example/geoessentials/MapViewComposable.kt:177-178 | Without overflow the label anchor lies between the two pixel coordinates, and twice it is their sum rounded toward zero. |
| MapOverlays.MidpointRoundsTowardZero | app/src/main/java/com/example/geoessentials/MapViewComposable.kt:177-178 | The anchor of -3 and 0 is -1 (truncation), and that of 3 and 0 is 1. |
| MapOverlays.MidpointOverflow | app/src/main/java/com/example/geoessentials/MapViewComposable.kt:177 | An overflowing `Int` sum wraps: the anchor of 2^31-1 and 1 is -2^30. |
| MapOverlays.LabelAngle | app/src/main/java/com/example/geoessentials/MapViewComposable.kt:184-189 | A raw angle in [-180, 180] is normalised into [-90, 90]. The result differs from the raw angle by 0, +180 or -180. Raw angles inside (-90, 90) are unchanged. |
| MapOverlays.LabelAngleAtRightAngles | app/src/main/java/com/example/geoessentials/MapViewComposable.kt:184-189 | The ranges are closed: 90 becomes -90 and -90 becomes 90, so normalising twice is not idempotent at 90; +-180 become 0. |
| MapOverlays.LabelAngleStable | app/src/main/java/com/example/geoessentials/MapViewComposable.kt:184-189 | Away from +-90, normalising a raw angle twice equals normalising it once. |
| MapOverlays.Draw | app/src/main/java/com/example/geoessentials/MapViewComposable.kt:172-201 | The shadow pass draws nothing. Otherwise the canvas receives save, rotate(normalised angle, midpoint), border text, fill text and restore, in that order, all at the pixel midpoint. |
| Widgets.UppercaseUS | app/src/main/java/com/example/geoessentials/Widgets.kt:266 | Upper-casing keeps the length. Each lower-case ASCII letter becomes its upper-case letter and every other unit is kept, so no lower-case ASCII letter remains. |
| Widgets.UppercaseIdempotent | app/src/main/java/com/example/geoessentials/Widgets.kt:266 | Upper-casing an already upper-cased code changes nothing. |
| Widgets.ToRegionalIndicators | app/src/main/java/com/example/geoessentials/Widgets.kt:268-276 | One output code point per input unit, each `c - 0x41 + 0x1F1E6`. |
| Widgets.CountryCodeToEmojiFlag | app/src/main/java/com/example/geoessentials/Widgets.kt:261-277 | "N/A" is returned unchanged. Any other code gives exactly one code point per character, `upper(c) - 0x41 + 0x1F1E6`. |
| Widgets.FlagCodePointsValid | app/src/main/java/com/example/geoessentials/Widgets.kt:271-273 | Every produced code point is a valid supplementary code point, so `Character.toChars` cannot throw. |
| Widgets.EmptyFlag | app/src/main/java/com/example/geoessentials/Widgets.kt:261-277 | The empty code gives the empty string. |
| Widgets.FlagLetters | app/src/main/java/com/example/geoessentials/Widgets.kt:266-276 | 'A' gives U+1F1E6, 'Z' gives U+1F1FF, and "US" and "us" both give U+1F1FA U+1F1F8. |
| Widgets.FlagOfLettersIsRegional | app/src/main/java/com/example/geoessentials/Widgets.kt:261-277 | A code of upper-case letters is never "N/A" and maps into the 26 regional indicator symbols. |
| Widgets.FlagIgnoresCase | app/src/main/java/com/example/geoessentials/Widgets.kt:266-268 | Two codes of equal length (neither "N/A") that agree at each position up to the case of an ASCII letter give the same flag, so "us" and "US" give the same flag. |
| Widgets.LowercasePlaceholderIsMapped | app/src/main/java/com/example/geoessentials/Widgets.kt:262-264 | Only the exact string "N/A" is passed through; "n/a" is mapped code unit by code unit. |
| Widgets.FlagInjective | app/src/main/java/com/example/geoessentials/Widgets.kt:268 | Distinct upper-case letter codes give distinct flags. |
| Widgets.FlagToCountryCode | app/src/main/java/com/example/geoessentials/Widgets.kt:268 | The inverse map subtracts the regional-indicator offset from every code point. |
| Widgets.FlagRoundTrip | app/src/main/java/com/example/geoessentials/Widgets.kt:266-276 | Decoding a flag gives back the upper-cased code. |
| WeatherService.LookupDrawable | app/src/main/java/com/example/geoessentials/WeatherAPIService.kt:47-66 | A code has a drawable exactly when it is a key of the table; a found drawable is never `empty`. |
| WeatherService.WeatherDrawablesKeys | app/src/main/java/com/example/geoessentials/WeatherAPIService.kt:47-66 | The table's keys are exactly the 18 day and night codes of the nine conditions. |
| WeatherService.DayAndNightVariants | app/src/main/java/com/example/geoessentials/WeatherAPIService.kt:47-66 | Each condition has a day and a night key, and they share a drawable except for codes 01, 02 and 10. |
| WeatherService.ParseUtcOffset | app/src/main/java/com/example/geoessentials/WeatherAPIService.kt:276-282 | A result exists exactly for whole-string matches of `UTC`, `+`/`-`, two ASCII digits, `:`, two ASCII digits. It is a whole number of minutes, and its magnitude is at most 99*3600 + 99*60. |
| WeatherService.ParseFormatted | app/src/main/java/com/example/geoessentials/WeatherAPIService.kt:280-282 | "UTC+-HH:MM" parses to hh*3600 + mm*60, negated iff the sign is '-'. |
| WeatherService.ParsedIsFormatted | app/src/main/java/com/example/geoessentials/WeatherAPIService.kt:276-277 | Every accepted string is the canonical rendering of its sign and two-digit fields. |
| WeatherService.UnrangedFields | app/src/main/java/com/example/geoessentials/WeatherAPIService.kt:276-282 | Fields are not range-checked: "UTC+00:99" gives 5940 s, "UTC-00:00" gives 0, and a one-digit hour is rejected. |
| WeatherService.GetTimeForUtcString | app/src/main/java/com/example/geoessentials/WeatherAPIService.kt:275-288 | A non-matching string yields "Invalid Timezone". A matching one yields `getTimeForOffset` of the signed offset in seconds. |
| WeatherService.SecondOfDay | app/src/main/java/com/example/geoessentials/WeatherAPIService.kt:257-260 | The UTC time of day of an instant, in whole seconds, is below 86,400, for negative instants too. |
| WeatherService.ClockText | app/src/main/java/com/example/geoessentials/WeatherAPIService.kt:257 | "HH:mm:ss" is 8 characters with ':' at 2 and 5 and digits elsewhere, with hours 00-23 and minutes and seconds 00-59. |
| WeatherService.EpochToDate | app/src/main/java/com/example/geoessentials/WeatherAPIService.kt:256-261 | The output of `epochToDate` has that same 8-character `HH:mm:ss` shape and ranges. |
| WeatherService.ClockTextReadsBack | app/src/main/java/com/example/geoessentials/WeatherAPIService.kt:257 | Reading the clock text back as hh*3600 + mm*60 + ss gives the second of the day it was made from. |
| WeatherService.EpochToDateReadsBack | app/src/main/java/com/example/geoessentials/WeatherAPIService.kt:256-260 | The printed clock is the UTC second of the day of the instant `epoch + timezone * 1000` (with `Int`/`Long` wrap-around). |
| WeatherService.ShiftedInstantExact | app/src/main/java/com/example/geoessentials/WeatherAPIService.kt:259 | Without overflow the shifted instant is exactly epoch + timezone*1000. |
| WeatherService.EpochToDateIgnoresWholeDays | app/src/main/java/com/example/geoessentials/WeatherAPIService.kt:256-260 | Without overflow, adding 86,400 s to the offset does not change the output. |
| WeatherData.NatToString | app/src/main/java/com/example/geoessentials/WeatherResponse.kt:131 | The decimal text is non-empty, all ASCII digits, with no leading zero except for 0 itself. |
| WeatherData.NatToStringReadsBack | app/src/main/java/com/example/geoessentials/WeatherResponse.kt:131 | The decimal digits read back as the number. |
| WeatherData.IntToStringInjective | app/src/main/java/com/example/geoessentials/WeatherResponse.kt:131 | Different humidities have different decimal texts. |
| WeatherData.IconOf | app/src/main/java/com/example/geoessentials/WeatherResponse.kt:129 | The icon is `empty` exactly when there is no first entry or its code is not in `weatherDrawables`. Otherwise it is that code's drawable. |
| WeatherData.ToMillis | app/src/main/java/com/example/geoessentials/WeatherResponse.kt:132-133 | Without overflow, seconds times 1000. |
| WeatherData.DeriveWeatherFields | app/src/main/java/com/example/geoessentials/WeatherResponse.kt:127-133 | A null response gives "N/A" texts, the `empty` icon and null times. Otherwise the description comes from the first entry (or "N/A"), humidity is the Int's decimal text, sunrise and sunset are in milliseconds, and the offset is present. |
| WeatherData.SunLine | app/src/main/java/com/example/geoessentials/WeatherResponse.kt:108-117 | A null time prints "Caption: N/A". A present time prints the caption, ": " and eight clock characters, which read back as the UTC second of the day of `epoch + timezone * 1000` (with wrap-around). |
| WeatherData.WeatherColumn | app/src/main/java/com/example/geoessentials/WeatherResponse.kt:81-119 | The column shows the icon and six lines, the first being the description; the `timezone!!` is required only when a time is present. |
| WeatherData.InfoColumn | app/src/main/java/com/example/geoessentials/WeatherResponse.kt:127-172 | A column built from any response, or from null, shows the derived icon and six lines: the `!!` never fails. |
| WeatherData.WeatherInfoCard | app/src/main/java/com/example/geoessentials/WeatherResponse.kt:121-176 | The card is the source column, then the target column. Each has its own response's icon and six lines, and leads with that response's first weather description, or "N/A". |
| WeatherData.NullResponseColumn | app/src/main/java/com/example/geoessentials/WeatherResponse.kt:127-172 | A null response shows "N/A", "Temperature: N/A°C", "Feels Like: N/A°C", "Humidity: N/A%", "Sunrise: N/A", "Sunset: N/A" and the `empty` icon. |
| WeatherData.ResponseColumnTimes | app/src/main/java/com/example/geoessentials/WeatherResponse.kt:104-117 | A present response's column reads, in order: the first description (or "N/A"), "Temperature: " and "Feels Like: " with the formatted Celsius value and "°C", "Humidity: " with the decimal humidity and "%", and sunrise and sunset as `epochToDate(seconds * 1000, timezone)`. |
| WeatherData.ColumnsIndependent | app/src/main/java/com/example/geoessentials/WeatherResponse.kt:121-176 | The source column depends only on the source response, and the target column only on the target response. |
| WeatherData.ColumnsSwap | app/src/main/java/com/example/geoessentials/WeatherResponse.kt:154-173 | Both columns are built by the same rules: swapping the two responses swaps the two columns. |
| CountryService.GetCountryCurrency | app/src/main/java/com/example/geoessentials/CountryAPIService.kt:73-100 | A null lat or lon returns null with no lookup. A failed or empty reverse lookup returns null and leaves `countryCode` alone. Otherwise `countryCode` is set to the first entry's country before the second lookup and stays set if that lookup fails. The result is then that lookup's first currency, or null. No other field of the pin changes. |

## Left out

- `calculateMidPoint` (`LocationUtils.kt:6-23`) is floating-point trigonometry. It is a parameter, so its symmetry and its identical-points case are not proved.
- The map library's `distanceToAsDouble`, `projection.toPixels` and `atan2`/`toDegrees`/`toFloat` are parameters. Floating-point rounding and NaN are not modelled.
- IEEE 754 rounding is not modelled: of the distance divided by 1000.0 (`MapViewComposable.kt:105`), of the `toFloat` conversions in `draw` (`MapViewComposable.kt:180-196`), and of `- 273.15`.
- The `"%.2f"` Celsius formatting and the `"%.2f km"` label text are parameters (`formatCelsius`, `formatKm`).
- `getTimeForOffset`, `getDateForOffset` and the preview's clock depend on the wall clock and the platform time-zone database. `GetTimeForUtcString` takes `getTimeForOffset` as a parameter.
- Retrofit interfaces and instances, `FetchWeatherData` and its callbacks, coroutines and `LaunchedEffect`, the one-second ticking loops and `Log.e` involve network, concurrency or logging.
- The composables and their layout are UI only: `MapViewComposable` (its factory's initial zoom and my-location overlay, and its update lambda), `Widgets()`, `Widgets_Preview.kt`, `WeatherScreen`, `TimezoneComparisonScreen`, `TimeDisplay`, `leftBorder` and `rightBorder`.
- `placeMarker` bitmap scaling and the marker anchor are rendering details. A marker is modelled by its position, title and icon colour, and a missing marker drawable is not modelled.
- `AdjustZoom` drops the Kotlin function's unused `mapView` parameter.
- `SearchBar.kt` uses the platform geocoder and a Toast. `MoneyExchange.kt` is UI plus a coroutine; its only rule is the `Currency("Unknown", "???")` fallback for a null result.
- `ReverseResponse.kt` is a plain record: only `country` is read, so `ReverseEntry` keeps only that field.
- JSON decoding can leave `null` in fields whose Kotlin types are non-null. The model gives those fields non-null types. A missing `currencies` object is treated like an empty one, which the code handles the same way. The JSON object order of `currencies` is assumed to be the iteration order of the decoded map.
- UppercaseUS: maps only the ASCII letters a-z to A-Z and keeps every other unit. `String.uppercase(Locale.US)` also maps non-ASCII letters, sometimes to several characters.
- CountryCodeToEmojiFlag: upper-cases ASCII letters only. The full `Locale.US` case mapping of non-ASCII characters is not modelled; it can change the length, for example 'ß' becomes "SS".
- WeatherDrawablesKeys: states the exact 18-key set rather than the cardinality 18. Counting 18 distinct string literals is beyond the solver's budget here.
