# WorldView core, modelled in Dafny

WorldView is a browser globe built on Cesium. It shows live and simulated flights, military traffic, satellites, earthquakes, road traffic and webcams over a 3D map. It also has a military-grid read-out of the crosshair, visual style presets, keyboard shortcuts and an "AI insights" panel. This project models the five parts of it that behave deterministically once their outside inputs are fixed.

- **`Mgrs`** (`mgrs.dfy`) models the simplified Military Grid Reference System converter `latLngToMGRS` and the degree/minute formatter `formatLatLng`. It covers:
  - the latitude band with its clamp;
  - the zone number;
  - the 100-km square letters with their `'A'` fallback and the TypeError for negative zone sets;
  - the southern false northing;
  - the five-character numeric fields;
  - the decimal fallback outside [-80, 84].

  The transverse-Mercator series is a parameter `project(lat, lng, zone)`.
- **`GlobeViewer`** (`globe_viewer.dfy`) models the camera telemetry effect of the globe view. `CameraTracker` is a class holding:
  - the last reported values (`None` for the initial NaNs);
  - whether the post-render listener is registered;
  - whether the viewer is destroyed;
  - the log of reports.

  Each Cesium answer a frame uses is a field of a `Probe`. Converting a point to degrees is the parameter `toCartographic`.
- **`App`** (`app.dfy`) models the application shell:
  - the webcam dataset sanitiser;
  - the state held by `App` as the class `AppState`, with the handlers for camera moves, layer toggles, layer counts, city and landmark choice, the CCTV selection and the keyboard shortcuts;
  - the derived style class and location names.
- **`AiInsights`** (`ai_insights.dfy`) models the local part of the insights panel: the clamped, rounded risk score, the ordered insight list with its no-feeds line, and the four-line display.
- **`FlightLayer`** (`flight_layer.dfy`) models the live flight layer:
  - the OpenSky state-vector parse, including the ways it throws;
  - the simulated fallback traffic, with `Math.random` as explicit draws;
  - the visibility effect, as a class holding the flight list and the counts reported;
  - the estimated trajectory drawn in detection mode.

Supporting modules:
- **`JsonValue`** holds JSON values as `response.json()` yields them, with `String(v)`, truthiness, `v[i]` and `x || y`.
- **`JsRuntime`** holds the JavaScript runtime functions the code calls, over exact integers and reals:
  - `String(n)`, `padStart`, `toFixed`, `Number(x.toFixed(d))`, `%`, `trim`;
  - `parseInt`, `parseFloat`, `replaceAll`, `toLowerCase`, `indexOf`.
- **`Constants`** holds the `CITIES` and `STYLE_PRESETS` tables.
- **`Wrappers`** holds `Option`.

## Model

| member | source | states |
|---|---|---|
| Mgrs.LatBand | src/utils/mgrs.ts:4-8 | The band letter is always one of the 20 letters `CDEFGHJKLMNPQRSTUVWX`, whatever the latitude, because the index is clamped |
| Mgrs.LatBandRanges | src/utils/mgrs.ts:4-8 | Band k (k < 19) covers [-80 + 8k, -72 + 8k). Every latitude from 72 up is `X`, including 80 to 84 where the raw index 20 is clamped. Everything below -72 is `C` |
| Mgrs.Clamp | src/utils/mgrs.ts:7 | `min(max(i, lo), hi)` lies in [lo, hi] and is `i` when `i` is already inside |
| Mgrs.ZoneNumberRange | src/utils/mgrs.ts:34 | For longitudes in [-180, 180) the zone is in 1..60 and the longitude lies in that zone's six-degree strip. Longitude 180 gives zone 61 |
| Mgrs.LetterOr | src/utils/mgrs.ts:23-24 | `alphabet[i] \|\| 'A'` is the letter at `i` when `i` is inside the alphabet, and otherwise 'A' |
| Mgrs.Get100kIdSpec | src/utils/mgrs.ts:10-27 | The square id exists exactly when `(zone - 1) % 6` is not negative; otherwise `colLetters[setParm]` is undefined and indexing it throws. For zones from 1 up the id has two letters: the column from alphabet `(zone-1)%6` at `floor(e/1e5)-1`, and the row from alphabet `((zone-1)%6)%2` at `floor((n%2e6)/1e5)`. Either letter is 'A' when its index is out of range |
| Mgrs.NoLetterFallback | src/utils/mgrs.ts:20-24 | Eastings in [100 000, 900 000) and non-negative northings never hit the 'A' fallback |
| Mgrs.Get100kIdPeriodic | src/utils/mgrs.ts:10-27 | The square id repeats every 2 000 km of northing and every six zones |
| Mgrs.ZoneSetPeriodic | src/utils/mgrs.ts:11 | The zone set `(zone - 1) % 6` of zones from 1 up repeats every six zones |
| Mgrs.FiveDigits | src/utils/mgrs.ts:63-66 | Each numeric field is exactly five characters long, because `padStart(5,'0')` is followed by `substring(0,5)` |
| Mgrs.FiveDigitsValue | src/utils/mgrs.ts:63-66 | For a non-negative value the field is five decimal digits. Their value is `floor(v % 100000)`, the metres within the 100-km square, which lies in [0, 100000) |
| Mgrs.FiveDigitsNumberText | src/utils/mgrs.ts:63-66 | The five-character field holds only digits and at most a minus sign |
| Mgrs.GridTextHasNoDegreeSign | src/utils/mgrs.ts:66 | The grid output never contains a degree sign |
| Mgrs.FallbackHasDegreeSign | src/utils/mgrs.ts:31 | The decimal fallback always contains a degree sign |
| Mgrs.FallbackExactly | src/utils/mgrs.ts:30-32 | The decimal fallback is returned exactly when lat < -80 or lat > 84, so -80 and 84 take the grid path. A degree sign appears in the output exactly then |
| Mgrs.GridPathHasNoDegreeSign | src/utils/mgrs.ts:34-66 | On the grid path (-80 <= lat <= 84) the output contains no degree sign |
| Mgrs.FallbackSigns | src/utils/mgrs.ts:31 | In the fallback the only minus sign belongs to the latitude, which is printed signed; the longitude is printed as an absolute value. A '-' appears, and leads the text, exactly when lat < 0. 'N'/'S' follow the sign of the latitude, and the text ends in 'E' iff lng >= 0 |
| Mgrs.TailTemplate | src/utils/mgrs.ts:31 | The text after the latitude's digits, `°N\|S <digits>°E\|W`, has no minus sign and holds the hemisphere letters it was built with |
| Mgrs.GridShape | src/utils/mgrs.ts:29-66 | On the grid path with lng >= -180 the output is `<zone><band> <2 letters> <5 chars> <5 chars>`: the zone from the zone formula, the band from `getLatBand`, and the square id of the false-northed northing. Both fields are digits when easting and northing are non-negative |
| Mgrs.SouthernFalseNorthing | src/utils/mgrs.ts:60 | North of the equator nothing is added to the northing. South of it, the added 10 000 000 m puts any series northing in [-1e7, 0) inside the row table and makes its field numeric. For a northing already non-negative the addition changes neither the row letter nor the digits |
| Mgrs.ShiftedNorthingInRange | src/utils/mgrs.ts:60-64 | A northing from -10 000 000 up, after the false northing, gives a row in 0..19 and an all-digit field |
| Mgrs.FalseNorthingInvisible | src/utils/mgrs.ts:60-64 | Adding 10 000 000 m to a non-negative northing changes neither its row nor its five digits |
| Mgrs.NeverThrows | src/utils/mgrs.ts:29-66 | With longitudes from -180 up the converter never throws |
| Mgrs.FallbackExample | src/utils/mgrs.ts:31 | (-85, 10) prints `-85.0000°S 10.0000°E` |
| Mgrs.LatitudeText | src/utils/mgrs.ts:31 | `(-85).toFixed(4)` is `-85.0000` |
| Mgrs.LongitudeText | src/utils/mgrs.ts:31 | `(10).toFixed(4)` is `10.0000` |
| Mgrs.PrintedMinuteHundredths | src/utils/mgrs.ts:73-75 | The minutes `toFixed(2)` prints, counted in hundredths, are at most 6000 |
| Mgrs.DegreesMinutesShape | src/utils/mgrs.ts:72-75 | A coordinate prints as `floor(\|x\|)` followed by `°`, then the minutes `(\|x\| - deg) * 60`, which lie in [0, 60), to two decimals |
| Mgrs.DegreesMinutesParts | src/utils/mgrs.ts:72-76 | The printed part depends only on the whole degrees and the minutes |
| Mgrs.DegreesTextFrom | src/utils/mgrs.ts:76 | With at least three digits of hundredths, the template is the degree digits, `°`, then the hundredths with a point before the last two |
| Mgrs.DegreesMinutesUnsigned | src/utils/mgrs.ts:72-75 | A degree/minute part never contains a minus sign |
| Mgrs.FormatLatLngSigns | src/utils/mgrs.ts:69-77 | `formatLatLng` prints no minus sign. The letter after the latitude is 'N' iff lat >= 0 and 'S' iff lat < 0, and the text ends in 'E' iff lng >= 0 |
| Mgrs.HemisphereTemplate | src/utils/mgrs.ts:76 | `<a>'<h> <b>'<e>` with unsigned parts has no minus sign, `h` right after the first part and `e` last |
| Mgrs.FormatLatLngExample | src/utils/mgrs.ts:69-77 | (30.2747, -97.7403) gives `30°16.48'N 97°44.42'W` |
| Mgrs.LatitudeMinutes | src/utils/mgrs.ts:72-73 | 30.2747 prints as `30°16.48` |
| Mgrs.LongitudeMinutes | src/utils/mgrs.ts:74-75 | -97.7403 prints as `97°44.42` |
| Mgrs.MinutesReachSixty | src/utils/mgrs.ts:72-73 | As written, 0.99999 prints `0°60.00`: the minutes round up to 60 without carrying into the degrees |
| Mgrs.DegreesMinutesCarriedSpec | src/utils/mgrs.ts:72-75 | Rounding once, to hundredths of a minute, never prints 60 minutes. It prints exactly the hundredths it computed and stays within half a hundredth of a minute of the true value |
| Mgrs.CarriedAgreesBelowSixty | src/utils/mgrs.ts:72-75 | Wherever the source's printed minutes stay below 60, the corrected form prints exactly what the source prints |
| Mgrs.CarriedParts | src/utils/mgrs.ts:72-75 | Below 60 printed minutes, one rounding gives the same whole degrees and hundredths as the source's two steps |
| Mgrs.WholeRounding | src/utils/mgrs.ts:72-73 | Rounding the degrees to hundredths of a minute in one step splits into the floor of the degrees and the separately rounded minutes, when those stay below 6000 |
| Mgrs.CarriedExample | src/utils/mgrs.ts:72-73 | The corrected form prints 0.99999 as `1°0.00` |
| GlobeViewer.CameraTracker.Mount | src/components/GlobeViewer.tsx:110-196 | Mounting starts the last values as NaN (`None`), registers the listener and runs the handler at once. The first call reports whenever the camera has a position, because nothing compares equal to NaN |
| GlobeViewer.CameraTracker.Handle | src/components/GlobeViewer.tsx:116-193 | Without a camera position nothing changes. Otherwise the handler reports exactly when the rounded 5-tuple differs from the last one reported, and the stored tuple then equals the report. When nothing changed, nothing is stored or reported. Reports never repeat the previous one |
| GlobeViewer.CameraTracker.PickCenter | src/components/GlobeViewer.tsx:136-153 | The picked point is the chain `rayEllipsoidPick \|\| ellipsoidPick \|\| globePick \|\| pickPosition`. The ray hit is used only when `hit.start >= 0` |
| GlobeViewer.CameraTracker.RenderFrame | src/components/GlobeViewer.tsx:195 | A rendered frame runs the handler only while the listener is registered on a live viewer; otherwise nothing changes |
| GlobeViewer.CameraTracker.DestroyViewer | src/components/GlobeViewer.tsx:199 | A destroyed viewer renders no more frames; the tracker's values are untouched |
| GlobeViewer.CameraTracker.Teardown | src/components/GlobeViewer.tsx:198-202 | Clean-up removes the listener only when the viewer is not destroyed. Either way no frame is handled afterwards |
| GlobeViewer.PickPrecedence | src/components/GlobeViewer.tsx:143-153 | Each pick is used exactly when every pick before it is missing. The centre has no pick exactly when all four are missing |
| GlobeViewer.NoRayMeansNoRayPicks | src/components/GlobeViewer.tsx:136-153 | Without a pick ray neither the intersection nor the globe pick is used |
| GlobeViewer.RectangleFallback | src/components/GlobeViewer.tsx:129-160 | With no pick, or a pick that does not convert, the centre is the view-rectangle centre (or absent without a rectangle). A converted pick overrides the rectangle |
| GlobeViewer.CenterCoordinate | src/components/GlobeViewer.tsx:165-168 | A centre coordinate that exists and is finite is reported rounded to 7 decimals; otherwise the camera's own rounded value is used |
| GlobeViewer.RescaleExact | src/components/GlobeViewer.tsx:165-168 | Re-rounding a value already at 6 decimals to 7 decimals is exact |
| GlobeViewer.CameraFallback | src/components/GlobeViewer.tsx:165-168 | With neither a converted pick nor a rectangle, the reported centre is the camera's own rounded position |
| GlobeViewer.FrameRounding | src/components/GlobeViewer.tsx:117-164 | A report exists exactly when the camera has a position. Its values are the camera latitude and longitude to 6 decimals and the height to 2 decimals |
| App.SanitizeEntry | src/App.tsx:66-84 | An entry is kept exactly when both `parseFloat(String(item.lat))` and `parseFloat(String(item.lng))` are finite, and it carries those coordinates |
| App.SanitizeCameras | src/App.tsx:65 | JSON that is not an array gives no cameras |
| App.KeepMapped | src/App.tsx:65-85 | Mapping and filtering never yields more cameras than entries |
| App.KeepMappedConcat | src/App.tsx:65-85 | Map-then-filter works entry by entry: the result for a concatenation is the concatenation of the results, so input order is kept |
| App.KeepMappedFromEntries | src/App.tsx:65-85 | Every camera kept is the mapping of some dataset entry |
| App.SanitizeOne | src/App.tsx:65-85 | On a one-entry array the sanitiser gives that entry's camera when both coordinates parse, and nothing otherwise |
| App.NonNumericCoordinateDropped | src/App.tsx:67-69 | Entries whose latitude is missing, null, boolean or an object are dropped |
| App.NoNumberIn | src/App.tsx:67 | `undefined`, `null`, `true`, `false` and `[object Object]` do not parse as numbers |
| App.NumericCoordinate | src/App.tsx:67-68 | A JSON number survives `parseFloat(String(n))` whenever printing and reading numbers back agree |
| App.NameDefaults | src/App.tsx:71-73 | A missing or null name becomes `Web Camera`, a string name is unescaped, and a name without '&' is kept unchanged |
| App.StringOrCases | src/App.tsx:71-76 | `item?.key ?? fallback` gives the fallback exactly for an absent or null field, and the text itself for a string |
| App.SanitizedFields | src/App.tsx:71-82 | A kept camera's name, id and links are the unescaped name, the id or its fallback, and the three links read as strings |
| App.SanitizedName | src/App.tsx:71-77 | A kept camera is named `Web Camera` when its name is absent or null, and carries the unescaped name when it is a string |
| App.SanitizedId | src/App.tsx:75-76 | A kept camera without an id is identified as `${name}-${lat}-${lng}` from its cleaned name and printed coordinates; a string id is kept as it is |
| App.SanitizedUrls | src/App.tsx:80-82 | Each of `embedUrl`, `pageUrl` and `thumbnail` is present exactly when the raw field is a string, and is then that string |
| App.NoAmpersandUnchanged | src/App.tsx:72-73 | Unescaping leaves a string without '&' unchanged |
| App.PatternAbsent | src/App.tsx:72-73 | Neither entity occurs in a string without '&' |
| App.UnescapeOrder | src/App.tsx:72-73 | `&#x27;` is replaced first and `&amp;` second: `&amp;#x27;` becomes `&#x27;`, not an apostrophe. `&#x27;` and `&amp;` alone decode |
| App.UnescapeApostrophe | src/App.tsx:72 | `&#x27;` decodes to an apostrophe |
| App.UnescapeAmpersand | src/App.tsx:73 | `&amp;` decodes to '&' |
| App.UnescapeNested | src/App.tsx:72-73 | `&amp;#x27;` decodes only once, to `&#x27;` |
| App.ApostropheAbsent | src/App.tsx:72 | The first replacement leaves `&amp;#x27;` as it is |
| App.AmpersandDecoded | src/App.tsx:73 | The second replacement turns `&amp;#x27;` into `&#x27;` |
| App.Layers.Set | src/App.tsx:211 | `{ ...prev, [layer]: v }` sets the named layer and leaves every other layer unchanged |
| App.ToggleTwice | src/App.tsx:211 | Flipping a layer twice restores the layers |
| App.LandmarkAt | src/App.tsx:237-258 | `CITIES[city]?.landmarks[i]` exists exactly when both indices are in range |
| App.DerivedNames | src/App.tsx:271-273 | The style class is empty exactly for `normal`. The location name is non-empty exactly for a valid city, and the landmark name exactly when the landmark exists |
| App.AppState.constructor | src/App.tsx:21-45 | Initial state: style `normal`, camera and crosshair over 30.2747, -97.7403 at 2000 m, Austin selected with no landmark, every layer off, no counts and no CCTV selection |
| App.AppState.HandleCameraMove | src/App.tsx:195-206 | The camera values are always stored. The crosshair takes the centre when both centre values are given, and the camera position otherwise |
| App.AppState.HandleToggleLayer | src/App.tsx:209-217 | Exactly the named layer flips. The CCTV selection is cleared only when CCTV is switched from on to off |
| App.AppState.HandleCountUpdate | src/App.tsx:220-222 | Only the given layer's count is replaced; other keys stay |
| App.AppState.HandleCityChange | src/App.tsx:225-232 | The city is stored and the landmark set to -1. A valid index targets the city's first landmark; an invalid one leaves the target |
| App.AppState.HandleLandmarkChange | src/App.tsx:234-240 | The landmark index is stored. When it names a landmark of the selected city the camera is sent there, and otherwise the target is unchanged |
| App.AppState.SelectCctv | src/App.tsx:320-322 | Picking a webcam on the CCTV layer selects it |
| App.AppState.CloseCctv | src/App.tsx:401 | The close button clears the webcam selection |
| App.AppState.KeyDown | src/App.tsx:243-264 | A key press does exactly what `KeyEffectOf` decides: choose a style, choose a landmark and fly there, or nothing |
| App.DigitKeysChooseStyles | src/App.tsx:248-251 | Keys `1` to `8` choose `STYLE_PRESETS[n-1]` |
| App.NumberKeyEffect | src/App.tsx:248-251 | Any key that `parseInt` reads as 1..8 chooses that preset |
| App.LetterKeysChooseLandmarks | src/App.tsx:254-263 | `q w e r t`, with or without shift, choose landmarks 0 to 4 of the selected city. With no valid city they do nothing |
| App.LandmarkKeyEffect | src/App.tsx:255-263 | A non-number key that lower-cases to landmark key i chooses landmark i when the selected city has it |
| App.LandmarkKeyInRange | src/App.tsx:258 | Landmarks 0 to 4 exist exactly for the valid cities |
| App.LetterKeyIndex | src/App.tsx:248-256 | The letter keys are not numbers, and they lower-case to their position in `landmarkKeys` |
| App.LetterLowerCase | src/App.tsx:256 | `toLowerCase` maps `Q W E R T` and `q w e r t` to the landmark keys |
| App.LandmarkKeysDistinct | src/App.tsx:255-256 | `indexOf` finds each landmark key at its own position |
| AiInsights.Clamp | src/components/AIInsightsPanel.tsx:22-24 | `clamp(v, min, max)` lies in [min, max] when min <= max, equals v when v is inside, and is always one of v, min, max |
| AiInsights.Round | src/components/AIInsightsPanel.tsx:52 | `Math.round` gives the nearest integer, halves up |
| AiInsights.Count | src/components/AIInsightsPanel.tsx:39-44 | A count is the map's entry under its key, and 0 when the key is missing |
| AiInsights.ReadCounts | src/components/AIInsightsPanel.tsx:39-44 | The six counts are the entries under `flights`, `military`, `earthquakes`, `satellites`, `traffic` and `cctv`, each 0 when missing; with no counts every count reads as 0 |
| AiInsights.FlightsTerm | src/components/AIInsightsPanel.tsx:47 | The flights term is 0 when the layer is off, at most 40, and not negative for a non-negative count |
| AiInsights.MilitaryTerm | src/components/AIInsightsPanel.tsx:48 | The military term is 0 when the layer is off, at most 25, and not negative for a non-negative count |
| AiInsights.QuakesTerm | src/components/AIInsightsPanel.tsx:49 | The earthquake term is 0 when the layer is off, at most 20, and not negative for a non-negative count |
| AiInsights.RiskScore | src/components/AIInsightsPanel.tsx:46-52 | The risk score is always an integer from 0 to 100 |
| AiInsights.ScoreWithinRange | src/components/AIInsightsPanel.tsx:46-52 | With non-negative counts the raw score already lies in [0, 100], so the clamp never acts |
| AiInsights.FixedBonuses | src/components/AIInsightsPanel.tsx:50-51 | Detection mode adds exactly 10 and CCTV exactly 5 |
| AiInsights.MissingCountsScoreZero | src/components/AIInsightsPanel.tsx:39-52 | When the map has no flights, military or earthquakes entry, only the fixed bonuses score, whatever else it holds |
| AiInsights.MaximumScore | src/components/AIInsightsPanel.tsx:46-52 | Everything on with counts at the caps gives 100 |
| AiInsights.TextDistinguishesNoFeeds | src/components/AIInsightsPanel.tsx:56-64 | No insight line other than the no-feeds line has its text |
| AiInsights.Render | src/components/AIInsightsPanel.tsx:56-64 | The texts are one per line, in order |
| AiInsights.SelectShape | src/components/AIInsightsPanel.tsx:55-62 | The selection has one line per enabled feed, each from an enabled feed. It is empty exactly when no feed is enabled |
| AiInsights.Candidates | src/components/AIInsightsPanel.tsx:56-62 | There are seven feeds in the fixed order |
| AiInsights.Push | src/components/AIInsightsPanel.tsx:56-62 | `if (flag) insights.push(line)` appends the line exactly when its flag is on |
| AiInsights.PushActiveFeeds | src/components/AIInsightsPanel.tsx:55-62 | The pushes give the lines of the enabled feeds in the order flights, military, earthquakes, satellites, traffic, CCTV, detection |
| AiInsights.LocalInsights | src/components/AIInsightsPanel.tsx:54-67 | `localInsights` is the texts of the enabled lines, or the no-feeds text alone when none is enabled |
| AiInsights.InsightListShape | src/components/AIInsightsPanel.tsx:55-65 | The list is never empty: one line per active feed, or the no-feeds line alone exactly when no layer and no detection mode is on |
| AiInsights.InsightTexts | src/components/AIInsightsPanel.tsx:54-67 | The same on the texts: never empty, and the no-feeds message alone exactly when nothing is active |
| AiInsights.Displayed | src/components/AIInsightsPanel.tsx:150 | At most the first four insights are shown, as a prefix of the list |
| AiInsights.DisplayedInsights | src/components/AIInsightsPanel.tsx:54-150 | The display is never empty. With everything on it shows the flights, military, earthquake and satellite lines |
| AiInsights.AllActiveSelection | src/components/AIInsightsPanel.tsx:55-62 | With everything on all seven lines are selected, the four feed lines first |
| AiInsights.SelectAllEnabled | src/components/AIInsightsPanel.tsx:55-62 | When every feed is enabled the selection is every feed's line |
| FlightLayer.Filter | src/layers/FlightLayer.tsx:35 | `filter` never yields more elements than its input |
| FlightLayer.FilterMembers | src/layers/FlightLayer.tsx:35 | The filter keeps exactly the members that pass the test |
| FlightLayer.FilterConcat | src/layers/FlightLayer.tsx:35 | Filtering distributes over concatenation, so the kept vectors keep input order |
| FlightLayer.Take | src/layers/FlightLayer.tsx:36 | `slice(0, n)` is a prefix of length min(n, length) |
| FlightLayer.ReadAll | src/layers/FlightLayer.tsx:35-45 | Positions are read from each vector |
| FlightLayer.MapOrThrowSpec | src/layers/FlightLayer.tsx:37-46 | The map succeeds exactly when the callback succeeds on every vector, and then it is the callback's results in order |
| FlightLayer.MapOrThrowSingle | src/layers/FlightLayer.tsx:37-46 | A one-element map is the callback's result or its throw |
| FlightLayer.MapOrThrowFails | src/layers/FlightLayer.tsx:37-46 | The map throws exactly when the callback throws on some vector |
| FlightLayer.FieldMapping | src/layers/FlightLayer.tsx:37-46 | Mapping takes lat from `s[6]` and lng from `s[5]`. The callsign is the trimmed `s[1]`, or '' when falsy. Alt, heading and velocity default to 0 when falsy, and icao24 and the ground flag are copied. The callback throws exactly for a truthy non-string `s[1]` |
| FlightLayer.ParsedFlights | src/layers/FlightLayer.tsx:33-46 | A successful parse maps the first min(2000, #qualifying) qualifying vectors, in input order. Each flight has non-null lat and lng and is not on the ground |
| FlightLayer.ParsedMapping | src/layers/FlightLayer.tsx:33-46 | A successful parse read an array of non-null vectors and mapped the capped qualifying ones |
| FlightLayer.MappedAt | src/layers/FlightLayer.tsx:35-46 | Flight k comes from qualifying vector k, with its coordinates |
| FlightLayer.KeptFrom | src/layers/FlightLayer.tsx:35 | Every kept vector qualifies (`s[5] != null && s[6] != null && !s[8]`) and was read from some input vector |
| FlightLayer.NoStatesExactly | src/layers/FlightLayer.tsx:33 | The layer is left alone exactly when the body is not null and has no truthy `states` |
| FlightLayer.FailedExactly | src/layers/FlightLayer.tsx:31-50 | The parse throws exactly when the body is null, or `states` is truthy but not an array of non-null vectors, or a kept vector among the first 2000 has a truthy non-string callsign |
| FlightLayer.ParseExample | src/layers/FlightLayer.tsx:33-46 | Of a grounded and an airborne vector only the airborne one is kept. Its lat and lng come from positions 6 and 5, and its missing velocity is 0 |
| FlightLayer.ExampleKept | src/layers/FlightLayer.tsx:35 | The grounded vector is filtered out |
| FlightLayer.ExampleFlight | src/layers/FlightLayer.tsx:37-46 | The airborne vector maps to its flight |
| FlightLayer.ExampleMapped | src/layers/FlightLayer.tsx:37-46 | The map over the airborne vector succeeds |
| FlightLayer.Pick | src/layers/FlightLayer.tsx:154-157 | `Math.floor(Math.random() * n)` is an index below n |
| FlightLayer.SimId | src/layers/FlightLayer.tsx:156 | Simulated ids start with `SIM` and have at least seven characters |
| FlightLayer.Scatter | src/layers/FlightLayer.tsx:158-159 | A scattered coordinate lies within the spread of the corridor centre |
| FlightLayer.Simulated | src/layers/FlightLayer.tsx:142-167 | `count` simulated flights are produced |
| FlightLayer.SimulatedAt | src/layers/FlightLayer.tsx:153-165 | Flight k is made from index k and the k-th draws |
| FlightLayer.GenerateSimulatedFlights | src/layers/FlightLayer.tsx:142-167 | The loop pushes one flight per index in order |
| FlightLayer.SimIdInjective | src/layers/FlightLayer.tsx:156 | Distinct indices give distinct ids, padded or not |
| FlightLayer.SimIdPadded | src/layers/FlightLayer.tsx:156 | Index 7 gives `SIM0007` |
| FlightLayer.SimIdUnpadded | src/layers/FlightLayer.tsx:156 | Index 12345 gives `SIM12345` |
| FlightLayer.SimulatedFlightShape | src/layers/FlightLayer.tsx:145-164 | A simulated flight has string id and airline callsign and is airborne. It lies in its corridor box, within lat [-35, 65) and lng [-105, 145), at altitude [8000, 12000), heading [0, 360) and velocity [200, 500) |
| FlightLayer.SimulatedFlightQualifies | src/layers/FlightLayer.tsx:155-163 | A simulated flight would pass the parse's own filter |
| FlightLayer.SimulatedIdsDistinct | src/layers/FlightLayer.tsx:153-156 | The flights of one batch have distinct ids, so the entity keys are unique |
| FlightLayer.Max | src/layers/FlightLayer.tsx:121-135 | `Math.max` is at least both arguments and is one of them |
| FlightLayer.MetersPerDegLng | src/layers/FlightLayer.tsx:121 | Metres per degree of longitude never fall below 1 |
| FlightLayer.Speed | src/layers/FlightLayer.tsx:122 | The speed is at least 120 m/s and at least the velocity |
| FlightLayer.SampleAt | src/layers/FlightLayer.tsx:127-136 | Each sample is three numbers |
| FlightLayer.TrackOf | src/layers/FlightLayer.tsx:116-136 | A flight has a numeric track exactly when its latitude, longitude, altitude, heading and velocity are all JSON numbers, and the track carries those numbers |
| FlightLayer.SimulatedFlightHasTrack | src/layers/FlightLayer.tsx:155-165 | Every simulated flight has a numeric track |
| FlightLayer.BuildEstimatedTrajectory | src/layers/FlightLayer.tsx:113-140 | The loop for i = -8..8 pushes the samples in order |
| FlightLayer.SamplesLength | src/layers/FlightLayer.tsx:124-137 | Each step pushes three numbers |
| FlightLayer.SampleOffset | src/layers/FlightLayer.tsx:124-137 | Step k sits at offset 3(k - lo) |
| FlightLayer.MiddleSample | src/layers/FlightLayer.tsx:127-136 | Step 0 is the current position, at the altitude clamped at 0 |
| FlightLayer.SymmetricSamples | src/layers/FlightLayer.tsx:127-136 | Steps -i and i lie at the same distance on either side of the current position |
| FlightLayer.TrajectoryShape | src/layers/FlightLayer.tsx:116-137 | The trajectory has 17 samples, 51 numbers. The middle sample is the current position, and every height is the altitude clamped at 0 |
| FlightLayer.FlightLayerState.constructor | src/layers/FlightLayer.tsx:24 | The layer starts with no flights and no counts reported |
| FlightLayer.FlightLayerState.Fetch | src/layers/FlightLayer.tsx:27-57 | Parsed flights replace the list and their count is reported. A body without `states` changes nothing. Any throw installs 500 simulated flights and reports 500. The last report always equals the number of flights held, never above 2000 |
| FlightLayer.FlightLayerState.Hide | src/layers/FlightLayer.tsx:63-65 | Hiding empties the list and reports 0 |
| FlightLayer.FlightLayerState.VisibilityChanged | src/layers/FlightLayer.tsx:59-70 | Becoming visible fetches, with the fetch's three outcomes: parsed flights replace the list and their count is reported, a body without `states` changes nothing, and a failure installs 500 simulated flights and reports 500. Becoming hidden empties the list and reports 0 |
| JsonValue.Element | src/layers/FlightLayer.tsx:35-45 | `s[i]` on an array is defined exactly for indices inside it, and is then the element at that index |
| JsonValue.OrElse | src/layers/FlightLayer.tsx:39-44 | `x \|\| y` is x when x is truthy and y otherwise |
| Constants.TablesShape | src/utils/constants.ts:15-107 | There are eight cities of five named landmarks each, and eight presets with `normal` first. The key of preset i is the digit i + 1 |
| JsRuntime.NatDigitsRoundTrip | src/utils/mgrs.ts:66 | `String(n)` for a natural number reads back as n |
| JsRuntime.PadStart | src/utils/mgrs.ts:66 | `padStart` keeps the string at the end and fills the front up to the width |
| JsRuntime.PaddedDigitsValue | src/utils/mgrs.ts:66 | Zero-padding digits keeps their value |
| JsRuntime.IntToStringChars | src/utils/mgrs.ts:66 | `String(n)` writes digits and, for negative n, one leading minus sign |
| JsRuntime.RoundHalfUp | src/utils/mgrs.ts:73 | `toFixed` rounds to the nearest, ties up |
| JsRuntime.ToFixedSign | src/utils/mgrs.ts:31 | `toFixed` writes a minus sign exactly for negative numbers, and only in front |
| JsRuntime.FixedDigitsFrom | src/utils/mgrs.ts:73 | `toFixed(f)` is the rounded digits with a point before the last f |
| JsRuntime.ScaledRound | src/components/GlobeViewer.tsx:162-168 | `Number(x.toFixed(d))` is within half a unit of x at d decimals, and negative exactly at or below -0.5 units (`(-0.5).toFixed(0)` is `-1`) |
| JsRuntime.ScaledRoundExact | src/components/GlobeViewer.tsx:167-168 | Rounding a whole number of units gives it back |
| JsRuntime.Rem | src/utils/mgrs.ts:21-64 | `%` on numbers keeps the sign of the dividend and has magnitude below the divisor |
| JsRuntime.RemPeriodic | src/utils/mgrs.ts:21-64 | Adding whole periods to a non-negative dividend leaves the remainder |
| JsRuntime.RemInt | src/utils/mgrs.ts:11 | `(zone - 1) % 6` truncates: negative dividends give non-positive remainders |
| JsRuntime.TrimStart | src/layers/FlightLayer.tsx:39 | Leading white space is removed, and only that |
| JsRuntime.TrimEnd | src/layers/FlightLayer.tsx:39 | Trailing white space is removed, and only that |
| JsRuntime.TrimIdempotent | src/layers/FlightLayer.tsx:39 | Trimming twice is trimming once |
| JsRuntime.TrimUnspaced | src/layers/FlightLayer.tsx:39 | A string without outer white space is its own trim |
| JsRuntime.ParseIntRoundTrip | src/App.tsx:248 | `parseInt(String(n))` is n |
| JsRuntime.ParseIntLetter | src/App.tsx:248 | A letter is not a number |
| JsRuntime.ParseFloatNonNumeric | src/App.tsx:67-69 | Text that starts with no sign, digit, point or space is not a finite number: NaN, or Infinity for text starting with `Infinity` |
| JsRuntime.ReplaceAllAbsent | src/App.tsx:72-73 | `replaceAll` returns a string without the pattern unchanged |
| JsRuntime.ToLowerAscii | src/App.tsx:256 | `toLowerCase` lowers A-Z and keeps every other character |
| JsRuntime.IndexOf | src/App.tsx:256 | `indexOf` is the first position of x, or -1 exactly when x is absent |

## Left out

- Floating point. Numbers are exact reals, so NaN, the infinities and binary rounding are not modelled. `toFixed` rounds the exact decimal value, ties up, where the engine rounds the nearest double. The camera position handed to the tracker is finite.
- JsRuntime.ToFixed: prints the fixed-point form at every magnitude. From 1e21 up, JavaScript's `toFixed` prints `String(x)` in exponent form (`1e+21`), which is not modelled.
- Mgrs.DecimalFallback: for a latitude or a longitude of magnitude 1e21 or more, the source prints the exponent form. The model prints the full digit string there, and Mgrs.FallbackExactly and Mgrs.FallbackSigns describe that text. Below 1e21 they match the source.
- The transverse-Mercator series in `src/utils/mgrs.ts:38-58` (trigonometry on doubles) is the `project` parameter of `Mgrs.LatLngToMgrs`.
- Cesium:
  - The queries `getPickRay`, `pickEllipsoid`, `globe.pick`, `pickPosition`, `rayEllipsoid`, `Ray.getPoint` and `computeViewRectangle` are the fields of `GlobeViewer.Probe`.
  - `cartesianToCartographic` with `toDegrees` is the `toCartographic` parameter.
  - The `onCameraMove` callback is the tracker's report log.
- `Math.cos`, `Math.sin` and `Math.PI` in the trajectory are parameters. The conversion `Cartesian3.fromDegreesArrayHeights` is not part of this model: `FlightLayer.BuildEstimatedTrajectory` returns the flat list of degrees and heights.
- `Math.random` is the explicit `Draws` input of the simulated flights.
- `toLocaleString` of the flights count is a parameter of the insight texts.
- Number printing (`String(n)`) is the `show` parameter of the sanitiser. It prints the fallback id's coordinates. It also prints a numeric `lat` or `lng` before `parseFloat` reads it back, so whether a JSON number is kept depends on `show`. App.NumericCoordinate assumes that reading back a printed number gives that number. JavaScript guarantees this for every finite double.
- FlightLayer.BuildEstimatedTrajectory: only flights whose five fields are numbers (FlightLayer.TrackOf) are modelled. A string or boolean that passes the `!= null` filter would be concatenated or coerced by the source's arithmetic.
- `toLowerCase` lowers ASCII letters only, which covers every key the shortcuts compare against.
- The `heading` field of landmarks is not modelled; no landmark in the tables has one.
- I/O and timers, because they are network, media or scheduling:
  - 3D-tile loading and its retries;
  - `flyTo`;
  - HLS video playback and the loading timer;
  - the `fetch` calls themselves (a failed request is the `Unavailable` response);
  - the 30-second refresh interval;
  - the DeepSeek request effect.
- JSX rendering, including the `idx < 300` limit on drawn trajectories and the callsign labels.
- The other random generators and animations, because they are `Math.random` plus trigonometry:
  - military flights;
  - traffic particles;
  - satellites;
  - earthquakes.
- The presentation components (HUD, sidebars, style buttons, location panel, CCTV and military layers), because they only pass values through.
- GlobeViewer.CameraTracker.Handle: reports are compared as rounded integers. The source compares doubles, so a non-finite camera value is not modelled.

The model follows the code where a description of the program might say otherwise:
- The out-of-range guard is `lat > 84`, so latitude 84 takes the grid path.
- The decimal fallback prints the latitude signed, so `-85.0000°S` appears with both a minus sign and `S`, while the longitude is printed as an absolute value.

## Findings

| source | as written | input that shows it | evidently intended | confidence | as-written member | corrected member |
|---|---|---|---|---|---|---|
| src/utils/mgrs.ts:72-75 | The minutes are rounded by `toFixed(2)` after the whole degrees are taken, so they can round up to 60.00 without carrying into the degrees | latitude 0.99999 prints `0°60.00` | `1°0.00`: minutes always below 60 | not executed | Mgrs.MinutesReachSixty | Mgrs.DegreesMinutesCarried, Mgrs.DegreesMinutesCarriedSpec |
