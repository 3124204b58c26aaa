# Mercator world map: view-state model

A Dafny model of the view-state logic of an interactive world-map viewer: a
Mercator map the user pans by dragging, arrow keys and arrow buttons, with
colour themes, settings that persist in local storage and in the URL, three
horizontally shifted copies of the world for seamless panning across the
antimeridian, and a small orthographic globe indicator.

Modules:

- `Geo`: `[lon, lat]` positions as exact reals, JavaScript's truncated remainder, and the
  normalised longitude shown in the coordinates display.
- `Camera`: `calculateNewPosition`, the arrow-key handler, the arrow buttons and reset.
- `Drag`: the drag state machine (`dragRef`, `lastMousePosRef`, `isDragging`).
- `Input`: every input event as one transition function over position and drag state.
- `Themes`: the ten keys of `colorThemes`, their display names, the key check applied to
  untrusted strings, and the theme selector's items.
- `Settings`: the startup load from URL and storage, the save effect, and the query
  parameters written by the debounced URL update and by the Share button.
- `WorldCopies`: the Mercator projection parameters, the feature coordinate shift, and
  the layer list of one map render.
- `Globe`: the globe widget's projection, equator, prime meridian and draw elements.

Abstractions: positions are exact `real`s, and IEEE-754 rounding is not modelled.
`parseFloat`, `toString`, `JSON.parse` and `JSON.stringify` are the function fields
of a `Codec`. No round trip is assumed of them in general. The round-trip lemmas
assume, only for the position being saved or shared, that it prints to a
non-empty string that parses back to it. Local storage and the query
string are `map<string, string>`, and a missing key stands for `null`. The drawing
library's projections are not computed; the model keeps the parameters handed to them.
`CentredOn` states the library's rotation convention: `rotate([a, b, 0])` brings
`(-a, -b)` to the centre of the view.

## Model

| member | source | states |
|---|---|---|
| Geo.JsRem360 | components/mercator-map.tsx:568 | JavaScript `%` by 360 lies strictly between -360 and 360, carries the sign of the dividend, and differs from it by whole turns |
| Geo.NormalizeLongitude | components/mercator-map.tsx:568 | the displayed longitude lies in [-180, 180) and is on the same meridian as the input (differs by a multiple of 360) |
| Geo.NormalizeInRange | components/mercator-map.tsx:568 | a longitude already in [-180, 180) is displayed unchanged |
| Geo.NormalizeUnique | components/mercator-map.tsx:568 | at most one longitude in [-180, 180) lies on a given meridian, so the display value is determined by the meridian alone |
| Geo.NormalizeIsFloorForm | components/mercator-map.tsx:568 | the display formula equals the independent reference `L - 360 * floor((L + 180) / 360)` |
| Geo.NormalizeFullTurn | components/mercator-map.tsx:568 | moving a full turn east leaves the displayed longitude unchanged |
| Geo.NormalizeIdempotent | components/mercator-map.tsx:568 | normalising a displayed longitude again changes nothing |
| Geo.Displayed | components/mercator-map.tsx:600 | the coordinates display shows the latitude as is and a longitude in [-180, 180) on the camera's meridian |
| Camera.Step | components/mercator-map.tsx:469-487 | up/down change only latitude by +step/-step; right/left change only longitude by +step/-step |
| Camera.StepThenOpposite | components/mercator-map.tsx:469-487 | up then down (left then right, and so on) by the same step restores the position |
| Camera.StepsAdd | components/mercator-map.tsx:469-487 | two steps in one direction equal one step of the summed length |
| Camera.KeyDirection | components/mercator-map.tsx:501-516 | exactly the four arrow key names select a direction, each its own one |
| Camera.PreventedKeysAreMovingKeys | components/mercator-map.tsx:494-516 | the keys whose scrolling is suppressed are exactly the keys that move the map |
| Camera.OnKeyDown | components/mercator-map.tsx:492-520 | an arrow key moves 5 degrees in its direction; any other key leaves the position unchanged |
| Camera.MoveMap | components/mercator-map.tsx:535-539 | an arrow button changes exactly one coordinate by exactly 10 degrees |
| Camera.Reset | components/mercator-map.tsx:530-532 | reset yields `[0, 0]` from any position |
| Camera.TwoKeyPressesAreOneClick | components/mercator-map.tsx:498 | two presses of an arrow key move as far as one click of the matching button |
| Drag.OnMouseDown | components/mercator-map.tsx:426-430 | mousedown starts a drag at the pointer, leaves the camera where it is, and keeps the bookkeeping consistent |
| Drag.OnMouseMove | components/mercator-map.tsx:432-448 | with no drag or no last pointer, a move is a no-op; during a drag, a move of (dx, dy) yields (lon - 0.25 dx, lat + 0.25 dy) and records the new pointer |
| Drag.OnMouseUp | components/mercator-map.tsx:450-454 | mouseup clears the dragging flag, the last pointer and the grabbing cursor, and does not move the camera |
| Drag.DragTelescopes | components/mercator-map.tsx:432-448 | over any path of moves in one drag, the camera moves by 0.25 degrees per pixel between the drag's last pointer and the path's final pointer |
| Drag.MovesWithoutDragAreIgnored | components/mercator-map.tsx:433 | pointer moves with no drag in progress change nothing |
| Drag.DragBackToStart | components/mercator-map.tsx:426-454 | press, move back to the press point, release: the camera ends where it started and the drag state is idle |
| Input.Apply | components/mercator-map.tsx:426-538 | keys, buttons and reset never touch drag state; press and release never move the camera; reset yields the origin; consistency is preserved |
| Input.RunKeepsConsistent | components/mercator-map.tsx:161-162 | from a consistent start, every event sequence keeps "a pointer is recorded exactly while dragging, and the cursor agrees" |
| Input.OtherKeysIgnored | components/mercator-map.tsx:514-515 | a non-arrow key leaves the whole view unchanged |
| Themes.ParseTheme | components/mercator-map.tsx:199-206 | a string is accepted as a theme exactly when it is a key of `colorThemes`, and the theme has that key |
| Themes.ParseKeyName | components/mercator-map.tsx:32-155 | every theme's key is among the keys and reads back as that theme |
| Themes.KeysDistinct | components/mercator-map.tsx:32-153 | distinct themes have distinct keys, and the key list has no repeats |
| Themes.SelectorMatchesThemes | components/mercator-map.tsx:737-746 | the selector's ten values are the keys of `colorThemes` in the same order, each labelled with its theme's `name` |
| Settings.LoadPosition | components/mercator-map.tsx:185-197 | a query with non-empty `lon` and `lat` wins; otherwise a stored position that parses is used; otherwise the position is unchanged |
| Settings.QueryPositionIgnoresStorage | components/mercator-map.tsx:185-186 | when the query carries a position, the stored value has no influence |
| Settings.ThemeFrom | components/mercator-map.tsx:199-203 | a theme is found under a name exactly when its value is a key of `colorThemes` |
| Settings.LoadTheme | components/mercator-map.tsx:199-206 | the loaded theme is always a key; a valid query theme wins, then a valid stored theme, then the current one |
| Settings.LoadShowRotation | components/mercator-map.tsx:208-211 | a stored value makes the flag true iff it equals "true"; with none stored the flag is unchanged |
| Settings.ShowRotationRoundTrip | components/mercator-map.tsx:220 | loading the string that `String(showRotation)` saves gives the flag back |
| Settings.Load | components/mercator-map.tsx:177-213 | the mount effect takes each setting from its own resolution (position from query or storage, theme from query or storage, flag from storage), and with no usable source in either place leaves the current settings unchanged |
| Settings.Startup | components/mercator-map.tsx:168-211 | a fresh page starts at `[0, 0]` when the query has no position and the stored one is missing or fails to parse, at theme "classic" when neither source names a valid theme, and with coordinates shown when no flag is stored |
| Settings.Save | components/mercator-map.tsx:216-222 | the save effect writes the JSON of the position, the theme key and `String(showRotation)` to the three storage items, and keeps every other item |
| Settings.SaveThenLoad | components/mercator-map.tsx:180-222 | with no position or valid theme in the query, loading what was saved restores position, theme and flag exactly, for any position whose JSON is non-empty and parses back to it |
| Settings.ShareQuery | components/mercator-map.tsx:234-237 | the URL update sets `lon`, `lat` and `theme` (handleShare at lines 549-552 builds the same) and keeps every other parameter |
| Settings.ShareThenLoad | components/mercator-map.tsx:549-552 | opening a shared link restores its position and theme whatever the recipient's storage holds, for any position whose coordinates print to non-empty strings that parse back to them |
| WorldCopies.ShiftRing | components/mercator-map.tsx:330-332 | ring length is preserved, each longitude moves by exactly the offset and each latitude is kept |
| WorldCopies.ShiftPolygon | components/mercator-map.tsx:329-333 | a polygon keeps its number of rings, and each ring is shifted |
| WorldCopies.ShiftPolygons | components/mercator-map.tsx:335-341 | a multi-polygon keeps its number of polygons, and each polygon is shifted |
| WorldCopies.ShiftGeometry | components/mercator-map.tsx:327-342 | Polygon and MultiPolygon keep their type and nesting and are shifted; every other geometry type is returned unchanged |
| WorldCopies.ShiftFeature | components/mercator-map.tsx:327-343 | a shifted clone keeps the feature's name and shifts only its geometry |
| WorldCopies.ShiftGeometryInverse | components/mercator-map.tsx:327-342 | shifting by `o` and then by `-o` gives back the original geometry |
| WorldCopies.ShiftAll | components/mercator-map.tsx:316-325 | every feature of a collection is drawn shifted, none added or dropped, order kept |
| WorldCopies.MercatorProjection | components/mercator-map.tsx:281-287 | the map projection is centred on the camera position, translated to the middle of the map, and fitted to min(width, 2 * height) |
| WorldCopies.CopiesLayers | components/mercator-map.tsx:316-382 | for each offset in order, a land group and then a country group of features shifted by that offset |
| WorldCopies.CreateMap | components/mercator-map.tsx:271-383 | nothing is drawn without data or with a zero dimension; otherwise background, graticule, then land and country groups for exactly the offsets -360, 0 and +360, with the view centred on the camera |
| WorldCopies.CopiesAreWholeTurns | components/mercator-map.tsx:314 | there are three copies, one full turn apart, all on the meridians of the original |
| Globe.Keys | components/globe-widget.tsx:70 | `[...Array(n).keys()]` has n elements, element i being i |
| Globe.Equator | components/globe-widget.tsx:70 | the equator has exactly 361 points, point i being `[i - 180, 0]` |
| Globe.EquatorSpan | components/globe-widget.tsx:70 | the equator runs from `[-180, 0]` to `[180, 0]` in 1-degree steps on latitude 0 |
| Globe.PrimeMeridian | components/globe-widget.tsx:80 | the prime meridian has exactly 181 points, point i being `[0, i - 90]` |
| Globe.PrimeMeridianSpan | components/globe-widget.tsx:80 | the prime meridian runs from `[0, -90]` to `[0, 90]` in 1-degree steps on longitude 0 |
| Globe.GlobeRotationAsWritten | components/globe-widget.tsx:42 | the widget's rotation `[lon, -lat, 0]` centres the globe on `(-lon, lat)` |
| Globe.GlobeAsWrittenMirrorsLongitude | components/globe-widget.tsx:42 | at camera (90, 0) the map is centred on 90 E but the globe as written on 90 W |
| Globe.GlobeRotation | components/globe-widget.tsx:42 | the corrected rotation `[-lon, -lat, 0]` centres the globe on the camera position |
| Globe.GlobeProjection | components/globe-widget.tsx:38-42 | the projection is translated to `(size/2, size/2)` with scale `size/2 - 2`, as at lines 40-41; its rotation is the corrected one from the Findings table, so it is centred on the camera (the widget as written is centred on `(-lon, lat)`) |
| Globe.Redraw | components/globe-widget.tsx:32-95 | a render leaves exactly five elements, in order: an outline on the projected rim, the graticule, the equator, the prime meridian, and a radius-2 marker at the projection centre; the paths use the corrected projection of `Globe.GlobeProjection` |
| Globe.GlobeAndMapAgree | components/mercator-map.tsx:286 | with the corrected rotation, the globe and the map look at the same point |

## Findings

| source | as written | input that shows it | evidently intended | confidence | as-written member | corrected member |
|---|---|---|---|---|---|---|
| components/globe-widget.tsx:42 | the globe is rotated by `[lon, -lat, 0]`, while the map at mercator-map.tsx:286 uses `[-lon, -lat, 0]`, so the globe centres `(-lon, lat)` | camera `(90, 0)`: the map is centred on 90 E, the globe (and its centre marker) on 90 W | the globe rotates with the map and its centre marker shows the camera position: `[-lon, -lat, 0]` | medium (relies on the drawing library's rotation convention); not executed | Globe.GlobeAsWrittenMirrorsLongitude | Globe.GlobeRotation |

`Globe.GlobeProjection` and `Globe.Redraw` use the corrected rotation.

## Left out

- D3 projection math (Mercator scale with pi, orthographic projection, path and graticule generation): foreign library calls and floating-point trigonometry. Only their parameters are kept.
- Topology-to-GeoJSON conversion and the network fetch in `loadGeoData` (mercator-map.tsx:253-268): a foreign call and I/O. The loaded data is an `Option<GeoData>` input to `CreateMap`.
- Local storage, `window.location`, `history.replaceState` and the clipboard: replaced by maps of strings. Query-parameter order and URL serialisation are not modelled.
- The 500 ms debounce of the URL update and the 2 s share-success timeout: timers and event-loop scheduling.
- React hook lifecycles, listener registration, resize handling (window size minus 40), the menu toggle and the `svgRef` null checks.
- Colour values of the themes, JSX markup, and `toFixed(2)` formatting of the display.
- Settings.LoadPosition: `parseFloat` returning NaN for a non-numeric `lon`/`lat` is not modelled. Nor is `JSON.parse` returning a value that is not a `[lon, lat]` pair, which the source stores unchecked. The `Codec` gives a number for every string and either a position or a failure for a stored value.
- Globe.GlobeProjection: uses the corrected rotation `[-lon, -lat, 0]` from the Findings table instead of the widget's `[lon, -lat, 0]` (globe-widget.tsx:42). The widget as written is stated by `Globe.GlobeRotationAsWritten`, whose centre is `(-lon, lat)`.
- Globe.Redraw: its graticule, equator and prime-meridian paths carry the corrected projection of `Globe.GlobeProjection`, not the widget's as-written rotation. The element order and both circles are as in the widget.
- Drag.OnMouseMove: the source handler reads `position` from the render that registered it. If two moves arrive before a re-render, the second computes from the older position. The model assumes each move sees the previous move's result.
- Camera.Step: the unreachable `default` branch of `calculateNewPosition` is not modelled, because the direction type has exactly four values.
- WorldCopies.ShiftRing: coordinates are `[lon, lat]` pairs. The source's `[coord[0] + offset, coord[1]]` would also drop a third (altitude) component, which is not modelled.
- Theme changes through the selector (`handleThemeChange`, mercator-map.tsx:542-544) are modelled only through `Themes.SelectorMatchesThemes`, which shows that the selector offers only valid keys.
- app/layout.tsx and app/page.tsx: page markup and metadata.
