# Polygon map, notification templates and upload-settings helpers, in Dafny

This project models five frontend files of a Metabase fork and proves properties of the model.

- **PinMap** (`pin_map.dfy`) is the experimental geofence map component. Its `_getPoints` reads a polygon column written as WKT, `POLYGON ((lng lat, lng lat, ...))`. It turns every vertex into a `[lat, lng, 1]` point and drops points that lack a coordinate. Then it:
  - warns how many were dropped;
  - filters the rows by the same flags;
  - computes the map bounds (the whole world when there is no point), widened at the north-east corner by the coordinate columns' bin widths;
  - computes the metric range.

  The component keeps the unsaved centre and zoom, saves them as settings, and shows a detail modal. It recomputes its points only when the data object or one of three watched settings changes.
- **FccPolygonMap** (`fcc_polygon_map.dfy`) is the Leaflet layer that draws the polygons. `_addPolygonLayer`:
  - parses each truthy polygon cell of each series as JSON: a list of GeoJSON rings;
  - swaps every `[lng, lat]` position into `[lat, lng]`;
  - removes the layers it drew before and adds one layer per polygon;
  - attaches hover and click handlers, whose payloads are built from the row at the layer's index.

  Everything thrown is caught. A `JSON.parse` error happens before any layer is touched. If Leaflet's `L.polygon` rejects a polygon (a vertex with an undefined coordinate), the old layers are already gone, and only the layers before that polygon were drawn.
- **Map** (`map_settings.dfy`) is the "Geofence and Marker Map" visualization. It covers the keys, defaults and hidden-rules of its settings, its sensibility test and its re-render test.
- **NotificationChannelsPicker** (`notification_channels_picker.dfy`) covers:
  - the custom-template state: the `templateReducer` state machine and the initial state built from existing handlers;
  - the blur validation of the template inputs;
  - the edits made to the list of notification handlers: add, change and remove a channel, and write templates into handlers.
- **UploadSettings** (`upload_settings.dfy`) covers the select options for databases and schemas and `dbHasSchema`.

Shared modules:

- `wrappers.dfy` holds `Option` and `Result`.
- `js_text.dfy` holds the JavaScript string operations the core uses: `trim`, `split` on one character, and `replace` of the first occurrence.
- `query_data.dfy` holds query-result cells, JavaScript truthiness, columns, settings and `findIndex`.

Modelling conventions:

- Where the components mutate state, the model uses classes with `modifies` clauses: `PinMapView`, `FccPolygonMapView`, `LeafletSurface` and `PolygonLayer`.
- The loops of `_getPoints`, `_addPolygonLayer` and `extractTemplateData` are methods. Each loop is proved equal to a recursive specification function, and the properties are proved about that function.
- `Number(...)` is a parameter `toNumber`, and so is `JSON.parse`, as `parse`. So are the column-type tests (`isPK`, `isLatitude`, `isLongitude`, `hasPolygon`) and `isSameSeries`, and `accepts`, which says whether Leaflet's `L.polygon` accepts a polygon or throws. Each is an arbitrary total function, and every result holds for all of them.

## Model

| member | source | states |
|---|---|---|
| JsText.TrimStart | frontend/src/metabase/notifications/modals/shared/components/NotificationChannels/NotificationChannelsPicker/NotificationChannelsPicker.tsx:123-124 | the result is a suffix of the input, what it drops is whitespace, and it does not start with whitespace |
| JsText.TrimEnd | frontend/src/metabase/notifications/modals/shared/components/NotificationChannels/NotificationChannelsPicker/NotificationChannelsPicker.tsx:123-124 | the result is a prefix of the input, what it drops is whitespace, and it does not end with whitespace |
| JsText.Trim | frontend/src/metabase/notifications/modals/shared/components/NotificationChannels/NotificationChannelsPicker/NotificationChannelsPicker.tsx:123-124 | `trim()` is the slice of the input between a whitespace run at the front and one at the back, and neither starts nor ends with whitespace |
| JsText.TrimBlankIff | frontend/src/metabase/notifications/modals/shared/components/NotificationChannels/NotificationChannelsPicker/NotificationChannelsPicker.tsx:123-124 | `!!s.trim()` is false exactly when `s` is all whitespace |
| JsText.TrimUnchanged | frontend/src/metabase/visualizations/components/FccPolygonMapExperimental/PinMap.jsx:232 | a string with no whitespace at either end is its own trim |
| JsText.Split | frontend/src/metabase/visualizations/components/FccPolygonMapExperimental/PinMap.jsx:230-232 | `split(c)` gives one more piece than there are `c`s, and no piece contains `c` |
| JsText.JoinSplit | frontend/src/metabase/visualizations/components/FccPolygonMapExperimental/PinMap.jsx:230 | joining the pieces with the separator gives back the string |
| JsText.SplitJoin | frontend/src/metabase/visualizations/components/FccPolygonMapExperimental/PinMap.jsx:230 | splitting a join of separator-free pieces gives back the pieces |
| JsText.SplitNoSeparator | frontend/src/metabase/visualizations/components/FccPolygonMapExperimental/PinMap.jsx:232 | a string without the separator splits into itself |
| JsText.SplitPrefix | frontend/src/metabase/visualizations/components/FccPolygonMapExperimental/PinMap.jsx:232 | splitting `head + c + tail` gives `head` followed by the pieces of `tail` |
| JsText.IndexOfFrom | frontend/src/metabase/visualizations/components/FccPolygonMapExperimental/PinMap.jsx:228-229 | the first match at or after a position, or none when nothing matches there |
| JsText.ReplaceFirst | frontend/src/metabase/visualizations/components/FccPolygonMapExperimental/PinMap.jsx:228-229 | `replace(pat, rep)` with a string pattern: unchanged without a match, otherwise only the first match is replaced |
| QueryData.CellAt | frontend/src/metabase/visualizations/components/FccPolygonMapExperimental/PinMap.jsx:220 | `row[i]` is the cell when `i` is in range and falsy (`undefined`) otherwise |
| QueryData.FindIndex | frontend/src/metabase/visualizations/components/FccPolygonMap/FccPolygonMap.jsx:30 | the first index satisfying the test, or -1 exactly when none does |
| QueryData.ColumnIndex | frontend/src/metabase/visualizations/components/FccPolygonMapExperimental/PinMap.jsx:202-213 | the first column named by the setting, or -1 exactly when no column has that name (a non-string setting matches nothing) |
| QueryData.ColumnAt | frontend/src/metabase/visualizations/components/FccPolygonMapExperimental/PinMap.jsx:274-281 | `cols[i]` is defined exactly when `i` is in range |
| PinMap.ParseVertex | frontend/src/metabase/visualizations/components/FccPolygonMapExperimental/PinMap.jsx:231-234 | each piece becomes `[lat, lng]`: the longitude is always defined, and the latitude is defined exactly when the trimmed piece holds a space |
| PinMap.ParsePolygon | frontend/src/metabase/visualizations/components/FccPolygonMapExperimental/PinMap.jsx:228-234 | after the wrapper is stripped there is one vertex per comma-separated piece, in order |
| PinMap.WktRoundTrip | frontend/src/metabase/visualizations/components/FccPolygonMapExperimental/PinMap.jsx:228-234 | a ring written as WKT from `(lng, lat)` words is read back as `[lat, lng]` numbers, one vertex per pair, in order |
| PinMap.WktExample | frontend/src/metabase/visualizations/components/FccPolygonMapExperimental/PinMap.jsx:228-234 | `POLYGON ((10 20, 11 21, 12 22))` reads as `[20,10], [21,11], [22,12]` |
| PinMap.ExampleFormatted | frontend/src/metabase/visualizations/components/FccPolygonMapExperimental/PinMap.jsx:228-230 | that example string is the WKT written from its three coordinate pairs |
| PinMap.RowVertices | frontend/src/metabase/visualizations/components/FccPolygonMapExperimental/PinMap.jsx:220-241 | a falsy cell contributes nothing; the row throws exactly when its cell is truthy and not a string |
| PinMap.RowVerticesOfString | frontend/src/metabase/visualizations/components/FccPolygonMapExperimental/PinMap.jsx:220-234 | a non-empty string cell contributes the vertices parsed from it |
| PinMap.PolygonListNoColumn | frontend/src/metabase/visualizations/components/FccPolygonMapExperimental/PinMap.jsx:210-242 | with polygon index -1 every cell is `undefined` and nothing is extracted |
| PinMap.PolygonListFailsIff | frontend/src/metabase/visualizations/components/FccPolygonMapExperimental/PinMap.jsx:219-242 | the rows throw exactly when some row's cell is truthy and not a string |
| PinMap.PolygonListUnsnoc | frontend/src/metabase/visualizations/components/FccPolygonMapExperimental/PinMap.jsx:219-242 | when all rows succeed, their vertices are those of the rows before the last, then the last row's |
| PinMap.PolygonListSingle | frontend/src/metabase/visualizations/components/FccPolygonMapExperimental/PinMap.jsx:219-242 | a single row contributes its own vertices |
| PinMap.PolygonListSnoc | frontend/src/metabase/visualizations/components/FccPolygonMapExperimental/PinMap.jsx:235-240 | one more row appends its vertices after those already collected |
| PinMap.PolygonListThrowsAt | frontend/src/metabase/visualizations/components/FccPolygonMapExperimental/PinMap.jsx:219-242 | a throwing row makes the whole extraction throw its error |
| PinMap.PolygonListFailurePersists | frontend/src/metabase/visualizations/components/FccPolygonMapExperimental/PinMap.jsx:219-242 | once a prefix of the rows throws, every longer prefix throws the same error |
| PinMap.ValidFlagsIgnoreMapType | frontend/src/metabase/visualizations/components/FccPolygonMapExperimental/PinMap.jsx:248-254 | with every metric 1, both branches of the test give the same flags |
| PinMap.KeptIndices | frontend/src/metabase/visualizations/components/FccPolygonMapExperimental/PinMap.jsx:255-256 | the kept indices increase, lie within range, and are exactly those whose flag is true |
| PinMap.FilterByFlagsKeeps | frontend/src/metabase/visualizations/components/FccPolygonMapExperimental/PinMap.jsx:255-256 | the filter is the order-preserving subsequence at the kept indices |
| PinMap.FilterByFlagsDropsNothingIff | frontend/src/metabase/visualizations/components/FccPolygonMapExperimental/PinMap.jsx:255-259 | with as many flags as items, nothing is dropped exactly when every flag holds |
| PinMap.FilterIgnoresFlagTail | frontend/src/metabase/visualizations/components/FccPolygonMapExperimental/PinMap.jsx:256 | flags past the end of the rows are never read |
| PinMap.FilteredPointsLocated | frontend/src/metabase/visualizations/components/FccPolygonMapExperimental/PinMap.jsx:248-255 | every kept point has both coordinates |
| PinMap.BoxOf | frontend/src/metabase/visualizations/components/FccPolygonMapExperimental/PinMap.jsx:17-20 | with no points the bounds are `WORLD_BOUNDS` |
| PinMap.BoxOfTight | frontend/src/metabase/visualizations/components/FccPolygonMapExperimental/PinMap.jsx:269 | over points the box contains every point and each edge touches one |
| PinMap.AdjustNorthEast | frontend/src/metabase/visualizations/components/FccPolygonMapExperimental/PinMap.jsx:283-288 | only the north-east corner moves: east by the bin width and north by the bin height, each only when present |
| PinMap.FlagsOf | frontend/src/metabase/visualizations/components/FccPolygonMapExperimental/PinMap.jsx:248-254 | for the extracted vertices, flag `i` holds exactly when vertex `i` has both coordinates |
| PinMap.GetPoints | frontend/src/metabase/visualizations/components/FccPolygonMapExperimental/PinMap.jsx:192-291 | the imperative `_getPoints` computes exactly its specification: the same error, or the same rows, points, bounds, range, bin sizes and warnings |
| PinMap.GetPointsSpec | frontend/src/metabase/visualizations/components/FccPolygonMapExperimental/PinMap.jsx:192-291 | the specification `_getPoints` is proved against; its properties are stated by `GetPointsFailsIff`, `PointsOfKeeps`, `WarningsOfCount`, `RowsOfKeeps`, `BoundsOfAdjusted` and `RangeOfPoints` |
| PinMap.AppendVertices | frontend/src/metabase/visualizations/components/FccPolygonMapExperimental/PinMap.jsx:235-240 | the `polI` loop appends the row's vertices in order |
| PinMap.Derive | frontend/src/metabase/visualizations/components/FccPolygonMapExperimental/PinMap.jsx:243-290 | the code after the rows loop computes the specified extraction |
| PinMap.WidenedBounds | frontend/src/metabase/visualizations/components/FccPolygonMapExperimental/PinMap.jsx:269-288 | the bounds, mutated in place, end as the box of the points adjusted by the bin sizes |
| PinMap.GetPointsFailsIff | frontend/src/metabase/visualizations/components/FccPolygonMapExperimental/PinMap.jsx:219-242 | `_getPoints` throws exactly when some row's polygon cell is truthy and not a string |
| PinMap.PointsOfKeeps | frontend/src/metabase/visualizations/components/FccPolygonMapExperimental/PinMap.jsx:243-255 | the points are `[lat, lng, 1]`, in order, from exactly the vertices with both coordinates |
| PinMap.WarningsOfCount | frontend/src/metabase/visualizations/components/FccPolygonMapExperimental/PinMap.jsx:258-264 | there is one warning carrying the number of dropped points exactly when some vertex lacks a coordinate, and otherwise none |
| PinMap.RowsOfKeeps | frontend/src/metabase/visualizations/components/FccPolygonMapExperimental/PinMap.jsx:256 | row `i` is kept exactly when vertex `i` exists and is valid, in row order |
| PinMap.BoundsOfAdjusted | frontend/src/metabase/visualizations/components/FccPolygonMapExperimental/PinMap.jsx:269-288 | the bounds are the world or the points' box, with only the north-east corner moved by the bin widths present |
| PinMap.RangeOfPoints | frontend/src/metabase/visualizations/components/FccPolygonMapExperimental/PinMap.jsx:271-272 | min equals max, and both are 1 when there are points and undefined when there are none |
| PinMap.GetPointsNoPolygonColumn | frontend/src/metabase/visualizations/components/FccPolygonMapExperimental/PinMap.jsx:210-269 | without a matching polygon column: no points, no rows, no warning, no range, and the world bounds before the bin adjustment |
| PinMap.RowsFilteredByVertexPosition | frontend/src/metabase/visualizations/components/FccPolygonMapExperimental/PinMap.jsx:255-256 | rows are filtered by vertex position: with rows `[null]` and `[POLYGON ((1 2))]` the first row is kept and the second dropped |
| PinMap.RecomputeIff | frontend/src/metabase/visualizations/components/FccPolygonMapExperimental/PinMap.jsx:152-167 | points are kept exactly when the data object is the same and the three watched settings agree |
| PinMap.ShouldRecompute | frontend/src/metabase/visualizations/components/FccPolygonMapExperimental/PinMap.jsx:152-167 | the recompute test of `componentWillReceiveProps`; stated by `RecomputeIff` |
| PinMap.SavedView | frontend/src/metabase/visualizations/components/FccPolygonMapExperimental/PinMap.jsx:169-180 | a key for each set view value, holding that value, and no other key |
| PinMap.PinMapView.constructor | frontend/src/metabase/visualizations/components/FccPolygonMapExperimental/PinMap.jsx:110-122 | no unsaved view, modal closed and empty, not filtering, plus the derived points |
| PinMap.PinMapView.ToggleModal | frontend/src/metabase/visualizations/components/FccPolygonMapExperimental/PinMap.jsx:124-131 | the modal flips and shows the given data; nothing else changes |
| PinMap.PinMapView.OnMapCenterChange | frontend/src/metabase/visualizations/components/FccPolygonMapExperimental/PinMap.jsx:184-186 | the centre is set and nothing else changes |
| PinMap.PinMapView.OnMapZoomChange | frontend/src/metabase/visualizations/components/FccPolygonMapExperimental/PinMap.jsx:188-190 | the zoom is set and nothing else changes |
| PinMap.PinMapView.UpdateSettings | frontend/src/metabase/visualizations/components/FccPolygonMapExperimental/PinMap.jsx:169-182 | the saved settings are the old view, and the view is cleared |
| PinMap.PinMapView.ReceiveProps | frontend/src/metabase/visualizations/components/FccPolygonMapExperimental/PinMap.jsx:152-167 | the points are recomputed exactly when the test says so. On an error nothing changes; otherwise the new points and warnings are installed |
| PinMap.Mount | frontend/src/metabase/visualizations/components/FccPolygonMapExperimental/PinMap.jsx:110-122 | construction fails exactly when `_getPoints` throws; otherwise it gives a fresh view with the initial state |
| PinMap.IsSensible | frontend/src/metabase/visualizations/components/FccPolygonMapExperimental/PinMap.jsx:93-95 | `isSensible` is the given `hasPolygon(cols)` test; it is used by `MapSettings.IsSensible` and stated there by `MapSettings.IsSensibleIff` |
| FccPolygonMap.SwapRingVertices | frontend/src/metabase/visualizations/components/FccPolygonMap/FccPolygonMap.jsx:38-44 | one vertex per position, latitude first; a position with two numbers gives both coordinates |
| FccPolygonMap.SwapRoundTrip | frontend/src/metabase/visualizations/components/FccPolygonMap/FccPolygonMap.jsx:38-44 | for `[lng, lat]` pairs, swapping back gives the ring |
| FccPolygonMap.SwapRingLoop | frontend/src/metabase/visualizations/components/FccPolygonMap/FccPolygonMap.jsx:38-44 | the `coorI` loop computes the swapped ring |
| FccPolygonMap.RowPolygons | frontend/src/metabase/visualizations/components/FccPolygonMap/FccPolygonMap.jsx:34-47 | a falsy cell contributes nothing; the row fails exactly when its truthy cell does not parse |
| FccPolygonMap.RowsPolygonsSnoc | frontend/src/metabase/visualizations/components/FccPolygonMap/FccPolygonMap.jsx:33-48 | one more row appends its polygons |
| FccPolygonMap.RowsPolygonsThrowAt | frontend/src/metabase/visualizations/components/FccPolygonMap/FccPolygonMap.jsx:33-48 | a row that does not parse makes the series throw its error |
| FccPolygonMap.AllPolygonsSnoc | frontend/src/metabase/visualizations/components/FccPolygonMap/FccPolygonMap.jsx:28-50 | one more series appends its polygons |
| FccPolygonMap.AllPolygonsThrowAt | frontend/src/metabase/visualizations/components/FccPolygonMap/FccPolygonMap.jsx:28-50 | a throwing series makes the whole extraction throw its error |
| FccPolygonMap.RowsFailurePersists | frontend/src/metabase/visualizations/components/FccPolygonMap/FccPolygonMap.jsx:33-48 | once a prefix of the rows throws, all rows throw the same error |
| FccPolygonMap.SeriesFailurePersists | frontend/src/metabase/visualizations/components/FccPolygonMap/FccPolygonMap.jsx:28-50 | once a prefix of the series throws, all series throw the same error |
| FccPolygonMap.SeriesWithoutPolygonColumn | frontend/src/metabase/visualizations/components/FccPolygonMap/FccPolygonMap.jsx:30-31 | a series without the polygon column contributes nothing |
| FccPolygonMap.RowPolygonsOfRings | frontend/src/metabase/visualizations/components/FccPolygonMap/FccPolygonMap.jsx:34-46 | a parsed cell contributes one swapped polygon per ring, in order |
| FccPolygonMap.RowsPolygonsFailsIff | frontend/src/metabase/visualizations/components/FccPolygonMap/FccPolygonMap.jsx:33-48 | the rows fail exactly when some truthy polygon cell does not parse |
| FccPolygonMap.PushRings | frontend/src/metabase/visualizations/components/FccPolygonMap/FccPolygonMap.jsx:36-46 | the `polI` loop appends the swapped rings to the list |
| FccPolygonMap.ExtractSeries | frontend/src/metabase/visualizations/components/FccPolygonMap/FccPolygonMap.jsx:29-49 | the rows loop ends with the series' error, or with its polygons appended |
| FccPolygonMap.ExtractPolygons | frontend/src/metabase/visualizations/components/FccPolygonMap/FccPolygonMap.jsx:26-50 | the series loop computes `findPolygonList` or the first error |
| FccPolygonMap.AllPolygons | frontend/src/metabase/visualizations/components/FccPolygonMap/FccPolygonMap.jsx:26-50 | `findPolygonList`, the specification of the series loop; its properties are stated by `AllPolygonsSnoc`, `AllPolygonsThrowAt`, `SeriesFailurePersists` and `SeriesWithoutPolygonColumn` |
| FccPolygonMap.RowAt | frontend/src/metabase/visualizations/components/FccPolygonMap/FccPolygonMap.jsx:71 | `rows[index]` is defined exactly when `index` is in range |
| FccPolygonMap.HoverDimensions | frontend/src/metabase/visualizations/components/FccPolygonMap/FccPolygonMap.jsx:68-73 | one dimension per column |
| FccPolygonMap.HoverDimensionsOfRow | frontend/src/metabase/visualizations/components/FccPolygonMap/FccPolygonMap.jsx:66-81 | each dimension carries its column, in column order. With a row at the index, holding a cell per column, the values are that row; without a row they are all null |
| FccPolygonMap.OnHoverNullIff | frontend/src/metabase/visualizations/components/FccPolygonMap/FccPolygonMap.jsx:66-81 | `onHoverChange` receives null exactly on mouse-out |
| FccPolygonMap.OnHover | frontend/src/metabase/visualizations/components/FccPolygonMap/FccPolygonMap.jsx:66-81 | the argument given to `onHoverChange`; stated by `HoverDimensionsOfRow` and `OnHoverNullIff` |
| FccPolygonMap.ClickPayload | frontend/src/metabase/visualizations/components/FccPolygonMap/FccPolygonMap.jsx:84-111 | the object given to `onVisualizationClick`, without the DOM element; stated by `ClickColumnIsFirstPk`, `ClickValueIsPkCell` and `ClickDataMatchesHover` |
| FccPolygonMap.ClickColumnIsFirstPk | frontend/src/metabase/visualizations/components/FccPolygonMap/FccPolygonMap.jsx:87-96 | `column` is the first primary-key column, or null when there is none |
| FccPolygonMap.ClickValueIsPkCell | frontend/src/metabase/visualizations/components/FccPolygonMap/FccPolygonMap.jsx:87-104 | `value` is the row's primary-key cell, or null without a primary key or without a row |
| FccPolygonMap.ClickDataMatchesHover | frontend/src/metabase/visualizations/components/FccPolygonMap/FccPolygonMap.jsx:90-110 | `data` zips the columns with the row as the hover does, and `origin` carries the row and the columns |
| FccPolygonMap.PolygonLayer.constructor | frontend/src/metabase/visualizations/components/FccPolygonMap/FccPolygonMap.jsx:58-62 | a layer for the polygon, with its index and handler flags |
| FccPolygonMap.LeafletSurface.constructor | frontend/src/metabase/visualizations/components/FccPolygonMap/FccPolygonMap.jsx:62 | a map showing the given layers |
| FccPolygonMap.LeafletSurface.AddLayer | frontend/src/metabase/visualizations/components/FccPolygonMap/FccPolygonMap.jsx:62 | the layer is added and the others stay |
| FccPolygonMap.LeafletSurface.RemoveLayer | frontend/src/metabase/visualizations/components/FccPolygonMap/FccPolygonMap.jsx:53 | the layer is removed and the others stay |
| FccPolygonMap.DrawnCount | frontend/src/metabase/visualizations/components/FccPolygonMap/FccPolygonMap.jsx:57-64 | the number of layers drawn: every polygon before it is accepted, the one at it (if any) is rejected, and it is the full count exactly when all are accepted |
| FccPolygonMap.FccPolygonMapView.RemoveTrackedLayers | frontend/src/metabase/visualizations/components/FccPolygonMap/FccPolygonMap.jsx:52-54 | every tracked layer is removed from the map, and nothing else |
| FccPolygonMap.FccPolygonMapView.DrawLayers | frontend/src/metabase/visualizations/components/FccPolygonMap/FccPolygonMap.jsx:56-64 | fresh layers are added and tracked in order, one per polygon, up to the first rejected one; success exactly when none is rejected |
| FccPolygonMap.FccPolygonMapView.constructor | frontend/src/metabase/visualizations/components/FccPolygonMap/FccPolygonMap.jsx:52 | no polygon layers before the first call |
| FccPolygonMap.FccPolygonMapView.AddPolygonLayer | frontend/src/metabase/visualizations/components/FccPolygonMap/FccPolygonMap.jsx:22-117 | it succeeds exactly when extraction succeeds and Leaflet accepts every polygon. A `JSON.parse` error changes nothing. Otherwise the old layers are removed. Then one fresh layer per polygon is added and tracked, with its index and handlers, up to the first polygon Leaflet rejects. The map's other layers stay |
| MapSettings.KeyNamesDistinct | frontend/src/metabase/visualizations/visualizations/FccMapExperimental/Map.jsx:137-273 | every setting has its own key |
| MapSettings.PinSettingsHiddenIff | frontend/src/metabase/visualizations/visualizations/FccMapExperimental/Map.jsx:171-229 | the pin type and every field setting are hidden exactly when the map type is not pin, heat or grid |
| MapSettings.ColorsAndHeatHiddenIff | frontend/src/metabase/visualizations/visualizations/FccMapExperimental/Map.jsx:244-271 | the colours show only for region maps, and the heat settings only for heat maps |
| MapSettings.IsHidden | frontend/src/metabase/visualizations/visualizations/FccMapExperimental/Map.jsx:171-271 | the `getHidden` of each setting; stated by `PinSettingsHiddenIff`, `ColorsAndHeatHiddenIff` and `VisibleGroups` |
| MapSettings.DefaultOf | frontend/src/metabase/visualizations/visualizations/FccMapExperimental/Map.jsx:139-272 | the `getDefault` or `default` of each setting; stated by `MapTypeDefault`, `PinTypeDefault`, `CoordinateColumnDefaults` and `HeatDefaults` |
| MapSettings.VisibleGroups | frontend/src/metabase/visualizations/visualizations/FccMapExperimental/Map.jsx:139-273 | when the colours show, no field setting does; when a heat setting shows, every field setting does; type, zoom and centre always show |
| MapSettings.MapTypeDefault | frontend/src/metabase/visualizations/visualizations/FccMapExperimental/Map.jsx:147-149 | the map type defaults to pin (a constant read off the definition) |
| MapSettings.PinTypeDefault | frontend/src/metabase/visualizations/visualizations/FccMapExperimental/Map.jsx:163-170 | heat or grid when that map type is set, otherwise tiles from 1000 rows and markers below |
| MapSettings.CoordinateColumnDefaults | frontend/src/metabase/visualizations/visualizations/FccMapExperimental/Map.jsx:195-208 | the first latitude or longitude column's name, or undefined when there is none |
| MapSettings.HeatDefaults | frontend/src/metabase/visualizations/visualizations/FccMapExperimental/Map.jsx:249-272 | radius 30, blur 60, min opacity 0, max zoom 1 (constants read off the definition) |
| MapSettings.IsSensibleIff | frontend/src/metabase/visualizations/visualizations/FccMapExperimental/Map.jsx:54-60 | sensible exactly when there is a polygon column or the choropleth or grid map accepts the data (the definition unfolded through `PinMap.IsSensible`) |
| MapSettings.IsSensible | frontend/src/metabase/visualizations/visualizations/FccMapExperimental/Map.jsx:54-60 | `isSensible`; stated by `IsSensibleIff` |
| MapSettings.ShouldComponentUpdateIff | frontend/src/metabase/visualizations/visualizations/FccMapExperimental/Map.jsx:275-281 | re-render is skipped exactly when the size and the series are the same |
| MapSettings.ShouldComponentUpdate | frontend/src/metabase/visualizations/visualizations/FccMapExperimental/Map.jsx:275-281 | `shouldComponentUpdate`; stated by `ShouldComponentUpdateIff` |
| NotificationChannelsPicker.ReducerSettersChangeOneField | frontend/src/metabase/notifications/modals/shared/components/NotificationChannels/NotificationChannelsPicker/NotificationChannelsPicker.tsx:196-200 | setting the tab or the shared flag changes only that field; an unknown action changes nothing |
| NotificationChannelsPicker.ReducerUpdateTemplate | frontend/src/metabase/notifications/modals/shared/components/NotificationChannels/NotificationChannelsPicker/NotificationChannelsPicker.tsx:201-222 | updating a channel without a template, or no channel, changes nothing; otherwise only that field of that template changes |
| NotificationChannelsPicker.ReducerUpdateShared | frontend/src/metabase/notifications/modals/shared/components/NotificationChannels/NotificationChannelsPicker/NotificationChannelsPicker.tsx:201-212 | updating the shared template changes only that field of it |
| NotificationChannelsPicker.ReducerRemoveTemplate | frontend/src/metabase/notifications/modals/shared/components/NotificationChannels/NotificationChannelsPicker/NotificationChannelsPicker.tsx:223-251 | the template is removed and the rest kept. The tab moves only if it was active, and then to the first other channel in tab order that has a template, or to none |
| NotificationChannelsPicker.ReducerRemoveNoChannel | frontend/src/metabase/notifications/modals/shared/components/NotificationChannels/NotificationChannelsPicker/NotificationChannelsPicker.tsx:223-251 | removing the null channel with no tab changes no template and picks email, else slack, never webhook |
| NotificationChannelsPicker.ReducerNeverAddsSlots | frontend/src/metabase/notifications/modals/shared/components/NotificationChannels/NotificationChannelsPicker/NotificationChannelsPicker.tsx:192-255 | no action gives a channel a template it did not have |
| NotificationChannelsPicker.ReducerKeepsTabOnTemplate | frontend/src/metabase/notifications/modals/shared/components/NotificationChannels/NotificationChannelsPicker/NotificationChannelsPicker.tsx:192-255 | every action keeps the active tab on a channel with a template, and so does choosing a tab that has one |
| NotificationChannelsPicker.TemplateReducer | frontend/src/metabase/notifications/modals/shared/components/NotificationChannels/NotificationChannelsPicker/NotificationChannelsPicker.tsx:192-255 | `templateReducer`; its transitions are stated by the `Reducer...` lemmas above |
| NotificationChannelsPicker.GetTemplateValue | frontend/src/metabase/notifications/modals/shared/components/NotificationChannels/NotificationChannelsPicker/NotificationChannelsPicker.tsx:84-95 | the shared field, the channel's field, or `""` without a template or without a tab |
| NotificationChannelsPicker.BlurOfRules | frontend/src/metabase/notifications/modals/shared/components/NotificationChannels/NotificationChannelsPicker/NotificationChannelsPicker.tsx:122-141 | the error flags, removal and update in terms of blank (all-whitespace) subject and body |
| NotificationChannelsPicker.HandleBlurRules | frontend/src/metabase/notifications/modals/shared/components/NotificationChannels/NotificationChannelsPicker/NotificationChannelsPicker.tsx:102-141 | a subject error exactly when only the subject is blank, a body error exactly when only the body is. Removal exactly when both are blank outside the shared template, for the active tab. Update exactly when both are filled or the template is shared |
| NotificationChannelsPicker.BlurRemovesActiveTab | frontend/src/metabase/notifications/modals/shared/components/NotificationChannels/NotificationChannelsPicker/NotificationChannelsPicker.tsx:131-135 | the removal dispatched is for the active tab |
| NotificationChannelsPicker.HandleBlur | frontend/src/metabase/notifications/modals/shared/components/NotificationChannels/NotificationChannelsPicker/NotificationChannelsPicker.tsx:122-141 | `handleBlur` on the values shown for the active input; stated by `HandleBlurRules` |
| NotificationChannelsPicker.TemplateTypesDistinct | frontend/src/metabase/notifications/modals/shared/components/NotificationChannels/NotificationChannelsPicker/NotificationChannelsPicker.tsx:257-273 | each templated channel type has its own state key |
| NotificationChannelsPicker.HandlerSelectionRules | frontend/src/metabase/notifications/modals/shared/components/NotificationChannels/NotificationChannelsPicker/NotificationChannelsPicker.tsx:276-306 | unknown types are never updated; others are updated when shared or active. The content is shared when shared, else the channel's |
| NotificationChannelsPicker.ShouldUpdateHandler | frontend/src/metabase/notifications/modals/shared/components/NotificationChannels/NotificationChannelsPicker/NotificationChannelsPicker.tsx:276-290 | `shouldUpdate`; stated by `HandlerSelectionRules` |
| NotificationChannelsPicker.GetTemplateContent | frontend/src/metabase/notifications/modals/shared/components/NotificationChannels/NotificationChannelsPicker/NotificationChannelsPicker.tsx:293-306 | `getTemplateContent`; stated by `HandlerSelectionRules` |
| NotificationChannelsPicker.ActiveTemplates | frontend/src/metabase/notifications/modals/shared/components/NotificationChannels/NotificationChannelsPicker/NotificationChannelsPicker.tsx:392-396 | one entry per existing slot |
| NotificationChannelsPicker.ExtractTemplateData | frontend/src/metabase/notifications/modals/shared/components/NotificationChannels/NotificationChannelsPicker/NotificationChannelsPicker.tsx:357-404 | the in-place `forEach` computes the specified templates |
| NotificationChannelsPicker.ExtractedSlots | frontend/src/metabase/notifications/modals/shared/components/NotificationChannels/NotificationChannelsPicker/NotificationChannelsPicker.tsx:358-389 | a slot exists exactly when its channel is available, holding the last complete template for it, or empty |
| NotificationChannelsPicker.ApplyHandlerEffect | frontend/src/metabase/notifications/modals/shared/components/NotificationChannels/NotificationChannelsPicker/NotificationChannelsPicker.tsx:366-401 | a handler step keeps which slots exist, skips incomplete templates, and sets the shared template to the only slot when there is exactly one |
| NotificationChannelsPicker.ExtractedShared | frontend/src/metabase/notifications/modals/shared/components/NotificationChannels/NotificationChannelsPicker/NotificationChannelsPicker.tsx:391-400 | the shared template is empty unless exactly one channel is available and some template is complete; then it is that channel's template |
| NotificationChannelsPicker.InitialStateRules | frontend/src/metabase/notifications/modals/shared/components/NotificationChannels/NotificationChannelsPicker/NotificationChannelsPicker.tsx:406-416 | the first available channel in tab order is active, not shared, and the tab has a template slot |
| NotificationChannelsPicker.InitialTemplateState | frontend/src/metabase/notifications/modals/shared/components/NotificationChannels/NotificationChannelsPicker/NotificationChannelsPicker.tsx:406-416 | the reducer's initial state; stated by `InitialStateRules`, `ExtractedSlots` and `ExtractedShared` |
| NotificationChannelsPicker.HasExistingTemplatesIff | frontend/src/metabase/notifications/modals/shared/components/NotificationChannels/NotificationChannelsPicker/NotificationChannelsPicker.tsx:340-348 | some handler has template details whose subject or body is not all whitespace |
| NotificationChannelsPicker.HasExistingTemplates | frontend/src/metabase/notifications/modals/shared/components/NotificationChannels/NotificationChannelsPicker/NotificationChannelsPicker.tsx:340-348 | `hasExistingTemplates`; stated by `HasExistingTemplatesIff` |
| NotificationChannelsPicker.TemplateSectionRules | frontend/src/metabase/notifications/modals/shared/components/NotificationChannels/NotificationChannelsPicker/NotificationChannelsPicker.tsx:622-644 | the section shows only with templates on and a channel; the checkbox only with two channels. A tab change is ignored while shared and otherwise sets only the tab |
| NotificationChannelsPicker.AddChannel | frontend/src/metabase/notifications/modals/shared/components/NotificationChannels/NotificationChannelsPicker/NotificationChannelsPicker.tsx:435-474 | the handlers are kept in order and exactly one new handler is appended |
| NotificationChannelsPicker.NewHandlerShape | frontend/src/metabase/notifications/modals/shared/components/NotificationChannels/NotificationChannelsPicker/NotificationChannelsPicker.tsx:438-471 | the new handler has the channel's type and no template, a channel id only for webhooks, and the current user as recipient only for email |
| NotificationChannelsPicker.OnChannelChangeReplaces | frontend/src/metabase/notifications/modals/shared/components/NotificationChannels/NotificationChannelsPicker/NotificationChannelsPicker.tsx:476-485 | the length is kept; exactly the entries equal to the old config become the new one |
| NotificationChannelsPicker.OnChannelChange | frontend/src/metabase/notifications/modals/shared/components/NotificationChannels/NotificationChannelsPicker/NotificationChannelsPicker.tsx:476-485 | `onChannelChange`; stated by `OnChannelChangeReplaces` |
| NotificationChannelsPicker.WithoutHandler | frontend/src/metabase/notifications/modals/shared/components/NotificationChannels/NotificationChannelsPicker/NotificationChannelsPicker.tsx:488-490 | the filter is no longer than the list |
| NotificationChannelsPicker.WithoutHandlerKeepsOthers | frontend/src/metabase/notifications/modals/shared/components/NotificationChannels/NotificationChannelsPicker/NotificationChannelsPicker.tsx:488-490 | the removed handler is gone and every other one remains as often as before |
| NotificationChannelsPicker.WithoutHandlerAt | frontend/src/metabase/notifications/modals/shared/components/NotificationChannels/NotificationChannelsPicker/NotificationChannelsPicker.tsx:488-490 | removing a handler that occurs once leaves the others in order |
| NotificationChannelsPicker.WithoutAbsent | frontend/src/metabase/notifications/modals/shared/components/NotificationChannels/NotificationChannelsPicker/NotificationChannelsPicker.tsx:488-490 | removing an absent handler changes nothing |
| NotificationChannelsPicker.RemovalActionRule | frontend/src/metabase/notifications/modals/shared/components/NotificationChannels/NotificationChannelsPicker/NotificationChannelsPicker.tsx:492-501 | the template is removed only with templates on and a templated type, and then for that type's state key |
| NotificationChannelsPicker.OnRemoveChannel | frontend/src/metabase/notifications/modals/shared/components/NotificationChannels/NotificationChannelsPicker/NotificationChannelsPicker.tsx:487-504 | `onRemoveChannel`: the filtered handlers and the reducer action; stated by `WithoutHandlerKeepsOthers`, `WithoutHandlerAt`, `WithoutAbsent` and `RemovalActionRule` |
| NotificationChannelsPicker.UpdateTemplateRules | frontend/src/metabase/notifications/modals/shared/components/NotificationChannels/NotificationChannelsPicker/NotificationChannelsPicker.tsx:507-558 | nothing happens with templates off. Otherwise the length is kept: skipped handlers are unchanged, and updated ones change only their template, taking the type's name and kind and the content |
| NotificationChannelsPicker.UpdateTemplateForActiveChannel | frontend/src/metabase/notifications/modals/shared/components/NotificationChannels/NotificationChannelsPicker/NotificationChannelsPicker.tsx:507-558 | `updateTemplateForActiveChannel`; stated by `UpdateTemplateRules` |
| UploadSettings.NatString | frontend/src/metabase/admin/settings/components/UploadSettings/utils.ts:4 | `String(n)` for a natural number is non-empty decimal digits |
| UploadSettings.IntStringRoundTrip | frontend/src/metabase/admin/settings/components/UploadSettings/utils.ts:4 | `String(id)` is a decimal numeral that reads back as the id |
| UploadSettings.IntStringInjective | frontend/src/metabase/admin/settings/components/UploadSettings/utils.ts:4 | different ids give different strings |
| UploadSettings.GetDatabaseOptions | frontend/src/metabase/admin/settings/components/UploadSettings/utils.ts:3-4 | one option per database, labelled with its name |
| UploadSettings.DatabaseOptionsIdentify | frontend/src/metabase/admin/settings/components/UploadSettings/utils.ts:3-4 | the length and order are kept, with each label the name; each value reads back as the id, and values are equal exactly when ids are |
| UploadSettings.GetSchemaOptions | frontend/src/metabase/admin/settings/components/UploadSettings/utils.ts:6-7 | the length and order are kept, with label and value both the schema |
| UploadSettings.SchemaOptionsRoundTrip | frontend/src/metabase/admin/settings/components/UploadSettings/utils.ts:6-7 | the values give back the schemas |
| UploadSettings.DbHasSchemaRules | frontend/src/metabase/admin/settings/components/UploadSettings/utils.ts:9-12 | false when no database has the id; otherwise true exactly when the first such database has features including `"schemas"` |
| UploadSettings.DbHasSchema | frontend/src/metabase/admin/settings/components/UploadSettings/utils.ts:9-12 | `dbHasSchema`; stated by `DbHasSchemaRules` |

## Left out

- Rendering: JSX, styles, Leaflet and d3 drawing, the DOM element in hover and click payloads, and `console` logging. These are presentation and I/O.
- Translation (`t`): message strings are kept as their English text or as a datatype (`FilteredNullRows(count)`).
- React itself (`setState`, hooks, `useMemo`, `useReducer`, re-render scheduling): each handler is modelled as the state change it requests.
- PinMap's render mutates the shared props (`mapProps.series[0].data.rows = rows`). That aliasing of the parent's data object is not modelled.
- PinMap computes `metricIndex` but never reads it, so the model omits it.
- The drawing and filtering handlers (`drawPolygonFStart`, `drawPolygonFEnd`, `onFiltering`, the commented-out filter buttons) drive Leaflet plug-ins and are not modelled.
- `checkRenderable` only throws when `hasPolygon` fails. It is not modelled separately from `IsSensible`.
- `handleUpdate` in `TemplateInputs` is not modelled separately: its dispatch is `UpdateTemplate` on `InputTarget`, and the reset of an error flag is component-local UI state.
- `hasEmailChannel`, `hasSlackChannel` and `hasWebhookChannel` come from the channel configuration and `getNotificationHandlersGroupedByTypes`. They are taken as booleans.
- `NotificationChannelsPicker.OnChannelChangeReplaces`: JavaScript `===` on handler objects is object identity; the model uses value equality.
- `NotificationChannelsPicker.WithoutHandler`: the same value-equality simplification applies to the removal filter.
- `null` and `undefined` are not told apart: both are `None` or `Null`.
- `NaN` and floating-point rounding are not modelled. Numbers are reals, and `Number(...)` is an uninterpreted `toNumber`.
- `JSON.parse` is an uninterpreted `parse` that yields rings or fails. Other JSON shapes (a non-array, rings holding non-arrays) are outside the model.
- Leaflet is not part of this model. Whether `L.polygon` throws is the parameter `accepts`, and the model does not derive it from Leaflet's `LatLng` check, which rejects an undefined coordinate. Only a throw from `L.polygon` is modelled, not one from `addTo` or from the handlers.
- `fieldSetting`, `columnSettings` and the colour-scale helpers live outside these files. Their internals are not modelled, only the keys, defaults and hidden rules declared here.
- `PinMap.PolygonListSnoc` states the append one row at a time. The equivalent statement for a whole concatenation of row lists is not proved.
- The wrappers around `PinMap`, and the other files of the repository, are not part of this model.
