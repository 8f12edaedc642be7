/**
 * The FCC polygon map: `_addPolygonLayer` reads polygon rings, stored as
 * JSON arrays of GeoJSON positions (longitude first), out of every series,
 * swaps each position to Leaflet's `[lat, lng]`, replaces the polygon layers
 * it tracks on the map, and builds the payloads its hover and click handlers
 * report.
 */
module FccPolygonMap {
  import opened Wrappers
  import opened QueryData

  /** A GeoJSON position as `JSON.parse` returns it: `[lng, lat, ...]`. */
  type Position = seq<real>

  /** One ring of positions. */
  type Ring = seq<Position>

  /** `newPolygondata`: the vertices of one Leaflet polygon. */
  type Polygon = seq<LatLng>

  /** `JSON.parse` threw on a polygon cell. */
  datatype ParseError = InvalidJson(cell: Value)

  /** `JSON.parse` on a polygon cell: the rings it holds, or `None` when it
      throws. */
  type JsonParser = Value -> Option<seq<Ring>>

  // ---------------------------------------------------------------------------
  // Swapping a ring
  // ---------------------------------------------------------------------------

  /** `position[i]`, undefined past the end. */
  function Coordinate(p: Position, i: nat): Option<real> {
    if i < |p| then Some(p[i]) else None
  }

  /** `[coordinateList[coorI][1], coordinateList[coorI][0]]` for every position. */
  function SwapRing(ring: Ring): Polygon {
    seq(|ring|, k requires 0 <= k < |ring| => LatLng(Coordinate(ring[k], 1), Coordinate(ring[k], 0)))
  }

  /** Back from Leaflet's order to GeoJSON's: `[lng, lat]`. */
  function UnswapPolygon(polygon: Polygon): Ring
    requires forall k :: 0 <= k < |polygon| ==> polygon[k].lat.Some? && polygon[k].lng.Some?
  {
    seq(|polygon|, k requires 0 <= k < |polygon| => [polygon[k].lng.value, polygon[k].lat.value])
  }

  /** A GeoJSON position holds at least longitude and latitude. */
  predicate IsPosition(p: Position) {
    |p| >= 2
  }

  /** The swap keeps one vertex per position and puts latitude first; a
      position with at least two numbers yields both coordinates, any
      altitude after them is dropped, and for plain `[lng, lat]` pairs the
      swap is undone by swapping back. */
  lemma SwapRingVertices(ring: Ring)
    ensures |SwapRing(ring)| == |ring|
    ensures forall k :: 0 <= k < |ring| && IsPosition(ring[k]) ==>
      SwapRing(ring)[k] == LatLng(Some(ring[k][1]), Some(ring[k][0]))
    ensures forall k :: 0 <= k < |ring| && !IsPosition(ring[k]) ==> SwapRing(ring)[k].lat.None?
  {
  }

  lemma SwapRoundTrip(ring: Ring)
    requires forall k :: 0 <= k < |ring| ==> |ring[k]| == 2
    ensures var polygon := SwapRing(ring);
            (forall k :: 0 <= k < |polygon| ==> polygon[k].lat.Some? && polygon[k].lng.Some?) &&
            UnswapPolygon(polygon) == ring
  {
    var polygon := SwapRing(ring);
    forall k | 0 <= k < |ring| ensures UnswapPolygon(polygon)[k] == ring[k] {
      assert ring[k] == [ring[k][0], ring[k][1]];
    }
  }

  /** The inner `coorI` loop. */
  method SwapRingLoop(coordinateList: Ring) returns (newPolygondata: Polygon)
    ensures newPolygondata == SwapRing(coordinateList)
  {
    newPolygondata := [];
    var coorI := 0;
    while coorI < |coordinateList|
      invariant 0 <= coorI <= |coordinateList|
      invariant newPolygondata == SwapRing(coordinateList[..coorI])
    {
      var c := coordinateList[coorI];
      assert SwapRing(coordinateList[..coorI + 1]) == SwapRing(coordinateList[..coorI]) + [LatLng(Coordinate(c, 1), Coordinate(c, 0))];
      newPolygondata := newPolygondata + [LatLng(Coordinate(c, 1), Coordinate(c, 0))];
      coorI := coorI + 1;
    }
    assert coordinateList[..coorI] == coordinateList;
  }

  // ---------------------------------------------------------------------------
  // The polygons of all series
  // ---------------------------------------------------------------------------

  /** One polygon per ring, in ring order. */
  function SwapRings(rings: seq<Ring>): (r: seq<Polygon>)
    ensures |r| == |rings|
  {
    seq(|rings|, i requires 0 <= i < |rings| => SwapRing(rings[i]))
  }

  /** The polygons one row contributes: none when its cell is falsy, its
      swapped rings when the cell parses, and the parse error otherwise. */
  function RowPolygons(row: Row, polygonIndex: int, parse: JsonParser): (r: Result<seq<Polygon>, ParseError>)
    ensures !Truthy(CellAt(row, polygonIndex)) ==> r.Success? && r.value == []
    ensures r.Failure? <==> Truthy(CellAt(row, polygonIndex)) && parse(CellAt(row, polygonIndex)).None?
  {
    var cell := CellAt(row, polygonIndex);
    if !Truthy(cell) then Success([])
    else
      match parse(cell)
      case None => Failure(InvalidJson(cell))
      case Some(rings) => Success(SwapRings(rings))
  }

  /** The polygons of a sequence of rows, in row order, or the first error. */
  function RowsPolygons(rows: seq<Row>, polygonIndex: int, parse: JsonParser): Result<seq<Polygon>, ParseError>
    decreases |rows|
  {
    if rows == [] then Success([])
    else
      match RowsPolygons(rows[..|rows| - 1], polygonIndex, parse)
      case Failure(e) => Failure(e)
      case Success(front) =>
        match RowPolygons(rows[|rows| - 1], polygonIndex, parse)
        case Failure(e) => Failure(e)
        case Success(ps) => Success(front + ps)
  }

  /** `targetData.cols.findIndex(item => item.name === settings["map.polygon_column"])` */
  function PolygonIndex(data: Data, settings: Settings): int {
    ColumnIndex(data.cols, settings, "map.polygon_column")
  }

  /** The polygons one series contributes; none without a polygon column. */
  function SeriesPolygons(data: Data, settings: Settings, parse: JsonParser): Result<seq<Polygon>, ParseError> {
    var polygonIndex := PolygonIndex(data, settings);
    if polygonIndex > -1 then RowsPolygons(data.rows, polygonIndex, parse) else Success([])
  }

  /** `findPolygonList`: the polygons of every series, in series order, or
      the first error. */
  function AllPolygons(series: seq<Data>, settings: Settings, parse: JsonParser): Result<seq<Polygon>, ParseError>
    decreases |series|
  {
    if series == [] then Success([])
    else
      match AllPolygons(series[..|series| - 1], settings, parse)
      case Failure(e) => Failure(e)
      case Success(front) =>
        match SeriesPolygons(series[|series| - 1], settings, parse)
        case Failure(e) => Failure(e)
        case Success(ps) => Success(front + ps)
  }

  /** One more row: its polygons follow those of the rows before it. */
  lemma RowsPolygonsSnoc(rows: seq<Row>, i: nat, polygonIndex: int, parse: JsonParser)
    requires i < |rows|
    requires RowsPolygons(rows[..i], polygonIndex, parse).Success?
    requires RowPolygons(rows[i], polygonIndex, parse).Success?
    ensures RowsPolygons(rows[..i + 1], polygonIndex, parse).Success?
    ensures RowsPolygons(rows[..i + 1], polygonIndex, parse).value
         == RowsPolygons(rows[..i], polygonIndex, parse).value + RowPolygons(rows[i], polygonIndex, parse).value
  {
    assert rows[..i + 1][..i] == rows[..i];
    assert rows[..i + 1][i] == rows[i];
  }

  /** A row whose cell does not parse makes the whole series throw its error. */
  lemma RowsPolygonsThrowAt(rows: seq<Row>, i: nat, polygonIndex: int, parse: JsonParser)
    requires i < |rows|
    requires RowsPolygons(rows[..i], polygonIndex, parse).Success?
    requires RowPolygons(rows[i], polygonIndex, parse).Failure?
    ensures RowsPolygons(rows, polygonIndex, parse) == RowPolygons(rows[i], polygonIndex, parse)
  {
    assert rows[..i + 1][..i] == rows[..i];
    assert rows[..i + 1][i] == rows[i];
    RowsFailurePersists(rows, i + 1, polygonIndex, parse);
  }

  /** One more series: its polygons follow those of the series before it. */
  lemma AllPolygonsSnoc(series: seq<Data>, i: nat, settings: Settings, parse: JsonParser)
    requires i < |series|
    requires AllPolygons(series[..i], settings, parse).Success?
    requires SeriesPolygons(series[i], settings, parse).Success?
    ensures AllPolygons(series[..i + 1], settings, parse).Success?
    ensures AllPolygons(series[..i + 1], settings, parse).value
         == AllPolygons(series[..i], settings, parse).value + SeriesPolygons(series[i], settings, parse).value
  {
    assert series[..i + 1][..i] == series[..i];
    assert series[..i + 1][i] == series[i];
  }

  /** A series that throws makes the whole extraction throw its error. */
  lemma AllPolygonsThrowAt(series: seq<Data>, i: nat, settings: Settings, parse: JsonParser)
    requires i < |series|
    requires AllPolygons(series[..i], settings, parse).Success?
    requires SeriesPolygons(series[i], settings, parse).Failure?
    ensures AllPolygons(series, settings, parse) == SeriesPolygons(series[i], settings, parse)
  {
    assert series[..i + 1][..i] == series[..i];
    assert series[..i + 1][i] == series[i];
    SeriesFailurePersists(series, i + 1, settings, parse);
  }

  /** Once a prefix of the rows has thrown, all of them throw the same error. */
  lemma {:induction false} RowsFailurePersists(rows: seq<Row>, i: nat, polygonIndex: int, parse: JsonParser)
    requires i <= |rows|
    requires RowsPolygons(rows[..i], polygonIndex, parse).Failure?
    ensures RowsPolygons(rows, polygonIndex, parse) == RowsPolygons(rows[..i], polygonIndex, parse)
    decreases |rows|
  {
    if i == |rows| {
      assert rows[..i] == rows;
    } else {
      var front := rows[..|rows| - 1];
      assert front[..i] == rows[..i];
      RowsFailurePersists(front, i, polygonIndex, parse);
    }
  }

  /** Once a prefix of the series has thrown, all of them throw the same error. */
  lemma {:induction false} SeriesFailurePersists(series: seq<Data>, i: nat, settings: Settings, parse: JsonParser)
    requires i <= |series|
    requires AllPolygons(series[..i], settings, parse).Failure?
    ensures AllPolygons(series, settings, parse) == AllPolygons(series[..i], settings, parse)
    decreases |series|
  {
    if i == |series| {
      assert series[..i] == series;
    } else {
      var front := series[..|series| - 1];
      assert front[..i] == series[..i];
      SeriesFailurePersists(front, i, settings, parse);
    }
  }

  /** A series without a column named `settings["map.polygon_column"]`
      contributes no polygons. */
  lemma SeriesWithoutPolygonColumn(data: Data, settings: Settings, parse: JsonParser)
    requires forall k :: 0 <= k < |data.cols| ==> SettingString(settings, "map.polygon_column") != Some(data.cols[k].name)
    ensures SeriesPolygons(data, settings, parse).Success? && SeriesPolygons(data, settings, parse).value == []
  {
  }

  /** A row contributes one polygon per ring of its parsed cell, each the
      swap of its ring, in ring order. */
  lemma RowPolygonsOfRings(row: Row, polygonIndex: int, parse: JsonParser)
    requires Truthy(CellAt(row, polygonIndex)) && parse(CellAt(row, polygonIndex)).Some?
    ensures var rings := parse(CellAt(row, polygonIndex)).value;
            var r := RowPolygons(row, polygonIndex, parse);
            && r.Success? && |r.value| == |rings|
            && (forall i :: 0 <= i < |rings| ==> |r.value[i]| == |rings[i]| && r.value[i] == SwapRing(rings[i]))
  {
  }

  /** Extraction fails exactly when some row's truthy polygon cell does not parse. */
  lemma {:induction false} RowsPolygonsFailsIff(rows: seq<Row>, polygonIndex: int, parse: JsonParser)
    ensures RowsPolygons(rows, polygonIndex, parse).Failure?
        <==> exists i :: 0 <= i < |rows| && RowPolygons(rows[i], polygonIndex, parse).Failure?
  {
    if rows != [] {
      var front := rows[..|rows| - 1];
      RowsPolygonsFailsIff(front, polygonIndex, parse);
      forall i | 0 <= i < |front| ensures rows[i] == front[i] { }
      if exists i :: 0 <= i < |front| && RowPolygons(front[i], polygonIndex, parse).Failure? {
        var i :| 0 <= i < |front| && RowPolygons(front[i], polygonIndex, parse).Failure?;
        assert rows[i] == front[i];
      }
    }
  }

  /** The `polI` loop: one pushed polygon per ring. */
  method PushRings(findPolygonList: seq<Polygon>, polygonListToLoop: seq<Ring>) returns (r: seq<Polygon>)
    ensures r == findPolygonList + SwapRings(polygonListToLoop)
  {
    r := findPolygonList;
    var polI := 0;
    while polI < |polygonListToLoop|
      invariant 0 <= polI <= |polygonListToLoop|
      invariant r == findPolygonList + SwapRings(polygonListToLoop[..polI])
    {
      var newPolygondata := SwapRingLoop(polygonListToLoop[polI]);
      assert SwapRings(polygonListToLoop[..polI + 1]) == SwapRings(polygonListToLoop[..polI]) + [newPolygondata];
      r := r + [newPolygondata];
      polI := polI + 1;
    }
    assert polygonListToLoop[..polI] == polygonListToLoop;
  }

  /** The rows loop of `_addPolygonLayer` for one series, pushing onto
      `findPolygonList`; `JSON.parse` throwing ends it with the error. */
  method ExtractSeries(data: Data, settings: Settings, parse: JsonParser, findPolygonList: seq<Polygon>)
    returns (r: Result<seq<Polygon>, ParseError>)
    ensures SeriesPolygons(data, settings, parse).Failure? ==> r == SeriesPolygons(data, settings, parse)
    ensures SeriesPolygons(data, settings, parse).Success? ==>
      r.Success? && r.value == findPolygonList + SeriesPolygons(data, settings, parse).value
  {
    var polygonIndex := PolygonIndex(data, settings);
    if !(polygonIndex > -1) {
      assert findPolygonList + [] == findPolygonList;
      return Success(findPolygonList);
    }
    var rowToLoop := data.rows;
    var acc := findPolygonList;
    var rowI := 0;
    while rowI < |rowToLoop|
      invariant 0 <= rowI <= |rowToLoop|
      invariant RowsPolygons(rowToLoop[..rowI], polygonIndex, parse).Success?
      invariant acc == findPolygonList + RowsPolygons(rowToLoop[..rowI], polygonIndex, parse).value
    {
      ghost var before := RowsPolygons(rowToLoop[..rowI], polygonIndex, parse).value;
      var cell := CellAt(rowToLoop[rowI], polygonIndex);
      ghost var step := RowPolygons(rowToLoop[rowI], polygonIndex, parse);
      if Truthy(cell) {
        var parsed := parse(cell);
        if parsed.None? {
          RowsPolygonsThrowAt(rowToLoop, rowI, polygonIndex, parse);
          return Failure(InvalidJson(cell));
        }
        assert step == Success(SwapRings(parsed.value));
        acc := PushRings(acc, parsed.value);
      }
      assert acc == findPolygonList + (before + step.value);
      RowsPolygonsSnoc(rowToLoop, rowI, polygonIndex, parse);
      rowI := rowI + 1;
    }
    assert rowToLoop[..rowI] == rowToLoop;
    r := Success(acc);
  }

  /** The series loop of `_addPolygonLayer`. */
  method ExtractPolygons(series: seq<Data>, settings: Settings, parse: JsonParser)
    returns (r: Result<seq<Polygon>, ParseError>)
    ensures r == AllPolygons(series, settings, parse)
  {
    var findPolygonList: seq<Polygon> := [];
    var i := 0;
    while i < |series|
      invariant 0 <= i <= |series|
      invariant AllPolygons(series[..i], settings, parse).Success?
      invariant findPolygonList == AllPolygons(series[..i], settings, parse).value
    {
      var step := ExtractSeries(series[i], settings, parse, findPolygonList);
      if step.Failure? {
        AllPolygonsThrowAt(series, i, settings, parse);
        return step;
      }
      AllPolygonsSnoc(series, i, settings, parse);
      findPolygonList := step.value;
      i := i + 1;
    }
    assert series[..i] == series;
    r := Success(findPolygonList);
  }

  // ---------------------------------------------------------------------------
  // Hover and click payloads
  // ---------------------------------------------------------------------------

  /** An entry of `hover.dimensions`. */
  datatype Dimension = Dimension(value: Value, column: Column)

  /** `rows[index]`, undefined past the end. */
  function RowAt(rows: seq<Row>, index: nat): (r: Option<Row>)
    ensures r.Some? <==> index < |rows|
  {
    if index < |rows| then Some(rows[index]) else None
  }

  /** `rows[index] ? rows[index][colIndex] : null` */
  function CellOfLayer(rows: seq<Row>, index: nat, colIndex: int): Value {
    match RowAt(rows, index)
    case Some(row) => CellAt(row, colIndex)
    case None => Null
  }

  /** `hover.dimensions` for layer `index`, read from `series[0].data`. */
  function HoverDimensions(data: Data, index: nat): (dims: seq<Dimension>)
    ensures |dims| == |data.cols|
  {
    seq(|data.cols|, c requires 0 <= c < |data.cols| => Dimension(CellOfLayer(data.rows, index, c), data.cols[c]))
  }

  /** The two mouse events the hover handlers listen to. */
  datatype HoverEvent = MouseMove | MouseOut

  /** The argument passed to `onHoverChange`; `None` is `null`. */
  function OnHover(data: Data, index: nat, event: HoverEvent): Option<seq<Dimension>> {
    match event
    case MouseMove => Some(HoverDimensions(data, index))
    case MouseOut => None
  }

  /** One dimension per column, in column order. With a row at `index` that
      has a cell for each column, the values are exactly that row; without a
      row at `index`, every value is null. Mouse-out reports null. */
  lemma HoverDimensionsOfRow(data: Data, index: nat)
    ensures var dims := HoverDimensions(data, index);
            && (forall c :: 0 <= c < |dims| ==> dims[c].column == data.cols[c])
            && (index < |data.rows| && |data.rows[index]| == |data.cols| ==>
                  forall c :: 0 <= c < |dims| ==> dims[c].value == data.rows[index][c])
            && (index >= |data.rows| ==> forall c :: 0 <= c < |dims| ==> dims[c].value == Null)
  {
  }

  lemma OnHoverNullIff(data: Data, index: nat, event: HoverEvent)
    ensures OnHover(data, index, event).None? <==> event == MouseOut
    ensures OnHover(data, index, event).Some? ==> |OnHover(data, index, event).value| == |data.cols|
  {
  }

  /** What `onVisualizationClick` receives (without the DOM element). */
  datatype ClickObject = ClickObject(
    value: Value,
    column: Option<Column>,
    originRow: Option<Row>,
    originCols: seq<Column>,
    settings: Settings,
    data: seq<ColumnValue>)

  /** The click payload for layer `index`; `isPK` is the column type test. */
  function ClickPayload(data: Data, index: nat, settings: Settings, isPK: Column -> bool): ClickObject {
    var pkIndex := FindIndex(data.cols, isPK);
    var hasPk := pkIndex >= 0;
    ClickObject(
      if hasPk && RowAt(data.rows, index).Some? then CellAt(data.rows[index], pkIndex) else Null,
      if hasPk then Some(data.cols[pkIndex]) else None,
      RowAt(data.rows, index),
      data.cols,
      settings,
      seq(|data.cols|, c requires 0 <= c < |data.cols| => ColumnValue(data.cols[c], CellOfLayer(data.rows, index, c))))
  }

  /** `column` is the first primary-key column, and null when there is none. */
  lemma ClickColumnIsFirstPk(data: Data, index: nat, settings: Settings, isPK: Column -> bool)
    ensures var click := ClickPayload(data, index, settings, isPK);
            && (click.column.None? <==> forall c :: 0 <= c < |data.cols| ==> !isPK(data.cols[c]))
            && (click.column.Some? ==>
                  exists c :: 0 <= c < |data.cols| && click.column.value == data.cols[c] &&
                    isPK(data.cols[c]) && (forall d :: 0 <= d < c ==> !isPK(data.cols[d])))
  {
  }

  /** `value` is the primary-key cell of the layer's row, and null when there
      is no primary key or no row at `index`. */
  lemma ClickValueIsPkCell(data: Data, index: nat, settings: Settings, isPK: Column -> bool)
    ensures var click := ClickPayload(data, index, settings, isPK);
            && ((click.column.None? || index >= |data.rows|) ==> click.value == Null)
            && (click.column.Some? && index < |data.rows| ==>
                  exists c :: 0 <= c < |data.cols| && click.column.value == data.cols[c] &&
                    click.value == CellAt(data.rows[index], c))
  {
  }

  /** `data` zips the columns with the layer's row, as the hover dimensions
      do, and `origin` carries that row (undefined when absent) and the columns. */
  lemma ClickDataMatchesHover(data: Data, index: nat, settings: Settings, isPK: Column -> bool)
    ensures var click := ClickPayload(data, index, settings, isPK);
            var dims := HoverDimensions(data, index);
            && |click.data| == |dims|
            && (forall c :: 0 <= c < |dims| ==> click.data[c].col == dims[c].column && click.data[c].value == dims[c].value)
            && (click.originRow.Some? <==> index < |data.rows|)
            && (click.originRow.Some? ==> click.originRow.value == data.rows[index])
            && click.originCols == data.cols && click.settings == settings
  {
  }

  // ---------------------------------------------------------------------------
  // The layers on the map
  // ---------------------------------------------------------------------------

  /** A layer made by `L.polygon(polygonCoordinates, ...)`, with the index
      its handlers close over and which handlers were attached. */
  class PolygonLayer {
    const polygon: Polygon
    const index: nat
    const reportsHover: bool
    const reportsClick: bool

    constructor (polygon: Polygon, index: nat, reportsHover: bool, reportsClick: bool)
      ensures this.polygon == polygon && this.index == index
      ensures this.reportsHover == reportsHover && this.reportsClick == reportsClick
    {
      this.polygon := polygon;
      this.index := index;
      this.reportsHover := reportsHover;
      this.reportsClick := reportsClick;
    }
  }

  /** The layers of a sequence, as a set. */
  function LayerSet(layers: seq<PolygonLayer>): set<object> {
    set k | 0 <= k < |layers| :: layers[k] as object
  }

  lemma LayerSetSnoc(layers: seq<PolygonLayer>, layer: PolygonLayer)
    ensures LayerSet(layers + [layer]) == LayerSet(layers) + {layer}
  {
    var ext := layers + [layer];
    forall o | o in LayerSet(ext) ensures o in LayerSet(layers) + {layer} {
      var k :| 0 <= k < |ext| && ext[k] as object == o;
      if k < |layers| {
        assert ext[k] == layers[k];
      }
    }
    forall o | o in LayerSet(layers) ensures o in LayerSet(ext) {
      var k :| 0 <= k < |layers| && layers[k] as object == o;
      assert ext[k] == layers[k];
    }
    assert ext[|layers|] == layer;
  }

  /** Whether `L.polygon(polygonCoordinates, ...)` accepts the coordinates or
      throws. Leaflet is not part of this model; its `LatLng` constructor
      throws on a vertex whose coordinate is undefined, such as the swap of
      a position with fewer than two numbers. */
  type PolygonCheck = Polygon -> bool

  /** How many layers the `forEach` over `findPolygonList` draws before
      `L.polygon` throws: every polygon before that one is accepted, and the
      one at the count, if any, is rejected. */
  function DrawnCount(polygons: seq<Polygon>, accepts: PolygonCheck): (n: nat)
    ensures n <= |polygons|
    ensures forall k :: 0 <= k < n ==> accepts(polygons[k])
    ensures n < |polygons| ==> !accepts(polygons[n])
    ensures n == |polygons| <==> forall k :: 0 <= k < |polygons| ==> accepts(polygons[k])
  {
    var i := FindIndex(polygons, (p: Polygon) => !accepts(p));
    if i == -1 then |polygons| else i
  }

  /** The Leaflet map, reduced to the set of layers it shows. */
  class LeafletSurface {
    var layers: set<object>

    constructor (layers: set<object>)
      ensures this.layers == layers
    {
      this.layers := layers;
    }

    /** `layer.addTo(map)` */
    method AddLayer(layer: object)
      modifies this
      ensures layers == old(layers) + {layer}
    {
      layers := layers + {layer};
    }

    /** `map.removeLayer(layer)` */
    method RemoveLayer(layer: object)
      modifies this
      ensures layers == old(layers) - {layer}
    {
      layers := layers - {layer};
    }
  }

  /** The component: `this.polygonLayers` and `this.map`. */
  class FccPolygonMapView {
    var polygonLayers: seq<PolygonLayer>
    const leaflet: LeafletSurface

    /** Before the first call `polygonLayers` is undefined, which the
        `if (this.polygonLayers)` guard treats as having no layers. */
    constructor (leaflet: LeafletSurface)
      ensures this.leaflet == leaflet && polygonLayers == []
    {
      this.leaflet := leaflet;
      polygonLayers := [];
    }

    /** `this.polygonLayers.forEach(layer => this.map.removeLayer(layer))` */
    method RemoveTrackedLayers()
      modifies leaflet
      ensures leaflet.layers == old(leaflet.layers) - LayerSet(polygonLayers)
    {
      var j := 0;
      while j < |polygonLayers|
        invariant 0 <= j <= |polygonLayers|
        invariant leaflet.layers == old(leaflet.layers) - LayerSet(polygonLayers[..j])
      {
        assert polygonLayers[..j + 1] == polygonLayers[..j] + [polygonLayers[j]];
        LayerSetSnoc(polygonLayers[..j], polygonLayers[j]);
        leaflet.RemoveLayer(polygonLayers[j]);
        j := j + 1;
      }
      assert polygonLayers[..j] == polygonLayers;
    }

    /** `this.polygonLayers = []` and the `forEach` over `findPolygonList`:
        one fresh layer per polygon is added to the map and tracked, in
        order, until `L.polygon` throws on a polygon it rejects. */
    method DrawLayers(findPolygonList: seq<Polygon>, accepts: PolygonCheck, hasHoverHandler: bool, hasClickHandler: bool)
      returns (ok: bool)
      modifies this, leaflet
      ensures ok <==> (DrawnCount(findPolygonList, accepts) == |findPolygonList|)
      ensures |polygonLayers| == DrawnCount(findPolygonList, accepts)
      ensures forall k :: 0 <= k < |polygonLayers| ==>
        && fresh(polygonLayers[k])
        && polygonLayers[k].polygon == findPolygonList[k]
        && polygonLayers[k].index == k
        && polygonLayers[k].reportsHover == hasHoverHandler
        && polygonLayers[k].reportsClick == hasClickHandler
      ensures leaflet.layers == old(leaflet.layers) + LayerSet(polygonLayers)
    {
      polygonLayers := [];
      var index := 0;
      while index < |findPolygonList|
        invariant 0 <= index <= |findPolygonList|
        invariant |polygonLayers| == index
        invariant forall k :: 0 <= k < index ==> accepts(findPolygonList[k])
        invariant forall k :: 0 <= k < index ==>
          && fresh(polygonLayers[k])
          && polygonLayers[k].polygon == findPolygonList[k]
          && polygonLayers[k].index == k
          && polygonLayers[k].reportsHover == hasHoverHandler
          && polygonLayers[k].reportsClick == hasClickHandler
        invariant leaflet.layers == old(leaflet.layers) + LayerSet(polygonLayers)
      {
        if !accepts(findPolygonList[index]) {
          // `L.polygon` throws; the layers drawn so far stay.
          return false;
        }
        var polygonLayer := new PolygonLayer(findPolygonList[index], index, hasHoverHandler, hasClickHandler);
        leaflet.AddLayer(polygonLayer);
        LayerSetSnoc(polygonLayers, polygonLayer);
        polygonLayers := polygonLayers + [polygonLayer];
        index := index + 1;
      }
      ok := true;
    }

    /** `_addPolygonLayer()`. `accepts` is whether `L.polygon` accepts a
        polygon. Everything thrown is caught, and `ok` is false when
        something was. A `JSON.parse` error comes before the removal, so it
        leaves the layers untouched. Otherwise every tracked layer is
        removed, and fresh layers are added and tracked in order, one per
        extracted polygon, until the first polygon Leaflet rejects. The map
        keeps its other layers and no stale polygon layer. */
    method AddPolygonLayer(series: seq<Data>, settings: Settings, parse: JsonParser, accepts: PolygonCheck,
                           hasHoverHandler: bool, hasClickHandler: bool)
      returns (ok: bool)
      modifies this, leaflet
      ensures ok <==> (AllPolygons(series, settings, parse).Success? &&
        DrawnCount(AllPolygons(series, settings, parse).value, accepts) == |AllPolygons(series, settings, parse).value|)
      ensures AllPolygons(series, settings, parse).Failure? ==>
        polygonLayers == old(polygonLayers) && leaflet.layers == old(leaflet.layers)
      ensures AllPolygons(series, settings, parse).Success? ==>
        var polygons := AllPolygons(series, settings, parse).value;
        && |polygonLayers| == DrawnCount(polygons, accepts)
        && (forall k :: 0 <= k < |polygonLayers| ==>
              && fresh(polygonLayers[k])
              && polygonLayers[k].polygon == polygons[k]
              && polygonLayers[k].index == k
              && polygonLayers[k].reportsHover == hasHoverHandler
              && polygonLayers[k].reportsClick == hasClickHandler)
        && leaflet.layers == (old(leaflet.layers) - LayerSet(old(polygonLayers))) + LayerSet(polygonLayers)
    {
      var found := ExtractPolygons(series, settings, parse);
      if found.Failure? {
        return false;
      }
      RemoveTrackedLayers();
      ok := DrawLayers(found.value, accepts, hasHoverHandler, hasClickHandler);
    }
  }
}
