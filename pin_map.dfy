/**
 * The experimental pin map component (PinMap.jsx): it turns the polygon
 * column of a query result, written as `POLYGON ((lng lat, lng lat, ...))`,
 * into a flat list of map points, filters out points with a missing
 * coordinate, reports how many were filtered, and computes the map bounds
 * and metric range. It also keeps the unsaved view (centre and zoom) and the
 * detail modal in its component state.
 */
module PinMap {
  import opened Wrappers
  import opened JsText
  import opened QueryData

  const PolygonPrefix: string := "POLYGON (("
  const PolygonSuffix: string := "))"

  /** An axis-aligned box, south-west corner `(south, west)` and north-east
      corner `(north, east)`, as a Leaflet `LatLngBounds`. */
  datatype Bounds = Bounds(south: real, west: real, north: real, east: real)

  /** `WORLD_BOUNDS`: `[-90, -180]` to `[90, 180]`. */
  const WorldBounds: Bounds := Bounds(-90.0, -180.0, 90.0, 180.0)

  /** An entry of `allPoints`: `[lat, lng, metric]`. */
  datatype Point = Point(lat: Option<real>, lng: Option<real>, metric: Option<real>)

  /** "We filtered out {count} row(s) containing null values." */
  datatype Warning = FilteredNullRows(count: nat)

  /** `row[polygonIndex].replace` on a truthy cell that is not a string
      throws a TypeError, which `_getPoints` does not catch. */
  datatype PointsError = PolygonCellNotString(cell: Value)

  /** The part of the component state `_getPoints` computes. */
  datatype PointsState = PointsState(
    rows: seq<Row>, points: seq<Point>, bounds: Bounds,
    min: Option<real>, max: Option<real>,
    binWidth: Option<real>, binHeight: Option<real>)

  /** What `_getPoints` returns, with the warnings it hands to `onUpdateWarnings`. */
  datatype Extraction = Extraction(state: PointsState, warnings: seq<Warning>)

  // ---------------------------------------------------------------------------
  // Parsing one polygon cell
  // ---------------------------------------------------------------------------

  /** `.replace("POLYGON ((", "").replace("))", "")` */
  function StripWrapper(s: string): string {
    ReplaceFirst(ReplaceFirst(s, PolygonPrefix, ""), PolygonSuffix, "")
  }

  /** `const [lng, lat] = coordStr.trim().split(" ").map(Number); return [lat, lng]`.
      The longitude is always defined; the latitude is undefined exactly when
      the trimmed piece holds no space. */
  function ParseVertex(coordStr: string, toNumber: string -> real): (v: LatLng)
    ensures v.lng.Some?
    ensures v.lat.Some? <==> ' ' in Trim(coordStr)
  {
    var words := Split(Trim(coordStr), ' ');
    OccurrencesZero(Trim(coordStr), ' ');
    LatLng(if |words| >= 2 then Some(toNumber(words[1])) else None, Some(toNumber(words[0])))
  }

  /** The vertices of one polygon string: one per comma-separated piece. */
  function ParsePolygon(s: string, toNumber: string -> real): (vs: seq<LatLng>)
    ensures |vs| == Occurrences(StripWrapper(s), ',') + 1
    ensures forall i :: 0 <= i < |vs| ==> vs[i] == ParseVertex(Split(StripWrapper(s), ',')[i], toNumber)
  {
    var pieces := Split(StripWrapper(s), ',');
    seq(|pieces|, i requires 0 <= i < |pieces| => ParseVertex(pieces[i], toNumber))
  }

  /** A coordinate word as it appears in well-formed WKT: non-empty, with no
      whitespace, comma or closing parenthesis. */
  predicate IsWord(w: string) {
    w != [] && forall i :: 0 <= i < |w| ==> !IsJsWhitespace(w[i]) && w[i] != ',' && w[i] != ')'
  }

  /** The `i`-th piece of a WKT ring: `"lng lat"`, after a space from `i = 1` on. */
  function WktPiece(c: (string, string), first: bool): string {
    var core := c.0 + " " + c.1;
    if first then core else " " + core
  }

  /** Writes a ring of `(lng, lat)` words as `POLYGON ((lng lat, lng lat, ...))`. */
  function FormatPolygon(coords: seq<(string, string)>): string {
    PolygonPrefix
      + Join(seq(|coords|, i requires 0 <= i < |coords| => WktPiece(coords[i], i == 0)), ',')
      + PolygonSuffix
  }

  /** The swap on ingestion: a ring written as `(lng, lat)` words comes back
      as `[lat, lng]` numbers, one vertex per pair, in order. */
  lemma {:induction false} WktRoundTrip(coords: seq<(string, string)>, toNumber: string -> real)
    requires |coords| >= 1
    requires forall i :: 0 <= i < |coords| ==> IsWord(coords[i].0) && IsWord(coords[i].1)
    ensures ParsePolygon(FormatPolygon(coords), toNumber)
         == seq(|coords|, i requires 0 <= i < |coords| => LatLng(Some(toNumber(coords[i].1)), Some(toNumber(coords[i].0))))
  {
    var pieces := seq(|coords|, i requires 0 <= i < |coords| => WktPiece(coords[i], i == 0));
    var body := Join(pieces, ',');
    forall i | 0 <= i < |pieces| ensures ',' !in pieces[i] && ')' !in pieces[i] {
      WordPieceChars(coords[i], i == 0);
    }
    JoinAvoids(pieces, ',', ')');
    StripFormatted(body);
    SplitJoin(pieces, ',');
    var vs := ParsePolygon(FormatPolygon(coords), toNumber);
    forall i | 0 <= i < |coords|
      ensures vs[i] == LatLng(Some(toNumber(coords[i].1)), Some(toNumber(coords[i].0)))
    {
      PieceWords(coords[i], i == 0);
    }
  }

  lemma WordPieceChars(c: (string, string), first: bool)
    requires IsWord(c.0) && IsWord(c.1)
    ensures ',' !in WktPiece(c, first) && ')' !in WktPiece(c, first)
  {
    var p := WktPiece(c, first);
    var off := if first then 0 else 1;
    forall i | 0 <= i < |p| ensures p[i] != ',' && p[i] != ')' {
      if i < off {
      } else if i < off + |c.0| {
        assert p[i] == c.0[i - off];
      } else if i == off + |c.0| {
      } else {
        assert p[i] == c.1[i - off - |c.0| - 1];
      }
    }
  }

  /** A join of pieces that avoid a character other than the separator avoids it too. */
  lemma {:induction false} JoinAvoids(parts: seq<string>, sep: char, c: char)
    requires sep != c
    requires forall i :: 0 <= i < |parts| ==> c !in parts[i]
    ensures c !in Join(parts, sep)
  {
    if |parts| > 1 {
      JoinAvoids(parts[1..], sep, c);
    }
  }

  /** Removing the wrapper from a formatted polygon leaves exactly its body. */
  lemma StripFormatted(body: string)
    requires ')' !in body
    ensures StripWrapper(PolygonPrefix + body + PolygonSuffix) == body
  {
    var s := PolygonPrefix + body + PolygonSuffix;
    assert MatchesAt(s, PolygonPrefix, 0);
    var t := ReplaceFirst(s, PolygonPrefix, "");
    assert t == body + PolygonSuffix by {
      assert s[|PolygonPrefix|..] == body + PolygonSuffix;
    }
    assert MatchesAt(t, PolygonSuffix, |body|) by {
      assert t[|body|..|body| + 2] == PolygonSuffix;
    }
    forall j | 0 <= j < |body| ensures !MatchesAt(t, PolygonSuffix, j) {
      assert t[j] == body[j];
      assert t[j..j + 2][0] == t[j];
    }
    assert t[..|body|] == body;
  }

  /** `" lng lat".trim().split(" ")` is `[lng, lat]`. */
  lemma WordHasNoSpace(w: string)
    requires IsWord(w)
    ensures ' ' !in w
  {
    forall i | 0 <= i < |w| ensures w[i] != ' ' { assert !IsJsWhitespace(w[i]); }
  }

  /** Trimming a formatted piece leaves `lng lat`. */
  lemma TrimPiece(c: (string, string), first: bool)
    requires IsWord(c.0) && IsWord(c.1)
    ensures Trim(WktPiece(c, first)) == c.0 + " " + c.1
  {
    TrimWords(c);
    if !first {
      TrimLeadingSpace(c.0 + " " + c.1);
    }
  }

  /** `"lng lat"` has no whitespace at either end. */
  lemma TrimWords(c: (string, string))
    requires IsWord(c.0) && IsWord(c.1)
    ensures Trim(c.0 + " " + c.1) == c.0 + " " + c.1
  {
    var core := c.0 + " " + c.1;
    assert !IsJsWhitespace(c.0[0]) && !IsJsWhitespace(c.1[|c.1| - 1]);
    assert core[0] == c.0[0];
    assert core[|core| - 1] == c.1[|c.1| - 1];
    TrimUnchanged(core);
  }

  lemma TrimLeadingSpace(x: string)
    ensures Trim(" " + x) == Trim(x)
  {
    assert (" " + x)[1..] == x;
  }

  /** `"lng lat".split(" ")` is `[lng, lat]`. */
  lemma SplitWords(c: (string, string))
    requires IsWord(c.0) && IsWord(c.1)
    ensures Split(c.0 + " " + c.1, ' ') == [c.0, c.1]
  {
    WordHasNoSpace(c.0);
    WordHasNoSpace(c.1);
    SplitPrefix(c.0, c.1, ' ');
    SplitNoSeparator(c.1, ' ');
  }

  lemma PieceWords(c: (string, string), first: bool)
    requires IsWord(c.0) && IsWord(c.1)
    ensures Split(Trim(WktPiece(c, first)), ' ') == [c.0, c.1]
  {
    TrimPiece(c, first);
    SplitWords(c);
  }

  /** The parity example: `"POLYGON ((10 20, 11 21, 12 22))"` yields the ring
      `[20, 10], [21, 11], [22, 12]`. */
  lemma WktExample(toNumber: string -> real)
    ensures ParsePolygon("POLYGON ((10 20, 11 21, 12 22))", toNumber)
         == [LatLng(Some(toNumber("20")), Some(toNumber("10"))),
             LatLng(Some(toNumber("21")), Some(toNumber("11"))),
             LatLng(Some(toNumber("22")), Some(toNumber("12")))]
  {
    var coords := [("10", "20"), ("11", "21"), ("12", "22")];
    ExampleFormatted();
    WktRoundTrip(coords, toNumber);
  }

  lemma ExampleFormatted()
    ensures FormatPolygon([("10", "20"), ("11", "21"), ("12", "22")]) == "POLYGON ((10 20, 11 21, 12 22))"
  {
    var coords := [("10", "20"), ("11", "21"), ("12", "22")];
    var pieces := seq(|coords|, i requires 0 <= i < |coords| => WktPiece(coords[i], i == 0));
    assert WktPiece(coords[0], true) == "10 20";
    assert WktPiece(coords[1], false) == " 11 21";
    assert WktPiece(coords[2], false) == " 12 22";
    assert pieces == ["10 20", " 11 21", " 12 22"];
    ExampleJoin();
  }

  lemma ExampleJoin()
    ensures Join(["10 20", " 11 21", " 12 22"], ',') == "10 20, 11 21, 12 22"
  {
    var pieces := ["10 20", " 11 21", " 12 22"];
    assert pieces[1..] == [" 11 21", " 12 22"];
    assert pieces[1..][1..] == [" 12 22"];
    assert Join(pieces[1..][1..], ',') == " 12 22";
    assert Join(pieces[1..], ',') == " 11 21" + "," + " 12 22";
    assert Join(pieces, ',') == "10 20" + "," + (" 11 21" + "," + " 12 22");
  }

  // ---------------------------------------------------------------------------
  // The polygon list over all rows
  // ---------------------------------------------------------------------------

  /** The vertices one row contributes: none when its polygon cell is falsy. */
  function RowVertices(row: Row, polygonIndex: int, toNumber: string -> real): (r: Result<seq<LatLng>, PointsError>)
    ensures !Truthy(CellAt(row, polygonIndex)) ==> r.Success? && r.value == []
    ensures r.Failure? <==> Truthy(CellAt(row, polygonIndex)) && !CellAt(row, polygonIndex).Str?
  {
    var cell := CellAt(row, polygonIndex);
    if !Truthy(cell) then Success([])
    else if cell.Str? then Success(ParsePolygon(cell.s, toNumber))
    else Failure(PolygonCellNotString(cell))
  }

  /** A non-empty string cell contributes the vertices parsed from it. */
  lemma RowVerticesOfString(row: Row, polygonIndex: int, toNumber: string -> real)
    requires CellAt(row, polygonIndex).Str? && CellAt(row, polygonIndex).s != []
    ensures RowVertices(row, polygonIndex, toNumber).Success?
    ensures RowVertices(row, polygonIndex, toNumber).value == ParsePolygon(CellAt(row, polygonIndex).s, toNumber)
  {
  }

  /** `polygonList` after `rows.map(...)`, or the first error thrown. */
  function PolygonList(rows: seq<Row>, polygonIndex: int, toNumber: string -> real): Result<seq<LatLng>, PointsError>
    decreases |rows|
  {
    if rows == [] then Success([])
    else
      match PolygonList(rows[..|rows| - 1], polygonIndex, toNumber)
      case Failure(e) => Failure(e)
      case Success(front) =>
        match RowVertices(rows[|rows| - 1], polygonIndex, toNumber)
        case Failure(e) => Failure(e)
        case Success(vs) => Success(front + vs)
  }

  /** Without a polygon column (index -1) no row contributes anything. */
  lemma {:induction false} PolygonListNoColumn(rows: seq<Row>, toNumber: string -> real)
    ensures PolygonList(rows, -1, toNumber).Success? && PolygonList(rows, -1, toNumber).value == []
  {
    if rows != [] {
      PolygonListNoColumn(rows[..|rows| - 1], toNumber);
      assert RowVertices(rows[|rows| - 1], -1, toNumber).value == [];
    }
  }

  /** Extraction fails exactly when some row's polygon cell is truthy but not a string. */
  lemma {:induction false} PolygonListFailsIff(rows: seq<Row>, polygonIndex: int, toNumber: string -> real)
    ensures PolygonList(rows, polygonIndex, toNumber).Failure?
        <==> exists i :: 0 <= i < |rows| && Truthy(CellAt(rows[i], polygonIndex)) && !CellAt(rows[i], polygonIndex).Str?
  {
    if rows != [] {
      var front := rows[..|rows| - 1];
      PolygonListFailsIff(front, polygonIndex, toNumber);
      if exists i :: 0 <= i < |front| && Truthy(CellAt(front[i], polygonIndex)) && !CellAt(front[i], polygonIndex).Str? {
        var i :| 0 <= i < |front| && Truthy(CellAt(front[i], polygonIndex)) && !CellAt(front[i], polygonIndex).Str?;
        assert rows[i] == front[i];
      }
      forall i | 0 <= i < |front| ensures rows[i] == front[i] { }
    }
  }

  /** The last row of a successful extraction succeeded, and so did the rows before it. */
  lemma PolygonListUnsnoc(rows: seq<Row>, polygonIndex: int, toNumber: string -> real)
    requires rows != []
    requires PolygonList(rows, polygonIndex, toNumber).Success?
    ensures PolygonList(rows[..|rows| - 1], polygonIndex, toNumber).Success?
    ensures RowVertices(rows[|rows| - 1], polygonIndex, toNumber).Success?
    ensures PolygonList(rows, polygonIndex, toNumber).value
         == PolygonList(rows[..|rows| - 1], polygonIndex, toNumber).value + RowVertices(rows[|rows| - 1], polygonIndex, toNumber).value
  {
  }

  /** A single row contributes the vertices of its own cell. */
  lemma PolygonListSingle(row: Row, polygonIndex: int, toNumber: string -> real)
    ensures PolygonList([row], polygonIndex, toNumber) == RowVertices(row, polygonIndex, toNumber)
  {
    assert [row][..0] == [];
    var r := RowVertices(row, polygonIndex, toNumber);
    if r.Success? {
      assert [] + r.value == r.value;
    }
  }

  /** One more row: its vertices follow those of the rows before it. */
  lemma PolygonListSnoc(rows: seq<Row>, i: nat, polygonIndex: int, toNumber: string -> real, vertices: seq<LatLng>)
    requires i < |rows|
    requires PolygonList(rows[..i], polygonIndex, toNumber).Success?
    requires RowVertices(rows[i], polygonIndex, toNumber).Success?
    requires RowVertices(rows[i], polygonIndex, toNumber).value == vertices
    ensures PolygonList(rows[..i + 1], polygonIndex, toNumber).Success?
    ensures PolygonList(rows[..i + 1], polygonIndex, toNumber).value == PolygonList(rows[..i], polygonIndex, toNumber).value + vertices
  {
    assert rows[..i + 1][..i] == rows[..i];
    assert rows[..i + 1][i] == rows[i];
  }

  /** A row whose polygon cell is truthy but not a string makes the whole extraction throw. */
  lemma PolygonListThrowsAt(rows: seq<Row>, i: nat, polygonIndex: int, toNumber: string -> real)
    requires i < |rows|
    requires PolygonList(rows[..i], polygonIndex, toNumber).Success?
    requires Truthy(CellAt(rows[i], polygonIndex)) && !CellAt(rows[i], polygonIndex).Str?
    ensures PolygonList(rows, polygonIndex, toNumber) == Failure(PolygonCellNotString(CellAt(rows[i], polygonIndex)))
  {
    assert rows[..i + 1][..i] == rows[..i];
    assert rows[..i + 1][i] == rows[i];
    PolygonListFailurePersists(rows, i + 1, polygonIndex, toNumber);
  }

  /** Once a prefix of the rows has thrown, the whole extraction throws the same error. */
  lemma {:induction false} PolygonListFailurePersists(rows: seq<Row>, i: nat, polygonIndex: int, toNumber: string -> real)
    requires i <= |rows|
    requires PolygonList(rows[..i], polygonIndex, toNumber).Failure?
    ensures PolygonList(rows, polygonIndex, toNumber) == PolygonList(rows[..i], polygonIndex, toNumber)
    decreases |rows|
  {
    if i == |rows| {
      assert rows[..i] == rows;
    } else {
      var front := rows[..|rows| - 1];
      assert front[..i] == rows[..i];
      PolygonListFailurePersists(front, i, polygonIndex, toNumber);
    }
  }

  // ---------------------------------------------------------------------------
  // Points, validity flags and the filters
  // ---------------------------------------------------------------------------

  /** `polygonList.map(data => [data[0], data[1], 1])` */
  function AllPoints(polygonList: seq<LatLng>): (ps: seq<Point>)
    ensures |ps| == |polygonList|
  {
    seq(|polygonList|, i requires 0 <= i < |polygonList| => Point(polygonList[i].lat, polygonList[i].lng, Some(1.0)))
  }

  /** The validity test: both coordinates present, and in any mode other than
      `"pin"` the metric too. */
  predicate IsValidPoint(p: Point, isPin: bool) {
    if isPin then p.lat.Some? && p.lng.Some? else p.lat.Some? && p.lng.Some? && p.metric.Some?
  }

  /** `validPoints` */
  function ValidFlags(points: seq<Point>, isPin: bool): (flags: seq<bool>)
    ensures |flags| == |points|
  {
    seq(|points|, i requires 0 <= i < |points| => IsValidPoint(points[i], isPin))
  }

  /** Every metric is 1, so the flags do not depend on the map type. */
  lemma ValidFlagsIgnoreMapType(polygonList: seq<LatLng>)
    ensures ValidFlags(AllPoints(polygonList), true) == ValidFlags(AllPoints(polygonList), false)
  {
  }

  /** `xs.filter((_, i) => flags[i])`: index `i` is kept when `flags[i]` is
      true; an index past the end of `flags` reads undefined and is dropped. */
  function FilterByFlags<T>(xs: seq<T>, flags: seq<bool>): (r: seq<T>)
    ensures |r| <= |xs| && |r| <= |flags|
    decreases |xs|
  {
    if xs == [] then []
    else
      var n := |xs| - 1;
      FilterByFlags(xs[..n], flags) + (if n < |flags| && flags[n] then [xs[n]] else [])
  }

  /** The indices below `n` that `FilterByFlags` keeps, in increasing order. */
  function KeptIndices(n: nat, flags: seq<bool>): (r: seq<nat>)
    ensures forall k :: 0 <= k < |r| ==> r[k] < n
    ensures forall k, j :: 0 <= k < j < |r| ==> r[k] < r[j]
    ensures forall i: nat :: i in r <==> i < n && i < |flags| && flags[i]
  {
    if n == 0 then []
    else KeptIndices(n - 1, flags) + (if n - 1 < |flags| && flags[n - 1] then [n - 1] else [])
  }

  /** The filter is the order-preserving subsequence of `xs` at the kept indices. */
  lemma {:induction false} FilterByFlagsKeeps<T>(xs: seq<T>, flags: seq<bool>)
    ensures |FilterByFlags(xs, flags)| == |KeptIndices(|xs|, flags)|
    ensures forall k :: 0 <= k < |FilterByFlags(xs, flags)| ==>
      FilterByFlags(xs, flags)[k] == xs[KeptIndices(|xs|, flags)[k]]
    decreases |xs|
  {
    if xs != [] {
      var n := |xs| - 1;
      FilterByFlagsKeeps(xs[..n], flags);
      var front := FilterByFlags(xs[..n], flags);
      var kept := KeptIndices(n, flags);
      forall k | 0 <= k < |front| ensures front[k] == xs[kept[k]] {
        assert xs[..n][kept[k]] == xs[kept[k]];
      }
    }
  }

  /** When `flags` covers `xs`, nothing is dropped exactly when every flag holds. */
  lemma {:induction false} FilterByFlagsDropsNothingIff<T>(xs: seq<T>, flags: seq<bool>)
    requires |flags| == |xs|
    ensures |FilterByFlags(xs, flags)| == |xs| <==> forall i :: 0 <= i < |xs| ==> flags[i]
    decreases |xs|
  {
    if xs != [] {
      var n := |xs| - 1;
      FilterByFlagsDropsNothingIff(xs[..n], flags[..n]);
      FilterIgnoresFlagTail(xs[..n], flags);
      assert forall i :: 0 <= i < n ==> flags[..n][i] == flags[i];
    }
  }

  /** Flags past the end of `xs` are never read. */
  lemma {:induction false} FilterIgnoresFlagTail<T>(xs: seq<T>, flags: seq<bool>)
    requires |xs| <= |flags|
    ensures FilterByFlags(xs, flags) == FilterByFlags(xs, flags[..|xs|])
    decreases |xs|
  {
    if xs != [] {
      var n := |xs| - 1;
      FilterIgnoresFlagTail(xs[..n], flags);
      FilterIgnoresFlagTail(xs[..n], flags[..|xs|]);
      assert flags[..|xs|][..n] == flags[..n];
    }
  }

  /** Points that passed the test have both coordinates. */
  predicate Located(points: seq<Point>) {
    forall i :: 0 <= i < |points| ==> points[i].lat.Some? && points[i].lng.Some?
  }

  lemma FilteredPointsLocated(points: seq<Point>, isPin: bool)
    ensures Located(FilterByFlags(points, ValidFlags(points, isPin)))
  {
    var flags := ValidFlags(points, isPin);
    FilterByFlagsKeeps(points, flags);
    var kept := KeptIndices(|points|, flags);
    forall k | 0 <= k < |kept| ensures flags[kept[k]] {
      assert kept[k] in kept;
    }
  }

  // ---------------------------------------------------------------------------
  // Bounds and metric range
  // ---------------------------------------------------------------------------

  function MinOf(xs: seq<real>): (m: real)
    requires |xs| > 0
    ensures forall i :: 0 <= i < |xs| ==> m <= xs[i]
    ensures exists i :: 0 <= i < |xs| && m == xs[i]
  {
    if |xs| == 1 then xs[0]
    else
      var m := MinOf(xs[1..]);
      if xs[0] <= m then xs[0] else m
  }

  function MaxOf(xs: seq<real>): (m: real)
    requires |xs| > 0
    ensures forall i :: 0 <= i < |xs| ==> xs[i] <= m
    ensures exists i :: 0 <= i < |xs| && m == xs[i]
  {
    if |xs| == 1 then xs[0]
    else
      var m := MaxOf(xs[1..]);
      if m <= xs[0] then xs[0] else m
  }

  function Lats(points: seq<Point>): (r: seq<real>)
    requires Located(points)
    ensures |r| == |points|
  {
    seq(|points|, i requires 0 <= i < |points| => points[i].lat.value)
  }

  function Lngs(points: seq<Point>): (r: seq<real>)
    requires Located(points)
    ensures |r| == |points|
  {
    seq(|points|, i requires 0 <= i < |points| => points[i].lng.value)
  }

  /** `L.latLngBounds(points.length > 0 ? points : WORLD_BOUNDS)` */
  function BoxOf(points: seq<Point>): (b: Bounds)
    requires Located(points)
    ensures |points| == 0 ==> b == WorldBounds
  {
    if |points| == 0 then WorldBounds
    else
      var lats, lngs := Lats(points), Lngs(points);
      Bounds(MinOf(lats), MinOf(lngs), MaxOf(lats), MaxOf(lngs))
  }

  /** Over a non-empty set of points the box is the smallest one covering
      them: it contains every point and each edge touches one. */
  lemma BoxOfTight(points: seq<Point>)
    requires Located(points) && |points| > 0
    ensures var b := BoxOf(points);
      && (forall i :: 0 <= i < |points| ==>
            b.south <= points[i].lat.value <= b.north && b.west <= points[i].lng.value <= b.east)
      && (exists i :: 0 <= i < |points| && b.south == points[i].lat.value)
      && (exists i :: 0 <= i < |points| && b.north == points[i].lat.value)
      && (exists i :: 0 <= i < |points| && b.west == points[i].lng.value)
      && (exists i :: 0 <= i < |points| && b.east == points[i].lng.value)
  {
    var lats, lngs := Lats(points), Lngs(points);
    assert forall i :: 0 <= i < |points| ==> lats[i] == points[i].lat.value && lngs[i] == points[i].lng.value;
  }

  /** The bin adjustment: only the north-east corner moves, east by the
      longitude column's bin width and north by the latitude column's. */
  function AdjustNorthEast(b: Bounds, binWidth: Option<real>, binHeight: Option<real>): (r: Bounds)
    ensures r.south == b.south && r.west == b.west
    ensures r.east == b.east + binWidth.GetOr(0.0) && r.north == b.north + binHeight.GetOr(0.0)
  {
    Bounds(b.south, b.west, b.north + binHeight.GetOr(0.0), b.east + binWidth.GetOr(0.0))
  }

  /** The metrics `d3.min`/`d3.max` look at (they skip null values). */
  function Metrics(points: seq<Point>): (r: seq<real>)
    ensures |r| <= |points|
  {
    if points == [] then []
    else (if points[0].metric.Some? then [points[0].metric.value] else []) + Metrics(points[1..])
  }

  /** `d3.min(points, p => p[2])`: undefined when there is nothing to compare. */
  function MetricMin(points: seq<Point>): Option<real> {
    var ms := Metrics(points);
    if |ms| == 0 then None else Some(MinOf(ms))
  }

  /** `d3.max(points, p => p[2])` */
  function MetricMax(points: seq<Point>): Option<real> {
    var ms := Metrics(points);
    if |ms| == 0 then None else Some(MaxOf(ms))
  }

  /** `cols[i] && cols[i].binning_info && cols[i].binning_info.bin_width` */
  function BinWidthOf(cols: seq<Column>, i: int): Option<real> {
    match ColumnAt(cols, i)
    case None => None
    case Some(c) => c.binWidth
  }

  // ---------------------------------------------------------------------------
  // _getPoints
  // ---------------------------------------------------------------------------

  /** `settings["map.type"] === "pin"` */
  predicate IsPinType(settings: Settings) {
    "map.type" in settings && settings["map.type"] == Str("pin")
  }

  function PolygonIndex(data: Data, settings: Settings): int {
    ColumnIndex(data.cols, settings, "map.polygon_column")
  }

  /** `validPoints` for the extracted vertices. */
  function FlagsOf(settings: Settings, pl: seq<LatLng>): (flags: seq<bool>)
    ensures |flags| == |pl|
    ensures forall i :: 0 <= i < |pl| ==> (flags[i] <==> pl[i].lat.Some? && pl[i].lng.Some?)
  {
    ValidFlags(AllPoints(pl), IsPinType(settings))
  }

  /** `points` */
  function PointsOf(settings: Settings, pl: seq<LatLng>): seq<Point> {
    FilterByFlags(AllPoints(pl), FlagsOf(settings, pl))
  }

  /** `updatedRows` */
  function RowsOf(data: Data, settings: Settings, pl: seq<LatLng>): seq<Row> {
    FilterByFlags(data.rows, FlagsOf(settings, pl))
  }

  /** The warnings handed to `onUpdateWarnings`. */
  function WarningsOf(settings: Settings, pl: seq<LatLng>): seq<Warning> {
    var filtered := |pl| - |PointsOf(settings, pl)|;
    if filtered > 0 then [FilteredNullRows(filtered)] else []
  }

  /** `binWidth`: the bin width of the longitude column. */
  function BinWidthSetting(data: Data, settings: Settings): Option<real> {
    BinWidthOf(data.cols, ColumnIndex(data.cols, settings, "map.longitude_column"))
  }

  /** `binHeight`: the bin width of the latitude column. */
  function BinHeightSetting(data: Data, settings: Settings): Option<real> {
    BinWidthOf(data.cols, ColumnIndex(data.cols, settings, "map.latitude_column"))
  }

  /** `bounds` after the bin adjustment. */
  function BoundsOf(data: Data, settings: Settings, pl: seq<LatLng>): Bounds {
    FilteredPointsLocated(AllPoints(pl), IsPinType(settings));
    AdjustNorthEast(BoxOf(PointsOf(settings, pl)), BinWidthSetting(data, settings), BinHeightSetting(data, settings))
  }

  /** What `_getPoints` computes from the vertices it extracted. */
  function ExtractionOf(data: Data, settings: Settings, pl: seq<LatLng>): Extraction {
    var points := PointsOf(settings, pl);
    Extraction(
      PointsState(
        RowsOf(data, settings, pl), points, BoundsOf(data, settings, pl),
        MetricMin(points), MetricMax(points), BinWidthSetting(data, settings), BinHeightSetting(data, settings)),
      WarningsOf(settings, pl))
  }

  /** The specification of `_getPoints`. */
  function GetPointsSpec(data: Data, settings: Settings, toNumber: string -> real): Result<Extraction, PointsError> {
    match PolygonList(data.rows, PolygonIndex(data, settings), toNumber)
    case Failure(e) => Failure(e)
    case Success(polygonList) => Success(ExtractionOf(data, settings, polygonList))
  }

  /** `_getPoints(props)`: rebuilds `polygonList` row by row and vertex by
      vertex, derives the points, rows and warnings, then widens the bounds
      in place. */
  method GetPoints(data: Data, settings: Settings, toNumber: string -> real) returns (r: Result<Extraction, PointsError>)
    ensures r == GetPointsSpec(data, settings, toNumber)
  {
    var rows := data.rows;
    var polygonIndex := ColumnIndex(data.cols, settings, "map.polygon_column");

    var polygonList: seq<LatLng> := [];
    var i := 0;
    while i < |rows|
      invariant 0 <= i <= |rows|
      invariant PolygonList(rows[..i], polygonIndex, toNumber).Success?
      invariant PolygonList(rows[..i], polygonIndex, toNumber).value == polygonList
    {
      var cell := CellAt(rows[i], polygonIndex);
      if Truthy(cell) && !cell.Str? {
        PolygonListThrowsAt(rows, i, polygonIndex, toNumber);
        return Failure(PolygonCellNotString(cell));
      }
      var vertices: seq<LatLng> := [];
      if Truthy(cell) {
        vertices := ParsePolygon(cell.s, toNumber);
      }
      PolygonListSnoc(rows, i, polygonIndex, toNumber, vertices);
      polygonList := AppendVertices(polygonList, vertices);
      i := i + 1;
    }
    assert rows[..|rows|] == rows;
    var e := Derive(data, settings, polygonList);
    r := Success(e);
  }

  /** The inner loop of `_getPoints`: `polygonList.push(...)` for each vertex of one polygon. */
  method AppendVertices(polygonList: seq<LatLng>, polygonListToLoop: seq<LatLng>) returns (r: seq<LatLng>)
    ensures r == polygonList + polygonListToLoop
  {
    r := polygonList;
    var polI := 0;
    while polI < |polygonListToLoop|
      invariant 0 <= polI <= |polygonListToLoop|
      invariant r == polygonList + polygonListToLoop[..polI]
    {
      assert polygonListToLoop[..polI + 1] == polygonListToLoop[..polI] + [polygonListToLoop[polI]];
      r := r + [polygonListToLoop[polI]];
      polI := polI + 1;
    }
    assert polygonListToLoop[..polI] == polygonListToLoop;
  }

  /** The part of `_getPoints` after the loop: map, filter, warn, bound. */
  method Derive(data: Data, settings: Settings, polygonList: seq<LatLng>) returns (e: Extraction)
    ensures e == ExtractionOf(data, settings, polygonList)
  {
    var allPoints := AllPoints(polygonList);
    var validPoints := ValidFlags(allPoints, IsPinType(settings));
    var points := FilterByFlags(allPoints, validPoints);
    var updatedRows := FilterByFlags(data.rows, validPoints);

    assert validPoints == FlagsOf(settings, polygonList);
    assert points == PointsOf(settings, polygonList);
    assert updatedRows == RowsOf(data, settings, polygonList);

    var warnings: seq<Warning> := [];
    var filteredRows := |allPoints| - |points|;
    if filteredRows > 0 {
      warnings := warnings + [FilteredNullRows(filteredRows)];
    }
    assert warnings == WarningsOf(settings, polygonList);

    var binWidth := BinWidthSetting(data, settings);
    var binHeight := BinHeightSetting(data, settings);
    var bounds := WidenedBounds(settings, polygonList, binWidth, binHeight);
    assert bounds == BoundsOf(data, settings, polygonList);
    e := Extraction(PointsState(updatedRows, points, bounds, MetricMin(points), MetricMax(points), binWidth, binHeight), warnings);
  }

  /** `L.latLngBounds(...)` followed by the in-place update of its north-east corner. */
  method WidenedBounds(settings: Settings, polygonList: seq<LatLng>, binWidth: Option<real>, binHeight: Option<real>)
    returns (bounds: Bounds)
    ensures Located(PointsOf(settings, polygonList))
    ensures bounds == AdjustNorthEast(BoxOf(PointsOf(settings, polygonList)), binWidth, binHeight)
  {
    FilteredPointsLocated(AllPoints(polygonList), IsPinType(settings));
    bounds := BoxOf(PointsOf(settings, polygonList));
    if binWidth.Some? {
      bounds := bounds.(east := bounds.east + binWidth.value);
    }
    if binHeight.Some? {
      bounds := bounds.(north := bounds.north + binHeight.value);
    }
  }

  // ---------------------------------------------------------------------------
  // Properties of _getPoints
  // ---------------------------------------------------------------------------

  /** `_getPoints` throws exactly when some row's polygon cell is truthy and not a string. */
  lemma GetPointsFailsIff(data: Data, settings: Settings, toNumber: string -> real)
    ensures GetPointsSpec(data, settings, toNumber).Failure?
        <==> exists i :: 0 <= i < |data.rows| &&
               Truthy(CellAt(data.rows[i], PolygonIndex(data, settings))) &&
               !CellAt(data.rows[i], PolygonIndex(data, settings)).Str?
  {
    PolygonListFailsIff(data.rows, PolygonIndex(data, settings), toNumber);
  }

  /** The points kept are `[lat, lng, 1]` taken, in order, from exactly the
      vertices with both coordinates. */
  lemma PointsOfKeeps(settings: Settings, pl: seq<LatLng>)
    ensures var points := PointsOf(settings, pl);
            var kept := KeptIndices(|pl|, FlagsOf(settings, pl));
            && |points| == |kept| <= |pl|
            && (forall k :: 0 <= k < |points| ==> points[k] == Point(pl[kept[k]].lat, pl[kept[k]].lng, Some(1.0)))
            && (forall i: nat :: i in kept <==> i < |pl| && pl[i].lat.Some? && pl[i].lng.Some?)
  {
    FilterByFlagsKeeps(AllPoints(pl), FlagsOf(settings, pl));
  }

  /** One warning carrying the number of dropped points when some vertex
      lacks a coordinate; otherwise no warning. */
  lemma WarningsOfCount(settings: Settings, pl: seq<LatLng>)
    ensures var w := WarningsOf(settings, pl);
            && (w == [] || w == [FilteredNullRows(|pl| - |PointsOf(settings, pl)|)])
            && (w != [] <==> exists i :: 0 <= i < |pl| && (pl[i].lat.None? || pl[i].lng.None?))
  {
    FilterByFlagsDropsNothingIff(AllPoints(pl), FlagsOf(settings, pl));
  }

  /** `updatedRows` keeps row `i` exactly when vertex `i` is valid: at most
      `min(rows.length, allPoints.length)` rows, in their original order. */
  lemma RowsOfKeeps(data: Data, settings: Settings, pl: seq<LatLng>)
    ensures var rows := RowsOf(data, settings, pl);
            var kept := KeptIndices(|data.rows|, FlagsOf(settings, pl));
            && |rows| == |kept| && |rows| <= |data.rows| && |rows| <= |pl|
            && (forall k :: 0 <= k < |rows| ==> rows[k] == data.rows[kept[k]])
            && (forall i: nat :: i in kept <==> i < |data.rows| && i < |pl| && pl[i].lat.Some? && pl[i].lng.Some?)
  {
    FilterByFlagsKeeps(data.rows, FlagsOf(settings, pl));
  }

  /** With no points the box is the whole world, otherwise the box of the
      points; then only the north-east corner moves, by the bin widths of the
      longitude and latitude columns that are present. */
  lemma BoundsOfAdjusted(data: Data, settings: Settings, pl: seq<LatLng>)
    ensures var points := PointsOf(settings, pl);
            var b := BoundsOf(data, settings, pl);
            && Located(points)
            && (|points| == 0 ==> BoxOf(points) == WorldBounds)
            && b.south == BoxOf(points).south && b.west == BoxOf(points).west
            && b.east == BoxOf(points).east + BinWidthSetting(data, settings).GetOr(0.0)
            && b.north == BoxOf(points).north + BinHeightSetting(data, settings).GetOr(0.0)
  {
    FilteredPointsLocated(AllPoints(pl), IsPinType(settings));
  }

  lemma {:induction false} MetricsOfOnes(points: seq<Point>)
    requires forall i :: 0 <= i < |points| ==> points[i].metric == Some(1.0)
    ensures Metrics(points) == seq(|points|, _ => 1.0)
  {
    if points != [] {
      MetricsOfOnes(points[1..]);
    }
  }

  lemma PointsOfMetricOne(settings: Settings, pl: seq<LatLng>)
    ensures forall k :: 0 <= k < |PointsOf(settings, pl)| ==> PointsOf(settings, pl)[k].metric == Some(1.0)
  {
    FilterByFlagsKeeps(AllPoints(pl), FlagsOf(settings, pl));
  }

  /** Every metric is 1, so the range is `[1, 1]` when there are points and
      undefined when there are none. */
  lemma RangeOfPoints(settings: Settings, pl: seq<LatLng>)
    ensures var points := PointsOf(settings, pl);
            && MetricMin(points) == MetricMax(points)
            && (MetricMin(points).Some? <==> |points| > 0)
            && (MetricMin(points).Some? ==> MetricMin(points).value == 1.0)
  {
    var points := PointsOf(settings, pl);
    PointsOfMetricOne(settings, pl);
    MetricsOfOnes(points);
    var ms := Metrics(points);
    if |ms| > 0 {
      assert ms[0] == 1.0;
      assert MinOf(ms) == 1.0 && MaxOf(ms) == 1.0;
    }
  }

  /** Without a matching polygon column nothing is extracted: no points, no
      rows, no warning, whole-world bounds before the bin adjustment. */
  lemma GetPointsNoPolygonColumn(data: Data, settings: Settings, toNumber: string -> real)
    requires PolygonIndex(data, settings) == -1
    ensures GetPointsSpec(data, settings, toNumber).Success?
    ensures var e := GetPointsSpec(data, settings, toNumber).value;
            e.state.points == [] && e.state.rows == [] && e.warnings == [] &&
            e.state.min.None? && e.state.max.None? &&
            e.state.bounds == AdjustNorthEast(WorldBounds, e.state.binWidth, e.state.binHeight)
  {
    PolygonListNoColumn(data.rows, toNumber);
    assert GetPointsSpec(data, settings, toNumber).value == ExtractionOf(data, settings, []);
    RowsOfKeeps(data, settings, []);
  }

  /** The rows are filtered by vertex position, not by the row a vertex came
      from: when a row without a polygon comes first and the second row holds
      a one-vertex polygon, the first row is kept and the second dropped. */
  lemma RowsFilteredByVertexPosition(toNumber: string -> real)
    ensures var data := Data([Column("area", "type/Text", None, None)], [[Null], [Str("POLYGON ((1 2))")]]);
            var settings := map["map.polygon_column" := Str("area")];
            GetPointsSpec(data, settings, toNumber).Success? &&
            GetPointsSpec(data, settings, toNumber).value.state.rows == [[Null]]
  {
    var data := Data([Column("area", "type/Text", None, None)], [[Null], [Str("POLYGON ((1 2))")]]);
    var settings := map["map.polygon_column" := Str("area")];
    assert PolygonIndex(data, settings) == 0;
    var v := ExamplePolygonRows(toNumber);
    assert FlagsOf(settings, [v]) == [true];
    assert FilterByFlags(data.rows[..1], [true]) == [[Null]];
  }

  lemma ExampleSinglePolygon(toNumber: string -> real) returns (v: LatLng)
    ensures v.lat.Some? && v.lng.Some?
    ensures ParsePolygon("POLYGON ((1 2))", toNumber) == [v]
  {
    var coords := [("1", "2")];
    assert Join([WktPiece(coords[0], true)], ',') == "1 2";
    assert FormatPolygon(coords) == "POLYGON ((1 2))";
    WktRoundTrip(coords, toNumber);
    v := LatLng(Some(toNumber("2")), Some(toNumber("1")));
  }

  /** The two example rows contribute one vertex, and it comes from the second row. */
  lemma ExamplePolygonRows(toNumber: string -> real) returns (v: LatLng)
    ensures v.lat.Some? && v.lng.Some?
    ensures PolygonList([[Null], [Str("POLYGON ((1 2))")]], 0, toNumber).Success?
    ensures PolygonList([[Null], [Str("POLYGON ((1 2))")]], 0, toNumber).value == [v]
  {
    var rows := [[Null], [Str("POLYGON ((1 2))")]];
    v := ExampleSinglePolygon(toNumber);
    RowVerticesOfString(rows[1], 0, toNumber);
    assert rows[..0] == [];
    PolygonListSnoc(rows, 0, 0, toNumber, []);
    PolygonListSnoc(rows, 1, 0, toNumber, [v]);
    assert rows[..2] == rows;
  }

  // ---------------------------------------------------------------------------
  // Component props and the recompute test
  // ---------------------------------------------------------------------------

  /** The props `_getPoints` reads. `dataRef` is the identity of the
      `series[0].data` object. */
  datatype Props = Props(dataRef: nat, data: Data, settings: Settings)

  /** `SETTINGS_KEYS` */
  const WatchedKeys: set<string> := {"map.polygon_column", "map.latitude_column", "map.longitude_column"}

  /** `_.pick(settings, ...SETTINGS_KEYS)` */
  function Pick(settings: Settings): map<string, Value> {
    map k | k in settings && k in WatchedKeys :: settings[k]
  }

  /** The test in `UNSAFE_componentWillReceiveProps`. */
  predicate ShouldRecompute(current: Props, next: Props) {
    next.dataRef != current.dataRef || Pick(next.settings) != Pick(current.settings)
  }

  /** Two settings objects agree on one key: both lack it or both hold the same value. */
  predicate SameKey(a: Settings, b: Settings, k: string) {
    (k in a <==> k in b) && (k in a ==> a[k] == b[k])
  }

  /** Points are kept exactly when the data object is the same and the three
      watched settings are deeply equal. */
  lemma RecomputeIff(current: Props, next: Props)
    ensures !ShouldRecompute(current, next) <==>
      && current.dataRef == next.dataRef
      && SameKey(current.settings, next.settings, "map.polygon_column")
      && SameKey(current.settings, next.settings, "map.latitude_column")
      && SameKey(current.settings, next.settings, "map.longitude_column")
  {
    var a, b := Pick(current.settings), Pick(next.settings);
    if SameKey(current.settings, next.settings, "map.polygon_column")
      && SameKey(current.settings, next.settings, "map.latitude_column")
      && SameKey(current.settings, next.settings, "map.longitude_column")
    {
      assert a.Keys == b.Keys;
      assert forall k :: k in a ==> a[k] == b[k];
      assert a == b;
    }
    if a == b {
      forall k | k in WatchedKeys ensures SameKey(current.settings, next.settings, k) {
        assert k in current.settings <==> k in a;
        assert k in next.settings <==> k in b;
      }
    }
  }

  // ---------------------------------------------------------------------------
  // The component
  // ---------------------------------------------------------------------------

  /** The settings `updateSettings` saves: a key for each of centre latitude,
      centre longitude and zoom that is set, and no other key. */
  function SavedView(lat: Option<real>, lng: Option<real>, zoom: Option<real>): (m: map<string, real>)
    ensures ("map.center_latitude" in m <==> lat.Some?) && (lat.Some? ==> m["map.center_latitude"] == lat.value)
    ensures ("map.center_longitude" in m <==> lng.Some?) && (lng.Some? ==> m["map.center_longitude"] == lng.value)
    ensures ("map.zoom" in m <==> zoom.Some?) && (zoom.Some? ==> m["map.zoom"] == zoom.value)
    ensures m.Keys <= {"map.center_latitude", "map.center_longitude", "map.zoom"}
  {
    var m1: map<string, real> := if lat.Some? then map["map.center_latitude" := lat.value] else map[];
    var m2 := if lng.Some? then m1["map.center_longitude" := lng.value] else m1;
    if zoom.Some? then m2["map.zoom" := zoom.value] else m2
  }

  /** The PinMap component's state. */
  class PinMapView {
    const toNumber: string -> real
    var props: Props
    var lat: Option<real>
    var lng: Option<real>
    var zoom: Option<real>
    var filtering: bool
    var showModal: bool
    var modalData: seq<ColumnValue>
    var derived: PointsState

    /** The state the constructor sets up around the result of `_getPoints`. */
    constructor (props: Props, toNumber: string -> real, derived: PointsState)
      ensures this.props == props && this.toNumber == toNumber && this.derived == derived
      ensures lat.None? && lng.None? && zoom.None?
      ensures !filtering && !showModal && modalData == []
    {
      this.props := props;
      this.toNumber := toNumber;
      this.derived := derived;
      lat, lng, zoom := None, None, None;
      filtering, showModal, modalData := false, false, [];
    }

    /** `toggleModal(data)`: flips the modal and shows a copy of `data`. */
    method ToggleModal(data: seq<ColumnValue>)
      modifies this
      ensures showModal == !old(showModal) && modalData == data
      ensures props == old(props) && lat == old(lat) && lng == old(lng) && zoom == old(zoom)
      ensures filtering == old(filtering) && derived == old(derived)
    {
      showModal := !showModal;
      modalData := data;
    }

    /** `onMapCenterChange(lat, lng)` */
    method OnMapCenterChange(newLat: real, newLng: real)
      modifies this`lat, this`lng
      ensures lat == Some(newLat) && lng == Some(newLng)
    {
      lat, lng := Some(newLat), Some(newLng);
    }

    /** `onMapZoomChange(zoom)` */
    method OnMapZoomChange(newZoom: real)
      modifies this`zoom
      ensures zoom == Some(newZoom)
    {
      zoom := Some(newZoom);
    }

    /** `updateSettings()`: hands the unsaved view to
        `onUpdateVisualizationSettings` and clears it. */
    method UpdateSettings() returns (newSettings: map<string, real>)
      modifies this`lat, this`lng, this`zoom
      ensures newSettings == SavedView(old(lat), old(lng), old(zoom))
      ensures lat.None? && lng.None? && zoom.None?
    {
      newSettings := map[];
      if lat.Some? {
        newSettings := newSettings["map.center_latitude" := lat.value];
      }
      if lng.Some? {
        newSettings := newSettings["map.center_longitude" := lng.value];
      }
      if zoom.Some? {
        newSettings := newSettings["map.zoom" := zoom.value];
      }
      lat, lng, zoom := None, None, None;
    }

    /** `UNSAFE_componentWillReceiveProps(newProps)` followed by React
        installing the new props. When `_getPoints` throws, the update is
        abandoned and nothing changes. */
    method ReceiveProps(newProps: Props) returns (error: Option<PointsError>, warnings: seq<Warning>)
      modifies this`props, this`derived
      ensures !old(ShouldRecompute(props, newProps)) ==>
        error.None? && warnings == [] && props == newProps && derived == old(derived)
      ensures old(ShouldRecompute(props, newProps)) ==>
        match GetPointsSpec(newProps.data, newProps.settings, toNumber)
        case Failure(e) => error == Some(e) && warnings == [] && props == old(props) && derived == old(derived)
        case Success(x) => error.None? && warnings == x.warnings && props == newProps && derived == x.state
    {
      error, warnings := None, [];
      if ShouldRecompute(props, newProps) {
        var r := GetPoints(newProps.data, newProps.settings, toNumber);
        match r
        case Failure(e) => {
          error := Some(e);
          return;
        }
        case Success(x) => {
          derived := x.state;
          warnings := x.warnings;
        }
      }
      props := newProps;
    }
  }

  /** Constructing the component: the constructor calls `_getPoints`, so it
      throws when `_getPoints` throws. */
  method Mount(props: Props, toNumber: string -> real) returns (r: Result<PinMapView, PointsError>, warnings: seq<Warning>)
    ensures r.Failure? <==> GetPointsSpec(props.data, props.settings, toNumber).Failure?
    ensures r.Failure? ==> r.error == GetPointsSpec(props.data, props.settings, toNumber).error && warnings == []
    ensures r.Success? ==>
      var x := GetPointsSpec(props.data, props.settings, toNumber).value;
      && fresh(r.value) && r.value.props == props && r.value.toNumber == toNumber
      && r.value.derived == x.state && warnings == x.warnings
      && r.value.lat.None? && r.value.lng.None? && r.value.zoom.None?
      && !r.value.showModal && !r.value.filtering && r.value.modalData == []
  {
    var p := GetPoints(props.data, props.settings, toNumber);
    match p
    case Failure(e) => {
      r, warnings := Failure(e), [];
    }
    case Success(x) => {
      var view := new PinMapView(props, toNumber, x.state);
      r, warnings := Success(view), x.warnings;
    }
  }

  /** `PinMap.isSensible`: the columns include a polygon column. */
  predicate IsSensible(data: Data, hasPolygon: seq<Column> -> bool) {
    hasPolygon(data.cols)
  }
}
