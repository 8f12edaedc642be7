/**
 * The query result a visualization receives: columns, rows of cell values,
 * and the visualization settings object. Shared by the map components.
 */
module QueryData {
  import opened Wrappers

  /** A cell or setting value as JavaScript sees it. `Null` also stands for
      `undefined`, which the code never tells apart from `null`. */
  datatype Value = Null | Bool(b: bool) | Num(x: real) | Str(s: string)

  /** JavaScript truthiness (NaN is not modelled). */
  predicate Truthy(v: Value) {
    match v
    case Null => false
    case Bool(b) => b
    case Num(x) => x != 0.0
    case Str(s) => s != ""
  }

  type Row = seq<Value>

  /** Column metadata. `binWidth` is `binning_info.bin_width`, `None` when the
      column has no binning info or the info has no width. */
  datatype Column = Column(name: string, baseType: string, semanticType: Option<string>, binWidth: Option<real>)

  /** `series[i].data` */
  datatype Data = Data(cols: seq<Column>, rows: seq<Row>)

  /** The visualization settings object: keys absent from the map are undefined. */
  type Settings = map<string, Value>

  /** A `[lat, lng]` pair; a coordinate is `None` when it was undefined. */
  datatype LatLng = LatLng(lat: Option<real>, lng: Option<real>)

  /** A `{col, value}` pair, as in a click payload's `data` and the detail modal. */
  datatype ColumnValue = ColumnValue(col: Column, value: Value)

  /** `row[i]`: out-of-range indices, -1 included, read as undefined. */
  function CellAt(row: Row, i: int): (v: Value)
    ensures 0 <= i < |row| ==> v == row[i]
    ensures !(0 <= i < |row|) ==> !Truthy(v)
  {
    if 0 <= i < |row| then row[i] else Null
  }

  /** `_.findIndex(xs, p)` / `xs.findIndex(p)`: the first index satisfying
      `p`, or -1 when there is none. */
  function FindIndex<T>(xs: seq<T>, p: T -> bool): (r: int)
    ensures -1 <= r < |xs|
    ensures r >= 0 ==> p(xs[r]) && forall k :: 0 <= k < r ==> !p(xs[k])
    ensures r == -1 <==> forall k :: 0 <= k < |xs| ==> !p(xs[k])
  {
    if |xs| == 0 then -1
    else if p(xs[0]) then 0
    else
      var r := FindIndex(xs[1..], p);
      if r == -1 then -1 else r + 1
  }

  /** The string a setting holds, if it is a string. */
  function SettingString(settings: Settings, key: string): Option<string> {
    if key in settings && settings[key].Str? then Some(settings[key].s) else None
  }

  /** `cols.findIndex(col => col.name === settings[key])`: a column name
      never equals a non-string or missing setting. */
  function ColumnIndex(cols: seq<Column>, settings: Settings, key: string): (r: int)
    ensures -1 <= r < |cols|
    ensures r >= 0 ==> SettingString(settings, key) == Some(cols[r].name)
    ensures r >= 0 ==> forall k :: 0 <= k < r ==> SettingString(settings, key) != Some(cols[k].name)
    ensures r == -1 <==> forall k :: 0 <= k < |cols| ==> SettingString(settings, key) != Some(cols[k].name)
  {
    FindIndex(cols, (c: Column) => SettingString(settings, key) == Some(c.name))
  }

  /** `cols[i]`, undefined when out of range. */
  function ColumnAt(cols: seq<Column>, i: int): (r: Option<Column>)
    ensures r.Some? <==> 0 <= i < |cols|
    ensures r.Some? ==> r.value == cols[i]
  {
    if 0 <= i < |cols| then Some(cols[i]) else None
  }
}
