/**
 * The "Geofence and Marker Map" visualization: the defaults and visibility
 * rules of its settings, its sensibility test and its re-render test.
 */
module MapSettings {
  import opened Wrappers
  import opened QueryData
  import PinMap

  /** `PIN_MAP_TYPES` */
  const PinMapTypes: set<string> := {"pin", "heat", "grid"}

  /** `PIN_MAP_TYPES.has(v)`: only a string can be a member. */
  predicate IsPinMapType(v: Value) {
    v.Str? && v.s in PinMapTypes
  }

  /** `vizSettings["map.type"]`, undefined when absent. */
  function MapType(settings: Settings): Value {
    if "map.type" in settings then settings["map.type"] else Null
  }

  /** The settings this visualization declares (besides the column settings). */
  datatype SettingKey =
    | Type | PinType
    | PolygonColumn | ColorColumn | TypeColumn | LatitudeColumn | LongitudeColumn
    | MovimentStatusColumn | LoadStatusColumn | DetailData
    | Colors | Zoom | CenterLatitude | CenterLongitude
    | HeatRadius | HeatBlur | HeatMinOpacity | HeatMaxZoom

  /** The settings declared through `fieldSetting(...)`. */
  predicate IsFieldSetting(key: SettingKey) {
    key in {PolygonColumn, ColorColumn, TypeColumn, LatitudeColumn, LongitudeColumn,
            MovimentStatusColumn, LoadStatusColumn, DetailData}
  }

  /** The four `map.heat.*` settings. */
  predicate IsHeatSetting(key: SettingKey) {
    key in {HeatRadius, HeatBlur, HeatMinOpacity, HeatMaxZoom}
  }

  /** The key each setting is stored under. */
  function KeyName(key: SettingKey): string {
    match key
    case Type => "map.type"
    case PinType => "map.pin_type"
    case PolygonColumn => "map.polygon_column"
    case ColorColumn => "map.color_column"
    case TypeColumn => "map.type_column"
    case LatitudeColumn => "map.latitude_column"
    case LongitudeColumn => "map.longitude_column"
    case MovimentStatusColumn => "map.moviment_status_column"
    case LoadStatusColumn => "map.load_status_column"
    case DetailData => "map.detail_data"
    case Colors => "map.colors"
    case Zoom => "map.zoom"
    case CenterLatitude => "map.center_latitude"
    case CenterLongitude => "map.center_longitude"
    case HeatRadius => "map.heat.radius"
    case HeatBlur => "map.heat.blur"
    case HeatMinOpacity => "map.heat.min-opacity"
    case HeatMaxZoom => "map.heat.max-zoom"
  }

  /** `getHidden(series, vizSettings)`; a setting without one is never hidden. */
  predicate IsHidden(key: SettingKey, settings: Settings) {
    if key == PinType || IsFieldSetting(key) then !IsPinMapType(MapType(settings))
    else if key == Colors then MapType(settings) != Str("region")
    else if IsHeatSetting(key) then MapType(settings) != Str("heat")
    else false
  }

  /** The default of a setting: a value (`Null` is an undefined default), the
      colour scale of the first accent colour, or none declared. */
  datatype Default = NoDefault | Fixed(value: Value) | FirstAccentScale

  /** `getDefault([{ data }], vizSettings)` or `default`. `isLatitude` and
      `isLongitude` are the column type tests. */
  function DefaultOf(key: SettingKey, data: Data, settings: Settings,
                     isLatitude: Column -> bool, isLongitude: Column -> bool): Default
  {
    match key
    case Type => Fixed(Str("pin"))
    case PinType =>
      Fixed(Str(
        if MapType(settings) == Str("heat") then "heat"
        else if MapType(settings) == Str("grid") then "grid"
        else if |data.rows| >= 1000 then "tiles"
        else "markers"))
    case LatitudeColumn => Fixed(FirstColumnName(data.cols, isLatitude))
    case LongitudeColumn => Fixed(FirstColumnName(data.cols, isLongitude))
    case Colors => FirstAccentScale
    case HeatRadius => Fixed(Num(30.0))
    case HeatBlur => Fixed(Num(60.0))
    case HeatMinOpacity => Fixed(Num(0.0))
    case HeatMaxZoom => Fixed(Num(1.0))
    case _ => NoDefault
  }

  /** `(_.find(cols, p) || {}).name` */
  function FirstColumnName(cols: seq<Column>, p: Column -> bool): Value {
    var i := FindIndex(cols, p);
    if i >= 0 then Str(cols[i].name) else Null
  }

  // ---------------------------------------------------------------------------
  // Properties of the settings
  // ---------------------------------------------------------------------------

  /** Every setting has its own key. */
  lemma KeyNamesDistinct(a: SettingKey, b: SettingKey)
    ensures KeyName(a) == KeyName(b) <==> a == b
  {
  }

  /** The pin type and every field setting are hidden exactly when the map
      type is not one of pin, heat and grid. */
  lemma PinSettingsHiddenIff(key: SettingKey, settings: Settings)
    requires key == PinType || IsFieldSetting(key)
    ensures IsHidden(key, settings) <==> !(MapType(settings) in {Str("pin"), Str("heat"), Str("grid")})
  {
  }

  /** The colours are shown only for region maps and the heat settings only
      for heat maps. */
  lemma ColorsAndHeatHiddenIff(settings: Settings)
    ensures IsHidden(Colors, settings) <==> MapType(settings) != Str("region")
    ensures forall key :: IsHeatSetting(key) ==> (IsHidden(key, settings) <==> MapType(settings) != Str("heat"))
  {
  }

  /** The visible groups exclude each other where the types do: when the
      colours show, no field setting does; when a heat setting shows, every
      field setting does too. The view settings are always shown. */
  lemma VisibleGroups(settings: Settings)
    ensures !IsHidden(Colors, settings) ==> forall key :: IsFieldSetting(key) ==> IsHidden(key, settings)
    ensures !IsHidden(HeatRadius, settings) ==> forall key :: IsFieldSetting(key) ==> !IsHidden(key, settings)
    ensures !IsHidden(Type, settings) && !IsHidden(Zoom, settings)
    ensures !IsHidden(CenterLatitude, settings) && !IsHidden(CenterLongitude, settings)
  {
  }

  /** The map type always defaults to `"pin"`. */
  lemma MapTypeDefault(data: Data, settings: Settings, isLatitude: Column -> bool, isLongitude: Column -> bool)
    ensures DefaultOf(Type, data, settings, isLatitude, isLongitude) == Fixed(Str("pin"))
  {
  }

  /** The pin type defaults to the heat or grid map type when that is set,
      otherwise to tiles from 1000 rows up and to markers below. */
  lemma PinTypeDefault(data: Data, settings: Settings, isLatitude: Column -> bool, isLongitude: Column -> bool)
    ensures var d := DefaultOf(PinType, data, settings, isLatitude, isLongitude);
            && d.Fixed? && d.value.Str?
            && (d.value.s == "heat" <==> MapType(settings) == Str("heat"))
            && (d.value.s == "grid" <==> MapType(settings) == Str("grid"))
            && (d.value.s == "tiles" <==> MapType(settings) !in {Str("heat"), Str("grid")} && |data.rows| >= 1000)
            && (d.value.s == "markers" <==> MapType(settings) !in {Str("heat"), Str("grid")} && |data.rows| < 1000)
  {
  }

  /** The latitude and longitude columns default to the name of the first
      column of that type, and are undefined when there is none. */
  lemma CoordinateColumnDefaults(data: Data, settings: Settings, isLatitude: Column -> bool, isLongitude: Column -> bool)
    ensures var d := DefaultOf(LatitudeColumn, data, settings, isLatitude, isLongitude);
            && d.Fixed?
            && (d.value == Null <==> forall c :: 0 <= c < |data.cols| ==> !isLatitude(data.cols[c]))
            && (d.value != Null ==>
                  exists c :: 0 <= c < |data.cols| && isLatitude(data.cols[c]) &&
                    d.value == Str(data.cols[c].name) && (forall e :: 0 <= e < c ==> !isLatitude(data.cols[e])))
    ensures var d := DefaultOf(LongitudeColumn, data, settings, isLatitude, isLongitude);
            && d.Fixed?
            && (d.value == Null <==> forall c :: 0 <= c < |data.cols| ==> !isLongitude(data.cols[c]))
            && (d.value != Null ==>
                  exists c :: 0 <= c < |data.cols| && isLongitude(data.cols[c]) &&
                    d.value == Str(data.cols[c].name) && (forall e :: 0 <= e < c ==> !isLongitude(data.cols[e])))
  {
    var i := FindIndex(data.cols, isLatitude);
    if i >= 0 {
      assert isLatitude(data.cols[i]);
    }
    var j := FindIndex(data.cols, isLongitude);
    if j >= 0 {
      assert isLongitude(data.cols[j]);
    }
  }

  /** The heat settings default to radius 30, blur 60, opacity 0 and zoom 1. */
  lemma HeatDefaults(data: Data, settings: Settings, isLatitude: Column -> bool, isLongitude: Column -> bool)
    ensures DefaultOf(HeatRadius, data, settings, isLatitude, isLongitude) == Fixed(Num(30.0))
    ensures DefaultOf(HeatBlur, data, settings, isLatitude, isLongitude) == Fixed(Num(60.0))
    ensures DefaultOf(HeatMinOpacity, data, settings, isLatitude, isLongitude) == Fixed(Num(0.0))
    ensures DefaultOf(HeatMaxZoom, data, settings, isLatitude, isLongitude) == Fixed(Num(1.0))
  {
  }

  // ---------------------------------------------------------------------------
  // Sensibility and re-rendering
  // ---------------------------------------------------------------------------

  /** `isSensible({cols, rows})`: any of the pin map, the choropleth map and
      the grid heat map can show the data. The last two tests are given. */
  predicate IsSensible(data: Data, hasPolygon: seq<Column> -> bool,
                       choroplethIsSensible: Data -> bool, gridIsSensible: Data -> bool)
  {
    PinMap.IsSensible(data, hasPolygon) || choroplethIsSensible(data) || gridIsSensible(data)
  }

  /** The data is sensible exactly when it has a polygon column or one of
      the other two maps accepts it. */
  lemma IsSensibleIff(data: Data, hasPolygon: seq<Column> -> bool,
                      choroplethIsSensible: Data -> bool, gridIsSensible: Data -> bool)
    ensures IsSensible(data, hasPolygon, choroplethIsSensible, gridIsSensible)
        <==> hasPolygon(data.cols) || choroplethIsSensible(data) || gridIsSensible(data)
  {
  }

  /** The props `shouldComponentUpdate` compares; `series` is an identity. */
  datatype Props = Props(width: Value, height: Value, series: nat)

  /** `shouldComponentUpdate(nextProps)`; `isSameSeries` is given. */
  predicate ShouldComponentUpdate(props: Props, nextProps: Props, isSameSeries: (nat, nat) -> bool) {
    var sameSize := props.width == nextProps.width && props.height == nextProps.height;
    var sameSeries := isSameSeries(props.series, nextProps.series);
    !(sameSize && sameSeries)
  }

  /** A re-render is skipped exactly when the size and the series are the
      same; in particular identical props never re-render when
      `isSameSeries` is reflexive, and a new width or height always does. */
  lemma ShouldComponentUpdateIff(props: Props, nextProps: Props, isSameSeries: (nat, nat) -> bool)
    ensures !ShouldComponentUpdate(props, nextProps, isSameSeries)
        <==> props.width == nextProps.width && props.height == nextProps.height && isSameSeries(props.series, nextProps.series)
    ensures (props.width != nextProps.width || props.height != nextProps.height) ==> ShouldComponentUpdate(props, nextProps, isSameSeries)
    ensures isSameSeries(props.series, props.series) ==> !ShouldComponentUpdate(props, props, isSameSeries)
  {
  }
}
