/**
 * The records a single-stat panel is made of: `Mapping`, `SparkLine`,
 * `ValueMap`, `RangeMap` and `Gauge`.
 */
module StatParts {
  import opened Wire
  import opened Objects
  import opened Transform
  import opened Records
  import opened Codecs

  // ---------------------------------------------------------------------
  // Mapping
  // ---------------------------------------------------------------------

  /** A value mapping type; `value` is a Python `int` (see `IsInt`). */
  datatype Mapping = Mapping(name: Json, value: Json)

  const MAPPING_KEYS: seq<string> := ["name", "value"]

  /** `MAPPING_VALUE_TO_TEXT` and `MAPPING_RANGE_TO_TEXT`. */
  const MAPPING_VALUE_TO_TEXT := Mapping(JStr("value to text"), JInt(1))
  const MAPPING_RANGE_TO_TEXT := Mapping(JStr("range to text"), JInt(2))

  /** `Mapping.to_json_data`. */
  function EncodeMapping(m: Mapping): (e: Json)
    ensures WritesKeys(e, MAPPING_KEYS)
  {
    ObjectOfWrites(MAPPING_KEYS, [m.name, m.value]);
    JObj(ObjectOf(MAPPING_KEYS, [m.name, m.value]))
  }

  /** `Mapping.parse_json_data`: `cls(**data)`, both arguments required, `value` an `int`. */
  function DecodeMapping(data: Json): (r: Result<Mapping>)
    ensures r.Ok? ==> IsInt(r.value.value)
    ensures r.Ok? <==> data.JObj? && CheckCall(data.fields, MAPPING_KEYS, {"name", "value"}).Ok? && IsInt(data.fields["value"])
    ensures r.Err? ==> r.error.TypeError?
  {
    var d :- Kwargs(data);
    var _ :- CheckCall(d, MAPPING_KEYS, {"name", "value"});
    var a := Arguments(d, MAPPING_KEYS);
    var value :- IntArg(a[1], JNull);
    Ok(Mapping(a[0].value, value))
  }

  /** A mapping whose value is an `int` survives its encoding unchanged. */
  lemma MappingRoundTrip(m: Mapping)
    requires IsInt(m.value)
    ensures DecodeMapping(EncodeMapping(m)) == Ok(m)
  {
    BindAll(MAPPING_KEYS, [m.name, m.value], {"name", "value"});
  }

  // ---------------------------------------------------------------------
  // SparkLine
  // ---------------------------------------------------------------------

  datatype SparkLine = SparkLine(fillColor: RGBA, full: bool, lineColor: RGB, show: bool)

  const SPARKLINE_KEYS: seq<string> := ["fillColor", "full", "lineColor", "show"]

  /** `SparkLine()`. */
  const DEFAULT_SPARKLINE := SparkLine(BLUE_RGBA, false, BLUE_RGB, false)

  function SparkLineValues(s: SparkLine): (vals: seq<Json>)
    ensures |vals| == |SPARKLINE_KEYS|
  {
    [EncodeRgba(s.fillColor), JBool(s.full), EncodeRgb(s.lineColor), JBool(s.show)]
  }

  /** `SparkLine.to_json_data`: the colours are written as `rgba(...)` and `rgb(...)` strings. */
  function EncodeSparkLine(s: SparkLine): (e: Json)
    ensures WritesKeys(e, SPARKLINE_KEYS)
  {
    ObjectOfWrites(SPARKLINE_KEYS, SparkLineValues(s));
    JObj(ObjectOf(SPARKLINE_KEYS, SparkLineValues(s)))
  }

  /**
   * `SparkLine.parse_json_data`: the two colours are read in rule order,
   * then the constructor checks its keywords and its boolean attributes.
   */
  function DecodeSparkLine(data: Json): (r: Result<SparkLine>)
    ensures r.Ok? ==> DictOf(data).Ok? && CheckCall(DictOf(data).value, SPARKLINE_KEYS, {}).Ok?
  {
    var d :- DictOf(data);
    var a := Arguments(d, SPARKLINE_KEYS);
    var fillColor :- Converted(a[0], DecodeRgba, BLUE_RGBA);
    var lineColor :- Converted(a[2], DecodeRgb, BLUE_RGB);
    var _ :- CheckCall(d, SPARKLINE_KEYS, {});
    var full :- BoolArg(a[1], false);
    var show :- BoolArg(a[3], false);
    Ok(SparkLine(fillColor, full, lineColor, show))
  }

  /** Both colours of the sparkline can be read back. */
  predicate SparkLineReadable(s: SparkLine) {
    RgbaReadable(s.fillColor) && RgbReadable(s.lineColor)
  }

  /** A sparkline whose colours can be read back survives its encoding unchanged. */
  lemma SparkLineRoundTrip(s: SparkLine)
    requires SparkLineReadable(s)
    ensures DecodeSparkLine(EncodeSparkLine(s)) == Ok(s)
  {
    var vals := SparkLineValues(s);
    assert Arguments(ObjectOf(SPARKLINE_KEYS, vals), SPARKLINE_KEYS) == Somes(vals)
        && CheckCall(ObjectOf(SPARKLINE_KEYS, vals), SPARKLINE_KEYS, {}) == Ok(()) by {
      BindAll(SPARKLINE_KEYS, vals, {});
    }
    RgbaRoundTrip(s.fillColor);
    RgbRoundTrip(s.lineColor);
  }

  // ---------------------------------------------------------------------
  // ValueMap and RangeMap
  // ---------------------------------------------------------------------

  datatype ValueMap = ValueMap(op: Json, text: Json, value: Json)

  const VALUEMAP_KEYS: seq<string> := ["op", "text", "value"]

  /** `ValueMap.to_json_data`. */
  function EncodeValueMap(v: ValueMap): (e: Json)
    ensures WritesKeys(e, VALUEMAP_KEYS)
  {
    ObjectOfWrites(VALUEMAP_KEYS, [v.op, v.text, v.value]);
    JObj(ObjectOf(VALUEMAP_KEYS, [v.op, v.text, v.value]))
  }

  /** `ValueMap.parse_json_data`: `cls(**data)`, every argument required. */
  function DecodeValueMap(data: Json): (r: Result<ValueMap>)
    ensures r.Ok? <==> data.JObj? && CheckCall(data.fields, VALUEMAP_KEYS, {"op", "text", "value"}).Ok?
    ensures r.Err? ==> r.error.TypeError?
  {
    var d :- Kwargs(data);
    var _ :- CheckCall(d, VALUEMAP_KEYS, {"op", "text", "value"});
    Ok(ValueMap(d["op"], d["text"], d["value"]))
  }

  /** A value map survives its encoding unchanged. */
  lemma ValueMapRoundTrip(v: ValueMap)
    ensures DecodeValueMap(EncodeValueMap(v)) == Ok(v)
  {
    var vals := [v.op, v.text, v.value];
    BindAll(VALUEMAP_KEYS, vals, {"op", "text", "value"});
    ObjectOfAt(VALUEMAP_KEYS, vals, 0);
    ObjectOfAt(VALUEMAP_KEYS, vals, 1);
    ObjectOfAt(VALUEMAP_KEYS, vals, 2);
  }

  /** A range mapping; `start` and `end` are written as `from` and `to`. */
  datatype RangeMap = RangeMap(start: Json, end: Json, text: Json)

  const RANGEMAP_WIRE_NAMES: seq<string> := ["from", "to"]
  const RANGEMAP_RENAMED: seq<string> := ["start", "end"]
  const RANGEMAP_REST: seq<string> := ["text"]

  /** `RangeMap.to_json_data`. */
  function EncodeRangeMap(m: RangeMap): (e: Json)
    ensures WritesKeys(e, RANGEMAP_WIRE_NAMES + RANGEMAP_REST)
  {
    ObjectOfWrites(RANGEMAP_WIRE_NAMES + RANGEMAP_REST, [m.start, m.end, m.text]);
    JObj(ObjectOf(RANGEMAP_WIRE_NAMES + RANGEMAP_REST, [m.start, m.end, m.text]))
  }

  /** `RangeMap.parse_json_data`: `from` and `to` renamed, then `cls(**new_data)`. */
  function DecodeRangeMap(data: Json): (r: Result<RangeMap>)
    ensures r.Ok? <==> (DictOf(data).Ok? &&
      CheckCall(TransformDict(DictOf(data).value, Renames(RANGEMAP_WIRE_NAMES, RANGEMAP_RENAMED)),
        RANGEMAP_RENAMED + RANGEMAP_REST, {"start", "end", "text"}).Ok?)
  {
    var d :- DictOf(data);
    var m := TransformDict(d, Renames(RANGEMAP_WIRE_NAMES, RANGEMAP_RENAMED));
    var _ :- CheckCall(m, RANGEMAP_RENAMED + RANGEMAP_REST, {"start", "end", "text"});
    Ok(RangeMap(m["start"], m["end"], m["text"]))
  }

  /** A range map survives its encoding unchanged, `from` and `to` and all. */
  lemma RangeMapRoundTrip(m: RangeMap)
    ensures DecodeRangeMap(EncodeRangeMap(m)) == Ok(m)
  {
    var vals := [m.start, m.end, m.text];
    var keys := RANGEMAP_RENAMED + RANGEMAP_REST;
    assert Separate(RANGEMAP_WIRE_NAMES, RANGEMAP_RENAMED, RANGEMAP_REST);
    BindRenamed(RANGEMAP_WIRE_NAMES, RANGEMAP_RENAMED, RANGEMAP_REST, vals, {"start", "end", "text"});
    DistinctConcat(RANGEMAP_RENAMED, RANGEMAP_REST);
    ObjectOfAt(keys, vals, 0);
    ObjectOfAt(keys, vals, 1);
    ObjectOfAt(keys, vals, 2);
  }

  // ---------------------------------------------------------------------
  // Gauge
  // ---------------------------------------------------------------------

  /** The gauge of a single-stat panel; `minValue` and `maxValue` are Python `int`s. */
  datatype Gauge = Gauge(minValue: Json, maxValue: Json, show: bool, thresholdLabels: bool, thresholdMarkers: bool)

  const GAUGE_KEYS: seq<string> := ["minValue", "maxValue", "show", "thresholdLabels", "thresholdMarkers"]

  /** `Gauge()`. */
  const DEFAULT_GAUGE := Gauge(JInt(0), JInt(100), false, false, true)

  function GaugeValues(g: Gauge): (vals: seq<Json>)
    ensures |vals| == |GAUGE_KEYS|
  {
    [g.minValue, g.maxValue, JBool(g.show), JBool(g.thresholdLabels), JBool(g.thresholdMarkers)]
  }

  /** `Gauge.to_json_data`. */
  function EncodeGauge(g: Gauge): (e: Json)
    ensures WritesKeys(e, GAUGE_KEYS)
  {
    ObjectOfWrites(GAUGE_KEYS, GaugeValues(g));
    JObj(ObjectOf(GAUGE_KEYS, GaugeValues(g)))
  }

  /** `Gauge.parse_json_data`: `cls(**data)`, each attribute validated in turn. */
  function DecodeGauge(data: Json): (r: Result<Gauge>)
    ensures r.Ok? <==> (data.JObj? && CheckCall(data.fields, GAUGE_KEYS, {}).Ok? &&
      (forall k | k in data.fields && k in {"minValue", "maxValue"} :: IsInt(data.fields[k])) &&
      (forall k | k in data.fields && k in {"show", "thresholdLabels", "thresholdMarkers"} :: data.fields[k].JBool?))
    ensures r.Ok? ==> IsInt(r.value.minValue) && IsInt(r.value.maxValue)
    ensures r.Err? ==> r.error.TypeError?
  {
    var d :- Kwargs(data);
    var _ :- CheckCall(d, GAUGE_KEYS, {});
    var a := Arguments(d, GAUGE_KEYS);
    var minValue :- IntArg(a[0], JInt(0));
    var maxValue :- IntArg(a[1], JInt(100));
    var show :- BoolArg(a[2], false);
    var thresholdLabels :- BoolArg(a[3], false);
    var thresholdMarkers :- BoolArg(a[4], true);
    Ok(Gauge(minValue, maxValue, show, thresholdLabels, thresholdMarkers))
  }

  /** A gauge whose bounds are `int`s survives its encoding unchanged. */
  lemma GaugeRoundTrip(g: Gauge)
    requires IsInt(g.minValue) && IsInt(g.maxValue)
    ensures DecodeGauge(EncodeGauge(g)) == Ok(g)
  {
    BindAll(GAUGE_KEYS, GaugeValues(g), {});
  }

  // ---------------------------------------------------------------------
  // The lists a single-stat panel holds
  // ---------------------------------------------------------------------

  /** `colors`: a list of colours, each written as its `rgba(...)` text. */
  function EncodeColors(cs: seq<RGBA>): Json {
    JArr(Map(EncodeRgba, cs))
  }

  /** `foreach(RGBA.parse_json_data)`. */
  function DecodeColors(data: Json): Result<seq<RGBA>> {
    Foreach(DecodeRgba, data)
  }

  /** Colours that can each be read back survive as a list. */
  lemma ColorsRoundTrip(cs: seq<RGBA>)
    requires forall i | 0 <= i < |cs| :: RgbaReadable(cs[i])
    ensures DecodeColors(EncodeColors(cs)) == Ok(cs)
  {
    forall i | 0 <= i < |cs|
      ensures DecodeRgba(EncodeRgba(cs[i])) == Ok(((c: RGBA) => c)(cs[i]))
    {
      RgbaRoundTrip(cs[i]);
    }
    ForeachOfMap(EncodeRgba, DecodeRgba, (c: RGBA) => c, cs);
    assert Map((c: RGBA) => c, cs) == cs;
  }

  function EncodeMappings(ms: seq<Mapping>): Json {
    JArr(Map(EncodeMapping, ms))
  }

  /** `foreach(Mapping.parse_json_data)`. */
  function DecodeMappings(data: Json): Result<seq<Mapping>> {
    Foreach(DecodeMapping, data)
  }

  /** Mappings whose values are `int`s survive as a list. */
  lemma MappingsRoundTrip(ms: seq<Mapping>)
    requires forall i | 0 <= i < |ms| :: IsInt(ms[i].value)
    ensures DecodeMappings(EncodeMappings(ms)) == Ok(ms)
  {
    forall i | 0 <= i < |ms|
      ensures DecodeMapping(EncodeMapping(ms[i])) == Ok(((m: Mapping) => m)(ms[i]))
    {
      MappingRoundTrip(ms[i]);
    }
    ForeachOfMap(EncodeMapping, DecodeMapping, (m: Mapping) => m, ms);
    assert Map((m: Mapping) => m, ms) == ms;
  }

  function EncodeRangeMaps(ms: seq<RangeMap>): Json {
    JArr(Map(EncodeRangeMap, ms))
  }

  /** `foreach(RangeMap.parse_json_data)`. */
  function DecodeRangeMaps(data: Json): Result<seq<RangeMap>> {
    Foreach(DecodeRangeMap, data)
  }

  lemma RangeMapsRoundTrip(ms: seq<RangeMap>)
    ensures DecodeRangeMaps(EncodeRangeMaps(ms)) == Ok(ms)
  {
    forall i | 0 <= i < |ms|
      ensures DecodeRangeMap(EncodeRangeMap(ms[i])) == Ok(((m: RangeMap) => m)(ms[i]))
    {
      RangeMapRoundTrip(ms[i]);
    }
    ForeachOfMap(EncodeRangeMap, DecodeRangeMap, (m: RangeMap) => m, ms);
    assert Map((m: RangeMap) => m, ms) == ms;
  }

  function EncodeValueMaps(vs: seq<ValueMap>): Json {
    JArr(Map(EncodeValueMap, vs))
  }

  /** `foreach(ValueMap.parse_json_data)`. */
  function DecodeValueMaps(data: Json): Result<seq<ValueMap>> {
    Foreach(DecodeValueMap, data)
  }

  lemma ValueMapsRoundTrip(vs: seq<ValueMap>)
    ensures DecodeValueMaps(EncodeValueMaps(vs)) == Ok(vs)
  {
    forall i | 0 <= i < |vs|
      ensures DecodeValueMap(EncodeValueMap(vs[i])) == Ok(((v: ValueMap) => v)(vs[i]))
    {
      ValueMapRoundTrip(vs[i]);
    }
    ForeachOfMap(EncodeValueMap, DecodeValueMap, (v: ValueMap) => v, vs);
    assert Map((v: ValueMap) => v, vs) == vs;
  }
}
