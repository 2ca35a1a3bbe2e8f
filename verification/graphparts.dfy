/**
 * The records a graph panel is made of besides its axes: `Grid`, `Legend`,
 * `Target` and `Tooltip`.
 */
module GraphParts {
  import opened Wire
  import opened Objects
  import opened Transform
  import opened Records
  import opened Codecs

  // ---------------------------------------------------------------------
  // Grid
  // ---------------------------------------------------------------------

  datatype Grid = Grid(
    threshold1: Json, threshold1Color: RGBA, threshold2: Json, threshold2Color: RGBA,
    leftLogBase: Json, rightLogBase: Json, rightMin: Json, rightMax: Json,
    leftMin: Json, leftMax: Json)

  /** The attributes of `Grid`, which are also the keys of its encoding. */
  const GRID_KEYS: seq<string> :=
    ["threshold1", "threshold1Color", "threshold2", "threshold2Color", "leftLogBase",
     "rightLogBase", "rightMin", "rightMax", "leftMin", "leftMax"]

  /** `Grid()`. */
  const DEFAULT_GRID := Grid(JNull, GREY1, JNull, GREY2, JNull, JNull, JNull, JNull, JNull, JNull)

  lemma GridKeysDistinct()
    ensures |GRID_KEYS| == 10 && Distinct(GRID_KEYS)
  {
  }

  function GridValues(g: Grid): (vals: seq<Json>)
    ensures |vals| == |GRID_KEYS|
  {
    [g.threshold1, EncodeRgba(g.threshold1Color), g.threshold2, EncodeRgba(g.threshold2Color),
     g.leftLogBase, g.rightLogBase, g.rightMin, g.rightMax, g.leftMin, g.leftMax]
  }

  /** `Grid.to_json_data`: the colours are written as `rgba(...)` strings. */
  function EncodeGrid(g: Grid): (e: Json)
    ensures WritesKeys(e, GRID_KEYS)
  {
    ObjectOfWrites(GRID_KEYS, GridValues(g));
    JObj(ObjectOf(GRID_KEYS, GridValues(g)))
  }

  /**
   * `Grid.parse_json_data`: `transform_dict` copies the data and reads the two
   * colours; the constructor then rejects unknown keys.
   */
  function DecodeGrid(data: Json): (r: Result<Grid>)
    ensures r.Ok? ==> DictOf(data).Ok? && CheckCall(DictOf(data).value, GRID_KEYS, {}).Ok?
    ensures DictOf(data).Err? ==> r.Err?
  {
    var d :- DictOf(data);
    var a := Arguments(d, GRID_KEYS);
    var color1 :- Converted(a[1], DecodeRgba, GREY1);
    var color2 :- Converted(a[3], DecodeRgba, GREY2);
    var _ :- CheckCall(d, GRID_KEYS, {});
    Ok(GridOf(a, color1, color2))
  }

  /** The `Grid` the arguments build once both colours are read. */
  function GridOf(a: seq<Option<Json>>, color1: RGBA, color2: RGBA): Grid
    requires |a| == |GRID_KEYS|
  {
    Grid(Given(a[0], JNull), color1, Given(a[2], JNull), color2, Given(a[4], JNull),
      Given(a[5], JNull), Given(a[6], JNull), Given(a[7], JNull), Given(a[8], JNull), Given(a[9], JNull))
  }

  /** Both threshold colours can be read back. */
  predicate GridReadable(g: Grid) {
    RgbaReadable(g.threshold1Color) && RgbaReadable(g.threshold2Color)
  }

  /** A grid whose colours can be read back survives its encoding unchanged. */
  lemma GridRoundTrip(g: Grid)
    requires GridReadable(g)
    ensures DecodeGrid(EncodeGrid(g)) == Ok(g)
  {
    var vals := GridValues(g);
    assert Arguments(ObjectOf(GRID_KEYS, vals), GRID_KEYS) == Somes(vals)
        && CheckCall(ObjectOf(GRID_KEYS, vals), GRID_KEYS, {}) == Ok(()) by {
      GridKeysDistinct();
      BindAll(GRID_KEYS, vals, {});
    }
    GridColours(g);
    GridOfValues(g);
  }

  lemma GridOfValues(g: Grid)
    ensures GridOf(Somes(GridValues(g)), g.threshold1Color, g.threshold2Color) == g
  {
  }

  /** Both colours of an encoded grid read back as they were. */
  lemma GridColours(g: Grid)
    requires GridReadable(g)
    ensures Converted(Somes(GridValues(g))[1], DecodeRgba, GREY1) == Ok(g.threshold1Color)
    ensures Converted(Somes(GridValues(g))[3], DecodeRgba, GREY2) == Ok(g.threshold2Color)
  {
    var vals := GridValues(g);
    assert vals[1] == EncodeRgba(g.threshold1Color) && vals[3] == EncodeRgba(g.threshold2Color);
    ColourArgument(vals, 1, g.threshold1Color, GREY1);
    ColourArgument(vals, 3, g.threshold2Color, GREY2);
  }

  /** An argument that holds an encoded colour converts back to that colour. */
  lemma ColourArgument(vals: seq<Json>, i: nat, c: RGBA, default: RGBA)
    requires i < |vals| && vals[i] == EncodeRgba(c) && RgbaReadable(c)
    ensures Converted(Somes(vals)[i], DecodeRgba, default) == Ok(c)
  {
    RgbaRoundTrip(c);
  }

  // ---------------------------------------------------------------------
  // Legend
  // ---------------------------------------------------------------------

  datatype Legend = Legend(
    avg: bool, current: bool, max: bool, min: bool, show: bool, total: bool, values: Json,
    alignAsTable: bool, hideEmpty: bool, hideZero: bool, rightSide: bool,
    sideWidth: Json, sort: Json, sortDesc: Json)

  const LEGEND_KEYS_A: seq<string> := ["avg", "current", "max", "min", "show", "total", "values"]
  const LEGEND_KEYS_B: seq<string> := ["alignAsTable", "hideEmpty", "hideZero", "rightSide", "sideWidth", "sort", "sortDesc"]

  /** The attributes of `Legend`, which are also the keys of its encoding. */
  const LEGEND_KEYS: seq<string> := LEGEND_KEYS_A + LEGEND_KEYS_B

  /** `Legend()`. */
  const DEFAULT_LEGEND := Legend(false, false, false, false, true, false, JNull, false, false, false, false, JNull, JNull, JNull)

  lemma LegendKeysDistinct()
    ensures |LEGEND_KEYS| == 14 && Distinct(LEGEND_KEYS)
  {
    DistinctConcat(LEGEND_KEYS_A, LEGEND_KEYS_B);
  }

  /** The `values` flag written out: the stored one, or `avg or current or max or min` when it is unset. */
  function LegendValuesFlag(l: Legend): Json {
    if l.values.JNull? then JBool(l.avg || l.current || l.max || l.min) else l.values
  }

  /**
   * The flag is always written: a stored `values` is kept, and an unset one
   * becomes a boolean that holds exactly when one of the four values is
   * shown. Storing the flag written leaves it as it was.
   */
  lemma LegendValuesWritten(l: Legend)
    ensures !LegendValuesFlag(l).JNull?
    ensures !l.values.JNull? ==> LegendValuesFlag(l) == l.values
    ensures l.values.JNull? ==> LegendValuesFlag(l).JBool? && (LegendValuesFlag(l).b <==> l.avg || l.current || l.max || l.min)
    ensures LegendValuesFlag(l.(values := LegendValuesFlag(l))) == LegendValuesFlag(l)
  {
  }

  function LegendValues(l: Legend): (vals: seq<Json>)
    ensures |vals| == |LEGEND_KEYS|
  {
    [JBool(l.avg), JBool(l.current), JBool(l.max), JBool(l.min), JBool(l.show), JBool(l.total), LegendValuesFlag(l)] +
    [JBool(l.alignAsTable), JBool(l.hideEmpty), JBool(l.hideZero), JBool(l.rightSide), l.sideWidth, l.sort, l.sortDesc]
  }

  /** `Legend.to_json_data`. */
  function EncodeLegend(l: Legend): (e: Json)
    ensures WritesKeys(e, LEGEND_KEYS)
  {
    ObjectOfWrites(LEGEND_KEYS, LegendValues(l));
    JObj(ObjectOf(LEGEND_KEYS, LegendValues(l)))
  }

  /** The `Legend` the arguments build, once the boolean attributes pass their validators. */
  function LegendOf(a: seq<Option<Json>>): (r: Result<Legend>)
    requires |a| == |LEGEND_KEYS|
    ensures r.Err? ==> r.error.TypeError?
  {
    var avg :- BoolArg(a[0], false);
    var current :- BoolArg(a[1], false);
    var max :- BoolArg(a[2], false);
    var min :- BoolArg(a[3], false);
    var show :- BoolArg(a[4], true);
    var total :- BoolArg(a[5], false);
    var alignAsTable :- BoolArg(a[7], false);
    var hideEmpty :- BoolArg(a[8], false);
    var hideZero :- BoolArg(a[9], false);
    var rightSide :- BoolArg(a[10], false);
    Ok(Legend(avg, current, max, min, show, total, Given(a[6], JNull),
      alignAsTable, hideEmpty, hideZero, rightSide, Given(a[11], JNull), Given(a[12], JNull), Given(a[13], JNull)))
  }

  /** `Legend.parse_json_data`: `cls(**data)`. */
  function DecodeLegend(data: Json): (r: Result<Legend>)
    ensures r.Ok? ==> data.JObj? && CheckCall(data.fields, LEGEND_KEYS, {}).Ok?
    ensures r.Err? ==> r.error.TypeError?
  {
    var d :- Kwargs(data);
    var _ :- CheckCall(d, LEGEND_KEYS, {});
    LegendOf(Arguments(d, LEGEND_KEYS))
  }

  /** What a legend reads back as: the derived `values` flag is stored. */
  function CanonLegend(l: Legend): Legend {
    l.(values := LegendValuesFlag(l))
  }

  lemma LegendOfValues(l: Legend)
    ensures LegendOf(Somes(LegendValues(l))) == Ok(CanonLegend(l))
  {
  }

  /** A legend reads back with its `values` flag made explicit, and otherwise unchanged. */
  lemma LegendRoundTrip(l: Legend)
    ensures DecodeLegend(EncodeLegend(l)) == Ok(CanonLegend(l))
  {
    var vals := LegendValues(l);
    assert Arguments(ObjectOf(LEGEND_KEYS, vals), LEGEND_KEYS) == Somes(vals)
        && CheckCall(ObjectOf(LEGEND_KEYS, vals), LEGEND_KEYS, {}) == Ok(()) by {
      LegendKeysDistinct();
      BindAll(LEGEND_KEYS, vals, {});
    }
    LegendOfValues(l);
  }

  /** Re-encoding a legend that was read back writes the same JSON. */
  lemma LegendStable(l: Legend)
    ensures EncodeLegend(CanonLegend(l)) == EncodeLegend(l)
  {
    assert LegendValues(CanonLegend(l)) == LegendValues(l);
  }

  /**
   * The `values` key of the encoding: the stored flag, or when it is unset
   * whether any of `avg`, `current`, `max`, `min` is on (`total` does not count).
   */
  lemma LegendValuesKey(l: Legend)
    ensures "values" in EncodeLegend(l).fields
    ensures EncodeLegend(l).fields["values"] ==
      if l.values.JNull? then JBool(l.avg || l.current || l.max || l.min) else l.values
  {
    LegendKeysDistinct();
    ObjectOfAt(LEGEND_KEYS, LegendValues(l), 6);
  }

  // ---------------------------------------------------------------------
  // Target
  // ---------------------------------------------------------------------

  /**
   * A metric query. `interval` is declared twice in the class; the second
   * declaration, defaulting to `None` and without validator, is the one
   * that holds.
   */
  datatype Target = Target(
    expr: Json, legendFormat: Json, interval: Json, intervalFactor: Json, metric: Json,
    refId: Json, step: Json, hide: Json, format: Json, calculatedInterval: Json,
    datasourceErrors: Json, errors: Json, target: Json, alias: Json, dimensions: Json,
    metricName: Json, namespace: Json, period: Json, region: Json, statistics: Json)

  const TARGET_KEYS_A: seq<string> :=
    ["expr", "legendFormat", "interval", "intervalFactor", "metric",
     "refId", "step", "hide", "format", "calculatedInterval"]
  const TARGET_KEYS_B: seq<string> :=
    ["datasourceErrors", "errors", "target", "alias", "dimensions",
     "metricName", "namespace", "period", "region", "statistics"]

  /** The attributes of `Target`, which are also the keys of its encoding. */
  const TARGET_KEYS: seq<string> := TARGET_KEYS_A + TARGET_KEYS_B

  /** `DEFAULT_STEP`. */
  const DEFAULT_STEP := 10

  lemma TargetKeysDistinct()
    ensures |TARGET_KEYS| == 20 && Distinct(TARGET_KEYS)
  {
    DistinctConcat(TARGET_KEYS_A, TARGET_KEYS_B);
  }

  function TargetValues(t: Target): (vals: seq<Json>)
    ensures |vals| == |TARGET_KEYS|
  {
    [t.expr, t.legendFormat, t.interval, t.intervalFactor, t.metric,
     t.refId, t.step, t.hide, t.format, t.calculatedInterval] +
    [t.datasourceErrors, t.errors, t.target, t.alias, t.dimensions,
     t.metricName, t.namespace, t.period, t.region, t.statistics]
  }

  /** `Target.to_json_data`. */
  function EncodeTarget(t: Target): (e: Json)
    ensures WritesKeys(e, TARGET_KEYS)
  {
    ObjectOfWrites(TARGET_KEYS, TargetValues(t));
    JObj(ObjectOf(TARGET_KEYS, TargetValues(t)))
  }

  /** The `Target` the arguments build, each missing one at its default. */
  function TargetOf(a: seq<Option<Json>>): Target
    requires |a| == |TARGET_KEYS| && a[0].Some?
  {
    Target(a[0].value, Given(a[1], JStr("")), Given(a[2], JNull), Given(a[3], JInt(2)),
      Given(a[4], JStr("")), Given(a[5], JStr("")), Given(a[6], JInt(DEFAULT_STEP)),
      Given(a[7], JBool(false)), Given(a[8], JNull), Given(a[9], JNull),
      Given(a[10], JNull), Given(a[11], JNull), Given(a[12], JNull), Given(a[13], JNull),
      Given(a[14], JNull), Given(a[15], JNull), Given(a[16], JNull), Given(a[17], JNull),
      Given(a[18], JNull), Given(a[19], JNull))
  }

  /** `Target.parse_json_data`: `cls(**data)`, with `expr` the one required argument. */
  function DecodeTarget(data: Json): (r: Result<Target>)
    ensures r.Ok? <==> data.JObj? && CheckCall(data.fields, TARGET_KEYS, {"expr"}).Ok?
    ensures r.Ok? ==> r.value.expr == data.fields["expr"]
    ensures r.Err? ==> r.error.TypeError?
  {
    var d :- Kwargs(data);
    var _ :- CheckCall(d, TARGET_KEYS, {"expr"});
    Ok(TargetOf(Arguments(d, TARGET_KEYS)))
  }

  lemma TargetOfValues(t: Target)
    ensures TargetOf(Somes(TargetValues(t))) == t
  {
  }

  /** A target survives its encoding unchanged. */
  lemma TargetRoundTrip(t: Target)
    ensures DecodeTarget(EncodeTarget(t)) == Ok(t)
  {
    var vals := TargetValues(t);
    assert Arguments(ObjectOf(TARGET_KEYS, vals), TARGET_KEYS) == Somes(vals)
        && CheckCall(ObjectOf(TARGET_KEYS, vals), TARGET_KEYS, {"expr"}) == Ok(()) by {
      TargetKeysDistinct();
      BindAll(TARGET_KEYS, vals, {"expr"});
    }
    TargetOfValues(t);
  }

  /** A list of targets, as panels write it. */
  function EncodeTargets(ts: seq<Target>): Json {
    JArr(Map(EncodeTarget, ts))
  }

  /** `foreach(Target.parse_json_data)`, the rule panels apply to their `targets`. */
  function DecodeTargets(data: Json): Result<seq<Target>> {
    Foreach(DecodeTarget, data)
  }

  /** A list of targets survives its encoding unchanged. */
  lemma TargetsRoundTrip(ts: seq<Target>)
    ensures DecodeTargets(EncodeTargets(ts)) == Ok(ts)
  {
    forall i | 0 <= i < |ts|
      ensures DecodeTarget(EncodeTarget(ts[i])) == Ok(((t: Target) => t)(ts[i]))
    {
      TargetRoundTrip(ts[i]);
    }
    ForeachOfMap(EncodeTarget, DecodeTarget, (t: Target) => t, ts);
    assert Map((t: Target) => t, ts) == ts;
  }

  // ---------------------------------------------------------------------
  // Tooltip
  // ---------------------------------------------------------------------

  datatype Tooltip = Tooltip(msResolution: bool, shared: bool, sort: Json, valueType: Json)

  /** The keys `Tooltip` writes under other names, and those names' attributes. */
  const TOOLTIP_WIRE_NAMES: seq<string> := ["value_type"]
  const TOOLTIP_RENAMED: seq<string> := ["valueType"]
  const TOOLTIP_REST: seq<string> := ["msResolution", "shared", "sort"]

  /** `CUMULATIVE`. */
  const CUMULATIVE := "cumulative"

  /** `Tooltip()`. */
  const DEFAULT_TOOLTIP := Tooltip(true, true, JInt(0), JStr(CUMULATIVE))

  lemma TooltipKeysSeparate()
    ensures Separate(TOOLTIP_WIRE_NAMES, TOOLTIP_RENAMED, TOOLTIP_REST)
  {
  }

  function TooltipValues(t: Tooltip): (vals: seq<Json>)
    ensures |vals| == 4
  {
    [t.valueType, JBool(t.msResolution), JBool(t.shared), t.sort]
  }

  /** `Tooltip.to_json_data`: the value type goes under `value_type`. */
  function EncodeTooltip(t: Tooltip): (e: Json)
    ensures WritesKeys(e, TOOLTIP_WIRE_NAMES + TOOLTIP_REST)
  {
    ObjectOfWrites(TOOLTIP_WIRE_NAMES + TOOLTIP_REST, TooltipValues(t));
    JObj(ObjectOf(TOOLTIP_WIRE_NAMES + TOOLTIP_REST, TooltipValues(t)))
  }

  /** `Tooltip.parse_json_data`: `value_type` is renamed to `valueType`, then `cls(**new_data)`. */
  function DecodeTooltip(data: Json): (r: Result<Tooltip>)
    ensures r.Ok? ==> DictOf(data).Ok?
    ensures DictOf(data).Ok? ==>
      var m := TransformDict(DictOf(data).value, Renames(TOOLTIP_WIRE_NAMES, TOOLTIP_RENAMED));
      r.Ok? ==> CheckCall(m, TOOLTIP_RENAMED + TOOLTIP_REST, {}).Ok?
  {
    var d :- DictOf(data);
    var m := TransformDict(d, Renames(TOOLTIP_WIRE_NAMES, TOOLTIP_RENAMED));
    var params := TOOLTIP_RENAMED + TOOLTIP_REST;
    var _ :- CheckCall(m, params, {});
    var a := Arguments(m, params);
    var msResolution :- BoolArg(a[1], true);
    var shared :- BoolArg(a[2], true);
    Ok(Tooltip(msResolution, shared, Given(a[3], JInt(0)), Given(a[0], JStr(CUMULATIVE))))
  }

  /** A tooltip survives its encoding unchanged, `value_type` and all. */
  lemma TooltipRoundTrip(t: Tooltip)
    ensures DecodeTooltip(EncodeTooltip(t)) == Ok(t)
  {
    TooltipKeysSeparate();
    BindRenamed(TOOLTIP_WIRE_NAMES, TOOLTIP_RENAMED, TOOLTIP_REST, TooltipValues(t), {});
  }
}
