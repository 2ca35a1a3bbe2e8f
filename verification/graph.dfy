/**
 * `Graph`, the graph panel: 47 attributes, most written under their own
 * names, seven renamed on the wire, eight decoded by rules of their own,
 * and a handful checked by validators. The attributes are grouped here
 * by how the constructor treats them: those validated as `bool` or `int`
 * (`GraphOptions`), the drawing settings passed through as they are
 * (`GraphStyle`), the remaining pass-through attributes (`GraphExtras`),
 * and the typed parts held in `Graph` itself.
 */
module GraphPanel {
  import opened Wire
  import opened Objects
  import opened Transform
  import opened Records
  import opened GraphParts
  import opened Axes
  import opened Links
  import opened Alerting
  import opened Layout

  const GRAPH_TYPE := "graph"
  const NULL_CONNECTED := "connected"
  const FLOT := "flot"
  const DEFAULT_FILL := 1
  const DEFAULT_LINE_WIDTH := 2
  const DEFAULT_POINT_RADIUS := 5

  /** The attributes with an `instance_of(bool)` or `instance_of(int)` validator, in attribute order. */
  datatype GraphOptions = GraphOptions(
    bars: bool, editable: bool, error: bool, fill: Json, isNew: bool, lines: bool,
    percentage: bool, points: bool, stack: bool, steppedLine: bool, transparent: bool)

  /** The drawing settings, passed through unchecked. */
  datatype GraphStyle = GraphStyle(
    lineWidth: Json, pointRadius: Json, nullPointMode: Json, renderer: Json, dashLength: Json,
    dashes: Json, spaceLength: Json, thresholds: Json, aliasColors: Json, seriesOverrides: Json,
    decimals: Json)

  /** The other pass-through attributes; `xAxisLegacy` and `yAxisLegacy` are `x_axis` and `y_axis`. */
  datatype GraphExtras = GraphExtras(
    description: Json, timeFrom: Json, timeShift: Json, minSpan: Json, repeat: Json,
    scopedVars: Json, repeatIteration: Json, repeatPanelId: Json, hideTimeOverride: Json,
    xAxisLegacy: Json, yAxisLegacy: Json, yFormats: Json)

  /** A graph panel; `kind` is its `type` attribute. */
  datatype Graph = Graph(
    title: Json, dataSource: Json, targets: seq<Target>, id: Option<int>, span: Option<int>,
    grid: Grid, legend: Legend, tooltip: Tooltip, xAxis: XAxis, yAxes: YAxes,
    alert: Option<Alert>, links: seq<DashboardLink>,
    options: GraphOptions, style: GraphStyle, extras: GraphExtras, kind: Json)

  // ---------------------------------------------------------------------
  // Keys
  // ---------------------------------------------------------------------

  const GRAPH_WIRE_NAMES: seq<string> := ["datasource", "linewidth", "pointradius", "xaxis", "yaxes", "x-axis", "y-axis"]
  const GRAPH_RENAMED: seq<string> := ["dataSource", "lineWidth", "pointRadius", "xAxis", "yAxes", "x_axis", "y_axis"]

  const OPTION_KEYS: seq<string> :=
    ["bars", "editable", "error", "fill", "isNew", "lines", "percentage", "points", "stack", "steppedLine", "transparent"]
  const STYLE_KEYS: seq<string> :=
    ["nullPointMode", "renderer", "dashLength", "dashes", "spaceLength", "thresholds", "aliasColors", "seriesOverrides", "decimals"]
  const EXTRA_KEYS: seq<string> :=
    ["description", "timeFrom", "timeShift", "minSpan", "repeat", "scopedVars", "repeatIteration", "repeatPanelId",
     "hideTimeOverride", "y_formats"]
  const MAIN_KEYS: seq<string> := ["title", "targets", "id", "span", "grid", "legend", "tooltip", "links", "type"]

  const ALERT_KEY: seq<string> := ["alert"]

  /** The constructor's 47 parameters. */
  const GRAPH_PARAMS: seq<string> := GRAPH_RENAMED + Join(OPTION_KEYS, STYLE_KEYS, EXTRA_KEYS, MAIN_KEYS, ALERT_KEY)
  const GRAPH_REQUIRED: set<string> := {"title", "dataSource", "targets"}

  /** The keys the eight converting rules read, in rule order. */
  const GRAPH_CONVERTED: seq<string> := ["xaxis", "yaxes", "grid", "legend", "tooltip", "alert", "targets", "links"]

  lemma GroupsDistinct()
    ensures Distinct(GRAPH_WIRE_NAMES) && Distinct(GRAPH_RENAMED) && Disjoint(GRAPH_WIRE_NAMES, GRAPH_RENAMED)
    ensures Distinct(OPTION_KEYS) && Distinct(STYLE_KEYS) && Distinct(EXTRA_KEYS) && Distinct(MAIN_KEYS)
  {
  }

  lemma GroupsApart()
    ensures Disjoint(OPTION_KEYS, STYLE_KEYS) && Disjoint(OPTION_KEYS, EXTRA_KEYS) && Disjoint(OPTION_KEYS, MAIN_KEYS)
    ensures Disjoint(STYLE_KEYS, EXTRA_KEYS) && Disjoint(STYLE_KEYS, MAIN_KEYS) && Disjoint(EXTRA_KEYS, MAIN_KEYS)
  {
  }

  lemma WireApart()
    ensures Disjoint(GRAPH_WIRE_NAMES, OPTION_KEYS) && Disjoint(GRAPH_WIRE_NAMES, STYLE_KEYS)
    ensures Disjoint(GRAPH_WIRE_NAMES, EXTRA_KEYS) && Disjoint(GRAPH_WIRE_NAMES, MAIN_KEYS)
    ensures Disjoint(GRAPH_WIRE_NAMES, ALERT_KEY) && Disjoint(ALERT_KEY, GRAPH_WIRE_NAMES)
  {
  }

  lemma RenamedApart()
    ensures Disjoint(GRAPH_RENAMED, OPTION_KEYS) && Disjoint(GRAPH_RENAMED, STYLE_KEYS)
    ensures Disjoint(GRAPH_RENAMED, EXTRA_KEYS) && Disjoint(GRAPH_RENAMED, MAIN_KEYS)
    ensures Disjoint(GRAPH_RENAMED, ALERT_KEY) && Disjoint(ALERT_KEY, GRAPH_RENAMED)
  {
  }

  lemma AlertApart()
    ensures Disjoint(OPTION_KEYS, ALERT_KEY) && Disjoint(STYLE_KEYS, ALERT_KEY)
    ensures Disjoint(EXTRA_KEYS, ALERT_KEY) && Disjoint(MAIN_KEYS, ALERT_KEY)
    ensures Disjoint(ALERT_KEY, OPTION_KEYS) && Disjoint(ALERT_KEY, STYLE_KEYS)
    ensures Disjoint(ALERT_KEY, EXTRA_KEYS) && Disjoint(ALERT_KEY, MAIN_KEYS)
  {
  }

  /** The written names, the attribute names and the other keys of a graph are all different. */
  lemma GraphKeysSeparate(a: seq<string>)
    requires a == ALERT_KEY || a == []
    ensures Separate(GRAPH_WIRE_NAMES, GRAPH_RENAMED, Join(OPTION_KEYS, STYLE_KEYS, EXTRA_KEYS, MAIN_KEYS, a))
  {
    GroupsDistinct();
    GroupsApart();
    WireApart();
    RenamedApart();
    AlertApart();
    SeparateGroups(GRAPH_WIRE_NAMES, GRAPH_RENAMED, OPTION_KEYS, STYLE_KEYS, EXTRA_KEYS, MAIN_KEYS, a);
  }

  // ---------------------------------------------------------------------
  // Encoding
  // ---------------------------------------------------------------------

  /** The values written under the seven renamed keys. */
  function RenamedValues(g: Graph): (vals: seq<Json>)
    ensures |vals| == |GRAPH_WIRE_NAMES|
  {
    [g.dataSource, g.style.lineWidth, g.style.pointRadius, EncodeXAxis(g.xAxis), EncodeYAxes(g.yAxes),
     g.extras.xAxisLegacy, g.extras.yAxisLegacy]
  }

  function OptionValues(o: GraphOptions): (vals: seq<Json>)
    ensures |vals| == |OPTION_KEYS|
  {
    [JBool(o.bars), JBool(o.editable), JBool(o.error), o.fill, JBool(o.isNew), JBool(o.lines),
     JBool(o.percentage), JBool(o.points), JBool(o.stack), JBool(o.steppedLine), JBool(o.transparent)]
  }

  function StyleValues(s: GraphStyle): (vals: seq<Json>)
    ensures |vals| == |STYLE_KEYS|
  {
    [s.nullPointMode, s.renderer, s.dashLength, s.dashes, s.spaceLength, s.thresholds, s.aliasColors,
     s.seriesOverrides, s.decimals]
  }

  function ExtraValues(e: GraphExtras): (vals: seq<Json>)
    ensures |vals| == |EXTRA_KEYS|
  {
    [e.description, e.timeFrom, e.timeShift, e.minSpan, e.repeat, e.scopedVars, e.repeatIteration,
     e.repeatPanelId, e.hideTimeOverride, e.yFormats]
  }

  /** The typed parts; the tag written is always "graph", whatever the stored `type`. */
  function MainValues(g: Graph): (vals: seq<Json>)
    ensures |vals| == |MAIN_KEYS|
  {
    [g.title, EncodeTargets(g.targets), OptIntJson(g.id), OptIntJson(g.span), EncodeGrid(g.grid),
     EncodeLegend(g.legend), EncodeTooltip(g.tooltip), EncodeLinks(g.links), JStr(GRAPH_TYPE)]
  }

  /** `alert` is written only when the graph has one: `if self.alert:`. */
  function AlertKeys(g: Graph): seq<string> {
    if g.alert.Some? then ALERT_KEY else []
  }

  function AlertValues(g: Graph): (vals: seq<Json>)
    ensures |vals| == |AlertKeys(g)|
  {
    if g.alert.Some? then [EncodeAlert(g.alert.value)] else []
  }

  /** The keys of the encoding: the written names of the renamed attributes, then the other groups. */
  function GraphKeys(names: seq<string>, g: Graph): seq<string> {
    names + Join(OPTION_KEYS, STYLE_KEYS, EXTRA_KEYS, MAIN_KEYS, AlertKeys(g))
  }

  function GraphValues(g: Graph): (vals: seq<Json>)
    ensures |vals| == |GraphKeys(GRAPH_WIRE_NAMES, g)|
  {
    RenamedValues(g) + Join(OptionValues(g.options), StyleValues(g.style), ExtraValues(g.extras), MainValues(g), AlertValues(g))
  }

  /** `Graph.to_json_data`. */
  function EncodeGraph(g: Graph): (e: Json)
    ensures WritesKeys(e, GraphKeys(GRAPH_WIRE_NAMES, g))
  {
    ObjectOfWrites(GraphKeys(GRAPH_WIRE_NAMES, g), GraphValues(g));
    JObj(ObjectOf(GraphKeys(GRAPH_WIRE_NAMES, g), GraphValues(g)))
  }

  // ---------------------------------------------------------------------
  // Decoding
  // ---------------------------------------------------------------------

  /** What the eight converting rules produced: a value for each rule that found its key. */
  datatype GraphConverted = GraphConverted(
    xAxis: Option<XAxis>, yAxes: Option<YAxes>, grid: Option<Grid>, legend: Option<Legend>,
    tooltip: Option<Tooltip>, alert: Option<Alert>, targets: Option<seq<Target>>,
    links: Option<seq<DashboardLink>>)

  /**
   * The converting rules of `Graph.parse_json_data`, in rule order: the
   * first value that fails to decode stops the decoder. The rules name
   * pairwise different keys, so each one reads the value passed in `d`.
   */
  function GraphRules(d: Object): (r: Result<GraphConverted>)
    ensures r.Ok? ==> (r.value.targets.Some? <==> "targets" in d) && (r.value.alert.Some? <==> "alert" in d)
    ensures r.Ok? ==> (r.value.xAxis.Some? <==> "xaxis" in d) && (r.value.yAxes.Some? <==> "yaxes" in d)
  {
    var c := Arguments(d, GRAPH_CONVERTED);
    var xAxis :- Present(c[0], DecodeXAxis);
    var yAxes :- Present(c[1], DecodeYAxes);
    var grid :- Present(c[2], DecodeGrid);
    var legend :- Present(c[3], DecodeLegend);
    var tooltip :- Present(c[4], DecodeTooltip);
    var alert :- Present(c[5], DecodeAlert);
    var targets :- Present(c[6], DecodeTargets);
    var links :- Present(c[7], DecodeLinks);
    Ok(GraphConverted(xAxis, yAxes, grid, legend, tooltip, alert, targets, links))
  }

  /**
   * The `to_y_axes` converter on `yAxes`: the decoded `YAxes` (or the
   * default) passes through; a value passed as `yAxes`, which no rule
   * decoded, is raw JSON and is rejected.
   */
  function AxesArg(converted: Option<YAxes>, raw: Option<Json>): (r: Result<YAxes>)
    ensures converted.Some? ==> r == Ok(converted.value)
    ensures converted.None? && raw.None? ==> r == Ok(DEFAULT_YAXES)
    ensures converted.None? && raw.Some? ==> r.Err?
  {
    var input := if converted.Some? then Pair(converted.value)
      else if raw.Some? then AxesInputOfJson(raw.value) else Pair(DEFAULT_YAXES);
    var shimmed :- ToYAxes(input);
    Ok(shimmed.axes)
  }

  /** The validators of the `bool` attributes and of `fill`, in attribute order. */
  function OptionsOf(o: seq<Option<Json>>): (r: Result<GraphOptions>)
    requires |o| == |OPTION_KEYS|
    ensures r.Ok? <==> ((forall i | 0 <= i < |o| && i != 3 :: o[i].None? || o[i].value.JBool?) &&
      (o[3].None? || IsInt(o[3].value)))
    ensures r.Ok? ==> IsInt(r.value.fill)
    ensures r.Err? ==> r.error.TypeError?
  {
    var bars :- BoolArg(o[0], false);
    var editable :- BoolArg(o[1], true);
    var error :- BoolArg(o[2], false);
    var fill :- IntArg(o[3], JInt(DEFAULT_FILL));
    var isNew :- BoolArg(o[4], true);
    var lines :- BoolArg(o[5], true);
    var percentage :- BoolArg(o[6], false);
    var points :- BoolArg(o[7], false);
    var stack :- BoolArg(o[8], false);
    var steppedLine :- BoolArg(o[9], false);
    var transparent :- BoolArg(o[10], false);
    Ok(GraphOptions(bars, editable, error, fill, isNew, lines, percentage, points, stack, steppedLine, transparent))
  }

  /** The drawing settings passed, each defaulting as the class declares. */
  function StyleOf(r: seq<Option<Json>>, s: seq<Option<Json>>): GraphStyle
    requires |r| == |GRAPH_RENAMED| && |s| == |STYLE_KEYS|
  {
    GraphStyle(Given(r[1], JInt(DEFAULT_LINE_WIDTH)), Given(r[2], JInt(DEFAULT_POINT_RADIUS)),
      Given(s[0], JStr(NULL_CONNECTED)), Given(s[1], JStr(FLOT)), Given(s[2], JInt(10)), Given(s[3], JBool(false)),
      Given(s[4], JInt(10)), Given(s[5], JStr("")), Given(s[6], JObj(map[])), Given(s[7], JArr([])), Given(s[8], JNull))
  }

  /** The other pass-through attributes passed, each defaulting to `None`. */
  function ExtrasOf(r: seq<Option<Json>>, e: seq<Option<Json>>): GraphExtras
    requires |r| == |GRAPH_RENAMED| && |e| == |EXTRA_KEYS|
  {
    GraphExtras(Given(e[0], JNull), Given(e[1], JNull), Given(e[2], JNull), Given(e[3], JNull), Given(e[4], JNull),
      Given(e[5], JNull), Given(e[6], JNull), Given(e[7], JNull), Given(e[8], JNull),
      Given(r[5], JNull), Given(r[6], JNull), Given(e[9], JNull))
  }

  /**
   * `cls(**new_data)`: the keywords are checked, `to_y_axes` converts
   * `yAxes`, and the validators run in attribute order. The attributes
   * whose rules converted them take the converted values.
   */
  function CallGraph(m: Object, conv: GraphConverted): (r: Result<Graph>)
    ensures r.Ok? ==> CheckCall(m, GRAPH_PARAMS, GRAPH_REQUIRED).Ok? && conv.targets.Some?
    ensures r.Ok? ==> IsInt(r.value.options.fill)
    ensures r.Ok? ==> r.value.alert == conv.alert && r.value.targets == conv.targets.value
  {
    var _ :- CheckCall(m, GRAPH_PARAMS, GRAPH_REQUIRED);
    var renamed := Arguments(m, GRAPH_RENAMED);
    var main := Arguments(m, MAIN_KEYS);
    var targets :- if conv.targets.Some? then Ok(conv.targets.value)
      else Err(TypeError("missing a required argument: 'targets'"));
    var yAxes :- AxesArg(conv.yAxes, renamed[4]);
    var options :- OptionsOf(Arguments(m, OPTION_KEYS));
    var grid :- Typed(conv.grid, main[4], DEFAULT_GRID);
    var legend :- Typed(conv.legend, main[5], DEFAULT_LEGEND);
    var tooltip :- Typed(conv.tooltip, main[6], DEFAULT_TOOLTIP);
    var xAxis :- Typed(conv.xAxis, renamed[3], DEFAULT_XAXIS);
    var id :- OptIntArg(main[2], None);
    var span :- OptIntArg(main[3], None);
    var links := if conv.links.Some? then conv.links.value else [];
    Ok(Graph(Given(main[0], JNull), Given(renamed[0], JNull), targets, id, span, grid, legend, tooltip,
      xAxis, yAxes, conv.alert, links, options, StyleOf(renamed, Arguments(m, STYLE_KEYS)),
      ExtrasOf(renamed, Arguments(m, EXTRA_KEYS)), Given(main[8], JStr(GRAPH_TYPE))))
  }

  /** `Graph.parse_json_data`: the converting rules, the renamings, then the constructor call. */
  function DecodeGraph(data: Json): (r: Result<Graph>)
    ensures DictOf(data).Err? ==> r == Err(DictOf(data).error)
    ensures DictOf(data).Ok? && GraphRules(DictOf(data).value).Err? ==> r == Err(GraphRules(DictOf(data).value).error)
    ensures r.Ok? ==> IsInt(r.value.options.fill)
  {
    var d :- DictOf(data);
    var conv :- GraphRules(d);
    CallGraph(TransformDict(d, Renames(GRAPH_WIRE_NAMES, GRAPH_RENAMED)), conv)
  }

  // ---------------------------------------------------------------------
  // The round trip
  // ---------------------------------------------------------------------

  /** What the constructor guarantees and the parts need to read back unchanged. */
  predicate GraphReadable(g: Graph) {
    IsInt(g.options.fill) && GridReadable(g.grid)
  }

  function CanonAlertOption(a: Option<Alert>): Option<Alert> {
    if a.Some? then Some(CanonAlert(a.value)) else None
  }

  /**
   * What a graph reads back as: its x axis, legend, links and alert as
   * their own decoders give them back, and its type set to "graph".
   */
  function CanonGraph(g: Graph): Graph {
    g.(xAxis := CanonXAxis(g.xAxis), legend := CanonLegend(g.legend), links := Map(CanonLink, g.links),
       alert := CanonAlertOption(g.alert), kind := JStr(GRAPH_TYPE))
  }

  /** What the rules produce from a graph's own encoding. */
  function ConvertedOf(g: Graph): GraphConverted {
    GraphConverted(Some(CanonXAxis(g.xAxis)), Some(g.yAxes), Some(g.grid), Some(CanonLegend(g.legend)),
      Some(g.tooltip), CanonAlertOption(g.alert), Some(g.targets), Some(Map(CanonLink, g.links)))
  }

  /** The argument `alert` receives: the alert's encoding, if the graph has one. */
  function AlertArgument(g: Graph): Option<Json> {
    if g.alert.Some? then Some(EncodeAlert(g.alert.value)) else None
  }

  /**
   * Each group of parameters receives the values written for it, under
   * the written names as under the attribute names; `alert` is passed
   * exactly when the graph has one.
   */
  lemma GraphGroups(names: seq<string>, g: Graph)
    requires names == GRAPH_WIRE_NAMES || names == GRAPH_RENAMED
    ensures var m := ObjectOf(GraphKeys(names, g), GraphValues(g));
      Arguments(m, names) == Somes(RenamedValues(g)) &&
      Arguments(m, OPTION_KEYS) == Somes(OptionValues(g.options)) &&
      Arguments(m, STYLE_KEYS) == Somes(StyleValues(g.style)) &&
      Arguments(m, EXTRA_KEYS) == Somes(ExtraValues(g.extras)) &&
      Arguments(m, MAIN_KEYS) == Somes(MainValues(g)) &&
      Arguments(m, ALERT_KEY) == [AlertArgument(g)]
  {
    GroupsDistinct();
    GroupsApart();
    WireApart();
    RenamedApart();
    AlertApart();
    var vr, vo, vs, ve, vk := RenamedValues(g), OptionValues(g.options), StyleValues(g.style),
      ExtraValues(g.extras), MainValues(g);
    if g.alert.Some? {
      BindGroups(names, OPTION_KEYS, STYLE_KEYS, EXTRA_KEYS, MAIN_KEYS, ALERT_KEY, vr, vo, vs, ve, vk,
        AlertValues(g), ALERT_KEY);
    } else {
      BindGroups(names, OPTION_KEYS, STYLE_KEYS, EXTRA_KEYS, MAIN_KEYS, [], vr, vo, vs, ve, vk, [], ALERT_KEY);
    }
  }

  /** The rule for the x axis decodes what the encoder wrote for it. */
  lemma XAxisRule(d: Object, g: Graph)
    requires GridReadable(g.grid)
    requires Arguments(d, GRAPH_WIRE_NAMES) == Somes(RenamedValues(g))
    ensures Present(Arguments(d, GRAPH_CONVERTED)[0], DecodeXAxis) == Ok(Some(CanonXAxis(g.xAxis)))
  {
    assert Arguments(d, GRAPH_CONVERTED)[0] == Arguments(d, GRAPH_WIRE_NAMES)[3];
    XAxisRoundTrip(g.xAxis);
  }

  /** The rule for the y axes decodes what the encoder wrote for it. */
  lemma YAxesRule(d: Object, g: Graph)
    requires GridReadable(g.grid)
    requires Arguments(d, GRAPH_WIRE_NAMES) == Somes(RenamedValues(g))
    ensures Present(Arguments(d, GRAPH_CONVERTED)[1], DecodeYAxes) == Ok(Some(g.yAxes))
  {
    assert Arguments(d, GRAPH_CONVERTED)[1] == Arguments(d, GRAPH_WIRE_NAMES)[4];
    YAxesRoundTrip(g.yAxes);
  }

  /** The rule for the grid decodes what the encoder wrote for it. */
  lemma GridRule(d: Object, g: Graph)
    requires GridReadable(g.grid)
    requires Arguments(d, MAIN_KEYS) == Somes(MainValues(g))
    ensures Present(Arguments(d, GRAPH_CONVERTED)[2], DecodeGrid) == Ok(Some(g.grid))
  {
    assert Arguments(d, GRAPH_CONVERTED)[2] == Arguments(d, MAIN_KEYS)[4];
    GridRoundTrip(g.grid);
  }

  /** The rule for the legend decodes what the encoder wrote for it. */
  lemma LegendRule(d: Object, g: Graph)
    requires GridReadable(g.grid)
    requires Arguments(d, MAIN_KEYS) == Somes(MainValues(g))
    ensures Present(Arguments(d, GRAPH_CONVERTED)[3], DecodeLegend) == Ok(Some(CanonLegend(g.legend)))
  {
    assert Arguments(d, GRAPH_CONVERTED)[3] == Arguments(d, MAIN_KEYS)[5];
    LegendRoundTrip(g.legend);
  }

  /** The rule for the tooltip decodes what the encoder wrote for it. */
  lemma TooltipRule(d: Object, g: Graph)
    requires GridReadable(g.grid)
    requires Arguments(d, MAIN_KEYS) == Somes(MainValues(g))
    ensures Present(Arguments(d, GRAPH_CONVERTED)[4], DecodeTooltip) == Ok(Some(g.tooltip))
  {
    assert Arguments(d, GRAPH_CONVERTED)[4] == Arguments(d, MAIN_KEYS)[6];
    TooltipRoundTrip(g.tooltip);
  }

  /** The rule for the alert decodes what the encoder wrote for it. */
  lemma AlertRule(d: Object, g: Graph)
    requires GridReadable(g.grid)
    requires Arguments(d, ALERT_KEY) == [AlertArgument(g)]
    ensures Present(Arguments(d, GRAPH_CONVERTED)[5], DecodeAlert) == Ok(CanonAlertOption(g.alert))
  {
    assert Arguments(d, GRAPH_CONVERTED)[5] == Arguments(d, ALERT_KEY)[0];
    if g.alert.Some? {
      AlertRoundTrip(g.alert.value);
    }
  }

  /** The rule for the targets decodes what the encoder wrote for it. */
  lemma TargetsRule(d: Object, g: Graph)
    requires GridReadable(g.grid)
    requires Arguments(d, MAIN_KEYS) == Somes(MainValues(g))
    ensures Present(Arguments(d, GRAPH_CONVERTED)[6], DecodeTargets) == Ok(Some(g.targets))
  {
    assert Arguments(d, GRAPH_CONVERTED)[6] == Arguments(d, MAIN_KEYS)[1];
    TargetsRoundTrip(g.targets);
  }

  /** The rule for the links decodes what the encoder wrote for it. */
  lemma LinksRule(d: Object, g: Graph)
    requires GridReadable(g.grid)
    requires Arguments(d, MAIN_KEYS) == Somes(MainValues(g))
    ensures Present(Arguments(d, GRAPH_CONVERTED)[7], DecodeLinks) == Ok(Some(Map(CanonLink, g.links)))
  {
    assert Arguments(d, GRAPH_CONVERTED)[7] == Arguments(d, MAIN_KEYS)[7];
    LinksRoundTrip(g.links);
  }

  /** The rules decode every typed part from the arguments of a graph's encoding. */
  lemma GraphRulesOf(d: Object, g: Graph)
    requires GridReadable(g.grid)
    requires Arguments(d, GRAPH_WIRE_NAMES) == Somes(RenamedValues(g))
    requires Arguments(d, MAIN_KEYS) == Somes(MainValues(g))
    requires Arguments(d, ALERT_KEY) == [AlertArgument(g)]
    ensures GraphRules(d) == Ok(ConvertedOf(g))
  {
    XAxisRule(d, g);
    YAxesRule(d, g);
    GridRule(d, g);
    LegendRule(d, g);
    TooltipRule(d, g);
    AlertRule(d, g);
    TargetsRule(d, g);
    LinksRule(d, g);
  }

  /** The rules decode every typed part of a graph's own encoding. */
  lemma GraphRulesOfEncoding(g: Graph)
    requires GridReadable(g.grid)
    ensures GraphRules(ObjectOf(GraphKeys(GRAPH_WIRE_NAMES, g), GraphValues(g))) == Ok(ConvertedOf(g))
  {
    GraphGroups(GRAPH_WIRE_NAMES, g);
    GraphRulesOf(ObjectOf(GraphKeys(GRAPH_WIRE_NAMES, g), GraphValues(g)), g);
  }

  /** The validators accept the options of a graph whose `fill` is an `int`. */
  lemma OptionsOfValues(o: GraphOptions)
    requires IsInt(o.fill)
    ensures OptionsOf(Somes(OptionValues(o))) == Ok(o)
  {
  }

  lemma StyleOfValues(g: Graph)
    ensures StyleOf(Somes(RenamedValues(g)), Somes(StyleValues(g.style))) == g.style
  {
  }

  lemma ExtrasOfValues(g: Graph)
    ensures ExtrasOf(Somes(RenamedValues(g)), Somes(ExtraValues(g.extras))) == g.extras
  {
  }

  /** Arguments found for `dataSource`, `title` and `targets` mean those keys are passed. */
  lemma GraphRequiredPassed(m: Object)
    requires Arguments(m, GRAPH_RENAMED)[0].Some? && Arguments(m, MAIN_KEYS)[0].Some? && Arguments(m, MAIN_KEYS)[1].Some?
    ensures forall r | r in GRAPH_REQUIRED :: r in m
  {
  }

  /** The keyword check passes on arguments that name only parameters and pass the required ones. */
  lemma GraphCheckCall(m: Object)
    requires forall x | x in m :: x in GRAPH_PARAMS
    requires forall r | r in GRAPH_REQUIRED :: r in m
    ensures CheckCall(m, GRAPH_PARAMS, GRAPH_REQUIRED) == Ok(())
  {
  }

  /** The constructor call on the arguments of a graph's encoding builds the graph back. */
  lemma CallGraphOf(m: Object, g: Graph)
    requires GraphReadable(g)
    requires CheckCall(m, GRAPH_PARAMS, GRAPH_REQUIRED) == Ok(())
    requires Arguments(m, GRAPH_RENAMED) == Somes(RenamedValues(g))
    requires Arguments(m, OPTION_KEYS) == Somes(OptionValues(g.options))
    requires Arguments(m, STYLE_KEYS) == Somes(StyleValues(g.style))
    requires Arguments(m, EXTRA_KEYS) == Somes(ExtraValues(g.extras))
    requires Arguments(m, MAIN_KEYS) == Somes(MainValues(g))
    ensures CallGraph(m, ConvertedOf(g)) == Ok(CanonGraph(g))
  {
    OptionsOfValues(g.options);
    StyleOfValues(g);
    ExtrasOfValues(g);
    var main := Somes(MainValues(g));
    assert OptIntArg(main[2], None) == Ok(g.id) && OptIntArg(main[3], None) == Ok(g.span);
    assert main[0] == Some(g.title) && main[8] == Some(JStr(GRAPH_TYPE));
    assert Somes(RenamedValues(g))[0] == Some(g.dataSource);
  }

  /** The constructor call on a graph's renamed encoding builds the graph back. */
  lemma CallGraphOfEncoding(g: Graph)
    requires GraphReadable(g)
    ensures CallGraph(ObjectOf(GraphKeys(GRAPH_RENAMED, g), GraphValues(g)), ConvertedOf(g)) == Ok(CanonGraph(g))
  {
    var m := ObjectOf(GraphKeys(GRAPH_RENAMED, g), GraphValues(g));
    KeysWithin(GRAPH_RENAMED, OPTION_KEYS, STYLE_KEYS, EXTRA_KEYS, MAIN_KEYS, AlertKeys(g), ALERT_KEY, GraphValues(g));
    GraphGroups(GRAPH_RENAMED, g);
    GraphRequiredPassed(m);
    GraphCheckCall(m);
    CallGraphOf(m, g);
  }

  /** The decoder's three steps: the rules, the renamings and the constructor call. */
  lemma DecodeGraphSteps(d: Object, conv: GraphConverted, m: Object, v: Graph)
    requires GraphRules(d) == Ok(conv)
    requires TransformDict(d, Renames(GRAPH_WIRE_NAMES, GRAPH_RENAMED)) == m
    requires CallGraph(m, conv) == Ok(v)
    ensures DecodeGraph(JObj(d)) == Ok(v)
  {
  }

  /** The renaming rules turn the written names of a graph's encoding into its attribute names. */
  lemma GraphRenamed(g: Graph)
    ensures TransformDict(ObjectOf(GraphKeys(GRAPH_WIRE_NAMES, g), GraphValues(g)), Renames(GRAPH_WIRE_NAMES, GRAPH_RENAMED))
         == ObjectOf(GraphKeys(GRAPH_RENAMED, g), GraphValues(g))
  {
    GraphKeysSeparate(AlertKeys(g));
    RenamesInObject(GRAPH_WIRE_NAMES, GRAPH_RENAMED, Join(OPTION_KEYS, STYLE_KEYS, EXTRA_KEYS, MAIN_KEYS, AlertKeys(g)),
      GraphValues(g));
  }

  /**
   * A graph reads back with its x axis, legend, links and alert as their
   * decoders give them back and its type set to "graph": targets, axes,
   * grid, tooltip, options and every pass-through attribute are unchanged.
   */
  lemma GraphRoundTrip(g: Graph)
    requires GraphReadable(g)
    ensures DecodeGraph(EncodeGraph(g)) == Ok(CanonGraph(g))
  {
    var d := ObjectOf(GraphKeys(GRAPH_WIRE_NAMES, g), GraphValues(g));
    GraphRenamed(g);
    GraphRulesOfEncoding(g);
    CallGraphOfEncoding(g);
    DecodeGraphSteps(d, ConvertedOf(g), ObjectOf(GraphKeys(GRAPH_RENAMED, g), GraphValues(g)), CanonGraph(g));
  }

  /**
   * The encoding lists `alert` exactly when the graph has an alert, and
   * always writes the tag "graph" under `type`, whatever `kind` holds.
   */
  lemma GraphTags(g: Graph)
    ensures "type" in EncodeGraph(g).fields && EncodeGraph(g).fields["type"] == JStr(GRAPH_TYPE)
    ensures "alert" in EncodeGraph(g).fields <==> g.alert.Some?
    ensures g.alert.Some? ==> "alert" in EncodeGraph(g).fields && EncodeGraph(g).fields["alert"] == EncodeAlert(g.alert.value)
  {
    var m := EncodeGraph(g).fields;
    GraphGroups(GRAPH_WIRE_NAMES, g);
    assert Arguments(m, MAIN_KEYS)[8] == Some(JStr(GRAPH_TYPE));
    assert Arguments(m, ALERT_KEY)[0] == AlertArgument(g);
  }

  /** What a graph reads back as encodes exactly as the graph itself: nothing written is lost. */
  lemma GraphStable(g: Graph)
    ensures EncodeGraph(CanonGraph(g)) == EncodeGraph(g)
  {
    XAxisStable(g.xAxis);
    LegendStable(g.legend);
    LinksStable(g.links);
    if g.alert.Some? {
      AlertStable(g.alert.value);
    }
    assert RenamedValues(CanonGraph(g)) == RenamedValues(g);
    assert MainValues(CanonGraph(g)) == MainValues(g);
    assert AlertValues(CanonGraph(g)) == AlertValues(g);
  }

  /** An axis under its attribute name and not under its written name stays after the renamings. */
  lemma RawAxesStay(d: Object)
    ensures var r := Arguments(TransformDict(d, Renames(GRAPH_WIRE_NAMES, GRAPH_RENAMED)), GRAPH_RENAMED);
      ("xAxis" in d && "xaxis" !in d ==> r[3].Some?) && ("yAxes" in d && "yaxes" !in d ==> r[4].Some?)
  {
    var rules := Renames(GRAPH_WIRE_NAMES, GRAPH_RENAMED);
    GroupsDistinct();
    RenamesIndependent(GRAPH_WIRE_NAMES, GRAPH_RENAMED);
    TransformDictIndependent(d, rules, 3);
    TransformDictIndependent(d, rules, 4);
  }

  /** The constructor rejects an axis that reaches it as raw JSON. */
  lemma CallGraphRejectsRawAxes(m: Object, conv: GraphConverted)
    requires (conv.xAxis.None? && Arguments(m, GRAPH_RENAMED)[3].Some?) ||
             (conv.yAxes.None? && Arguments(m, GRAPH_RENAMED)[4].Some?)
    ensures CallGraph(m, conv).Err?
  {
    var renamed, main := Arguments(m, GRAPH_RENAMED), Arguments(m, MAIN_KEYS);
    if CheckCall(m, GRAPH_PARAMS, GRAPH_REQUIRED).Ok? && conv.targets.Some? && AxesArg(conv.yAxes, renamed[4]).Ok? {
      assert conv.xAxis.None? && renamed[3].Some?;
      var o := OptionsOf(Arguments(m, OPTION_KEYS));
      if o.Ok? && Typed(conv.grid, main[4], DEFAULT_GRID).Ok? && Typed(conv.legend, main[5], DEFAULT_LEGEND).Ok? &&
         Typed(conv.tooltip, main[6], DEFAULT_TOOLTIP).Ok? {
        assert Typed(conv.xAxis, renamed[3], DEFAULT_XAXIS).Err?;
      }
    }
  }

  /**
   * An axis passed under its attribute name (`xAxis`, `yAxes`) rather
   * than its written name is raw JSON, which no rule decodes: the
   * constructor rejects it.
   */
  lemma GraphRejectsRawAxes(d: Object)
    requires ("yAxes" in d && "yaxes" !in d) || ("xAxis" in d && "xaxis" !in d)
    ensures DecodeGraph(JObj(d)).Err?
  {
    var rules := GraphRules(d);
    if rules.Ok? {
      RawAxesStay(d);
      CallGraphRejectsRawAxes(TransformDict(d, Renames(GRAPH_WIRE_NAMES, GRAPH_RENAMED)), rules.value);
    }
  }
}
