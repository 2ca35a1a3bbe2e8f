/**
 * `SingleStat`, the single-stat panel: 41 attributes, `datasource`
 * renamed on the wire, nine decoded by rules of their own and five
 * checked as `bool`s. The attributes are grouped here by how the
 * constructor treats them: the `bool` flags (`StatFlags`), the settings
 * passed through as they are (`StatSettings`), and the typed parts held
 * in `SingleStat` itself.
 */
module StatPanel {
  import opened Wire
  import opened Objects
  import opened Transform
  import opened Records
  import opened Codecs
  import opened StatParts
  import opened GraphParts
  import opened Links
  import opened Layout

  const SINGLESTAT_TYPE := "singlestat"
  const MAPPING_TYPE_VALUE_TO_TEXT := 1
  const VTYPE_DEFAULT := "avg"
  const DEFAULT_STAT_SPAN := 6

  /** The attributes with an `instance_of(bool)` validator, in attribute order. */
  datatype StatFlags = StatFlags(
    colorBackground: bool, colorValue: bool, editable: bool, hideTimeOverride: bool, transparent: bool)

  /** The attributes passed through as they are. */
  datatype StatSettings = StatSettings(
    cacheTimeout: Json, description: Json, decimals: Json, format: Json, interval: Json, mappingType: Json,
    maxDataPoints: Json, minSpan: Json, nullText: Json, nullPointMode: Json, postfix: Json,
    postfixFontSize: Json, prefix: Json, prefixFontSize: Json, repeat: Json, thresholds: Json,
    valueFontSize: Json, valueName: Json, tableColumn: Json, error: Json, timeFrom: Json, timeShift: Json)

  /**
   * A single-stat panel. `height` is `None` until set; `id` and `span` are
   * the whole numbers (or `None`) that rows and dashboards compute with;
   * `kind` is its `type` attribute.
   */
  datatype SingleStat = SingleStat(
    dataSource: Json, targets: seq<Target>, title: Json, id: Option<int>, span: Option<int>,
    colors: seq<RGBA>, gauge: Gauge, sparkline: SparkLine, mappingTypes: seq<Mapping>,
    links: seq<DashboardLink>, height: Option<Pixels>, rangeMaps: seq<RangeMap>, valueMaps: seq<ValueMap>,
    flags: StatFlags, settings: StatSettings, kind: Json)

  // ---------------------------------------------------------------------
  // The keys, in groups
  // ---------------------------------------------------------------------

  const STAT_WIRE_NAMES: seq<string> := ["datasource"]
  const STAT_RENAMED: seq<string> := ["dataSource"]
  const STAT_FLAGS: seq<string> := ["colorBackground", "colorValue", "editable", "hideTimeOverride", "transparent"]

  /** The keys the nine converting rules read, in rule order. */
  const STAT_TYPED: seq<string> :=
    ["colors", "targets", "gauge", "sparkline", "mappingTypes", "links", "height", "rangeMaps", "valueMaps"]

  const STAT_HEAD: seq<string> :=
    ["title", "id", "span", "type", "cacheTimeout", "description", "decimals", "format", "interval", "mappingType"]
  const STAT_TEXT: seq<string> := ["maxDataPoints", "minSpan", "nullText", "nullPointMode", "postfix",
    "postfixFontSize", "prefix", "prefixFontSize", "repeat", "thresholds"]
  const STAT_MORE: seq<string> := ["valueFontSize", "valueName", "tableColumn", "error", "timeFrom", "timeShift"]

  /** The constructor's parameters. */
  const STAT_PARAMS: seq<string> := STAT_RENAMED + Join(STAT_FLAGS, STAT_TYPED, STAT_HEAD, STAT_TEXT, STAT_MORE)

  /** The arguments without a default. */
  const STAT_REQUIRED: set<string> := {"dataSource", "targets", "title"}

  lemma StatGroupsDistinct()
    ensures Distinct(STAT_FLAGS) && Distinct(STAT_TYPED) && Distinct(STAT_HEAD) && Distinct(STAT_TEXT)
    ensures Distinct(STAT_MORE)
  {
  }

  lemma StatGroupsApart()
    ensures Disjoint(STAT_FLAGS, STAT_TYPED) && Disjoint(STAT_FLAGS, STAT_HEAD) && Disjoint(STAT_FLAGS, STAT_TEXT)
    ensures Disjoint(STAT_TYPED, STAT_HEAD) && Disjoint(STAT_TYPED, STAT_TEXT) && Disjoint(STAT_HEAD, STAT_TEXT)
  {
  }

  lemma StatMoreApart()
    ensures Disjoint(STAT_FLAGS, STAT_MORE) && Disjoint(STAT_TYPED, STAT_MORE) && Disjoint(STAT_HEAD, STAT_MORE)
    ensures Disjoint(STAT_TEXT, STAT_MORE)
    ensures Disjoint(STAT_MORE, STAT_FLAGS) && Disjoint(STAT_MORE, STAT_TYPED) && Disjoint(STAT_MORE, STAT_HEAD)
    ensures Disjoint(STAT_MORE, STAT_TEXT)
  {
  }

  lemma StatNamesApart()
    ensures Disjoint(STAT_WIRE_NAMES, STAT_FLAGS) && Disjoint(STAT_WIRE_NAMES, STAT_TYPED)
    ensures Disjoint(STAT_WIRE_NAMES, STAT_HEAD) && Disjoint(STAT_WIRE_NAMES, STAT_TEXT)
    ensures Disjoint(STAT_WIRE_NAMES, STAT_MORE) && Disjoint(STAT_MORE, STAT_WIRE_NAMES)
    ensures Disjoint(STAT_RENAMED, STAT_FLAGS) && Disjoint(STAT_RENAMED, STAT_TYPED)
    ensures Disjoint(STAT_RENAMED, STAT_HEAD) && Disjoint(STAT_RENAMED, STAT_TEXT)
    ensures Disjoint(STAT_RENAMED, STAT_MORE) && Disjoint(STAT_MORE, STAT_RENAMED)
  {
  }

  /** The written names, the attribute names and the other keys of a single-stat panel are all different. */
  lemma StatKeysSeparate()
    ensures Separate(STAT_WIRE_NAMES, STAT_RENAMED, Join(STAT_FLAGS, STAT_TYPED, STAT_HEAD, STAT_TEXT, STAT_MORE))
  {
    StatGroupsDistinct();
    StatGroupsApart();
    StatMoreApart();
    StatNamesApart();
    SeparateGroups(STAT_WIRE_NAMES, STAT_RENAMED, STAT_FLAGS, STAT_TYPED, STAT_HEAD, STAT_TEXT, STAT_MORE);
  }

  // ---------------------------------------------------------------------
  // Encoding
  // ---------------------------------------------------------------------

  function StatFlagValues(f: StatFlags): (vals: seq<Json>)
    ensures |vals| == |STAT_FLAGS|
  {
    [JBool(f.colorBackground), JBool(f.colorValue), JBool(f.editable), JBool(f.hideTimeOverride), JBool(f.transparent)]
  }

  function StatTypedValues(s: SingleStat): (vals: seq<Json>)
    ensures |vals| == |STAT_TYPED|
  {
    [EncodeColors(s.colors), EncodeTargets(s.targets), EncodeGauge(s.gauge), EncodeSparkLine(s.sparkline),
     EncodeMappings(s.mappingTypes), EncodeLinks(s.links), OptPixelsJson(s.height), EncodeRangeMaps(s.rangeMaps),
     EncodeValueMaps(s.valueMaps)]
  }

  /** The tag written is always "singlestat", whatever the stored `type`. */
  function StatHeadValues(s: SingleStat): (vals: seq<Json>)
    ensures |vals| == |STAT_HEAD|
  {
    var st := s.settings;
    [s.title, OptIntJson(s.id), OptIntJson(s.span), JStr(SINGLESTAT_TYPE), st.cacheTimeout, st.description,
     st.decimals, st.format, st.interval, st.mappingType]
  }

  function StatTextValues(st: StatSettings): (vals: seq<Json>)
    ensures |vals| == |STAT_TEXT|
  {
    [st.maxDataPoints, st.minSpan, st.nullText, st.nullPointMode, st.postfix, st.postfixFontSize, st.prefix,
     st.prefixFontSize, st.repeat, st.thresholds]
  }

  function StatMoreValues(st: StatSettings): (vals: seq<Json>)
    ensures |vals| == |STAT_MORE|
  {
    [st.valueFontSize, st.valueName, st.tableColumn, st.error, st.timeFrom, st.timeShift]
  }

  /** The keys of the encoding: the written name of the renamed attribute, then the other groups. */
  function StatKeys(names: seq<string>): seq<string> {
    names + Join(STAT_FLAGS, STAT_TYPED, STAT_HEAD, STAT_TEXT, STAT_MORE)
  }

  function StatValues(s: SingleStat): (vals: seq<Json>)
    ensures |vals| == |StatKeys(STAT_WIRE_NAMES)|
  {
    [s.dataSource] + Join(StatFlagValues(s.flags), StatTypedValues(s), StatHeadValues(s),
      StatTextValues(s.settings), StatMoreValues(s.settings))
  }

  /** `SingleStat.to_json_data`. */
  function EncodeStat(s: SingleStat): (e: Json)
    ensures WritesKeys(e, StatKeys(STAT_WIRE_NAMES))
  {
    ObjectOfWrites(StatKeys(STAT_WIRE_NAMES), StatValues(s));
    JObj(ObjectOf(StatKeys(STAT_WIRE_NAMES), StatValues(s)))
  }

  // ---------------------------------------------------------------------
  // Decoding
  // ---------------------------------------------------------------------

  /** What the nine converting rules produced: a value for each rule that found its key. */
  datatype StatConverted = StatConverted(
    colors: Option<seq<RGBA>>, targets: Option<seq<Target>>, gauge: Option<Gauge>, sparkline: Option<SparkLine>,
    mappingTypes: Option<seq<Mapping>>, links: Option<seq<DashboardLink>>, height: Option<Option<Pixels>>,
    rangeMaps: Option<seq<RangeMap>>, valueMaps: Option<seq<ValueMap>>)

  /**
   * The converting rules of `SingleStat.parse_json_data`, in rule order:
   * the first value that fails to decode stops the decoder.
   */
  function StatRules(d: Object): (r: Result<StatConverted>)
    ensures r.Ok? ==> ((r.value.targets.Some? <==> "targets" in d) && (r.value.height.Some? <==> "height" in d))
    ensures r.Ok? && r.value.gauge.Some? ==> IsInt(r.value.gauge.value.minValue) && IsInt(r.value.gauge.value.maxValue)
  {
    var c := Arguments(d, STAT_TYPED);
    var colors :- Present(c[0], DecodeColors);
    var targets :- Present(c[1], DecodeTargets);
    var gauge :- Present(c[2], DecodeGauge);
    var sparkline :- Present(c[3], DecodeSparkLine);
    var mappingTypes :- Present(c[4], DecodeMappings);
    var links :- Present(c[5], DecodeLinks);
    var height :- Present(c[6], DecodePixels);
    var rangeMaps :- Present(c[7], DecodeRangeMaps);
    var valueMaps :- Present(c[8], DecodeValueMaps);
    Ok(StatConverted(colors, targets, gauge, sparkline, mappingTypes, links, height, rangeMaps, valueMaps))
  }

  /** The pass-through settings passed, each defaulting as the class declares. */
  function SettingsOf(h: seq<Option<Json>>, t: seq<Option<Json>>, e: seq<Option<Json>>): StatSettings
    requires |h| == |STAT_HEAD| && |t| == |STAT_TEXT| && |e| == |STAT_MORE|
  {
    StatSettings(Given(h[4], JNull), Given(h[5], JNull), Given(h[6], JNull), Given(h[7], JStr("none")),
      Given(h[8], JNull), Given(h[9], JInt(MAPPING_TYPE_VALUE_TO_TEXT)),
      Given(t[0], JInt(100)), Given(t[1], JNull), Given(t[2], JNull), Given(t[3], JStr("connected")),
      Given(t[4], JStr("")), Given(t[5], JStr("50%")), Given(t[6], JStr("")), Given(t[7], JStr("50%")),
      Given(t[8], JNull), Given(t[9], JStr("")),
      Given(e[0], JStr("80%")), Given(e[1], JStr(VTYPE_DEFAULT)), Given(e[2], JStr("")), Given(e[3], JNull),
      Given(e[4], JNull), Given(e[5], JNull))
  }

  function OrElse<T>(o: Option<T>, default: T): T {
    if o.Some? then o.value else default
  }

  /**
   * `SingleStat(**new_data)`: the keywords are checked, then the
   * validators run in attribute order. `gauge` and `sparkline` always pass
   * theirs, since their rules decoded whatever was passed for them. `id`
   * and `span` must be whole numbers or `None`.
   */
  function CallStat(m: Object, conv: StatConverted): (r: Result<SingleStat>)
    ensures r.Ok? ==> CheckCall(m, STAT_PARAMS, STAT_REQUIRED).Ok? && conv.targets.Some?
    ensures r.Ok? ==> r.value.targets == conv.targets.value && r.value.height == OrElse(conv.height, None)
    ensures r.Ok? ==> r.value.gauge == OrElse(conv.gauge, DEFAULT_GAUGE)
    ensures r.Ok? ==> r.value.sparkline == OrElse(conv.sparkline, DEFAULT_SPARKLINE)
    ensures r.Ok? ==> r.value.colors == OrElse(conv.colors, [GREEN, ORANGE, RED])
    ensures r.Ok? ==> r.value.mappingTypes == OrElse(conv.mappingTypes, [MAPPING_VALUE_TO_TEXT, MAPPING_RANGE_TO_TEXT])
    ensures r.Err? ==> r.error.TypeError?
  {
    var _ :- CheckCall(m, STAT_PARAMS, STAT_REQUIRED);
    var flags := Arguments(m, STAT_FLAGS);
    var head := Arguments(m, STAT_HEAD);
    var targets :- if conv.targets.Some? then Ok(conv.targets.value)
      else Err(TypeError("missing a required argument: 'targets'"));
    var colorBackground :- BoolArg(flags[0], false);
    var colorValue :- BoolArg(flags[1], false);
    var editable :- BoolArg(flags[2], true);
    var hideTimeOverride :- BoolArg(flags[3], false);
    var id :- OptIntArg(head[1], None);
    var span :- OptIntArg(head[2], Some(DEFAULT_STAT_SPAN));
    var transparent :- BoolArg(flags[4], false);
    Ok(SingleStat(Given(Arguments(m, STAT_RENAMED)[0], JNull), targets, Given(head[0], JNull), id, span,
      OrElse(conv.colors, [GREEN, ORANGE, RED]), OrElse(conv.gauge, DEFAULT_GAUGE),
      OrElse(conv.sparkline, DEFAULT_SPARKLINE), OrElse(conv.mappingTypes, [MAPPING_VALUE_TO_TEXT, MAPPING_RANGE_TO_TEXT]),
      OrElse(conv.links, []), OrElse(conv.height, None), OrElse(conv.rangeMaps, []), OrElse(conv.valueMaps, []),
      StatFlags(colorBackground, colorValue, editable, hideTimeOverride, transparent),
      SettingsOf(head, Arguments(m, STAT_TEXT), Arguments(m, STAT_MORE)), Given(head[3], JStr(SINGLESTAT_TYPE))))
  }

  /** `SingleStat.parse_json_data`: the converting rules, the renaming, then the constructor call. */
  function DecodeStat(data: Json): (r: Result<SingleStat>)
    ensures r.Ok? ==> IsInt(r.value.gauge.minValue) && IsInt(r.value.gauge.maxValue)
  {
    var d :- DictOf(data);
    var conv :- StatRules(d);
    CallStat(TransformDict(d, Renames(STAT_WIRE_NAMES, STAT_RENAMED)), conv)
  }

  // ---------------------------------------------------------------------
  // The round trip
  // ---------------------------------------------------------------------

  /**
   * What the constructor and the part decoders need for a single-stat
   * panel to read back: a height that is set and not negative, colours
   * and a sparkline that print as they parse, a gauge and mappings whose
   * numbers are `int`s.
   */
  predicate StatReadable(s: SingleStat) {
    s.height.Some? && PixelsReadable(s.height.value) && StatPartsReadable(s)
  }

  /** The parts other than the height read back. */
  predicate StatPartsReadable(s: SingleStat) {
    (forall i | 0 <= i < |s.colors| :: RgbaReadable(s.colors[i])) &&
    IsInt(s.gauge.minValue) && IsInt(s.gauge.maxValue) && SparkLineReadable(s.sparkline) &&
    (forall i | 0 <= i < |s.mappingTypes| :: IsInt(s.mappingTypes[i].value))
  }

  /** What a single-stat panel reads back as: its links as their decoder gives them back, its type "singlestat". */
  function CanonStat(s: SingleStat): SingleStat {
    s.(links := Map(CanonLink, s.links), kind := JStr(SINGLESTAT_TYPE))
  }

  function StatConvertedOf(s: SingleStat): StatConverted {
    StatConverted(Some(s.colors), Some(s.targets), Some(s.gauge), Some(s.sparkline), Some(s.mappingTypes),
      Some(Map(CanonLink, s.links)), Some(s.height), Some(s.rangeMaps), Some(s.valueMaps))
  }

  /** Each group of a single-stat panel's literal receives the values written for it. */
  lemma StatGroups(names: seq<string>, s: SingleStat)
    requires names == STAT_WIRE_NAMES || names == STAT_RENAMED
    ensures var m := ObjectOf(StatKeys(names), StatValues(s));
      Arguments(m, names) == Somes([s.dataSource]) &&
      Arguments(m, STAT_FLAGS) == Somes(StatFlagValues(s.flags)) &&
      Arguments(m, STAT_TYPED) == Somes(StatTypedValues(s)) &&
      Arguments(m, STAT_HEAD) == Somes(StatHeadValues(s)) &&
      Arguments(m, STAT_TEXT) == Somes(StatTextValues(s.settings)) &&
      Arguments(m, STAT_MORE) == Somes(StatMoreValues(s.settings))
  {
    StatGroupsDistinct();
    StatGroupsApart();
    StatMoreApart();
    StatNamesApart();
    BindGroups(names, STAT_FLAGS, STAT_TYPED, STAT_HEAD, STAT_TEXT, STAT_MORE, [s.dataSource],
      StatFlagValues(s.flags), StatTypedValues(s), StatHeadValues(s), StatTextValues(s.settings),
      StatMoreValues(s.settings), STAT_MORE);
    BindAll(STAT_MORE, StatMoreValues(s.settings), {});
  }

  // One lemma per converting rule: the rule decodes what the encoder wrote.

  lemma StatColorsRule(d: Object, cs: seq<RGBA>)
    requires forall i | 0 <= i < |cs| :: RgbaReadable(cs[i])
    requires Arguments(d, STAT_TYPED)[0] == Some(EncodeColors(cs))
    ensures Present(Arguments(d, STAT_TYPED)[0], DecodeColors) == Ok(Some(cs))
  {
    ColorsRoundTrip(cs);
  }

  lemma StatTargetsRule(d: Object, ts: seq<Target>)
    requires Arguments(d, STAT_TYPED)[1] == Some(EncodeTargets(ts))
    ensures Present(Arguments(d, STAT_TYPED)[1], DecodeTargets) == Ok(Some(ts))
  {
    TargetsRoundTrip(ts);
  }

  lemma StatGaugeRule(d: Object, g: Gauge)
    requires IsInt(g.minValue) && IsInt(g.maxValue)
    requires Arguments(d, STAT_TYPED)[2] == Some(EncodeGauge(g))
    ensures Present(Arguments(d, STAT_TYPED)[2], DecodeGauge) == Ok(Some(g))
  {
    GaugeRoundTrip(g);
  }

  lemma StatSparkLineRule(d: Object, sl: SparkLine)
    requires SparkLineReadable(sl)
    requires Arguments(d, STAT_TYPED)[3] == Some(EncodeSparkLine(sl))
    ensures Present(Arguments(d, STAT_TYPED)[3], DecodeSparkLine) == Ok(Some(sl))
  {
    SparkLineRoundTrip(sl);
  }

  lemma StatMappingsRule(d: Object, ms: seq<Mapping>)
    requires forall i | 0 <= i < |ms| :: IsInt(ms[i].value)
    requires Arguments(d, STAT_TYPED)[4] == Some(EncodeMappings(ms))
    ensures Present(Arguments(d, STAT_TYPED)[4], DecodeMappings) == Ok(Some(ms))
  {
    MappingsRoundTrip(ms);
  }

  lemma StatLinksRule(d: Object, ls: seq<DashboardLink>)
    requires Arguments(d, STAT_TYPED)[5] == Some(EncodeLinks(ls))
    ensures Present(Arguments(d, STAT_TYPED)[5], DecodeLinks) == Ok(Some(Map(CanonLink, ls)))
  {
    LinksRoundTrip(ls);
  }

  lemma StatHeightRule(d: Object, h: Pixels)
    requires PixelsReadable(h)
    requires Arguments(d, STAT_TYPED)[6] == Some(OptPixelsJson(Some(h)))
    ensures Present(Arguments(d, STAT_TYPED)[6], DecodePixels) == Ok(Some(Some(h)))
  {
    PixelsRoundTrip(h);
  }

  lemma StatRangeMapsRule(d: Object, ms: seq<RangeMap>)
    requires Arguments(d, STAT_TYPED)[7] == Some(EncodeRangeMaps(ms))
    ensures Present(Arguments(d, STAT_TYPED)[7], DecodeRangeMaps) == Ok(Some(ms))
  {
    RangeMapsRoundTrip(ms);
  }

  lemma StatValueMapsRule(d: Object, vs: seq<ValueMap>)
    requires Arguments(d, STAT_TYPED)[8] == Some(EncodeValueMaps(vs))
    ensures Present(Arguments(d, STAT_TYPED)[8], DecodeValueMaps) == Ok(Some(vs))
  {
    ValueMapsRoundTrip(vs);
  }

  // What the encoder wrote under the key of each typed part.

  lemma StatColorsWritten(a: seq<Option<Json>>, s: SingleStat)
    requires a == Somes(StatTypedValues(s))
    ensures a[0] == Some(EncodeColors(s.colors))
  {
  }

  lemma StatTargetsWritten(a: seq<Option<Json>>, s: SingleStat)
    requires a == Somes(StatTypedValues(s))
    ensures a[1] == Some(EncodeTargets(s.targets))
  {
  }

  lemma StatGaugeWritten(a: seq<Option<Json>>, s: SingleStat)
    requires a == Somes(StatTypedValues(s))
    ensures a[2] == Some(EncodeGauge(s.gauge))
  {
  }

  lemma StatSparkLineWritten(a: seq<Option<Json>>, s: SingleStat)
    requires a == Somes(StatTypedValues(s))
    ensures a[3] == Some(EncodeSparkLine(s.sparkline))
  {
  }

  lemma StatMappingsWritten(a: seq<Option<Json>>, s: SingleStat)
    requires a == Somes(StatTypedValues(s))
    ensures a[4] == Some(EncodeMappings(s.mappingTypes))
  {
  }

  lemma StatLinksWritten(a: seq<Option<Json>>, s: SingleStat)
    requires a == Somes(StatTypedValues(s))
    ensures a[5] == Some(EncodeLinks(s.links))
  {
  }

  lemma StatHeightWritten(a: seq<Option<Json>>, s: SingleStat)
    requires a == Somes(StatTypedValues(s))
    ensures a[6] == Some(OptPixelsJson(s.height))
  {
  }

  lemma StatRangeMapsWritten(a: seq<Option<Json>>, s: SingleStat)
    requires a == Somes(StatTypedValues(s))
    ensures a[7] == Some(EncodeRangeMaps(s.rangeMaps))
  {
  }

  lemma StatValueMapsWritten(a: seq<Option<Json>>, s: SingleStat)
    requires a == Somes(StatTypedValues(s))
    ensures a[8] == Some(EncodeValueMaps(s.valueMaps))
  {
  }

  /** The rules succeed, with the parts each of them decodes, when each of them succeeds. */
  lemma StatRulesFrom(d: Object, conv: StatConverted)
    requires Present(Arguments(d, STAT_TYPED)[0], DecodeColors) == Ok(conv.colors)
    requires Present(Arguments(d, STAT_TYPED)[1], DecodeTargets) == Ok(conv.targets)
    requires Present(Arguments(d, STAT_TYPED)[2], DecodeGauge) == Ok(conv.gauge)
    requires Present(Arguments(d, STAT_TYPED)[3], DecodeSparkLine) == Ok(conv.sparkline)
    requires Present(Arguments(d, STAT_TYPED)[4], DecodeMappings) == Ok(conv.mappingTypes)
    requires Present(Arguments(d, STAT_TYPED)[5], DecodeLinks) == Ok(conv.links)
    requires Present(Arguments(d, STAT_TYPED)[6], DecodePixels) == Ok(conv.height)
    requires Present(Arguments(d, STAT_TYPED)[7], DecodeRangeMaps) == Ok(conv.rangeMaps)
    requires Present(Arguments(d, STAT_TYPED)[8], DecodeValueMaps) == Ok(conv.valueMaps)
    ensures StatRules(d) == Ok(conv)
  {
  }

  /** The rules decode every typed part from the arguments of a single-stat panel's encoding. */
  lemma StatRulesOf(d: Object, s: SingleStat)
    requires StatReadable(s)
    requires Arguments(d, STAT_TYPED) == Somes(StatTypedValues(s))
    ensures StatRules(d) == Ok(StatConvertedOf(s))
  {
    StatColorsWritten(Arguments(d, STAT_TYPED), s);
    StatTargetsWritten(Arguments(d, STAT_TYPED), s);
    StatGaugeWritten(Arguments(d, STAT_TYPED), s);
    StatSparkLineWritten(Arguments(d, STAT_TYPED), s);
    StatMappingsWritten(Arguments(d, STAT_TYPED), s);
    StatLinksWritten(Arguments(d, STAT_TYPED), s);
    StatHeightWritten(Arguments(d, STAT_TYPED), s);
    StatRangeMapsWritten(Arguments(d, STAT_TYPED), s);
    StatValueMapsWritten(Arguments(d, STAT_TYPED), s);
    StatColorsRule(d, s.colors);
    StatTargetsRule(d, s.targets);
    StatGaugeRule(d, s.gauge);
    StatSparkLineRule(d, s.sparkline);
    StatMappingsRule(d, s.mappingTypes);
    StatLinksRule(d, s.links);
    StatHeightRule(d, s.height.value);
    StatRangeMapsRule(d, s.rangeMaps);
    StatValueMapsRule(d, s.valueMaps);
    StatRulesFrom(d, StatConvertedOf(s));
  }

  /** The validators accept the flags of a single-stat panel. */
  lemma StatSettingsOfValues(s: SingleStat)
    ensures SettingsOf(Somes(StatHeadValues(s)), Somes(StatTextValues(s.settings)), Somes(StatMoreValues(s.settings)))
      == s.settings
  {
  }

  /** Arguments found for `dataSource`, `targets` and `title` mean those keys are passed. */
  lemma StatRequiredPassed(m: Object)
    requires Arguments(m, STAT_RENAMED)[0].Some? && Arguments(m, STAT_TYPED)[1].Some? && Arguments(m, STAT_HEAD)[0].Some?
    ensures forall r | r in STAT_REQUIRED :: r in m
  {
  }

  /** The keyword check passes on arguments that name only parameters and pass the required ones. */
  lemma StatCheckCall(m: Object)
    requires forall x | x in m :: x in STAT_PARAMS
    requires forall r | r in STAT_REQUIRED :: r in m
    ensures CheckCall(m, STAT_PARAMS, STAT_REQUIRED) == Ok(())
  {
  }

  /** The constructor call on the arguments of a single-stat panel's encoding builds the panel back. */
  lemma CallStatOf(m: Object, s: SingleStat)
    requires CheckCall(m, STAT_PARAMS, STAT_REQUIRED) == Ok(())
    requires Arguments(m, STAT_RENAMED) == Somes([s.dataSource])
    requires Arguments(m, STAT_FLAGS) == Somes(StatFlagValues(s.flags))
    requires Arguments(m, STAT_HEAD) == Somes(StatHeadValues(s))
    requires Arguments(m, STAT_TEXT) == Somes(StatTextValues(s.settings))
    requires Arguments(m, STAT_MORE) == Somes(StatMoreValues(s.settings))
    ensures CallStat(m, StatConvertedOf(s)) == Ok(CanonStat(s))
  {
    StatSettingsOfValues(s);
    var head := Somes(StatHeadValues(s));
    assert OptIntArg(head[1], None) == Ok(s.id) && OptIntArg(head[2], Some(DEFAULT_STAT_SPAN)) == Ok(s.span);
    assert head[0] == Some(s.title) && head[3] == Some(JStr(SINGLESTAT_TYPE));
  }

  /** The constructor call on a single-stat panel's renamed encoding builds the panel back. */
  lemma CallStatOfEncoding(s: SingleStat)
    ensures CallStat(ObjectOf(StatKeys(STAT_RENAMED), StatValues(s)), StatConvertedOf(s)) == Ok(CanonStat(s))
  {
    var m := ObjectOf(StatKeys(STAT_RENAMED), StatValues(s));
    KeysWithin(STAT_RENAMED, STAT_FLAGS, STAT_TYPED, STAT_HEAD, STAT_TEXT, STAT_MORE, STAT_MORE, StatValues(s));
    StatGroups(STAT_RENAMED, s);
    StatRequiredPassed(m);
    StatCheckCall(m);
    CallStatOf(m, s);
  }

  /** The decoder's three steps: the rules, the renaming and the constructor call. */
  lemma DecodeStatSteps(d: Object, conv: StatConverted, m: Object, v: SingleStat)
    requires StatRules(d) == Ok(conv)
    requires TransformDict(d, Renames(STAT_WIRE_NAMES, STAT_RENAMED)) == m
    requires CallStat(m, conv) == Ok(v)
    ensures DecodeStat(JObj(d)) == Ok(v)
  {
  }

  /** The renaming turns the written name of a single-stat panel's encoding into its attribute name. */
  lemma StatRenamed(s: SingleStat)
    ensures TransformDict(ObjectOf(StatKeys(STAT_WIRE_NAMES), StatValues(s)), Renames(STAT_WIRE_NAMES, STAT_RENAMED))
         == ObjectOf(StatKeys(STAT_RENAMED), StatValues(s))
  {
    StatKeysSeparate();
    RenamesInObject(STAT_WIRE_NAMES, STAT_RENAMED, Join(STAT_FLAGS, STAT_TYPED, STAT_HEAD, STAT_TEXT, STAT_MORE),
      StatValues(s));
  }

  /**
   * A readable single-stat panel reads back with its links as their
   * decoder gives them back and its type set to "singlestat": targets,
   * colours, gauge, sparkline, mappings, height, flags and every
   * pass-through setting are unchanged.
   */
  lemma StatRoundTrip(s: SingleStat)
    requires StatReadable(s)
    ensures DecodeStat(EncodeStat(s)) == Ok(CanonStat(s))
  {
    var d := ObjectOf(StatKeys(STAT_WIRE_NAMES), StatValues(s));
    StatRenamed(s);
    StatGroups(STAT_WIRE_NAMES, s);
    StatRulesOf(d, s);
    CallStatOfEncoding(s);
    DecodeStatSteps(d, StatConvertedOf(s), ObjectOf(StatKeys(STAT_RENAMED), StatValues(s)), CanonStat(s));
  }

  /** The encoding always carries the tag "singlestat" under `type`, whatever `kind` holds. */
  lemma StatTags(s: SingleStat)
    ensures "type" in EncodeStat(s).fields && EncodeStat(s).fields["type"] == JStr(SINGLESTAT_TYPE)
  {
    StatGroups(STAT_WIRE_NAMES, s);
    StatTagOf(ObjectOf(StatKeys(STAT_WIRE_NAMES), StatValues(s)), s);
  }

  lemma StatTagOf(m: Object, s: SingleStat)
    requires Arguments(m, STAT_HEAD) == Somes(StatHeadValues(s))
    ensures "type" in m && m["type"] == JStr(SINGLESTAT_TYPE)
  {
    assert Arguments(m, STAT_HEAD)[3] == Some(JStr(SINGLESTAT_TYPE));
  }

  /** What a single-stat panel reads back as encodes exactly as the panel itself. */
  lemma StatStable(s: SingleStat)
    ensures EncodeStat(CanonStat(s)) == EncodeStat(s)
  {
    LinksStable(s.links);
    assert StatTypedValues(CanonStat(s)) == StatTypedValues(s);
    assert StatHeadValues(CanonStat(s)) == StatHeadValues(s);
  }

  /** The rules stop at the height when the six rules before it succeed and its own fails. */
  lemma StatRulesStopAtHeight(d: Object)
    requires Present(Arguments(d, STAT_TYPED)[0], DecodeColors).Ok?
    requires Present(Arguments(d, STAT_TYPED)[1], DecodeTargets).Ok?
    requires Present(Arguments(d, STAT_TYPED)[2], DecodeGauge).Ok?
    requires Present(Arguments(d, STAT_TYPED)[3], DecodeSparkLine).Ok?
    requires Present(Arguments(d, STAT_TYPED)[4], DecodeMappings).Ok?
    requires Present(Arguments(d, STAT_TYPED)[5], DecodeLinks).Ok?
    requires Present(Arguments(d, STAT_TYPED)[6], DecodePixels).Err?
    ensures StatRules(d) == Err(Present(Arguments(d, STAT_TYPED)[6], DecodePixels).error)
  {
  }

  /**
   * A `null` under `height` is rejected by `Pixels.parse_json_data` with a
   * `TypeError`, once the six rules before it decoded.
   */
  lemma StatRulesRejectNullHeight(d: Object)
    requires "height" in d && d["height"] == JNull
    requires "colors" in d ==> DecodeColors(d["colors"]).Ok?
    requires "targets" in d ==> DecodeTargets(d["targets"]).Ok?
    requires "gauge" in d ==> DecodeGauge(d["gauge"]).Ok?
    requires "sparkline" in d ==> DecodeSparkLine(d["sparkline"]).Ok?
    requires "mappingTypes" in d ==> DecodeMappings(d["mappingTypes"]).Ok?
    requires "links" in d ==> DecodeLinks(d["links"]).Ok?
    ensures StatRules(d).Err? && StatRules(d).error.TypeError?
  {
    var c := Arguments(d, STAT_TYPED);
    assert c[6] == Some(JNull);
    assert Present(c[0], DecodeColors).Ok? && Present(c[1], DecodeTargets).Ok? && Present(c[2], DecodeGauge).Ok?;
    assert Present(c[3], DecodeSparkLine).Ok? && Present(c[4], DecodeMappings).Ok? && Present(c[5], DecodeLinks).Ok?;
    StatRulesStopAtHeight(d);
  }

  /** A literal the rules reject is not decoded. */
  lemma DecodeStatRejected(d: Object)
    requires StatRules(d).Err?
    ensures DecodeStat(JObj(d)) == Err(StatRules(d).error)
  {
  }

  /**
   * A single-stat panel left with its default height, `None`, is written
   * with `height: null`: even a panel whose other parts all read back
   * does not read back as a whole.
   */
  lemma StatWithoutHeight(s: SingleStat)
    requires s.height.None?
    requires StatPartsReadable(s)
    ensures DecodeStat(EncodeStat(s)).Err? && DecodeStat(EncodeStat(s)).error.TypeError?
  {
    var d := ObjectOf(StatKeys(STAT_WIRE_NAMES), StatValues(s));
    StatGroups(STAT_WIRE_NAMES, s);
    StatRulesStopAtNull(d, s);
    DecodeStatRejected(d);
  }

  /** The rules stop at the `null` written for a panel without a height. */
  lemma StatRulesStopAtNull(d: Object, s: SingleStat)
    requires s.height.None?
    requires StatPartsReadable(s)
    requires Arguments(d, STAT_TYPED) == Somes(StatTypedValues(s))
    ensures StatRules(d).Err? && StatRules(d).error.TypeError?
  {
    var c := Arguments(d, STAT_TYPED);
    StatColorsWritten(c, s);
    StatTargetsWritten(c, s);
    StatGaugeWritten(c, s);
    StatSparkLineWritten(c, s);
    StatMappingsWritten(c, s);
    StatLinksWritten(c, s);
    StatHeightWritten(c, s);
    StatColorsRule(d, s.colors);
    StatTargetsRule(d, s.targets);
    StatGaugeRule(d, s.gauge);
    StatSparkLineRule(d, s.sparkline);
    StatMappingsRule(d, s.mappingTypes);
    StatLinksRule(d, s.links);
    assert c[6] == Some(JNull);
    StatRulesStopAtHeight(d);
  }
}
