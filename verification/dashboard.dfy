/**
 * `Dashboard`, the root of the tree: 21 attributes, `title` and `rows`
 * required, four of them validated as booleans and four as instances of
 * their classes; `__inputs` and `timepicker` are renamed on the wire, and
 * seven rules decode the inputs, annotations, templating, time picker,
 * time range, rows and links.
 */
module Dashboards {
  import opened Wire
  import opened Objects
  import opened Transform
  import opened Records
  import opened Templates
  import opened Timing
  import opened Inputs
  import opened Links
  import opened Rows

  const DEFAULT_REFRESH := "10s"
  const SCHEMA_VERSION := 12
  const DARK_STYLE := "dark"
  const UTC := "utc"

  /**
   * A dashboard. `inputs` holds the decoded inputs, or the JSON passed
   * under the attribute's own name, which no rule decodes.
   */
  datatype Dashboard = Dashboard(
    title: Json, rows: seq<Row>, description: Json, annotations: Annotations, editable: bool, gnetId: Json,
    hideControls: bool, id: Json, inputs: Slot<seq<Input>>, links: seq<DashboardLink>, refresh: Json,
    schemaVersion: Json, sharedCrosshair: bool, style: Json, tags: Json, templating: Templating, time: Time,
    timePicker: TimePicker, timezone: Json, version: Json, graphTooltip: Json)

  /** `Dashboard(title, rows)`: every other attribute at its default. */
  function NewDashboard(title: Json, rows: seq<Row>): (b: Dashboard)
    ensures b.title == title && b.rows == rows
    ensures b.editable && !b.hideControls && !b.sharedCrosshair && b.inputs == Value([]) && b.links == []
    ensures b.annotations == DEFAULT_ANNOTATIONS && b.templating == DEFAULT_TEMPLATING
    ensures b.time == DEFAULT_TIME && b.timePicker == DEFAULT_TIME_PICKER
  {
    Dashboard(title, rows, JNull, DEFAULT_ANNOTATIONS, true, JNull, false, JNull, Value([]), [],
      JStr(DEFAULT_REFRESH), JInt(SCHEMA_VERSION), false, JStr(DARK_STYLE), JArr([]), DEFAULT_TEMPLATING,
      DEFAULT_TIME, DEFAULT_TIME_PICKER, JStr(UTC), JInt(0), JInt(0))
  }

  const DASHBOARD_WIRE_NAMES: seq<string> := ["__inputs", "timepicker"]
  const DASHBOARD_RENAMED: seq<string> := ["inputs", "timePicker"]

  const DASHBOARD_A: seq<string> := ["annotations", "description", "editable", "gnetId", "hideControls", "id", "links"]
  const DASHBOARD_B: seq<string> := ["refresh", "rows", "schemaVersion", "sharedCrosshair", "style", "tags", "templating"]
  const DASHBOARD_C: seq<string> := ["title", "time", "timezone", "version", "graphTooltip"]

  /** The keys written under the attributes' own names. */
  const DASHBOARD_REST: seq<string> := DASHBOARD_A + DASHBOARD_B + DASHBOARD_C

  /** The constructor's parameters, `inputs` and `timePicker` first. */
  const DASHBOARD_PARAMS: seq<string> := ["inputs", "timePicker", "annotations", "description", "editable",
    "gnetId", "hideControls", "id", "links", "refresh", "rows", "schemaVersion", "sharedCrosshair", "style",
    "tags", "templating", "title", "time", "timezone", "version", "graphTooltip"]

  const DASHBOARD_REQUIRED: set<string> := {"title", "rows"}

  /** The keys the seven converting rules read, in rule order. */
  const DASHBOARD_CONVERTED: seq<string> := ["__inputs", "annotations", "templating", "timepicker", "time", "rows", "links"]

  lemma DashboardGroupsDistinct()
    ensures Distinct(DASHBOARD_A) && Distinct(DASHBOARD_B) && Distinct(DASHBOARD_C)
  {
  }

  lemma DashboardGroupsApart()
    ensures Disjoint(DASHBOARD_A, DASHBOARD_B) && Disjoint(DASHBOARD_A, DASHBOARD_C) && Disjoint(DASHBOARD_B, DASHBOARD_C)
  {
  }

  lemma DashboardRestDistinct()
    ensures Distinct(DASHBOARD_REST)
  {
    DashboardGroupsDistinct();
    DashboardGroupsApart();
    DistinctConcat(DASHBOARD_A, DASHBOARD_B);
    DisjointConcat(DASHBOARD_A, DASHBOARD_B, DASHBOARD_C);
    DistinctConcat(DASHBOARD_A + DASHBOARD_B, DASHBOARD_C);
  }

  lemma DashboardNamesApart()
    ensures Disjoint(DASHBOARD_WIRE_NAMES, DASHBOARD_REST) && Disjoint(DASHBOARD_RENAMED, DASHBOARD_REST)
  {
    DashboardRestDistinct();
  }

  lemma DashboardKeysSeparate()
    ensures Separate(DASHBOARD_WIRE_NAMES, DASHBOARD_RENAMED, DASHBOARD_REST)
    ensures DASHBOARD_RENAMED + DASHBOARD_REST == DASHBOARD_PARAMS
    ensures Distinct(DASHBOARD_WIRE_NAMES + DASHBOARD_REST)
  {
    DashboardRestDistinct();
    DashboardNamesApart();
    DistinctConcat(DASHBOARD_WIRE_NAMES, DASHBOARD_REST);
    assert DASHBOARD_RENAMED + DASHBOARD_REST == DASHBOARD_PARAMS;
  }

  // ---------------------------------------------------------------------
  // The lists a dashboard holds
  // ---------------------------------------------------------------------

  function EncodeInputs(ins: seq<Input>): Json {
    JArr(Map(EncodeInput, ins))
  }

  /** `foreach(lambda input: parse_object(input, INPUT_TYPES))`. */
  function DecodeInputs(data: Json): Result<seq<Input>> {
    Foreach(ParseInput, data)
  }

  /** Inputs read back as each reads back, tagged with its type. */
  lemma InputsRoundTrip(ins: seq<Input>)
    ensures DecodeInputs(EncodeInputs(ins)) == Ok(Map(CanonInput, ins))
  {
    forall i | 0 <= i < |ins|
      ensures ParseInput(EncodeInput(ins[i])) == Ok(CanonInput(ins[i]))
    {
      InputRoundTrip(ins[i]);
    }
    ForeachOfMap(EncodeInput, ParseInput, CanonInput, ins);
  }

  /** The inputs as written: decoded ones encoded, undecoded JSON as it was passed. */
  function InputsJson(s: Slot<seq<Input>>): Json {
    match s
    case Value(ins) => EncodeInputs(ins)
    case Raw(j) => j
  }

  function EncodeRows(rows: seq<Row>): Json {
    JArr(Map(EncodeRow, rows))
  }

  /** `foreach(Row.parse_json_data)`. */
  function DecodeRows(data: Json): Result<seq<Row>> {
    Foreach(DecodeRow, data)
  }

  /** Readable rows read back as each reads back. */
  lemma RowsRoundTrip(rows: seq<Row>)
    requires forall i | 0 <= i < |rows| :: RowReadable(rows[i])
    ensures DecodeRows(EncodeRows(rows)) == Ok(Map(CanonRow, rows))
  {
    RowsEach(rows);
    ForeachOfMap(EncodeRow, DecodeRow, CanonRow, rows);
  }

  lemma RowsEach(rows: seq<Row>)
    requires forall i | 0 <= i < |rows| :: RowReadable(rows[i])
    ensures forall i | 0 <= i < |rows| :: DecodeRow(EncodeRow(rows[i])) == Ok(CanonRow(rows[i]))
  {
    forall i | 0 <= i < |rows|
      ensures DecodeRow(EncodeRow(rows[i])) == Ok(CanonRow(rows[i]))
    {
      RowRoundTrip(rows[i]);
    }
  }

  // ---------------------------------------------------------------------
  // Encoding and decoding
  // ---------------------------------------------------------------------

  /** The values written for a dashboard, `rows` being what its rows encode to. */
  function DashboardValues(b: Dashboard, rows: Json): (vals: seq<Json>)
    ensures |vals| == |DASHBOARD_PARAMS|
  {
    [InputsJson(b.inputs), EncodeTimePicker(b.timePicker), EncodeAnnotations(b.annotations), b.description,
     JBool(b.editable), b.gnetId, JBool(b.hideControls), b.id, EncodeLinks(b.links), b.refresh, rows,
     b.schemaVersion, JBool(b.sharedCrosshair), b.style, b.tags, EncodeTemplating(b.templating), b.title,
     EncodeTime(b.time), b.timezone, b.version, b.graphTooltip]
  }

  /** `Dashboard.to_json_data`. */
  function EncodeDashboard(b: Dashboard): (e: Json)
    ensures WritesKeys(e, DASHBOARD_WIRE_NAMES + DASHBOARD_REST)
  {
    ObjectOfWrites(DASHBOARD_WIRE_NAMES + DASHBOARD_REST, DashboardValues(b, EncodeRows(b.rows)));
    JObj(ObjectOf(DASHBOARD_WIRE_NAMES + DASHBOARD_REST, DashboardValues(b, EncodeRows(b.rows))))
  }

  /** What the seven converting rules produced: a value for each rule that found its key. */
  datatype DashboardConverted = DashboardConverted(
    inputs: Option<seq<Input>>, annotations: Option<Annotations>, templating: Option<Templating>,
    timePicker: Option<TimePicker>, time: Option<Time>, rows: Option<seq<Row>>, links: Option<seq<DashboardLink>>)

  /**
   * The converting rules of `Dashboard.parse_json_data`, in rule order:
   * the first value that fails to decode stops the decoder.
   */
  function DashboardRules(d: Object): (r: Result<DashboardConverted>)
    ensures r.Ok? ==> ((r.value.inputs.Some? <==> "__inputs" in d) && (r.value.rows.Some? <==> "rows" in d) &&
      (r.value.timePicker.Some? <==> "timepicker" in d))
    ensures "__inputs" in d && DecodeInputs(d["__inputs"]).Err? ==> r == Err(DecodeInputs(d["__inputs"]).error)
  {
    var c := Arguments(d, DASHBOARD_CONVERTED);
    var inputs :- Present(c[0], DecodeInputs);
    var annotations :- Present(c[1], DecodeAnnotations);
    var templating :- Present(c[2], DecodeTemplating);
    var timePicker :- Present(c[3], DecodeTimePicker);
    var time :- Present(c[4], DecodeTime);
    var rows :- Present(c[5], DecodeRows);
    var links :- Present(c[6], DecodeLinks);
    Ok(DashboardConverted(inputs, annotations, templating, timePicker, time, rows, links))
  }

  /** The inputs attribute: those decoded from `__inputs`, else whatever was passed as `inputs`, else none. */
  function InputsArg(converted: Option<seq<Input>>, raw: Option<Json>): (s: Slot<seq<Input>>)
    ensures converted.Some? ==> s == Value(converted.value)
    ensures converted.None? && raw.Some? ==> s == Raw(raw.value)
    ensures converted.None? && raw.None? ==> s == Value([])
  {
    if converted.Some? then Value(converted.value)
    else if raw.Some? then Raw(raw.value)
    else Value([])
  }

  /** The validated attributes, as the validators accepted them. */
  datatype Checked = Checked(annotations: Annotations, editable: bool, hideControls: bool, sharedCrosshair: bool,
    templating: Templating, time: Time, timePicker: TimePicker)

  /**
   * The validators, in attribute order: the four instances of their
   * classes come from the rules (a value passed under an attribute's own
   * name that no rule decoded is rejected), the three flags must be booleans.
   */
  function Validate(a: seq<Option<Json>>, conv: DashboardConverted): (r: Result<Checked>)
    requires |a| == |DASHBOARD_PARAMS|
    ensures conv.timePicker.None? && a[1].Some? ==> r.Err?
    ensures r.Err? ==> r.error.TypeError?
  {
    var annotations :- Typed(conv.annotations, a[2], DEFAULT_ANNOTATIONS);
    var editable :- BoolArg(a[4], true);
    var hideControls :- BoolArg(a[6], false);
    var sharedCrosshair :- BoolArg(a[12], false);
    var templating :- Typed(conv.templating, a[15], DEFAULT_TEMPLATING);
    var time :- Typed(conv.time, a[17], DEFAULT_TIME);
    var timePicker :- Typed(conv.timePicker, a[1], DEFAULT_TIME_PICKER);
    Ok(Checked(annotations, editable, hideControls, sharedCrosshair, templating, time, timePicker))
  }

  /** The dashboard the arguments build once the validators passed. */
  function DashboardOf(a: seq<Option<Json>>, rows: seq<Row>, conv: DashboardConverted, v: Checked): Dashboard
    requires |a| == |DASHBOARD_PARAMS|
  {
    Dashboard(Given(a[16], JNull), rows, Given(a[3], JNull), v.annotations, v.editable, Given(a[5], JNull),
      v.hideControls, Given(a[7], JNull), InputsArg(conv.inputs, a[0]),
      if conv.links.Some? then conv.links.value else [], Given(a[9], JStr(DEFAULT_REFRESH)),
      Given(a[11], JInt(SCHEMA_VERSION)), v.sharedCrosshair, Given(a[13], JStr(DARK_STYLE)), Given(a[14], JArr([])),
      v.templating, v.time, v.timePicker, Given(a[18], JStr(UTC)), Given(a[19], JInt(0)), Given(a[20], JInt(0)))
  }

  /**
   * `Dashboard(**new_data)`: the keywords are checked, `title` and `rows`
   * being required, then the validators run.
   */
  function CallDashboard(m: Object, conv: DashboardConverted): (r: Result<Dashboard>)
    ensures r.Ok? ==> CheckCall(m, DASHBOARD_PARAMS, DASHBOARD_REQUIRED).Ok? && conv.rows.Some?
    ensures r.Ok? ==> r.value.rows == conv.rows.value
    ensures r.Err? ==> r.error.TypeError?
  {
    var _ :- CheckCall(m, DASHBOARD_PARAMS, DASHBOARD_REQUIRED);
    var a := Arguments(m, DASHBOARD_PARAMS);
    var rows :- if conv.rows.Some? then Ok(conv.rows.value) else Err(TypeError("missing a required argument: 'rows'"));
    var v :- Validate(a, conv);
    Ok(DashboardOf(a, rows, conv, v))
  }

  /** `Dashboard.parse_json_data`: the converting rules, the renaming, then the constructor call. */
  function DecodeDashboard(data: Json): (r: Result<Dashboard>)
    ensures r.Ok? ==> DictOf(data).Ok? && "rows" in DictOf(data).value
  {
    var d :- DictOf(data);
    var conv :- DashboardRules(d);
    CallDashboard(TransformDict(d, Renames(DASHBOARD_WIRE_NAMES, DASHBOARD_RENAMED)), conv)
  }

  // ---------------------------------------------------------------------
  // The round trip
  // ---------------------------------------------------------------------

  /** A dashboard whose inputs were decoded and whose rows read back. */
  predicate DashboardReadable(b: Dashboard) {
    b.inputs.Value? && forall i | 0 <= i < |b.rows| :: RowReadable(b.rows[i])
  }

  /** What a dashboard reads back as, its rows being read back as `rows`. */
  function CanonDashboardWith(b: Dashboard, rows: seq<Row>): Dashboard
    requires b.inputs.Value?
  {
    b.(rows := rows, inputs := Value(Map(CanonInput, b.inputs.value)), links := Map(CanonLink, b.links),
       timePicker := CanonTimePicker(b.timePicker))
  }

  /**
   * What a dashboard reads back as: its inputs tagged, its rows, panels and
   * links as their decoders give them back, its time picker without `type`.
   */
  function CanonDashboard(b: Dashboard): Dashboard
    requires b.inputs.Value?
  {
    CanonDashboardWith(b, Map(CanonRow, b.rows))
  }

  function DashboardConvertedOf(b: Dashboard, rows: seq<Row>): DashboardConverted
    requires b.inputs.Value?
  {
    DashboardConverted(Some(Map(CanonInput, b.inputs.value)), Some(b.annotations), Some(b.templating),
      Some(CanonTimePicker(b.timePicker)), Some(b.time), Some(rows), Some(Map(CanonLink, b.links)))
  }

  // One lemma per converting rule: the rule decodes what the encoder wrote.

  lemma DashboardInputsRule(d: Object, ins: seq<Input>)
    requires "__inputs" in d && d["__inputs"] == EncodeInputs(ins)
    ensures Present(Arguments(d, DASHBOARD_CONVERTED)[0], DecodeInputs) == Ok(Some(Map(CanonInput, ins)))
  {
    InputsRoundTrip(ins);
  }

  lemma DashboardListsRule(d: Object, a: Annotations, t: Templating)
    requires "annotations" in d && d["annotations"] == EncodeAnnotations(a)
    requires "templating" in d && d["templating"] == EncodeTemplating(t)
    ensures Present(Arguments(d, DASHBOARD_CONVERTED)[1], DecodeAnnotations) == Ok(Some(a))
    ensures Present(Arguments(d, DASHBOARD_CONVERTED)[2], DecodeTemplating) == Ok(Some(t))
  {
    ListsRoundTrip(a, t);
  }

  lemma DashboardTimePickerRule(d: Object, t: TimePicker)
    requires "timepicker" in d && d["timepicker"] == EncodeTimePicker(t)
    ensures Present(Arguments(d, DASHBOARD_CONVERTED)[3], DecodeTimePicker) == Ok(Some(CanonTimePicker(t)))
  {
    TimePickerRoundTrip(t);
  }

  lemma DashboardTimeRule(d: Object, t: Time)
    requires "time" in d && d["time"] == EncodeTime(t)
    ensures Present(Arguments(d, DASHBOARD_CONVERTED)[4], DecodeTime) == Ok(Some(t))
  {
    TimeRoundTrip(t);
  }

  lemma DashboardRowsRule(d: Object, rj: Json, rows: seq<Row>)
    requires "rows" in d && d["rows"] == rj && DecodeRows(rj) == Ok(rows)
    ensures Present(Arguments(d, DASHBOARD_CONVERTED)[5], DecodeRows) == Ok(Some(rows))
  {
  }

  lemma DashboardLinksRule(d: Object, ls: seq<DashboardLink>)
    requires "links" in d && d["links"] == EncodeLinks(ls)
    ensures Present(Arguments(d, DASHBOARD_CONVERTED)[6], DecodeLinks) == Ok(Some(Map(CanonLink, ls)))
  {
    LinksRoundTrip(ls);
  }

  /** The rules succeed, with the parts each of them decodes, when each of them succeeds. */
  lemma DashboardRulesFrom(d: Object, conv: DashboardConverted)
    requires Present(Arguments(d, DASHBOARD_CONVERTED)[0], DecodeInputs) == Ok(conv.inputs)
    requires Present(Arguments(d, DASHBOARD_CONVERTED)[1], DecodeAnnotations) == Ok(conv.annotations)
    requires Present(Arguments(d, DASHBOARD_CONVERTED)[2], DecodeTemplating) == Ok(conv.templating)
    requires Present(Arguments(d, DASHBOARD_CONVERTED)[3], DecodeTimePicker) == Ok(conv.timePicker)
    requires Present(Arguments(d, DASHBOARD_CONVERTED)[4], DecodeTime) == Ok(conv.time)
    requires Present(Arguments(d, DASHBOARD_CONVERTED)[5], DecodeRows) == Ok(conv.rows)
    requires Present(Arguments(d, DASHBOARD_CONVERTED)[6], DecodeLinks) == Ok(conv.links)
    ensures DashboardRules(d) == Ok(conv)
  {
  }

  /** Where the encoding writes each part the rules decode. */
  lemma DashboardWritten(b: Dashboard, rj: Json)
    requires b.inputs.Value?
    ensures var d := ObjectOf(DASHBOARD_WIRE_NAMES + DASHBOARD_REST, DashboardValues(b, rj));
      "__inputs" in d && d["__inputs"] == EncodeInputs(b.inputs.value) &&
      "timepicker" in d && d["timepicker"] == EncodeTimePicker(b.timePicker) &&
      "annotations" in d && d["annotations"] == EncodeAnnotations(b.annotations) &&
      "links" in d && d["links"] == EncodeLinks(b.links) &&
      "rows" in d && d["rows"] == rj &&
      "templating" in d && d["templating"] == EncodeTemplating(b.templating) &&
      "time" in d && d["time"] == EncodeTime(b.time)
  {
    var keys := DASHBOARD_WIRE_NAMES + DASHBOARD_REST;
    var vals := DashboardValues(b, rj);
    DashboardKeysSeparate();
    ObjectOfAt(keys, vals, 0);
    ObjectOfAt(keys, vals, 1);
    ObjectOfAt(keys, vals, 2);
    ObjectOfAt(keys, vals, 8);
    ObjectOfAt(keys, vals, 10);
    ObjectOfAt(keys, vals, 15);
    ObjectOfAt(keys, vals, 17);
  }

  /** The rules decode every part of a dashboard's encoding, its rows as `rj` decodes. */
  lemma DashboardRulesWith(b: Dashboard, rj: Json, rows: seq<Row>)
    requires b.inputs.Value? && DecodeRows(rj) == Ok(rows)
    ensures DashboardRules(ObjectOf(DASHBOARD_WIRE_NAMES + DASHBOARD_REST, DashboardValues(b, rj)))
      == Ok(DashboardConvertedOf(b, rows))
  {
    var d := ObjectOf(DASHBOARD_WIRE_NAMES + DASHBOARD_REST, DashboardValues(b, rj));
    DashboardWritten(b, rj);
    DashboardInputsRule(d, b.inputs.value);
    DashboardListsRule(d, b.annotations, b.templating);
    DashboardTimePickerRule(d, b.timePicker);
    DashboardTimeRule(d, b.time);
    DashboardRowsRule(d, rj, rows);
    DashboardLinksRule(d, b.links);
    DashboardRulesFrom(d, DashboardConvertedOf(b, rows));
  }

  /** The renaming turns the written names `__inputs` and `timepicker` into the attributes' names. */
  lemma DashboardRenamed(vals: seq<Json>)
    requires |vals| == |DASHBOARD_PARAMS|
    ensures TransformDict(ObjectOf(DASHBOARD_WIRE_NAMES + DASHBOARD_REST, vals), Renames(DASHBOARD_WIRE_NAMES, DASHBOARD_RENAMED))
      == ObjectOf(DASHBOARD_PARAMS, vals)
    ensures Arguments(ObjectOf(DASHBOARD_PARAMS, vals), DASHBOARD_PARAMS) == Somes(vals)
    ensures CheckCall(ObjectOf(DASHBOARD_PARAMS, vals), DASHBOARD_PARAMS, DASHBOARD_REQUIRED) == Ok(())
  {
    DashboardKeysSeparate();
    BindRenamed(DASHBOARD_WIRE_NAMES, DASHBOARD_RENAMED, DASHBOARD_REST, vals, DASHBOARD_REQUIRED);
  }

  /** The dashboard built from a dashboard's own values, with the parts the rules decoded. */
  lemma DashboardOfValues(b: Dashboard, rj: Json, rows: seq<Row>)
    requires b.inputs.Value?
    ensures DashboardOf(Somes(DashboardValues(b, rj)), rows, DashboardConvertedOf(b, rows), CheckedOf(b))
      == CanonDashboardWith(b, rows)
  {
  }

  function CheckedOf(b: Dashboard): Checked {
    Checked(b.annotations, b.editable, b.hideControls, b.sharedCrosshair, b.templating, b.time,
      CanonTimePicker(b.timePicker))
  }

  /** The validators accept what a dashboard's encoding passes, with the parts the rules decoded. */
  lemma ValidateValues(b: Dashboard, rj: Json, rows: seq<Row>)
    requires b.inputs.Value?
    ensures Validate(Somes(DashboardValues(b, rj)), DashboardConvertedOf(b, rows)) == Ok(CheckedOf(b))
  {
    var a := Somes(DashboardValues(b, rj));
    assert a[4] == Some(JBool(b.editable)) && a[6] == Some(JBool(b.hideControls));
    assert a[12] == Some(JBool(b.sharedCrosshair));
  }

  /** The constructor call on a dashboard's renamed encoding builds the dashboard back. */
  lemma CallDashboardWith(b: Dashboard, rj: Json, rows: seq<Row>)
    requires b.inputs.Value?
    ensures CallDashboard(ObjectOf(DASHBOARD_PARAMS, DashboardValues(b, rj)), DashboardConvertedOf(b, rows))
      == Ok(CanonDashboardWith(b, rows))
  {
    var vals := DashboardValues(b, rj);
    DashboardRenamed(vals);
    ValidateValues(b, rj, rows);
    DashboardOfValues(b, rj, rows);
  }

  /** The decoder's three steps: the rules, the renaming and the constructor call. */
  lemma DecodeDashboardSteps(d: Object, conv: DashboardConverted, m: Object, v: Dashboard)
    requires DashboardRules(d) == Ok(conv)
    requires TransformDict(d, Renames(DASHBOARD_WIRE_NAMES, DASHBOARD_RENAMED)) == m
    requires CallDashboard(m, conv) == Ok(v)
    ensures DecodeDashboard(JObj(d)) == Ok(v)
  {
  }

  /**
   * A dashboard whose inputs were decoded and whose rows read back reads
   * back with its inputs tagged, its rows, panels and links as their
   * decoders give them back and its time picker without `type`;
   * everything else is unchanged.
   */
  lemma DashboardRoundTrip(b: Dashboard)
    requires DashboardReadable(b)
    ensures DecodeDashboard(EncodeDashboard(b)) == Ok(CanonDashboard(b))
  {
    var rj := EncodeRows(b.rows);
    var rows := Map(CanonRow, b.rows);
    var vals := DashboardValues(b, rj);
    RowsRoundTrip(b.rows);
    DashboardRulesWith(b, rj, rows);
    DashboardRenamed(vals);
    CallDashboardWith(b, rj, rows);
    DecodeDashboardSteps(ObjectOf(DASHBOARD_WIRE_NAMES + DASHBOARD_REST, vals), DashboardConvertedOf(b, rows),
      ObjectOf(DASHBOARD_PARAMS, vals), CanonDashboardWith(b, rows));
  }

  /** Without `rows` the constructor call is missing a required argument, once the rules have passed. */
  lemma RowsRequired(d: Object)
    requires "rows" !in d && DashboardRules(d).Ok?
    ensures DecodeDashboard(JObj(d)).Err? && DecodeDashboard(JObj(d)).error.TypeError?
  {
  }

  /**
   * Inputs passed under the attribute's own name, `inputs`, are not
   * decoded (no rule reads that key): the dashboard holds the JSON as it
   * was passed.
   */
  lemma InputsUnderOwnName(m: Object, conv: DashboardConverted)
    requires "inputs" in m && conv.inputs.None?
    requires CallDashboard(m, conv).Ok?
    ensures CallDashboard(m, conv).value.inputs == Raw(m["inputs"])
  {
    assert Arguments(m, DASHBOARD_PARAMS)[0] == Some(m["inputs"]);
  }

  /**
   * A time picker passed under the attribute's own name, `timePicker`,
   * is not decoded (its rule reads `timepicker`), so the validator rejects it.
   */
  lemma TimePickerUnderOwnName(m: Object, conv: DashboardConverted)
    requires "timePicker" in m && conv.timePicker.None?
    ensures CallDashboard(m, conv).Err? && CallDashboard(m, conv).error.TypeError?
  {
    assert Arguments(m, DASHBOARD_PARAMS)[1].Some?;
  }
}
