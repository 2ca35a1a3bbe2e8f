/**
 * `Table`, the table panel: 22 attributes, every one but `links` and
 * `type` defaulting to `None` and none validated, with `datasource`
 * renamed on the wire and its targets, height and links decoded by rules
 * of their own.
 */
module TablePanel {
  import opened Wire
  import opened Objects
  import opened Transform
  import opened Records
  import opened Codecs
  import opened GraphParts
  import opened Links

  const TABLE_TYPE := "table"

  /**
   * A table panel. `height` and `targets` are `None` until set; `id` and
   * `span` are the whole numbers (or `None`) that rows and dashboards
   * compute with; `kind` is its `type` attribute.
   */
  datatype Table = Table(
    columns: Json, dataSource: Json, editable: Json, error: Json, fontSize: Json, height: Option<Pixels>,
    hideTimeOverride: Json, id: Option<int>, links: seq<DashboardLink>, pageSize: Json, scroll: Json,
    showHeader: Json, sort: Json, span: Option<int>, styles: Json, targets: Option<seq<Target>>,
    timeFrom: Json, title: Json, transform: Json, transparent: Json, filterNull: Json, kind: Json)

  const TABLE_WIRE_NAMES: seq<string> := ["datasource"]
  const TABLE_RENAMED: seq<string> := ["dataSource"]

  const TABLE_A: seq<string> := ["columns", "editable", "error", "fontSize", "height", "hideTimeOverride", "id"]
  const TABLE_B: seq<string> := ["links", "pageSize", "scroll", "showHeader", "sort", "span", "styles"]
  const TABLE_C: seq<string> := ["targets", "timeFrom", "title", "transform", "transparent", "type", "filterNull"]

  /** The keys written under their own names. */
  const TABLE_REST: seq<string> := TABLE_A + TABLE_B + TABLE_C

  /** The constructor's parameters: the keys read back, `dataSource` first. */
  const TABLE_PARAMS: seq<string> := ["dataSource", "columns", "editable", "error", "fontSize", "height",
    "hideTimeOverride", "id", "links", "pageSize", "scroll", "showHeader", "sort", "span", "styles", "targets",
    "timeFrom", "title", "transform", "transparent", "type", "filterNull"]

  /** The keys the three converting rules read, in rule order. */
  const TABLE_CONVERTED: seq<string> := ["targets", "height", "links"]

  lemma TableGroupsDistinct()
    ensures Distinct(TABLE_A) && Distinct(TABLE_B) && Distinct(TABLE_C)
  {
  }

  lemma TableGroupsApart()
    ensures Disjoint(TABLE_A, TABLE_B) && Disjoint(TABLE_A, TABLE_C) && Disjoint(TABLE_B, TABLE_C)
  {
  }

  lemma TableNamesApart()
    ensures Disjoint(TABLE_WIRE_NAMES, TABLE_REST) && Disjoint(TABLE_RENAMED, TABLE_REST)
  {
    TableRestDistinct();
  }

  lemma TableRestDistinct()
    ensures Distinct(TABLE_REST)
  {
    TableGroupsDistinct();
    TableGroupsApart();
    DistinctConcat(TABLE_A, TABLE_B);
    DisjointConcat(TABLE_A, TABLE_B, TABLE_C);
    DistinctConcat(TABLE_A + TABLE_B, TABLE_C);
  }

  lemma TableKeysSeparate()
    ensures Separate(TABLE_WIRE_NAMES, TABLE_RENAMED, TABLE_REST)
    ensures TABLE_RENAMED + TABLE_REST == TABLE_PARAMS
    ensures Distinct(TABLE_WIRE_NAMES + TABLE_REST)
  {
    TableRestDistinct();
    TableNamesApart();
    DistinctConcat(TABLE_WIRE_NAMES, TABLE_REST);
    assert TABLE_RENAMED + TABLE_REST == TABLE_PARAMS;
  }

  /** The targets attribute as written: `None` is written as `null`. */
  function OptTargetsJson(ts: Option<seq<Target>>): Json {
    if ts.Some? then EncodeTargets(ts.value) else JNull
  }

  function TableValues(t: Table): (vals: seq<Json>)
    ensures |vals| == 22
  {
    [t.dataSource, t.columns, t.editable, t.error, t.fontSize, OptPixelsJson(t.height), t.hideTimeOverride,
     OptIntJson(t.id), EncodeLinks(t.links), t.pageSize, t.scroll, t.showHeader, t.sort, OptIntJson(t.span),
     t.styles, OptTargetsJson(t.targets), t.timeFrom, t.title, t.transform, t.transparent, JStr(TABLE_TYPE),
     t.filterNull]
  }

  /** `Table.to_json_data`: the type written is always "table". */
  function EncodeTable(t: Table): (e: Json)
    ensures WritesKeys(e, TABLE_WIRE_NAMES + TABLE_REST)
  {
    ObjectOfWrites(TABLE_WIRE_NAMES + TABLE_REST, TableValues(t));
    JObj(ObjectOf(TABLE_WIRE_NAMES + TABLE_REST, TableValues(t)))
  }

  /** What the three converting rules produced: a value for each rule that found its key. */
  datatype TableConverted = TableConverted(
    targets: Option<seq<Target>>, height: Option<Option<Pixels>>, links: Option<seq<DashboardLink>>)

  /**
   * The converting rules of `Table.parse_json_data`, in rule order: the
   * first value that fails to decode stops the decoder.
   */
  function TableRules(d: Object): (r: Result<TableConverted>)
    ensures r.Ok? ==> ((r.value.targets.Some? <==> "targets" in d) && (r.value.height.Some? <==> "height" in d) &&
      (r.value.links.Some? <==> "links" in d))
    ensures "targets" in d && DecodeTargets(d["targets"]).Err? ==> r == Err(DecodeTargets(d["targets"]).error)
  {
    var c := Arguments(d, TABLE_CONVERTED);
    var targets :- Present(c[0], DecodeTargets);
    var height :- Present(c[1], DecodePixels);
    var links :- Present(c[2], DecodeLinks);
    Ok(TableConverted(targets, height, links))
  }

  /** The table the arguments build once `id` and `span` were read. */
  function TableOf(a: seq<Option<Json>>, id: Option<int>, span: Option<int>, conv: TableConverted): Table
    requires |a| == |TABLE_PARAMS|
  {
    Table(Given(a[1], JNull), Given(a[0], JNull), Given(a[2], JNull), Given(a[3], JNull), Given(a[4], JNull),
      if conv.height.Some? then conv.height.value else None, Given(a[6], JNull), id,
      if conv.links.Some? then conv.links.value else [], Given(a[9], JNull), Given(a[10], JNull),
      Given(a[11], JNull), Given(a[12], JNull), span, Given(a[14], JNull), conv.targets, Given(a[16], JNull),
      Given(a[17], JNull), Given(a[18], JNull), Given(a[19], JNull), Given(a[21], JNull),
      Given(a[20], JStr(TABLE_TYPE)))
  }

  /**
   * `Table(**new_data)`: every keyword must be a parameter; nothing is
   * required and nothing validated. `id` and `span` must be whole numbers
   * or `None`.
   */
  function CallTable(m: Object, conv: TableConverted): (r: Result<Table>)
    ensures r.Ok? ==> CheckCall(m, TABLE_PARAMS, {}).Ok?
    ensures r.Ok? ==> r.value.targets == conv.targets
    ensures r.Ok? ==> r.value.height == (if conv.height.Some? then conv.height.value else None)
    ensures r.Err? ==> r.error.TypeError?
  {
    var _ :- CheckCall(m, TABLE_PARAMS, {});
    var a := Arguments(m, TABLE_PARAMS);
    var id :- OptIntArg(a[7], None);
    var span :- OptIntArg(a[13], None);
    Ok(TableOf(a, id, span, conv))
  }

  /** `Table.parse_json_data`: the converting rules, the renaming, then the constructor call. */
  function DecodeTable(data: Json): (r: Result<Table>)
    ensures DictOf(data).Err? ==> r == Err(DictOf(data).error)
    ensures DictOf(data).Ok? && TableRules(DictOf(data).value).Err? ==> r == Err(TableRules(DictOf(data).value).error)
    ensures r.Ok? ==> CheckCall(TransformDict(DictOf(data).value, Renames(TABLE_WIRE_NAMES, TABLE_RENAMED)), TABLE_PARAMS, {}).Ok?
  {
    var d :- DictOf(data);
    var conv :- TableRules(d);
    CallTable(TransformDict(d, Renames(TABLE_WIRE_NAMES, TABLE_RENAMED)), conv)
  }

  // ---------------------------------------------------------------------
  // The round trip
  // ---------------------------------------------------------------------

  /** A table whose targets and height are set, to a size that is not negative. */
  predicate TableReadable(t: Table) {
    t.targets.Some? && t.height.Some? && PixelsReadable(t.height.value)
  }

  /** What a table reads back as: its links as their decoder gives them back, its type "table". */
  function CanonTable(t: Table): Table {
    t.(links := Map(CanonLink, t.links), kind := JStr(TABLE_TYPE))
  }

  function TableConvertedOf(t: Table): TableConverted {
    TableConverted(t.targets, Some(t.height), Some(Map(CanonLink, t.links)))
  }

  /** The rules read the targets, the height and the links of a table's encoding back. */
  lemma TableRulesOfEncoding(t: Table)
    requires TableReadable(t)
    ensures TableRules(ObjectOf(TABLE_WIRE_NAMES + TABLE_REST, TableValues(t))) == Ok(TableConvertedOf(t))
  {
    var keys := TABLE_WIRE_NAMES + TABLE_REST;
    var vals := TableValues(t);
    TableKeysSeparate();
    ObjectOfAt(keys, vals, 15);
    ObjectOfAt(keys, vals, 5);
    ObjectOfAt(keys, vals, 8);
    TableRulesOf(ObjectOf(keys, vals), t);
  }

  /** The rules on any object holding a readable table's targets, height and links. */
  lemma TableRulesOf(d: Object, t: Table)
    requires TableReadable(t)
    requires "targets" in d && d["targets"] == EncodeTargets(t.targets.value)
    requires "height" in d && d["height"] == EncodePixels(t.height.value)
    requires "links" in d && d["links"] == EncodeLinks(t.links)
    ensures TableRules(d) == Ok(TableConvertedOf(t))
  {
    TargetsRoundTrip(t.targets.value);
    PixelsRoundTrip(t.height.value);
    LinksRoundTrip(t.links);
    var c := Arguments(d, TABLE_CONVERTED);
    assert c[0] == Some(d["targets"]) && c[1] == Some(d["height"]) && c[2] == Some(d["links"]);
    TableRulesWith(d, t.targets.value, t.height.value, Map(CanonLink, t.links));
  }

  /** The three rules succeed with what the targets', the height's and the links' decoders give. */
  lemma TableRulesWith(d: Object, targets: seq<Target>, height: Pixels, links: seq<DashboardLink>)
    requires Arguments(d, TABLE_CONVERTED)[0].Some? && DecodeTargets(Arguments(d, TABLE_CONVERTED)[0].value) == Ok(targets)
    requires Arguments(d, TABLE_CONVERTED)[1].Some? && DecodePixels(Arguments(d, TABLE_CONVERTED)[1].value) == Ok(Some(height))
    requires Arguments(d, TABLE_CONVERTED)[2].Some? && DecodeLinks(Arguments(d, TABLE_CONVERTED)[2].value) == Ok(links)
    ensures TableRules(d) == Ok(TableConverted(Some(targets), Some(Some(height)), Some(links)))
  {
  }

  /** The renaming turns the written names of a table's encoding into its parameters. */
  lemma TableRenamed(t: Table)
    ensures TransformDict(ObjectOf(TABLE_WIRE_NAMES + TABLE_REST, TableValues(t)), Renames(TABLE_WIRE_NAMES, TABLE_RENAMED))
      == ObjectOf(TABLE_PARAMS, TableValues(t))
  {
    TableKeysSeparate();
    RenamesInObject(TABLE_WIRE_NAMES, TABLE_RENAMED, TABLE_REST, TableValues(t));
  }

  /** The arguments a table's renamed encoding passes, in parameter order. */
  lemma TableBind(t: Table)
    ensures Arguments(ObjectOf(TABLE_PARAMS, TableValues(t)), TABLE_PARAMS) == Somes(TableValues(t))
    ensures CheckCall(ObjectOf(TABLE_PARAMS, TableValues(t)), TABLE_PARAMS, {}) == Ok(())
  {
    TableKeysSeparate();
    BindRenamed(TABLE_WIRE_NAMES, TABLE_RENAMED, TABLE_REST, TableValues(t), {});
  }

  /** The constructor call on any keywords binding a table's values builds the table back. */
  lemma CallTableOf(m: Object, t: Table)
    requires Arguments(m, TABLE_PARAMS) == Somes(TableValues(t))
    requires CheckCall(m, TABLE_PARAMS, {}) == Ok(())
    ensures CallTable(m, TableConvertedOf(t)) == Ok(CanonTable(t))
  {
    var a := Somes(TableValues(t));
    assert a[7] == Some(OptIntJson(t.id)) && a[13] == Some(OptIntJson(t.span));
    CallTableWith(m, t.id, t.span, TableConvertedOf(t));
    TableOfValues(t);
  }

  /** Once the keywords pass and `id` and `span` are read, the constructor builds `TableOf`. */
  lemma CallTableWith(m: Object, id: Option<int>, span: Option<int>, conv: TableConverted)
    requires CheckCall(m, TABLE_PARAMS, {}) == Ok(())
    requires OptIntArg(Arguments(m, TABLE_PARAMS)[7], None) == Ok(id)
    requires OptIntArg(Arguments(m, TABLE_PARAMS)[13], None) == Ok(span)
    ensures CallTable(m, conv) == Ok(TableOf(Arguments(m, TABLE_PARAMS), id, span, conv))
  {
  }

  /** The table built from a table's own values, with its `id`, `span` and converted parts. */
  lemma TableOfValues(t: Table)
    ensures TableOf(Somes(TableValues(t)), t.id, t.span, TableConvertedOf(t)) == CanonTable(t)
  {
  }

  /** The decoder's three steps: the rules, the renaming and the constructor call. */
  lemma DecodeTableSteps(d: Object, conv: TableConverted, m: Object, v: Table)
    requires TableRules(d) == Ok(conv)
    requires TransformDict(d, Renames(TABLE_WIRE_NAMES, TABLE_RENAMED)) == m
    requires CallTable(m, conv) == Ok(v)
    ensures DecodeTable(JObj(d)) == Ok(v)
  {
  }

  /**
   * A table whose targets and height are set reads back with its links
   * as their decoder gives them back and its type set to "table";
   * everything else is unchanged.
   */
  lemma TableRoundTrip(t: Table)
    requires TableReadable(t)
    ensures DecodeTable(EncodeTable(t)) == Ok(CanonTable(t))
  {
    var d := ObjectOf(TABLE_WIRE_NAMES + TABLE_REST, TableValues(t));
    var m := ObjectOf(TABLE_PARAMS, TableValues(t));
    TableRulesOfEncoding(t);
    TableRenamed(t);
    TableBind(t);
    CallTableOf(m, t);
    DecodeTableSteps(d, TableConvertedOf(t), m, CanonTable(t));
  }

  /** The encoding always carries the tag "table" under `type`, whatever `kind` holds. */
  lemma TableTags(t: Table)
    ensures "type" in EncodeTable(t).fields && EncodeTable(t).fields["type"] == JStr(TABLE_TYPE)
  {
    TableKeysSeparate();
    ObjectOfAt(TABLE_WIRE_NAMES + TABLE_REST, TableValues(t), 20);
  }

  /** What a table reads back as encodes exactly as the table itself. */
  lemma TableStable(t: Table)
    ensures EncodeTable(CanonTable(t)) == EncodeTable(t)
  {
    LinksStable(t.links);
    assert TableValues(CanonTable(t)) == TableValues(t);
  }

  /** A `null` under `targets` cannot be iterated: the decoder stops with a `TypeError`. */
  lemma NullTargetsRejected(d: Object)
    requires "targets" in d && d["targets"] == JNull
    ensures DecodeTable(JObj(d)).Err? && DecodeTable(JObj(d)).error.TypeError?
  {
    assert DecodeTargets(JNull).Err?;
  }

  /**
   * A `null` under `height` is rejected by `Pixels.parse_json_data` with a
   * `TypeError`, once the targets before it decoded.
   */
  lemma NullHeightRejected(d: Object)
    requires "height" in d && d["height"] == JNull
    requires "targets" in d ==> DecodeTargets(d["targets"]).Ok?
    ensures DecodeTable(JObj(d)).Err? && DecodeTable(JObj(d)).error.TypeError?
  {
    assert DecodePixels(JNull).Err?;
  }

  /**
   * A table left with its default targets, `None`, is written with
   * `targets: null`: such a table does not read back.
   */
  lemma TableWithoutTargets(t: Table)
    requires t.targets.None?
    ensures DecodeTable(EncodeTable(t)).Err? && DecodeTable(EncodeTable(t)).error.TypeError?
  {
    TableKeysSeparate();
    ObjectOfAt(TABLE_WIRE_NAMES + TABLE_REST, TableValues(t), 15);
    NullTargetsRejected(EncodeTable(t).fields);
  }

  /**
   * A table left with its default height, `None`, is written with
   * `height: null`: such a table does not read back either.
   */
  lemma TableWithoutHeight(t: Table)
    requires t.height.None?
    ensures DecodeTable(EncodeTable(t)).Err? && DecodeTable(EncodeTable(t)).error.TypeError?
  {
    if t.targets.Some? {
      var keys := TABLE_WIRE_NAMES + TABLE_REST;
      var vals := TableValues(t);
      TableKeysSeparate();
      ObjectOfAt(keys, vals, 15);
      ObjectOfAt(keys, vals, 5);
      TargetsRoundTrip(t.targets.value);
      NullHeightRejected(ObjectOf(keys, vals));
    } else {
      TableWithoutTargets(t);
    }
  }
}
