/**
 * A dashboard's annotations and template variables: `Annotations` and
 * `Templating` hold plain lists; a `Template` writes its default value as
 * the `text` and `value` of a `current` object and reads it back from there.
 */
module Templates {
  import opened Wire
  import opened Objects
  import opened Transform
  import opened Records

  // ---------------------------------------------------------------------
  // Annotations and Templating
  // ---------------------------------------------------------------------

  /** `Annotations` and `Templating`, each a wrapper around one list. */
  datatype Annotations = Annotations(list: Json)
  datatype Templating = Templating(list: Json)

  /** `Annotations()` and `Templating()`. */
  const DEFAULT_ANNOTATIONS := Annotations(JArr([]))
  const DEFAULT_TEMPLATING := Templating(JArr([]))

  /** The one keyword both accept. */
  const LIST_KEYS: seq<string> := ["list"]

  /** `{'list': list}`. */
  function EncodeList(list: Json): (e: Json)
    ensures WritesKeys(e, ["list"])
  {
    JObj(map["list" := list])
  }

  /** `cls(**data)` for a class whose one attribute is `list`. */
  function DecodeList(data: Json): (r: Result<Json>)
    ensures r.Ok? <==> data.JObj? && CheckCall(data.fields, LIST_KEYS, {}).Ok?
    ensures r.Ok? ==> r.value == if "list" in data.fields then data.fields["list"] else JArr([])
    ensures r.Err? ==> r.error.TypeError?
  {
    var d :- Kwargs(data);
    var _ :- CheckCall(d, LIST_KEYS, {});
    Ok(if "list" in d then d["list"] else JArr([]))
  }

  /** `Annotations.to_json_data` and `Annotations.parse_json_data`. */
  function EncodeAnnotations(a: Annotations): (e: Json)
    ensures WritesKeys(e, ["list"])
  {
    EncodeList(a.list)
  }

  function DecodeAnnotations(data: Json): (r: Result<Annotations>)
    ensures r.Ok? <==> DecodeList(data).Ok?
  {
    var list :- DecodeList(data);
    Ok(Annotations(list))
  }

  /** `Templating.to_json_data` and `Templating.parse_json_data`. */
  function EncodeTemplating(t: Templating): (e: Json)
    ensures WritesKeys(e, ["list"])
  {
    EncodeList(t.list)
  }

  function DecodeTemplating(data: Json): (r: Result<Templating>)
    ensures r.Ok? <==> DecodeList(data).Ok?
  {
    var list :- DecodeList(data);
    Ok(Templating(list))
  }

  /** Annotations and templating survive their encoding unchanged. */
  lemma ListsRoundTrip(a: Annotations, t: Templating)
    ensures DecodeAnnotations(EncodeAnnotations(a)) == Ok(a)
    ensures DecodeTemplating(EncodeTemplating(t)) == Ok(t)
  {
    assert CheckCall(map["list" := a.list], LIST_KEYS, {}).Ok?;
    assert CheckCall(map["list" := t.list], LIST_KEYS, {}).Ok?;
  }

  // ---------------------------------------------------------------------
  // Template
  // ---------------------------------------------------------------------

  /** A template variable; `labelText` is its `label` and `kind` its `type` attribute. */
  datatype Template = Template(
    default: Json, dataSource: Json, name: Json, query: Json, labelText: Json, allValue: Json,
    includeAll: bool, multi: bool, regex: Json, kind: Json, hide: Json, options: Json,
    refresh: Json, sort: Json, tagValuesQuery: Json, tagsQuery: Json)

  /** The type every template is written with. */
  const QUERY_TYPE := "query"

  const TEMPLATE_WIRE_NAMES: seq<string> := ["datasource"]
  const TEMPLATE_RENAMED: seq<string> := ["dataSource"]

  /** The keys written and read back under the same name, apart from `allValue`. */
  const TEMPLATE_TAIL_A: seq<string> := ["hide", "includeAll", "label", "multi", "name", "options", "query"]
  const TEMPLATE_TAIL_B: seq<string> := ["refresh", "regex", "sort", "tagValuesQuery", "tagsQuery", "type"]
  const TEMPLATE_TAIL: seq<string> := TEMPLATE_TAIL_A + TEMPLATE_TAIL_B

  /** The other keys of the encoding; `current` is the one at index 1. */
  const TEMPLATE_REST: seq<string> := ["allValue", "current"] + TEMPLATE_TAIL

  /** The constructor's parameters: the keys read back, with `default` in place of `current`. */
  const TEMPLATE_PARAMS: seq<string> := ["dataSource", "allValue", "default"] + TEMPLATE_TAIL

  /** The arguments without a default. */
  const TEMPLATE_REQUIRED: set<string> := {"default", "dataSource", "name", "query"}

  lemma TemplateKeysSeparate()
    ensures Separate(TEMPLATE_WIRE_NAMES, TEMPLATE_RENAMED, TEMPLATE_REST)
    ensures (TEMPLATE_RENAMED + TEMPLATE_REST)[2 := "default"] == TEMPLATE_PARAMS
    ensures Distinct(TEMPLATE_PARAMS) && (TEMPLATE_RENAMED + TEMPLATE_REST)[2] == "current"
    ensures |TEMPLATE_PARAMS| == 16
  {
    DistinctConcat(TEMPLATE_TAIL_A, TEMPLATE_TAIL_B);
    DistinctConcat(["allValue", "current"], TEMPLATE_TAIL);
    DistinctConcat(["dataSource", "allValue", "default"], TEMPLATE_TAIL);
    assert (TEMPLATE_RENAMED + TEMPLATE_REST)[2 := "default"] == TEMPLATE_PARAMS;
  }

  /** The `current` object a template writes: its default as both `text` and `value`. */
  function CurrentJson(default: Json): Json {
    JObj(map["text" := default, "value" := default, "tags" := JArr([])])
  }

  function TemplateValues(t: Template): (vals: seq<Json>)
    ensures |vals| == 16
  {
    [t.dataSource, t.allValue, CurrentJson(t.default), t.hide, JBool(t.includeAll), t.labelText,
     JBool(t.multi), t.name, t.options, t.query, t.refresh, t.regex, t.sort, t.tagValuesQuery,
     t.tagsQuery, JStr(QUERY_TYPE)]
  }

  /** `Template.to_json_data`: the type is always "query". */
  function EncodeTemplate(t: Template): (e: Json)
    ensures WritesKeys(e, TEMPLATE_WIRE_NAMES + TEMPLATE_REST)
  {
    ObjectOfWrites(TEMPLATE_WIRE_NAMES + TEMPLATE_REST, TemplateValues(t));
    JObj(ObjectOf(TEMPLATE_WIRE_NAMES + TEMPLATE_REST, TemplateValues(t)))
  }

  /**
   * The `current` step of `Template.parse_json_data`: when `current` is
   * passed it is popped, and its `text` (or, failing that, its `value`)
   * becomes the `default` argument.
   */
  function PopCurrent(m: Object): (r: Result<Object>)
    ensures "current" !in m ==> r == Ok(m)
    ensures "current" in m && m["current"].JObj? ==>
      var current := m["current"].fields;
      r == Ok(if "text" in current then (m - {"current"})["default" := current["text"]]
              else if "value" in current then (m - {"current"})["default" := current["value"]]
              else m - {"current"})
  {
    if "current" !in m then Ok(m)
    else
      var current := m["current"];
      var rest := m - {"current"};
      match Contains(current, "text")
      case Err(e) => Err(e)
      case Ok(true) =>
        var text :- Subscript(current, "text");
        Ok(rest["default" := text])
      case Ok(false) =>
        match Contains(current, "value")
        case Err(e) => Err(e)
        case Ok(true) =>
          var value :- Subscript(current, "value");
          Ok(rest["default" := value])
        case Ok(false) => Ok(rest)
  }

  /** The template the arguments build once the two flags passed their validators. */
  function TemplateOf(a: seq<Option<Json>>, includeAll: bool, multi: bool): Template
    requires |a| == |TEMPLATE_PARAMS|
  {
    Template(Given(a[2], JNull), Given(a[0], JNull), Given(a[7], JNull), Given(a[9], JNull), Given(a[5], JNull), Given(a[1], JNull),
      includeAll, multi, Given(a[11], JNull), Given(a[15], JStr(QUERY_TYPE)), Given(a[3], JInt(1)),
      Given(a[8], JArr([])), Given(a[10], JInt(1)), Given(a[12], JInt(1)), Given(a[13], JNull),
      Given(a[14], JNull))
  }

  /** `Template(**kwargs)`: the keywords checked, then the two flags validated. */
  function CallTemplate(m: Object): (r: Result<Template>)
    ensures r.Ok? ==> CheckCall(m, TEMPLATE_PARAMS, TEMPLATE_REQUIRED).Ok?
    ensures r.Err? ==> r.error.TypeError?
  {
    var _ :- CheckCall(m, TEMPLATE_PARAMS, TEMPLATE_REQUIRED);
    var a := Arguments(m, TEMPLATE_PARAMS);
    var includeAll :- BoolArg(a[4], false);
    var multi :- BoolArg(a[6], false);
    Ok(TemplateOf(a, includeAll, multi))
  }

  /** `Template.parse_json_data`: `datasource` renamed, `current` turned into `default`. */
  function DecodeTemplate(data: Json): (r: Result<Template>)
    ensures DictOf(data).Err? ==> r == Err(DictOf(data).error)
    ensures r.Ok? ==> (DictOf(data).Ok? &&
      var m := PopCurrent(TransformDict(DictOf(data).value, Renames(TEMPLATE_WIRE_NAMES, TEMPLATE_RENAMED)));
      m.Ok? && CheckCall(m.value, TEMPLATE_PARAMS, TEMPLATE_REQUIRED).Ok?)
  {
    var d :- DictOf(data);
    var m :- PopCurrent(TransformDict(d, Renames(TEMPLATE_WIRE_NAMES, TEMPLATE_RENAMED)));
    CallTemplate(m)
  }

  /** What a template reads back as: its type is the one written, "query". */
  function CanonTemplate(t: Template): Template {
    t.(kind := JStr(QUERY_TYPE))
  }

  /** The values the constructor receives from a template's own encoding. */
  function TemplateArguments(t: Template): (vals: seq<Json>)
    ensures |vals| == 16
  {
    [t.dataSource, t.allValue, t.default, t.hide, JBool(t.includeAll), t.labelText,
     JBool(t.multi), t.name, t.options, t.query, t.refresh, t.regex, t.sort, t.tagValuesQuery,
     t.tagsQuery, JStr(QUERY_TYPE)]
  }

  lemma TemplateOfValues(t: Template)
    ensures TemplateOf(Somes(TemplateArguments(t)), t.includeAll, t.multi) == CanonTemplate(t)
  {
  }

  /** The dict the constructor receives from a template's own encoding. */
  lemma TemplateReadBack(t: Template)
    ensures PopCurrent(TransformDict(ObjectOf(TEMPLATE_WIRE_NAMES + TEMPLATE_REST, TemplateValues(t)),
      Renames(TEMPLATE_WIRE_NAMES, TEMPLATE_RENAMED))) == Ok(ObjectOf(TEMPLATE_PARAMS, TemplateArguments(t)))
  {
    TemplateRenamed(t);
    TemplatePopped(t);
  }

  lemma TemplateRenamed(t: Template)
    ensures TransformDict(ObjectOf(TEMPLATE_WIRE_NAMES + TEMPLATE_REST, TemplateValues(t)),
      Renames(TEMPLATE_WIRE_NAMES, TEMPLATE_RENAMED)) == ObjectOf(TEMPLATE_RENAMED + TEMPLATE_REST, TemplateValues(t))
  {
    TemplateKeysSeparate();
    RenamesInObject(TEMPLATE_WIRE_NAMES, TEMPLATE_RENAMED, TEMPLATE_REST, TemplateValues(t));
  }

  lemma TemplatePopped(t: Template)
    ensures PopCurrent(ObjectOf(TEMPLATE_RENAMED + TEMPLATE_REST, TemplateValues(t)))
      == Ok(ObjectOf(TEMPLATE_PARAMS, TemplateArguments(t)))
  {
    var vals := TemplateValues(t);
    var keys := TEMPLATE_RENAMED + TEMPLATE_REST;
    TemplateKeysSeparate();
    DistinctConcat(TEMPLATE_RENAMED, TEMPLATE_REST);
    ObjectOfAt(keys, vals, 2);
    ReplaceInObject(keys, vals, 2, "default", t.default);
    assert vals[2 := t.default] == TemplateArguments(t);
  }

  /** A template reads back with type "query" and its default taken from `current.text`. */
  lemma TemplateRoundTrip(t: Template)
    ensures DecodeTemplate(EncodeTemplate(t)) == Ok(CanonTemplate(t))
  {
    var vals := TemplateArguments(t);
    var d := ObjectOf(TEMPLATE_WIRE_NAMES + TEMPLATE_REST, TemplateValues(t));
    var m := ObjectOf(TEMPLATE_PARAMS, vals);
    assert PopCurrent(TransformDict(d, Renames(TEMPLATE_WIRE_NAMES, TEMPLATE_RENAMED))) == Ok(m) by {
      TemplateReadBack(t);
    }
    TemplateCallOfValues(t);
  }

  lemma TemplateCallOfValues(t: Template)
    ensures CallTemplate(ObjectOf(TEMPLATE_PARAMS, TemplateArguments(t))) == Ok(CanonTemplate(t))
  {
    TemplateBind(t);
    CallTemplateOf(ObjectOf(TEMPLATE_PARAMS, TemplateArguments(t)), t);
  }

  lemma CallTemplateOf(m: Object, t: Template)
    requires Arguments(m, TEMPLATE_PARAMS) == Somes(TemplateArguments(t))
    requires CheckCall(m, TEMPLATE_PARAMS, TEMPLATE_REQUIRED) == Ok(())
    ensures CallTemplate(m) == Ok(CanonTemplate(t))
  {
    TemplateFlags(t);
    CallTemplateWith(m, t.includeAll, t.multi);
    TemplateOfValues(t);
  }

  /** The two flags of a template's own encoding pass their validators. */
  lemma TemplateFlags(t: Template)
    ensures BoolArg(Somes(TemplateArguments(t))[4], false) == Ok(t.includeAll)
    ensures BoolArg(Somes(TemplateArguments(t))[6], false) == Ok(t.multi)
  {
    var a := Somes(TemplateArguments(t));
    assert a[4] == Some(JBool(t.includeAll)) && a[6] == Some(JBool(t.multi));
  }

  /** Once the keywords pass and the two flags validate, the constructor builds `TemplateOf`. */
  lemma CallTemplateWith(m: Object, includeAll: bool, multi: bool)
    requires CheckCall(m, TEMPLATE_PARAMS, TEMPLATE_REQUIRED) == Ok(())
    requires BoolArg(Arguments(m, TEMPLATE_PARAMS)[4], false) == Ok(includeAll)
    requires BoolArg(Arguments(m, TEMPLATE_PARAMS)[6], false) == Ok(multi)
    ensures CallTemplate(m) == Ok(TemplateOf(Arguments(m, TEMPLATE_PARAMS), includeAll, multi))
  {
  }

  lemma TemplateBind(t: Template)
    ensures Arguments(ObjectOf(TEMPLATE_PARAMS, TemplateArguments(t)), TEMPLATE_PARAMS) == Somes(TemplateArguments(t))
    ensures CheckCall(ObjectOf(TEMPLATE_PARAMS, TemplateArguments(t)), TEMPLATE_PARAMS, TEMPLATE_REQUIRED) == Ok(())
  {
    TemplateKeysSeparate();
    BindAll(TEMPLATE_PARAMS, TemplateArguments(t), TEMPLATE_REQUIRED);
  }

  /** Re-encoding a template that was read back writes the same JSON. */
  lemma TemplateStable(t: Template)
    ensures EncodeTemplate(CanonTemplate(t)) == EncodeTemplate(t)
  {
    assert TemplateValues(CanonTemplate(t)) == TemplateValues(t);
  }

  /**
   * Where the default comes from: `current.text` when it is there, else
   * `current.value`; a `current` with neither leaves the required
   * `default` missing unless it is passed on its own.
   */
  lemma DefaultFromCurrent(m: Object, current: map<string, Json>)
    requires "current" in m && m["current"] == JObj(current)
    ensures "text" in current ==> PopCurrent(m).Ok? && PopCurrent(m).value["default"] == current["text"]
    ensures "text" !in current && "value" in current ==>
      PopCurrent(m).Ok? && PopCurrent(m).value["default"] == current["value"]
    ensures "text" !in current && "value" !in current ==>
      PopCurrent(m).Ok? && ("default" in PopCurrent(m).value <==> "default" in m)
    ensures PopCurrent(m).Ok? && "current" !in PopCurrent(m).value
  {
  }
}
