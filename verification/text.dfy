/**
 * `Text`, the text panel: its content shown as markdown (or another
 * mode), with `datasource` renamed on the wire and its links decoded by a
 * rule of their own.
 */
module TextPanel {
  import opened Wire
  import opened Objects
  import opened Transform
  import opened Records
  import opened Links

  const TEXT_TYPE := "text"
  const TEXT_MODE_MARKDOWN := "markdown"

  /**
   * A text panel. `id` and `span` are the whole numbers (or `None`) that
   * rows and dashboards compute with; `kind` is its `type` attribute.
   */
  datatype Text = Text(
    content: Json, editable: bool, error: bool, height: Json, id: Option<int>, links: seq<DashboardLink>,
    mode: Json, span: Option<int>, title: Json, transparent: bool, dataSource: Json, style: Json,
    isNew: Json, kind: Json)

  const TEXT_WIRE_NAMES: seq<string> := ["datasource"]
  const TEXT_RENAMED: seq<string> := ["dataSource"]

  const TEXT_HEAD: seq<string> := ["content", "editable", "error", "height", "id", "links"]
  const TEXT_TAIL: seq<string> := ["mode", "span", "title", "transparent", "style", "isNew", "type"]

  /** The keys written under their own names; `links` is the one at index 5. */
  const TEXT_REST: seq<string> := TEXT_HEAD + TEXT_TAIL

  /** The constructor's parameters: the keys read back, `dataSource` first. */
  const TEXT_PARAMS: seq<string> := ["dataSource", "content", "editable", "error", "height", "id", "links",
    "mode", "span", "title", "transparent", "style", "isNew", "type"]

  /** The one argument without a default. */
  const TEXT_REQUIRED: set<string> := {"content"}

  /** The attributes with an `instance_of(bool)` validator. */
  const TEXT_FLAGS: set<string> := {"editable", "error", "transparent"}

  lemma TextKeysSeparate()
    ensures Separate(TEXT_WIRE_NAMES, TEXT_RENAMED, TEXT_REST)
    ensures TEXT_RENAMED + TEXT_REST == TEXT_PARAMS && TEXT_REST[5] == "links"
  {
    DistinctConcat(TEXT_HEAD, TEXT_TAIL);
    assert TEXT_RENAMED + TEXT_REST == TEXT_PARAMS;
  }

  function TextValues(t: Text): (vals: seq<Json>)
    ensures |vals| == 14
  {
    [t.dataSource, t.content, JBool(t.editable), JBool(t.error), t.height, OptIntJson(t.id), EncodeLinks(t.links),
     t.mode, OptIntJson(t.span), t.title, JBool(t.transparent), t.style, t.isNew, JStr(TEXT_TYPE)]
  }

  /** `Text.to_json_data`: the type written is always "text". */
  function EncodeText(t: Text): (e: Json)
    ensures WritesKeys(e, TEXT_WIRE_NAMES + TEXT_REST)
  {
    ObjectOfWrites(TEXT_WIRE_NAMES + TEXT_REST, TextValues(t));
    JObj(ObjectOf(TEXT_WIRE_NAMES + TEXT_REST, TextValues(t)))
  }

  /** The `links` rule: the links passed, decoded, or `None` when there are none. */
  function TextLinksRule(d: Object): (r: Result<Option<seq<DashboardLink>>>)
    ensures r.Ok? ==> (r.value.Some? <==> "links" in d)
    ensures "links" in d ==> (r.Ok? <==> DecodeLinks(d["links"]).Ok?)
  {
    Present(Arguments(d, ["links"])[0], DecodeLinks)
  }

  /** The text panel the arguments build once the validators passed. */
  function TextOf(a: seq<Option<Json>>, editable: bool, error: bool, id: Option<int>, span: Option<int>,
                  transparent: bool, links: Option<seq<DashboardLink>>): Text
    requires |a| == |TEXT_PARAMS|
  {
    Text(Given(a[1], JNull), editable, error, Given(a[4], JNull), id, if links.Some? then links.value else [],
      Given(a[7], JStr(TEXT_MODE_MARKDOWN)), span, Given(a[9], JStr("")), transparent, Given(a[0], JNull),
      Given(a[11], JNull), Given(a[12], JNull), Given(a[13], JStr(TEXT_TYPE)))
  }

  /** A `bool` attribute passed as a `bool`, or not passed. */
  predicate FlagPassed(m: Object, k: string) {
    k in m ==> m[k].JBool?
  }

  /** An `id` or `span` passed as a whole number or `None`, or not passed. */
  predicate WholePassed(m: Object, k: string) {
    k in m ==> m[k].JNull? || m[k].JInt?
  }

  /**
   * `Text(**new_data)`: the keywords are checked, then the `bool`
   * validators run in attribute order. `id` and `span` must be whole
   * numbers or `None`.
   */
  function CallText(m: Object, links: Option<seq<DashboardLink>>): (r: Result<Text>)
    ensures r.Ok? ==> CheckCall(m, TEXT_PARAMS, TEXT_REQUIRED).Ok? && r.value.content == m["content"]
    ensures r.Ok? ==> r.value.links == (if links.Some? then links.value else [])
    ensures r.Err? ==> r.error.TypeError?
  {
    var _ :- CheckCall(m, TEXT_PARAMS, TEXT_REQUIRED);
    var a := Arguments(m, TEXT_PARAMS);
    var editable :- BoolArg(a[2], true);
    var error :- BoolArg(a[3], false);
    var id :- OptIntArg(a[5], None);
    var span :- OptIntArg(a[8], None);
    var transparent :- BoolArg(a[10], false);
    Ok(TextOf(a, editable, error, id, span, transparent, links))
  }

  /**
   * Which keywords the constructor accepts: exactly those the keyword
   * check lets through whose flags are `bool`s and whose `id` and `span`
   * are whole numbers or `None`.
   */
  lemma CallTextAccepts(m: Object, links: Option<seq<DashboardLink>>)
    ensures CallText(m, links).Ok? <==> (CheckCall(m, TEXT_PARAMS, TEXT_REQUIRED).Ok? &&
      FlagPassed(m, "editable") && FlagPassed(m, "error") && WholePassed(m, "id") && WholePassed(m, "span") &&
      FlagPassed(m, "transparent"))
  {
    var a := Arguments(m, TEXT_PARAMS);
    assert TEXT_PARAMS[2] == "editable" && TEXT_PARAMS[3] == "error" && TEXT_PARAMS[5] == "id";
    assert TEXT_PARAMS[8] == "span" && TEXT_PARAMS[10] == "transparent";
  }

  /**
   * `Text.parse_json_data`: `datasource` renamed and `links` decoded, then
   * the constructor call. The two rules name different keys, so the links
   * are read from the data as passed.
   */
  function DecodeText(data: Json): (r: Result<Text>)
    ensures r.Ok? ==> DictOf(data).Ok? && "content" in DictOf(data).value && r.value.content == DictOf(data).value["content"]
  {
    var d :- DictOf(data);
    var links :- TextLinksRule(d);
    var m := TransformDict(d, Renames(TEXT_WIRE_NAMES, TEXT_RENAMED));
    TextContentKept(d);
    CallText(m, links)
  }

  /** The renaming leaves `content` where it is. */
  lemma TextContentKept(d: Object)
    ensures "content" in TransformDict(d, Renames(TEXT_WIRE_NAMES, TEXT_RENAMED)) <==> "content" in d
    ensures "content" in d ==> TransformDict(d, Renames(TEXT_WIRE_NAMES, TEXT_RENAMED))["content"] == d["content"]
  {
    TransformDictUntouched(d, Renames(TEXT_WIRE_NAMES, TEXT_RENAMED), "content");
  }

  // ---------------------------------------------------------------------
  // The round trip
  // ---------------------------------------------------------------------

  /** What a text panel reads back as: its links as their decoder gives them back, its type "text". */
  function CanonText(t: Text): Text {
    t.(links := Map(CanonLink, t.links), kind := JStr(TEXT_TYPE))
  }

  /** The arguments a text panel's renamed encoding passes, in parameter order. */
  lemma TextBind(t: Text)
    ensures Arguments(ObjectOf(TEXT_PARAMS, TextValues(t)), TEXT_PARAMS) == Somes(TextValues(t))
    ensures CheckCall(ObjectOf(TEXT_PARAMS, TextValues(t)), TEXT_PARAMS, TEXT_REQUIRED) == Ok(())
  {
    TextKeysSeparate();
    BindRenamed(TEXT_WIRE_NAMES, TEXT_RENAMED, TEXT_REST, TextValues(t), TEXT_REQUIRED);
  }

  /** The constructor call on any keywords binding a text panel's values builds the panel back. */
  lemma CallTextOf(m: Object, t: Text)
    requires Arguments(m, TEXT_PARAMS) == Somes(TextValues(t))
    requires CheckCall(m, TEXT_PARAMS, TEXT_REQUIRED) == Ok(())
    ensures CallText(m, Some(Map(CanonLink, t.links))) == Ok(CanonText(t))
  {
    var a := Somes(TextValues(t));
    assert BoolArg(a[2], true) == Ok(t.editable) && BoolArg(a[3], false) == Ok(t.error);
    assert OptIntArg(a[5], None) == Ok(t.id) && OptIntArg(a[8], None) == Ok(t.span);
    assert BoolArg(a[10], false) == Ok(t.transparent);
    assert TextOf(a, t.editable, t.error, t.id, t.span, t.transparent, Some(Map(CanonLink, t.links))) == CanonText(t);
  }

  /**
   * A text panel reads back with its links as their decoder gives them
   * back and its type set to "text"; everything else is unchanged.
   */
  lemma TextRoundTrip(t: Text)
    ensures DecodeText(EncodeText(t)) == Ok(CanonText(t))
  {
    var d := ObjectOf(TEXT_WIRE_NAMES + TEXT_REST, TextValues(t));
    var m := ObjectOf(TEXT_PARAMS, TextValues(t));
    TextRenamed(t);
    TextLinksOfEncoding(t);
    TextBind(t);
    CallTextOf(m, t);
    DecodeTextSteps(d, Some(Map(CanonLink, t.links)), m, CanonText(t));
  }

  /** The renaming turns the written names of a text panel's encoding into its parameters. */
  lemma TextRenamed(t: Text)
    ensures TransformDict(ObjectOf(TEXT_WIRE_NAMES + TEXT_REST, TextValues(t)), Renames(TEXT_WIRE_NAMES, TEXT_RENAMED))
      == ObjectOf(TEXT_PARAMS, TextValues(t))
  {
    TextKeysSeparate();
    RenamesInObject(TEXT_WIRE_NAMES, TEXT_RENAMED, TEXT_REST, TextValues(t));
  }

  /** The `links` rule reads a text panel's links back. */
  lemma TextLinksOfEncoding(t: Text)
    ensures TextLinksRule(ObjectOf(TEXT_WIRE_NAMES + TEXT_REST, TextValues(t))) == Ok(Some(Map(CanonLink, t.links)))
  {
    TextKeysSeparate();
    DistinctConcat(TEXT_WIRE_NAMES, TEXT_REST);
    ObjectOfAt(TEXT_WIRE_NAMES + TEXT_REST, TextValues(t), 6);
    LinksRoundTrip(t.links);
  }

  /** The decoder's three steps: the `links` rule, the renaming and the constructor call. */
  lemma DecodeTextSteps(d: Object, links: Option<seq<DashboardLink>>, m: Object, v: Text)
    requires TextLinksRule(d) == Ok(links)
    requires TransformDict(d, Renames(TEXT_WIRE_NAMES, TEXT_RENAMED)) == m
    requires CallText(m, links) == Ok(v)
    ensures DecodeText(JObj(d)) == Ok(v)
  {
  }

  /** The encoding always carries the tag "text" under `type`, whatever `kind` holds. */
  lemma TextTags(t: Text)
    ensures "type" in EncodeText(t).fields && EncodeText(t).fields["type"] == JStr(TEXT_TYPE)
  {
    TextKeysSeparate();
    ObjectOfAt(TEXT_WIRE_NAMES + TEXT_REST, TextValues(t), 13);
  }

  /** What a text panel reads back as encodes exactly as the panel itself. */
  lemma TextStable(t: Text)
    ensures EncodeText(CanonText(t)) == EncodeText(t)
  {
    LinksStable(t.links);
    assert TextValues(CanonText(t)) == TextValues(t);
  }

  /** Links that do not decode stop the decoder with their own error. */
  lemma TextRejectsBadLinks(d: Object)
    requires "links" in d && DecodeLinks(d["links"]).Err?
    ensures DecodeText(JObj(d)) == Err(DecodeLinks(d["links"]).error)
  {
  }
}
