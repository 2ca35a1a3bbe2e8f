/**
 * The four panel classes as one type, `PANEL_TYPES`, and `parse_object`
 * over it: a row's panels are decoded by the tag each carries.
 */
module Panels {
  import opened Wire
  import opened Objects
  import opened Dispatch
  import opened GraphPanel
  import opened TextPanel
  import opened StatPanel
  import opened TablePanel

  datatype Panel = GraphPanel(graph: Graph) | TextPanel(text: Text) | StatPanel(stat: SingleStat) | TablePanel(table: Table)

  function EncodePanel(p: Panel): Json {
    match p
    case GraphPanel(g) => EncodeGraph(g)
    case TextPanel(t) => EncodeText(t)
    case StatPanel(s) => EncodeStat(s)
    case TablePanel(t) => EncodeTable(t)
  }

  function GraphAsPanel(data: Json): Result<Panel> {
    var g :- DecodeGraph(data);
    Ok(GraphPanel(g))
  }

  function TextAsPanel(data: Json): Result<Panel> {
    var t :- DecodeText(data);
    Ok(TextPanel(t))
  }

  function StatAsPanel(data: Json): Result<Panel> {
    var s :- DecodeStat(data);
    Ok(StatPanel(s))
  }

  function TableAsPanel(data: Json): Result<Panel> {
    var t :- DecodeTable(data);
    Ok(TablePanel(t))
  }

  /** `PANEL_TYPES`. */
  const PANEL_TYPES: map<string, Json -> Result<Panel>> :=
    map[GRAPH_TYPE := GraphAsPanel, TEXT_TYPE := TextAsPanel, SINGLESTAT_TYPE := StatAsPanel, TABLE_TYPE := TableAsPanel]

  /** The tag each kind of panel is registered under. */
  function PanelTag(p: Panel): string {
    match p
    case GraphPanel(_) => GRAPH_TYPE
    case TextPanel(_) => TEXT_TYPE
    case StatPanel(_) => SINGLESTAT_TYPE
    case TablePanel(_) => TABLE_TYPE
  }

  /**
   * `parse_object(panel, PANEL_TYPES)`: an object tagged with one of the
   * four panel types goes to that panel's decoder; a missing or other tag
   * is rejected, and so is anything that is not an object.
   */
  function ParsePanel(data: Json): (r: Result<Panel>)
    ensures !data.JObj? ==> r.Err?
  {
    ParseObject(data, PANEL_TYPES)
  }

  /** An object tagged with a panel type is decoded by that panel's decoder, a `KeyError` turned into an unknown type. */
  lemma ParsePanelTagged(data: Json, p: Panel)
    requires data.JObj? && TypeTag(data.fields) == JStr(PanelTag(p))
    ensures ParsePanel(data) == Caught(PANEL_TYPES[PanelTag(p)](data), JStr(PanelTag(p)))
  {
  }

  /** A panel missing its tag, or carrying another one, is rejected as of an unknown type. */
  lemma ParsePanelUnknown(data: Json)
    requires data.JObj?
    requires "type" !in data.fields ||
      (data.fields["type"].JStr? && data.fields["type"].s !in {GRAPH_TYPE, TEXT_TYPE, SINGLESTAT_TYPE, TABLE_TYPE})
    ensures ParsePanel(data) == Err(ParseJsonException(TypeTag(data.fields)))
  {
    ParseUntagged(data.fields, PANEL_TYPES);
  }

  /** What each panel needs to read back. */
  predicate PanelReadable(p: Panel) {
    match p
    case GraphPanel(g) => GraphReadable(g)
    case TextPanel(_) => true
    case StatPanel(s) => StatReadable(s)
    case TablePanel(t) => TableReadable(t)
  }

  /** What each panel reads back as. */
  function CanonPanel(p: Panel): (q: Panel)
    ensures PanelTag(q) == PanelTag(p) && PanelId(q) == PanelId(p) && PanelSpan(q) == PanelSpan(p)
  {
    match p
    case GraphPanel(g) => GraphPanel(CanonGraph(g))
    case TextPanel(t) => TextPanel(CanonText(t))
    case StatPanel(s) => StatPanel(CanonStat(s))
    case TablePanel(t) => TablePanel(CanonTable(t))
  }

  /** Each panel encoder writes the tag its class is registered under, whatever the stored `type`. */
  lemma PanelTags(p: Panel)
    ensures EncodePanel(p).JObj? && "type" in EncodePanel(p).fields
    ensures EncodePanel(p).fields["type"] == JStr(PanelTag(p)) && PanelTag(p) in PANEL_TYPES
  {
    match p
    case GraphPanel(g) => GraphTags(g);
    case TextPanel(t) => TextTags(t);
    case StatPanel(s) => StatTags(s);
    case TablePanel(t) => TableTags(t);
  }

  /**
   * A readable panel of any of the four kinds is handed by its tag to its
   * own decoder and reads back as that decoder gives it back.
   */
  lemma PanelRoundTrip(p: Panel)
    requires PanelReadable(p)
    ensures ParsePanel(EncodePanel(p)) == Ok(CanonPanel(p))
  {
    match p
    case GraphPanel(g) => GraphPanelRoundTrip(g);
    case TextPanel(t) => TextPanelRoundTrip(t);
    case StatPanel(s) => StatPanelRoundTrip(s);
    case TablePanel(t) => TablePanelRoundTrip(t);
  }

  /** A graph is written as an object tagged `graph`, which `PANEL_TYPES` registers. */
  lemma GraphTagged(g: Graph)
    ensures EncodeGraph(g).JObj? && "type" in EncodeGraph(g).fields
    ensures EncodeGraph(g).fields["type"] == JStr(GRAPH_TYPE) && GRAPH_TYPE in PANEL_TYPES
  {
    GraphTags(g);
  }

  /** An object tagged `graph` that the graph decoder reads is read by `parse_object` the same way. */
  lemma GraphPanelOf(e: Json, c: Graph)
    requires e.JObj? && "type" in e.fields && e.fields["type"] == JStr(GRAPH_TYPE)
    requires GraphAsPanel(e) == Ok(GraphPanel(c))
    ensures ParsePanel(e) == Ok(GraphPanel(c))
  {
    assert PANEL_TYPES[GRAPH_TYPE] == GraphAsPanel;
    ParsePanelOfTag(e, GRAPH_TYPE, GraphPanel(c));
  }

  /** The decoder registered for graphs reads a readable graph back. */
  lemma GraphAsPanelRoundTrip(g: Graph)
    requires GraphReadable(g)
    ensures GraphAsPanel(EncodeGraph(g)) == Ok(GraphPanel(CanonGraph(g)))
  {
    GraphRoundTrip(g);
  }

  /** An object carrying a panel type's tag reads back as that type's decoder reads it. */
  lemma ParsePanelOfTag(data: Json, tag: string, p: Panel)
    requires data.JObj? && "type" in data.fields && data.fields["type"] == JStr(tag)
    requires tag in PANEL_TYPES && PANEL_TYPES[tag](data) == Ok(p)
    ensures ParsePanel(data) == Ok(p)
  {
    ParseTagged(data.fields, tag, PANEL_TYPES, p);
  }

  lemma GraphPanelRoundTrip(g: Graph)
    requires GraphReadable(g)
    ensures ParsePanel(EncodeGraph(g)) == Ok(GraphPanel(CanonGraph(g)))
  {
    GraphTagged(g);
    GraphAsPanelRoundTrip(g);
    GraphPanelOf(EncodeGraph(g), CanonGraph(g));
  }

  lemma TextPanelRoundTrip(t: Text)
    ensures ParsePanel(EncodeText(t)) == Ok(TextPanel(CanonText(t)))
  {
    TextTags(t);
    TextRoundTrip(t);
    assert PANEL_TYPES[TEXT_TYPE](EncodeText(t)) == Ok(TextPanel(CanonText(t)));
    ParseTagged(EncodeText(t).fields, TEXT_TYPE, PANEL_TYPES, TextPanel(CanonText(t)));
  }

  lemma StatPanelRoundTrip(s: SingleStat)
    requires StatReadable(s)
    ensures ParsePanel(EncodeStat(s)) == Ok(StatPanel(CanonStat(s)))
  {
    StatTags(s);
    StatRoundTrip(s);
    assert PANEL_TYPES[SINGLESTAT_TYPE](EncodeStat(s)) == Ok(StatPanel(CanonStat(s)));
    ParseTagged(EncodeStat(s).fields, SINGLESTAT_TYPE, PANEL_TYPES, StatPanel(CanonStat(s)));
  }

  lemma TablePanelRoundTrip(t: Table)
    requires TableReadable(t)
    ensures ParsePanel(EncodeTable(t)) == Ok(TablePanel(CanonTable(t)))
  {
    TableTags(t);
    TableRoundTrip(t);
    assert PANEL_TYPES[TABLE_TYPE](EncodeTable(t)) == Ok(TablePanel(CanonTable(t)));
    ParseTagged(EncodeTable(t).fields, TABLE_TYPE, PANEL_TYPES, TablePanel(CanonTable(t)));
  }

  /** What a panel reads back as encodes exactly as the panel itself. */
  lemma PanelStable(p: Panel)
    ensures EncodePanel(CanonPanel(p)) == EncodePanel(p)
  {
    match p
    case GraphPanel(g) => GraphStable(g);
    case TextPanel(t) => TextStable(t);
    case StatPanel(s) => StatStable(s);
    case TablePanel(t) => TableStable(t);
  }

  // ---------------------------------------------------------------------
  // The `id` and `span` every panel has
  // ---------------------------------------------------------------------

  function PanelId(p: Panel): Option<int> {
    match p
    case GraphPanel(g) => g.id
    case TextPanel(t) => t.id
    case StatPanel(s) => s.id
    case TablePanel(t) => t.id
  }

  function PanelSpan(p: Panel): Option<int> {
    match p
    case GraphPanel(g) => g.span
    case TextPanel(t) => t.span
    case StatPanel(s) => s.span
    case TablePanel(t) => t.span
  }

  /** `attr.assoc(panel, id=i)`: the same panel with its `id` replaced. */
  function WithId(p: Panel, i: Option<int>): (q: Panel)
    ensures PanelId(q) == i && PanelSpan(q) == PanelSpan(p) && PanelTag(q) == PanelTag(p)
  {
    match p
    case GraphPanel(g) => GraphPanel(g.(id := i))
    case TextPanel(t) => TextPanel(t.(id := i))
    case StatPanel(s) => StatPanel(s.(id := i))
    case TablePanel(t) => TablePanel(t.(id := i))
  }

  /** `attr.assoc(panel, span=n)`: the same panel with its `span` replaced. */
  function WithSpan(p: Panel, n: Option<int>): (q: Panel)
    ensures PanelSpan(q) == n && PanelId(q) == PanelId(p) && PanelTag(q) == PanelTag(p)
  {
    match p
    case GraphPanel(g) => GraphPanel(g.(span := n))
    case TextPanel(t) => TextPanel(t.(span := n))
    case StatPanel(s) => StatPanel(s.(span := n))
    case TablePanel(t) => TablePanel(t.(span := n))
  }
}
