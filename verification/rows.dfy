/**
 * `Row`: a horizontal band of panels. Its constructor spreads the width
 * left over by the panels whose `span` is set evenly across the panels
 * whose `span` is not (`_balance_panels`); its encoder derives the title
 * shown; its decoder reads the panels by their tags.
 */
module Rows {
  import opened Wire
  import opened Objects
  import opened Records
  import opened Codecs
  import opened Panels

  /** The width of a row, in grid columns. */
  const TOTAL_SPAN := 12
  const DEFAULT_ROW_HEIGHT := Pixels(250)
  const DEFAULT_ROW_TITLE := "New row"

  // ---------------------------------------------------------------------
  // _balance_panels
  // ---------------------------------------------------------------------

  /** `math.ceil(a / b)` for a positive `b`: the least multiple of `b`, divided by `b`, that is at least `a`. */
  function CeilDiv(a: int, b: int): (q: int)
    requires b > 0
    ensures (q - 1) * b < a <= q * b
  {
    var k := (-a) / b;
    assert b * k <= -a < b * k + b;
    -k
  }

  /** The spans of a row's panels, in order. */
  function Spans(ps: seq<Panel>): (spans: seq<Option<int>>)
    ensures |spans| == |ps| && forall i | 0 <= i < |ps| :: spans[i] == PanelSpan(ps[i])
  {
    Map(PanelSpan, ps)
  }

  /** `sum(panel.span if panel.span else 0 for panel in panels)`: an unset or zero span counts 0. */
  function AllottedSpans(spans: seq<Option<int>>): int {
    if spans == [] then 0
    else (if spans[0].Some? then spans[0].value else 0) + AllottedSpans(spans[1..])
  }

  /** `len([panel for panel in panels if panel.span is None])`. */
  function UnsetSpans(spans: seq<Option<int>>): (n: nat)
    ensures n <= |spans|
    ensures n == 0 <==> forall i | 0 <= i < |spans| :: spans[i].Some?
  {
    if spans == [] then 0
    else (if spans[0].None? then 1 else 0) + UnsetSpans(spans[1..])
  }

  /** `math.ceil((TOTAL_SPAN - allotted_spans) / (len(no_span_set) or 1))`, not clamped to be positive. */
  function AutoSpan(spans: seq<Option<int>>): int {
    CeilDiv(TOTAL_SPAN - AllottedSpans(spans), if UnsetSpans(spans) == 0 then 1 else UnsetSpans(spans))
  }

  /** Spans that are all unset allot nothing; set ones that are not negative allot a total that is not negative. */
  lemma {:induction false} AllottedBounds(spans: seq<Option<int>>)
    ensures UnsetSpans(spans) == |spans| ==> AllottedSpans(spans) == 0
    ensures (forall i | 0 <= i < |spans| :: spans[i].None? || spans[i].value >= 0) ==> AllottedSpans(spans) >= 0
  {
    if spans != [] {
      AllottedBounds(spans[1..]);
      assert forall i | 0 <= i < |spans[1..]| :: spans[1..][i] == spans[i + 1];
    }
  }

  /**
   * The automatic span shares the room left among the unset spans,
   * rounding up; with none unset it is the room left itself (the divisor
   * `len(no_span_set) or 1`).
   */
  lemma AutoSpanShares(spans: seq<Option<int>>)
    ensures UnsetSpans(spans) == 0 ==> AutoSpan(spans) == TOTAL_SPAN - AllottedSpans(spans)
    ensures UnsetSpans(spans) > 0 ==>
      (AutoSpan(spans) - 1) * UnsetSpans(spans) < TOTAL_SPAN - AllottedSpans(spans) <= AutoSpan(spans) * UnsetSpans(spans)
  {
  }

  /** The spans after balancing: each unset one becomes `auto`. */
  function FilledSpans(spans: seq<Option<int>>, auto: int): (r: seq<Option<int>>)
    ensures |r| == |spans|
    ensures forall i | 0 <= i < |spans| :: r[i] == if spans[i].None? then Some(auto) else spans[i]
  {
    if spans == [] then [] else [if spans[0].None? then Some(auto) else spans[0]] + FilledSpans(spans[1..], auto)
  }

  /** One panel of the comprehension: an unset span becomes `auto`, any other panel stays. */
  function FillSpan(p: Panel, auto: int): (q: Panel)
    ensures PanelSpan(p).Some? ==> q == p
    ensures PanelSpan(p).None? ==> PanelSpan(q) == Some(auto) && q == WithSpan(p, Some(auto))
  {
    if PanelSpan(p).None? then WithSpan(p, Some(auto)) else p
  }

  /**
   * `_balance_panels`: the same panels in the same order; a panel whose
   * span is set is unchanged, and every other panel gets the automatic
   * span and keeps all else.
   */
  function BalancePanels(ps: seq<Panel>): (r: seq<Panel>)
    ensures |r| == |ps|
    ensures forall i | 0 <= i < |ps| :: PanelSpan(ps[i]).Some? ==> r[i] == ps[i]
    ensures forall i | 0 <= i < |ps| :: PanelSpan(ps[i]).None? ==>
      PanelSpan(r[i]) == Some(AutoSpan(Spans(ps))) && r[i] == WithSpan(ps[i], PanelSpan(r[i]))
    ensures forall i | 0 <= i < |ps| :: PanelTag(r[i]) == PanelTag(ps[i]) && PanelId(r[i]) == PanelId(ps[i])
    ensures Spans(r) == FilledSpans(Spans(ps), AutoSpan(Spans(ps)))
  {
    var auto := AutoSpan(Spans(ps));
    Map(p => FillSpan(p, auto), ps)
  }

  /** A row's panels once balanced: every span is set. */
  predicate SpansSet(ps: seq<Panel>) {
    forall i | 0 <= i < |ps| :: PanelSpan(ps[i]).Some?
  }

  /** Balancing leaves no span unset. */
  lemma BalanceSetsSpans(ps: seq<Panel>)
    ensures SpansSet(BalancePanels(ps))
  {
  }

  /** Balancing panels whose spans are all set changes nothing, so balancing twice is balancing once. */
  lemma BalanceIdempotent(ps: seq<Panel>)
    ensures SpansSet(ps) ==> BalancePanels(ps) == ps
    ensures BalancePanels(BalancePanels(ps)) == BalancePanels(ps)
  {
    var r := BalancePanels(ps);
    assert SpansSet(r);
    assert BalancePanels(r) == r;
  }

  /** Filling the unset spans with `auto` adds `auto` once per span filled to the spans allotted. */
  lemma {:induction false} FilledAllotted(spans: seq<Option<int>>, auto: int)
    ensures AllottedSpans(FilledSpans(spans, auto)) == AllottedSpans(spans) + UnsetSpans(spans) * auto
  {
    if spans != [] {
      FilledAllotted(spans[1..], auto);
      var r := FilledSpans(spans, auto);
      assert r[1..] == FilledSpans(spans[1..], auto);
      var u := UnsetSpans(spans[1..]);
      var a := AllottedSpans(spans[1..]);
      assert AllottedSpans(r[1..]) == a + u * auto;
      if spans[0].None? {
        assert AllottedSpans(r) == auto + AllottedSpans(r[1..]);
        assert UnsetSpans(spans) == 1 + u && AllottedSpans(spans) == a;
        OneMore(u, auto);
      } else {
        assert AllottedSpans(r) == spans[0].value + AllottedSpans(r[1..]);
        assert UnsetSpans(spans) == u && AllottedSpans(spans) == spans[0].value + a;
      }
    }
  }

  lemma OneMore(u: int, x: int)
    ensures (1 + u) * x == x + u * x
  {
  }

  lemma OneLess(q: int, b: int)
    ensures (q - 1) * b == b * q - b && q * b == b * q
  {
  }

  /**
   * When some span is unset, the balanced spans add up to at least the
   * row's width and overshoot it by less than one column per panel filled.
   */
  lemma BalanceFillsRow(ps: seq<Panel>)
    requires UnsetSpans(Spans(ps)) > 0
    ensures TOTAL_SPAN <= AllottedSpans(Spans(BalancePanels(ps))) < TOTAL_SPAN + UnsetSpans(Spans(ps))
  {
    FilledFillsRow(Spans(ps));
  }

  lemma FilledFillsRow(spans: seq<Option<int>>)
    requires UnsetSpans(spans) > 0
    ensures TOTAL_SPAN <= AllottedSpans(FilledSpans(spans, AutoSpan(spans))) < TOTAL_SPAN + UnsetSpans(spans)
  {
    var auto := AutoSpan(spans);
    var n := UnsetSpans(spans);
    var a := AllottedSpans(spans);
    FilledAllotted(spans, auto);
    assert (auto - 1) * n < TOTAL_SPAN - a <= auto * n;
    OneLess(auto, n);
  }

  /** Three panels without spans get 4 columns each. */
  lemma BalanceThreeUnset(ps: seq<Panel>)
    requires |ps| == 3 && forall i | 0 <= i < 3 :: PanelSpan(ps[i]).None?
    ensures forall i | 0 <= i < 3 :: PanelSpan(BalancePanels(ps)[i]) == Some(4)
  {
    var spans := Spans(ps);
    assert spans == [None, None, None];
    assert AutoSpan([None, None, None]) == 4;
  }

  /** A panel of span 6 followed by two without: the two get 3 columns each. */
  lemma BalanceHalfSet(ps: seq<Panel>)
    requires |ps| == 3 && PanelSpan(ps[0]) == Some(6) && PanelSpan(ps[1]).None? && PanelSpan(ps[2]).None?
    ensures BalancePanels(ps)[0] == ps[0]
    ensures PanelSpan(BalancePanels(ps)[1]) == Some(3) && PanelSpan(BalancePanels(ps)[2]) == Some(3)
  {
    var spans := Spans(ps);
    assert spans == [Some(6), None, None];
    assert AutoSpan([Some(6), None, None]) == 3;
  }

  /** The width is not clamped: two panels of span 10 leave -8 columns for a third. */
  lemma BalanceOverfull(ps: seq<Panel>)
    requires |ps| == 3 && PanelSpan(ps[0]) == Some(10) && PanelSpan(ps[1]) == Some(10) && PanelSpan(ps[2]).None?
    ensures PanelSpan(BalancePanels(ps)[2]) == Some(-8)
  {
    var spans := Spans(ps);
    assert spans == [Some(10), Some(10), None];
    assert AutoSpan([Some(10), Some(10), None]) == -8;
  }

  // ---------------------------------------------------------------------
  // Row
  // ---------------------------------------------------------------------

  /**
   * A row. `showTitle`, `title` and the `repeat` settings are passed
   * through unchecked; `height` must be a `Pixels`.
   */
  datatype Row = Row(
    panels: seq<Panel>, collapse: bool, editable: bool, height: Pixels, showTitle: Json, title: Json,
    repeat: Json, repeatIteration: Json, repeatRowId: Json, titleSize: Json)

  /** The keys written, which are also the constructor's parameters. */
  const ROW_KEYS: seq<string> := ["collapse", "editable", "height", "panels", "showTitle", "title", "repeat",
    "repeatIteration", "repeatRowId", "titleSize"]

  /** The keys the decoder converts, in rule order. */
  const ROW_CONVERTED: seq<string> := ["panels", "height"]

  /**
   * `Row(...)`: the `panels` converter balances the panels given; the
   * other attributes are stored as given.
   */
  function NewRow(panels: seq<Panel>, collapse: bool, editable: bool, height: Pixels, showTitle: Json, title: Json,
                  repeat: Json, repeatIteration: Json, repeatRowId: Json, titleSize: Json): (r: Row)
    ensures SpansSet(r.panels) && r.panels == BalancePanels(panels)
  {
    BalanceSetsSpans(panels);
    Row(BalancePanels(panels), collapse, editable, height, showTitle, title, repeat, repeatIteration, repeatRowId,
      titleSize)
  }

  /** The `showTitle` written: the stored one when set, otherwise whether a title is set. */
  function ShowTitleJson(r: Row): Json {
    if !r.showTitle.JNull? then r.showTitle else JBool(!r.title.JNull?)
  }

  /** The `title` written: the stored one when set, otherwise "New row". */
  function TitleJson(r: Row): Json {
    if !r.title.JNull? then r.title else JStr(DEFAULT_ROW_TITLE)
  }

  /** The values written for a row, `panels` being what its panels encode to. */
  function RowValues(r: Row, panels: Json): (vals: seq<Json>)
    ensures |vals| == |ROW_KEYS|
  {
    [JBool(r.collapse), JBool(r.editable), EncodePixels(r.height), panels, ShowTitleJson(r), TitleJson(r), r.repeat,
     r.repeatIteration, r.repeatRowId, r.titleSize]
  }

  /** A list of panels, as a row writes it. */
  function EncodePanels(ps: seq<Panel>): Json {
    JArr(Map(EncodePanel, ps))
  }

  /** `Row.to_json_data`. */
  function EncodeRow(r: Row): (e: Json)
    ensures WritesKeys(e, ROW_KEYS)
  {
    ObjectOfWrites(ROW_KEYS, RowValues(r, EncodePanels(r.panels)));
    JObj(ObjectOf(ROW_KEYS, RowValues(r, EncodePanels(r.panels))))
  }

  /** `foreach(lambda pnl: parse_object(pnl, PANEL_TYPES))`. */
  function DecodePanels(data: Json): Result<seq<Panel>> {
    Foreach(ParsePanel, data)
  }

  /** What the two rules produce: the panels decoded and the height parsed, each when passed. */
  datatype RowConverted = RowConverted(panels: Option<seq<Panel>>, height: Option<Option<Pixels>>)

  /** The converting rules of `Row.parse_json_data`, in rule order. */
  function RowRules(d: Object): (r: Result<RowConverted>)
    ensures r.Ok? ==> (r.value.panels.Some? <==> "panels" in d) && (r.value.height.Some? <==> "height" in d)
  {
    var c := Arguments(d, ROW_CONVERTED);
    var panels :- Present(c[0], DecodePanels);
    var height :- Present(c[1], DecodePixels);
    Ok(RowConverted(panels, height))
  }

  /** The `instance_of(Pixels)` validator on the height: `Pixels.parse_json_data` gives `None` for "". */
  function HeightArg(h: Option<Option<Pixels>>): (r: Result<Pixels>)
    ensures h.None? ==> r == Ok(DEFAULT_ROW_HEIGHT)
    ensures h.Some? ==> (r.Ok? <==> h.value.Some?) && (r.Ok? ==> r.value == h.value.value)
    ensures r.Err? ==> r.error.TypeError?
  {
    if h.None? then Ok(DEFAULT_ROW_HEIGHT)
    else if h.value.None? then Err(TypeError("'height' must be <class 'Pixels'>"))
    else Ok(h.value.value)
  }

  /**
   * `Row(**new_data)`: the keywords are checked, the panels balanced, then
   * the validators run in attribute order.
   */
  function CallRow(m: Object, conv: RowConverted): (r: Result<Row>)
    ensures r.Ok? ==> CheckCall(m, ROW_KEYS, {}).Ok? && SpansSet(r.value.panels)
    ensures r.Ok? ==> r.value.panels == BalancePanels(if conv.panels.Some? then conv.panels.value else [])
    ensures r.Err? ==> r.error.TypeError?
  {
    var _ :- CheckCall(m, ROW_KEYS, {});
    var a := Arguments(m, ROW_KEYS);
    var collapse :- BoolArg(a[0], false);
    var editable :- BoolArg(a[1], true);
    var height :- HeightArg(conv.height);
    Ok(NewRow(if conv.panels.Some? then conv.panels.value else [], collapse, editable, height,
      Given(a[4], JNull), Given(a[5], JNull), Given(a[6], JNull), Given(a[7], JNull), Given(a[8], JNull),
      Given(a[9], JStr("h6"))))
  }

  /**
   * `Row.parse_json_data`: the panels decoded by their tags and the height
   * parsed, then the constructor call, which balances the panels read.
   */
  function DecodeRow(data: Json): (r: Result<Row>)
    ensures r.Ok? ==> DictOf(data).Ok? && SpansSet(r.value.panels)
  {
    var d :- DictOf(data);
    var conv :- RowRules(d);
    CallRow(d, conv)
  }

  // ---------------------------------------------------------------------
  // The round trip
  // ---------------------------------------------------------------------

  /**
   * What a row needs to read back: panels that read back, spans all set
   * (as the constructor leaves them) and a height that is not negative.
   */
  predicate RowReadable(r: Row) {
    PixelsReadable(r.height) && SpansSet(r.panels) && forall i | 0 <= i < |r.panels| :: PanelReadable(r.panels[i])
  }

  /** What a row reads back as: its panels as they read back, its title and `showTitle` as written. */
  function CanonRow(r: Row): Row {
    CanonRowWith(r, Map(CanonPanel, r.panels))
  }

  /** A row's panels read back as the panels each reads back as. */
  lemma PanelsRoundTrip(ps: seq<Panel>)
    requires forall i | 0 <= i < |ps| :: PanelReadable(ps[i])
    ensures DecodePanels(EncodePanels(ps)) == Ok(Map(CanonPanel, ps))
  {
    PanelsEach(ps);
    ForeachOfMap(EncodePanel, ParsePanel, CanonPanel, ps);
  }

  lemma PanelsEach(ps: seq<Panel>)
    requires forall i | 0 <= i < |ps| :: PanelReadable(ps[i])
    ensures forall i | 0 <= i < |ps| :: ParsePanel(EncodePanel(ps[i])) == Ok(CanonPanel(ps[i]))
  {
    forall i | 0 <= i < |ps|
      ensures ParsePanel(EncodePanel(ps[i])) == Ok(CanonPanel(ps[i]))
    {
      PanelRoundTrip(ps[i]);
    }
  }

  /** What a row reads back as, given what its panels read back as. */
  function CanonRowWith(r: Row, panels: seq<Panel>): Row {
    r.(panels := panels, showTitle := ShowTitleJson(r), title := TitleJson(r))
  }

  /** The rules read back a row's height, and its panels as their list reads back. */
  lemma RowRulesWith(r: Row, pj: Json, ps: seq<Panel>)
    requires PixelsReadable(r.height) && DecodePanels(pj) == Ok(ps)
    ensures RowRules(ObjectOf(ROW_KEYS, RowValues(r, pj))) == Ok(RowConverted(Some(ps), Some(Some(r.height))))
  {
    var d := ObjectOf(ROW_KEYS, RowValues(r, pj));
    ObjectOfAt(ROW_KEYS, RowValues(r, pj), 2);
    ObjectOfAt(ROW_KEYS, RowValues(r, pj), 3);
    PixelsRoundTrip(r.height);
    var c := Arguments(d, ROW_CONVERTED);
    assert c[0] == Some(pj) && c[1] == Some(EncodePixels(r.height));
  }

  /** The constructor call on a row's encoding builds the row back, with the panels read back. */
  lemma CallRowWith(r: Row, pj: Json, ps: seq<Panel>)
    requires SpansSet(ps)
    ensures CallRow(ObjectOf(ROW_KEYS, RowValues(r, pj)), RowConverted(Some(ps), Some(Some(r.height))))
      == Ok(CanonRowWith(r, ps))
  {
    var vals := RowValues(r, pj);
    BindAll(ROW_KEYS, vals, {});
    var a := Somes(vals);
    assert BoolArg(a[0], false) == Ok(r.collapse) && BoolArg(a[1], true) == Ok(r.editable);
    BalanceIdempotent(ps);
  }

  /** The decoder's steps: the rules, then the constructor call. */
  lemma DecodeRowSteps(d: Object, conv: RowConverted, v: Row)
    requires RowRules(d) == Ok(conv) && CallRow(d, conv) == Ok(v)
    ensures DecodeRow(JObj(d)) == Ok(v)
  {
  }

  /**
   * A readable row reads back with its panels as they read back and with
   * the title and `showTitle` its encoder derived; the rest is unchanged.
   */
  lemma RowRoundTrip(r: Row)
    requires RowReadable(r)
    ensures DecodeRow(EncodeRow(r)) == Ok(CanonRow(r))
  {
    var pj := EncodePanels(r.panels);
    var ps := Map(CanonPanel, r.panels);
    PanelsRoundTrip(r.panels);
    RowRulesWith(r, pj, ps);
    assert SpansSet(ps);
    CallRowWith(r, pj, ps);
    DecodeRowSteps(ObjectOf(ROW_KEYS, RowValues(r, pj)), RowConverted(Some(ps), Some(Some(r.height))), CanonRow(r));
  }

  /**
   * The title written is the stored one or "New row"; `showTitle` is the
   * stored one when set, and otherwise whether a title is set.
   */
  lemma RowTitles(r: Row)
    ensures "title" in EncodeRow(r).fields && "showTitle" in EncodeRow(r).fields
    ensures EncodeRow(r).fields["title"] == (if r.title.JNull? then JStr(DEFAULT_ROW_TITLE) else r.title)
    ensures r.showTitle.JNull? ==> EncodeRow(r).fields["showTitle"] == JBool(!r.title.JNull?)
    ensures !r.showTitle.JNull? ==> EncodeRow(r).fields["showTitle"] == r.showTitle
  {
    RowTitlesWith(r, EncodePanels(r.panels));
  }

  lemma RowTitlesWith(r: Row, pj: Json)
    ensures var m := ObjectOf(ROW_KEYS, RowValues(r, pj));
      "title" in m && "showTitle" in m && m["title"] == TitleJson(r) && m["showTitle"] == ShowTitleJson(r)
  {
    ObjectOfAt(ROW_KEYS, RowValues(r, pj), 4);
    ObjectOfAt(ROW_KEYS, RowValues(r, pj), 5);
  }

  /** What a row reads back as encodes exactly as the row itself. */
  lemma RowStable(r: Row)
    ensures EncodeRow(CanonRow(r)) == EncodeRow(r)
  {
    PanelsStable(r.panels);
    RowValuesCanon(r, EncodePanels(r.panels));
  }

  lemma RowValuesCanon(r: Row, pj: Json)
    ensures RowValues(CanonRowWith(r, Map(CanonPanel, r.panels)), pj) == RowValues(r, pj)
  {
  }

  /** Panels read back encode as the panels themselves. */
  lemma PanelsStable(ps: seq<Panel>)
    ensures EncodePanels(Map(CanonPanel, ps)) == EncodePanels(ps)
  {
    forall i | 0 <= i < |ps|
      ensures Map(EncodePanel, Map(CanonPanel, ps))[i] == Map(EncodePanel, ps)[i]
    {
      PanelStable(ps[i]);
    }
  }
}
