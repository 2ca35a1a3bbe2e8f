/**
 * The axes of a graph panel: `XAxis`, the single `YAxis`, the pair `YAxes`
 * and the backwards-compatibility shim `to_y_axes` that still accepts the
 * old two-element list.
 */
module Axes {
  import opened Wire
  import opened Objects
  import opened Records

  // ---------------------------------------------------------------------
  // XAxis
  // ---------------------------------------------------------------------

  datatype XAxis = XAxis(mode: string, name: Json, values: Json, show: bool, buckets: Json)

  /** The attributes of `XAxis`. */
  const XAXIS_KEYS: seq<string> := ["mode", "name", "values", "show", "buckets"]

  /** The modes `is_valid_xaxis_mode` accepts. */
  const XAXIS_MODES: seq<string> := ["time", "series"]

  /** `XAxis()`. */
  const DEFAULT_XAXIS := XAxis("time", JNull, JArr([]), true, JNull)

  /** `XAxis.to_json_data`: only `show` is written. */
  function EncodeXAxis(x: XAxis): Json {
    JObj(map["show" := JBool(x.show)])
  }

  /** Of the axis's five attributes only `show` is written. */
  lemma XAxisWrites(x: XAxis)
    ensures WritesKeys(EncodeXAxis(x), ["show"])
    ensures forall k | k in XAXIS_KEYS && k != "show" :: k !in EncodeXAxis(x).fields
  {
  }

  /** `attr.ib(default="time", validator=is_valid_xaxis_mode)`. */
  function ModeArg(a: Option<Json>): (r: Result<string>)
    ensures r.Ok? <==> a.None? || (a.value.JStr? && a.value.s in XAXIS_MODES)
    ensures r.Ok? ==> r.value in XAXIS_MODES
    ensures r.Err? ==> r.error.ValueError?
  {
    match a
    case None => Ok("time")
    case Some(JStr(s)) => if s in XAXIS_MODES then Ok(s) else Err(ValueError("mode should be one of ('time', 'series')"))
    case Some(_) => Err(ValueError("mode should be one of ('time', 'series')"))
  }

  /** `XAxis.parse_json_data`: `cls(**data)`; the mode is validated before `show`. */
  function DecodeXAxis(data: Json): (r: Result<XAxis>)
    ensures r.Ok? ==> r.value.mode in XAXIS_MODES
    ensures r.Ok? ==> data.JObj? && CheckCall(data.fields, XAXIS_KEYS, {}).Ok?
  {
    var d :- Kwargs(data);
    var _ :- CheckCall(d, XAXIS_KEYS, {});
    var a := Arguments(d, XAXIS_KEYS);
    var mode :- ModeArg(a[0]);
    var show :- BoolArg(a[3], true);
    Ok(XAxis(mode, Given(a[1], JNull), Given(a[2], JArr([])), show, Given(a[4], JNull)))
  }

  /** What an x axis reads back as: every attribute but `show` at its default. */
  function CanonXAxis(x: XAxis): XAxis {
    DEFAULT_XAXIS.(show := x.show)
  }

  /** An x axis reads back with its `show` flag and everything else at the defaults. */
  lemma XAxisRoundTrip(x: XAxis)
    ensures DecodeXAxis(EncodeXAxis(x)) == Ok(CanonXAxis(x))
  {
    var d := map["show" := JBool(x.show)];
    assert Arguments(d, XAXIS_KEYS) == [None, None, None, Some(JBool(x.show)), None];
  }

  /** Re-encoding an x axis that was read back writes the same JSON. */
  lemma XAxisStable(x: XAxis)
    ensures EncodeXAxis(CanonXAxis(x)) == EncodeXAxis(x)
  {
  }

  /** A mode passed on its own is accepted exactly when it is "time" or "series". */
  lemma XAxisModeChecked(mode: Json)
    ensures DecodeXAxis(JObj(map["mode" := mode])).Ok? <==> mode == JStr("time") || mode == JStr("series")
    ensures DecodeXAxis(JObj(map["mode" := mode])).Err? ==> DecodeXAxis(JObj(map["mode" := mode])).error.ValueError?
  {
    var d := map["mode" := mode];
    assert Arguments(d, XAXIS_KEYS) == [Some(mode), None, None, None, None];
    assert CheckCall(d, XAXIS_KEYS, {}).Ok? by {
      assert XAXIS_KEYS[0] == "mode";
    }
  }

  // ---------------------------------------------------------------------
  // YAxis and YAxes
  // ---------------------------------------------------------------------

  datatype YAxis = YAxis(
    decimals: Json, format: Json, labelText: Json, logBase: Json, max: Json, min: Json, show: bool)

  /** The attributes of `YAxis`, which are also the keys of its encoding. */
  const YAXIS_KEYS: seq<string> := ["decimals", "format", "label", "logBase", "max", "min", "show"]

  /** `SHORT_FORMAT`. */
  const SHORT_FORMAT := "short"

  /** `YAxis(format=SHORT_FORMAT)`, each default axis of `YAxes()`. */
  const SHORT_YAXIS := YAxis(JNull, JStr(SHORT_FORMAT), JNull, JInt(1), JNull, JInt(0), true)

  lemma YAxisKeysDistinct()
    ensures |YAXIS_KEYS| == 7 && Distinct(YAXIS_KEYS)
  {
  }

  function YAxisValues(y: YAxis): (vals: seq<Json>)
    ensures |vals| == |YAXIS_KEYS|
  {
    [y.decimals, y.format, y.labelText, y.logBase, y.max, y.min, JBool(y.show)]
  }

  /** `YAxis.to_json_data`. */
  function EncodeYAxis(y: YAxis): (e: Json)
    ensures WritesKeys(e, YAXIS_KEYS)
  {
    ObjectOfWrites(YAXIS_KEYS, YAxisValues(y));
    JObj(ObjectOf(YAXIS_KEYS, YAxisValues(y)))
  }

  /** The `YAxis` the arguments build once `show` passes its validator. */
  function YAxisOf(a: seq<Option<Json>>): (r: Result<YAxis>)
    requires |a| == |YAXIS_KEYS|
    ensures r.Ok? <==> a[6].None? || a[6].value.JBool?
  {
    var show :- BoolArg(a[6], true);
    Ok(YAxis(Given(a[0], JNull), Given(a[1], JNull), Given(a[2], JNull), Given(a[3], JInt(1)),
      Given(a[4], JNull), Given(a[5], JInt(0)), show))
  }

  /** `YAxis.parse_json_data`: `cls(**data)`. */
  function DecodeYAxis(data: Json): (r: Result<YAxis>)
    ensures r.Ok? ==> data.JObj? && CheckCall(data.fields, YAXIS_KEYS, {}).Ok?
    ensures r.Err? ==> r.error.TypeError?
  {
    var d :- Kwargs(data);
    var _ :- CheckCall(d, YAXIS_KEYS, {});
    YAxisOf(Arguments(d, YAXIS_KEYS))
  }

  /** A y axis survives its encoding unchanged. */
  lemma YAxisRoundTrip(y: YAxis)
    ensures DecodeYAxis(EncodeYAxis(y)) == Ok(y)
  {
    var vals := YAxisValues(y);
    assert Arguments(ObjectOf(YAXIS_KEYS, vals), YAXIS_KEYS) == Somes(vals)
        && CheckCall(ObjectOf(YAXIS_KEYS, vals), YAXIS_KEYS, {}) == Ok(()) by {
      YAxisKeysDistinct();
      BindAll(YAXIS_KEYS, vals, {});
    }
    assert YAxisOf(Somes(vals)) == Ok(y);
  }

  /** The pair of y axes of a graph. */
  datatype YAxes = YAxes(left: YAxis, right: YAxis)

  /** `YAxes()`. */
  const DEFAULT_YAXES := YAxes(SHORT_YAXIS, SHORT_YAXIS)

  /** `YAxes.to_json_data`: the list `[left, right]`. */
  function EncodeYAxes(y: YAxes): Json {
    JArr([EncodeYAxis(y.left), EncodeYAxis(y.right)])
  }

  /** Two axis objects, left then right, each with every `YAxis` key. */
  lemma YAxesWrites(y: YAxes)
    ensures EncodeYAxes(y).JArr? && |EncodeYAxes(y).items| == 2
    ensures EncodeYAxes(y).items[0] == EncodeYAxis(y.left) && EncodeYAxes(y).items[1] == EncodeYAxis(y.right)
    ensures WritesKeys(EncodeYAxes(y).items[0], YAXIS_KEYS) && WritesKeys(EncodeYAxes(y).items[1], YAXIS_KEYS)
  {
  }

  /** `YAxes.parse_json_data`: `data[0]` is read as the left axis, then `data[1]` as the right one. */
  function DecodeYAxes(data: Json): (r: Result<YAxes>)
    ensures data.JObj? ==> r == Err(KeyError(JInt(0)))
    ensures r.Ok? ==> data.JArr? || data.JStr?
  {
    var first :- Item(data, 0);
    var left :- DecodeYAxis(first);
    var second :- Item(data, 1);
    var right :- DecodeYAxis(second);
    Ok(YAxes(left, right))
  }

  /**
   * Reading a list of axes: the left axis is read from element 0, the right
   * one from element 1, and any later element is ignored. A list with
   * fewer than two elements is `YAxesShort`.
   */
  lemma YAxesPositional(items: seq<Json>, left: YAxis, right: YAxis)
    requires |items| >= 2
    ensures DecodeYAxes(JArr(items)) == Ok(YAxes(left, right)) <==>
      DecodeYAxis(items[0]) == Ok(left) && DecodeYAxis(items[1]) == Ok(right)
  {
  }

  /**
   * A list with fewer than two elements: the empty list raises
   * `IndexError` at `data[0]`; a one-element list fails as its left axis
   * fails, and when that axis reads it raises `IndexError` at `data[1]`.
   */
  lemma YAxesShort(x: Json)
    ensures DecodeYAxes(JArr([])) == Err(IndexError(0))
    ensures DecodeYAxis(x).Ok? ==> DecodeYAxes(JArr([x])) == Err(IndexError(1))
    ensures DecodeYAxis(x).Err? ==> DecodeYAxes(JArr([x])) == Err(DecodeYAxis(x).error)
  {
  }

  /** A one-element list of a readable axis lacks its right axis. */
  lemma YAxesTooShort(y: YAxis)
    ensures DecodeYAxes(JArr([EncodeYAxis(y)])) == Err(IndexError(1))
  {
    YAxisRoundTrip(y);
  }

  /** A pair of axes survives its encoding unchanged. */
  lemma YAxesRoundTrip(y: YAxes)
    ensures DecodeYAxes(EncodeYAxes(y)) == Ok(y)
  {
    YAxisRoundTrip(y.left);
    YAxisRoundTrip(y.right);
  }

  // ---------------------------------------------------------------------
  // to_y_axes
  // ---------------------------------------------------------------------

  /** An element of an old-style list of axes: a `YAxis`, or any other value. */
  datatype AxisItem = Axis(axis: YAxis) | OtherItem(j: Json)

  /** What `to_y_axes` can be given: a `YAxes`, a list or tuple, or any other value. */
  datatype AxesInput = Pair(axes: YAxes) | Items(items: seq<AxisItem>) | Other(j: Json)

  /** `to_y_axes`'s result: the axes, and whether the deprecation warning was issued. */
  datatype Shimmed = Shimmed(axes: YAxes, warned: bool)

  /**
   * `to_y_axes`: a `YAxes` passes through; a list or tuple must have exactly
   * two elements, which become the left and right axes (with a deprecation
   * warning) and must then be `YAxis` values for the `YAxes` validators;
   * anything else raises `ValueError`.
   */
  function ToYAxes(x: AxesInput): (r: Result<Shimmed>)
    ensures x.Pair? ==> r == Ok(Shimmed(x.axes, false))
    ensures x.Other? ==> r.Err? && r.error.ValueError?
    ensures x.Items? && |x.items| != 2 ==> r.Err? && r.error.ValueError?
    ensures x.Items? && |x.items| == 2 ==>
      (r.Ok? <==> x.items[0].Axis? && x.items[1].Axis?) &&
      (r.Ok? ==> r.value == Shimmed(YAxes(x.items[0].axis, x.items[1].axis), true)) &&
      (r.Err? ==> r.error.TypeError?)
  {
    match x
    case Pair(axes) => Ok(Shimmed(axes, false))
    case Other(_) => Err(ValueError("Y axes must be either YAxes or a list of two values"))
    case Items(items) =>
      if |items| != 2 then Err(ValueError("Must specify exactly two YAxes"))
      else if !items[0].Axis? then Err(TypeError("'left' must be <class 'YAxis'>"))
      else if !items[1].Axis? then Err(TypeError("'right' must be <class 'YAxis'>"))
      else Ok(Shimmed(YAxes(items[0].axis, items[1].axis), true))
  }

  /** A JSON value handed to `to_y_axes` as it is: a list's elements are plain values. */
  function AxesInputOfJson(j: Json): AxesInput {
    if j.JArr? then Items(seq(|j.items|, i requires 0 <= i < |j.items| => OtherItem(j.items[i]))) else Other(j)
  }

  /** Raw JSON never gets through `to_y_axes`: only decoded axes do. */
  lemma ToYAxesRejectsJson(j: Json)
    ensures ToYAxes(AxesInputOfJson(j)).Err?
    ensures j.JArr? && |j.items| == 2 ==> ToYAxes(AxesInputOfJson(j)).error.TypeError?
    ensures !(j.JArr? && |j.items| == 2) ==> ToYAxes(AxesInputOfJson(j)).error.ValueError?
  {
  }

  /** The old two-element list and the `YAxes` it stands for give the same axes. */
  lemma ToYAxesAgree(y: YAxes)
    ensures ToYAxes(Items([Axis(y.left), Axis(y.right)])).Ok?
    ensures ToYAxes(Items([Axis(y.left), Axis(y.right)])).value.axes == ToYAxes(Pair(y)).value.axes
  {
  }
}
