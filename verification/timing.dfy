/**
 * A dashboard's time settings: `Time`, the range shown, written as `from`
 * and `to`; and `TimePicker`, the choices the time picker offers, written
 * as `refresh_intervals` and `time_options`.
 */
module Timing {
  import opened Wire
  import opened Objects
  import opened Transform
  import opened Records

  // ---------------------------------------------------------------------
  // Time
  // ---------------------------------------------------------------------

  datatype Time = Time(start: Json, end: Json)

  const TIME_WIRE_NAMES: seq<string> := ["from", "to"]
  const TIME_RENAMED: seq<string> := ["start", "end"]

  /** `DEFAULT_TIME`. */
  const DEFAULT_TIME := Time(JStr("now-1h"), JStr("now"))

  /** `Time.to_json_data`. */
  function EncodeTime(t: Time): (e: Json)
    ensures WritesKeys(e, TIME_WIRE_NAMES)
  {
    ObjectOfWrites(TIME_WIRE_NAMES, [t.start, t.end]);
    JObj(ObjectOf(TIME_WIRE_NAMES, [t.start, t.end]))
  }

  /** `Time.parse_json_data`: `from` and `to` renamed, then `cls(**new_data)` with both required. */
  function DecodeTime(data: Json): (r: Result<Time>)
    ensures r.Ok? <==> (DictOf(data).Ok? &&
      CheckCall(TransformDict(DictOf(data).value, Renames(TIME_WIRE_NAMES, TIME_RENAMED)),
        TIME_RENAMED, {"start", "end"}).Ok?)
    ensures DictOf(data).Err? ==> r == Err(DictOf(data).error)
  {
    var d :- DictOf(data);
    var m := TransformDict(d, Renames(TIME_WIRE_NAMES, TIME_RENAMED));
    var _ :- CheckCall(m, TIME_RENAMED, {"start", "end"});
    Ok(Time(m["start"], m["end"]))
  }

  /** A time range survives its encoding unchanged. */
  lemma TimeRoundTrip(t: Time)
    ensures DecodeTime(EncodeTime(t)) == Ok(t)
  {
    var vals := [t.start, t.end];
    assert Separate(TIME_WIRE_NAMES, TIME_RENAMED, []);
    assert TIME_WIRE_NAMES + [] == TIME_WIRE_NAMES && TIME_RENAMED + [] == TIME_RENAMED;
    BindRenamed(TIME_WIRE_NAMES, TIME_RENAMED, [], vals, {"start", "end"});
    ObjectOfAt(TIME_RENAMED, vals, 0);
    ObjectOfAt(TIME_RENAMED, vals, 1);
  }

  /** `dict` also takes a list of pairs: `[["from", a], ["to", b]]` reads as `Time(a, b)`. */
  lemma TimeFromPairs(a: Json, b: Json)
    ensures DecodeTime(JArr([JArr([JStr("from"), a]), JArr([JStr("to"), b])])) == Ok(Time(a, b))
  {
    DictOfPairList(TIME_WIRE_NAMES, [a, b]);
    assert PairList(TIME_WIRE_NAMES, [a, b]) == [JArr([JStr("from"), a]), JArr([JStr("to"), b])];
    TimeRoundTrip(Time(a, b));
  }

  /**
   * A string is never read as a time: `dict` rejects a non-empty string,
   * and the empty one gives an empty dict that lacks both arguments.
   */
  lemma TimeFromString(s: string)
    ensures DecodeTime(JStr(s)).Err?
    ensures s != "" ==> DecodeTime(JStr(s)).error.ValueError?
    ensures s == "" ==> DecodeTime(JStr(s)).error.TypeError?
  {
    if s == "" {
      TransformDictEmpty(Renames(TIME_WIRE_NAMES, TIME_RENAMED));
    }
  }

  // ---------------------------------------------------------------------
  // TimePicker
  // ---------------------------------------------------------------------

  /** The time picker; `kind` is its `type` attribute, which the encoding leaves out. */
  datatype TimePicker = TimePicker(
    refreshIntervals: Json, timeOptions: Json, collapse: Json, enable: Json, notice: Json,
    now: Json, status: Json, kind: Json)

  const TIMEPICKER_WIRE_NAMES: seq<string> := ["refresh_intervals", "time_options"]
  const TIMEPICKER_RENAMED: seq<string> := ["refreshIntervals", "timeOptions"]
  const TIMEPICKER_REST: seq<string> := ["collapse", "enable", "notice", "now", "status"]

  /** The constructor's parameters: the attributes written out, then `type`. */
  const TIMEPICKER_PARAMS: seq<string> := TIMEPICKER_RENAMED + TIMEPICKER_REST + ["type"]

  /** The strings of a list literal, as JSON. */
  function Strings(xs: seq<string>): (j: Json)
    ensures j.JArr? && |j.items| == |xs|
    ensures forall i | 0 <= i < |xs| :: j.items[i] == JStr(xs[i])
  {
    JArr(seq(|xs|, i requires 0 <= i < |xs| => JStr(xs[i])))
  }

  /** `DEFAULT_TIME_PICKER`. */
  const DEFAULT_TIME_PICKER := TimePicker(
    Strings(["5s", "10s", "30s", "1m", "5m", "15m", "30m", "1h", "2h", "1d"]),
    Strings(["5m", "15m", "1h", "6h", "12h", "24h", "2d", "7d", "30d"]),
    JBool(false), JNull, JNull, JNull, JNull, JNull)

  lemma TimePickerKeysSeparate()
    ensures Separate(TIMEPICKER_WIRE_NAMES, TIMEPICKER_RENAMED, TIMEPICKER_REST)
    ensures Disjoint(TIMEPICKER_RENAMED + TIMEPICKER_REST, ["type"])
  {
  }

  function TimePickerValues(t: TimePicker): (vals: seq<Json>)
    ensures |vals| == 7
  {
    [t.refreshIntervals, t.timeOptions, t.collapse, t.enable, t.notice, t.now, t.status]
  }

  /** `TimePicker.to_json_data`: everything but `type`. */
  function EncodeTimePicker(t: TimePicker): (e: Json)
    ensures WritesKeys(e, TIMEPICKER_WIRE_NAMES + TIMEPICKER_REST)
  {
    ObjectOfWrites(TIMEPICKER_WIRE_NAMES + TIMEPICKER_REST, TimePickerValues(t));
    JObj(ObjectOf(TIMEPICKER_WIRE_NAMES + TIMEPICKER_REST, TimePickerValues(t)))
  }

  /** The time picker the arguments build. */
  function TimePickerOf(a: seq<Option<Json>>): TimePicker
    requires |a| == |TIMEPICKER_PARAMS| && a[0].Some? && a[1].Some?
  {
    TimePicker(a[0].value, a[1].value, Given(a[2], JBool(false)), Given(a[3], JNull),
      Given(a[4], JNull), Given(a[5], JNull), Given(a[6], JNull), Given(a[7], JNull))
  }

  /** `TimePicker.parse_json_data`: the two lists renamed, then `cls(**new_data)`. */
  function DecodeTimePicker(data: Json): (r: Result<TimePicker>)
    ensures r.Ok? <==> (DictOf(data).Ok? &&
      CheckCall(TransformDict(DictOf(data).value, Renames(TIMEPICKER_WIRE_NAMES, TIMEPICKER_RENAMED)),
        TIMEPICKER_PARAMS, {"refreshIntervals", "timeOptions"}).Ok?)
  {
    var d :- DictOf(data);
    var m := TransformDict(d, Renames(TIMEPICKER_WIRE_NAMES, TIMEPICKER_RENAMED));
    var _ :- CheckCall(m, TIMEPICKER_PARAMS, {"refreshIntervals", "timeOptions"});
    Ok(TimePickerOf(Arguments(m, TIMEPICKER_PARAMS)))
  }

  /** What a time picker reads back as: its `type` is not written, so it comes back unset. */
  function CanonTimePicker(t: TimePicker): TimePicker {
    t.(kind := JNull)
  }

  /** A time picker reads back unchanged except for its `type`. */
  lemma TimePickerRoundTrip(t: TimePicker)
    ensures DecodeTimePicker(EncodeTimePicker(t)) == Ok(CanonTimePicker(t))
  {
    var vals := TimePickerValues(t);
    TimePickerKeysSeparate();
    BindRenamedAbsent(TIMEPICKER_WIRE_NAMES, TIMEPICKER_RENAMED, TIMEPICKER_REST, vals, ["type"],
      {"refreshIntervals", "timeOptions"});
    assert TimePickerOf(Somes(vals) + Nones(1)) == CanonTimePicker(t);
  }
}
