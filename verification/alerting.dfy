/**
 * Grafana alerts attached to a graph panel: an `Evaluator` (the test a
 * metric must pass), a `TimeRange` (how long it must hold), an
 * `AlertCondition` combining them with the target queried, and the `Alert`
 * that lists its conditions.
 */
module Alerting {
  import opened Wire
  import opened Objects
  import opened Transform
  import opened Records
  import opened GraphParts
  import opened Timing

  // ---------------------------------------------------------------------
  // Evaluator and its factories
  // ---------------------------------------------------------------------

  /** An evaluator; `kind` is its `type` attribute. */
  datatype Evaluator = Evaluator(kind: Json, params: Json)

  /** `EVAL_GT`, `EVAL_LT`, `EVAL_WITHIN_RANGE`, `EVAL_OUTSIDE_RANGE` and `EVAL_NO_VALUE`. */
  const EVAL_GT := "gt"
  const EVAL_LT := "lt"
  const EVAL_WITHIN_RANGE := "within_range"
  const EVAL_OUTSIDE_RANGE := "outside_range"
  const EVAL_NO_VALUE := "no_value"

  const EVALUATOR_KEYS: seq<string> := ["type", "params"]

  /** `Evaluator.to_json_data`. */
  function EncodeEvaluator(e: Evaluator): (j: Json)
    ensures WritesKeys(j, EVALUATOR_KEYS)
  {
    ObjectOfWrites(EVALUATOR_KEYS, [e.kind, e.params]);
    JObj(ObjectOf(EVALUATOR_KEYS, [e.kind, e.params]))
  }

  /** `Evaluator.parse_json_data`: `cls(**data)`, both arguments required. */
  function DecodeEvaluator(data: Json): (r: Result<Evaluator>)
    ensures r.Ok? <==> data.JObj? && CheckCall(data.fields, EVALUATOR_KEYS, {"type", "params"}).Ok?
    ensures r.Ok? ==> r.value == Evaluator(data.fields["type"], data.fields["params"])
    ensures r.Err? ==> r.error.TypeError?
  {
    var d :- Kwargs(data);
    var _ :- CheckCall(d, EVALUATOR_KEYS, {"type", "params"});
    Ok(Evaluator(d["type"], d["params"]))
  }

  /** An evaluator survives its encoding unchanged. */
  lemma EvaluatorRoundTrip(e: Evaluator)
    ensures DecodeEvaluator(EncodeEvaluator(e)) == Ok(e)
  {
    var vals := [e.kind, e.params];
    BindAll(EVALUATOR_KEYS, vals, {"type", "params"});
    ObjectOfAt(EVALUATOR_KEYS, vals, 0);
    ObjectOfAt(EVALUATOR_KEYS, vals, 1);
  }

  /** The object `Evaluator.to_json_data` writes, field by field. */
  lemma EvaluatorFields(e: Evaluator)
    ensures EncodeEvaluator(e) == JObj(map["type" := e.kind, "params" := e.params])
  {
    var keys, vals := EVALUATOR_KEYS, [e.kind, e.params];
    assert keys[..1] == ["type"] && vals[..1] == [e.kind];
    assert ObjectOf(["type"], [e.kind]) == map["type" := e.kind];
  }

  /**
   * `GreaterThan`, `LowerThan`, `WithinRange`, `OutsideRange` and `NoValue`:
   * each is an evaluator whose wire form carries its own `type` and its
   * thresholds as `params`, in the order given.
   */
  function GreaterThan(value: Json): (ev: Evaluator)
    ensures EncodeEvaluator(ev) == JObj(map["type" := JStr("gt"), "params" := JArr([value])])
  {
    EvaluatorFields(Evaluator(JStr(EVAL_GT), JArr([value])));
    Evaluator(JStr(EVAL_GT), JArr([value]))
  }

  function LowerThan(value: Json): (ev: Evaluator)
    ensures EncodeEvaluator(ev) == JObj(map["type" := JStr("lt"), "params" := JArr([value])])
  {
    EvaluatorFields(Evaluator(JStr(EVAL_LT), JArr([value])));
    Evaluator(JStr(EVAL_LT), JArr([value]))
  }

  function WithinRange(fromValue: Json, toValue: Json): (ev: Evaluator)
    ensures EncodeEvaluator(ev) == JObj(map["type" := JStr("within_range"), "params" := JArr([fromValue, toValue])])
  {
    EvaluatorFields(Evaluator(JStr(EVAL_WITHIN_RANGE), JArr([fromValue, toValue])));
    Evaluator(JStr(EVAL_WITHIN_RANGE), JArr([fromValue, toValue]))
  }

  function OutsideRange(fromValue: Json, toValue: Json): (ev: Evaluator)
    ensures EncodeEvaluator(ev) == JObj(map["type" := JStr("outside_range"), "params" := JArr([fromValue, toValue])])
  {
    EvaluatorFields(Evaluator(JStr(EVAL_OUTSIDE_RANGE), JArr([fromValue, toValue])));
    Evaluator(JStr(EVAL_OUTSIDE_RANGE), JArr([fromValue, toValue]))
  }

  function NoValue(): (ev: Evaluator)
    ensures EncodeEvaluator(ev) == JObj(map["type" := JStr("no_value"), "params" := JArr([])])
  {
    EvaluatorFields(Evaluator(JStr(EVAL_NO_VALUE), JArr([])));
    Evaluator(JStr(EVAL_NO_VALUE), JArr([]))
  }

  /**
   * The factories make evaluators that no two of them share: each writes
   * its own type, and reading one back from its encoding recovers the
   * thresholds it was given, in order.
   */
  lemma FactoriesDistinct(v: Json, w: Json, lo: Json, hi: Json, lo2: Json, hi2: Json)
    ensures GreaterThan(v) != LowerThan(w) && GreaterThan(v) != NoValue() && LowerThan(w) != NoValue()
    ensures WithinRange(lo, hi) != OutsideRange(lo2, hi2)
    ensures GreaterThan(v) != WithinRange(lo, hi) && GreaterThan(v) != OutsideRange(lo2, hi2)
    ensures LowerThan(w) != WithinRange(lo, hi) && LowerThan(w) != OutsideRange(lo2, hi2)
    ensures NoValue() != WithinRange(lo, hi) && NoValue() != OutsideRange(lo2, hi2)
    ensures DecodeEvaluator(EncodeEvaluator(WithinRange(lo, hi))).Ok?
    ensures DecodeEvaluator(EncodeEvaluator(WithinRange(lo, hi))).value.params == JArr([lo, hi])
    ensures DecodeEvaluator(EncodeEvaluator(GreaterThan(v))).Ok?
    ensures DecodeEvaluator(EncodeEvaluator(GreaterThan(v))).value.params == JArr([v])
  {
    EvaluatorRoundTrip(WithinRange(lo, hi));
    EvaluatorRoundTrip(GreaterThan(v));
  }

  // ---------------------------------------------------------------------
  // TimeRange
  // ---------------------------------------------------------------------

  /**
   * One end of a time range: whatever value the caller gave (the
   * documented use is a string such as "5m" or "now"), or a `Time`, which
   * is what the decoder produces.
   */
  datatype TimeBound = TimeRaw(json: Json) | TimeObject(time: Time)

  /** A time range; `fromTime` and `toTime` are its `from_time` and `to_time`. */
  datatype TimeRange = TimeRange(fromTime: TimeBound, toTime: TimeBound)

  /** How a bound is written out: a `Time` as its own encoding, anything else as it is. */
  function EncodeBound(b: TimeBound): Json {
    match b
    case TimeRaw(j) => j
    case TimeObject(t) => EncodeTime(t)
  }

  /** `TimeRange.to_json_data`: the two bounds as a list. */
  function EncodeTimeRange(r: TimeRange): Json {
    JArr([EncodeBound(r.fromTime), EncodeBound(r.toTime)])
  }

  /** Two items, `from_time` then `to_time`; a bound that is a `Time` is written as a `from`/`to` object. */
  lemma TimeRangeWrites(r: TimeRange)
    ensures EncodeTimeRange(r).JArr? && |EncodeTimeRange(r).items| == 2
    ensures r.fromTime.TimeObject? ==> WritesKeys(EncodeTimeRange(r).items[0], TIME_WIRE_NAMES)
    ensures r.toTime.TimeObject? ==> WritesKeys(EncodeTimeRange(r).items[1], TIME_WIRE_NAMES)
    ensures r.fromTime.TimeRaw? ==> EncodeTimeRange(r).items[0] == r.fromTime.json
  {
  }

  /** `TimeRange.parse_json_data`: the first two items, each read as a `Time`. */
  function DecodeTimeRange(data: Json): (r: Result<TimeRange>)
    ensures r.Ok? ==> r.value.fromTime.TimeObject? && r.value.toTime.TimeObject?
    ensures r.Ok? <==> (Item(data, 0).Ok? && DecodeTime(Item(data, 0).value).Ok? &&
      Item(data, 1).Ok? && DecodeTime(Item(data, 1).value).Ok?)
  {
    var first :- Item(data, 0);
    var fromTime :- DecodeTime(first);
    var second :- Item(data, 1);
    var toTime :- DecodeTime(second);
    Ok(TimeRange(TimeObject(fromTime), TimeObject(toTime)))
  }

  /** Both bounds of the range are `Time` objects. */
  predicate ObjectBounds(r: TimeRange) {
    r.fromTime.TimeObject? && r.toTime.TimeObject?
  }

  /** A time range whose bounds are `Time`s survives its encoding unchanged. */
  lemma TimeRangeRoundTrip(r: TimeRange)
    requires ObjectBounds(r)
    ensures DecodeTimeRange(EncodeTimeRange(r)) == Ok(r)
  {
    TimeRoundTrip(r.fromTime.time);
    TimeRoundTrip(r.toTime.time);
  }

  /**
   * A range given, as documented, by strings such as "5m" and "now"
   * cannot be read back: `Time.parse_json_data` rejects every string.
   */
  lemma TimeRangeFromText(s: string, b: TimeBound)
    ensures DecodeTimeRange(EncodeTimeRange(TimeRange(TimeRaw(JStr(s)), b))).Err?
  {
    TimeFromString(s);
  }

  // ---------------------------------------------------------------------
  // AlertCondition
  // ---------------------------------------------------------------------

  /** `CTYPE_QUERY`. */
  const CTYPE_QUERY := "query"

  /** A condition of an alert; `kind` is its `type` attribute. */
  datatype AlertCondition = AlertCondition(
    target: Target, evaluator: Evaluator, timeRange: TimeRange, operator: Json,
    reducerType: Json, kind: Json)

  /** The keys of the encoding, `reducer` first: it is the one read back under another name. */
  const CONDITION_WIRE_NAMES: seq<string> := ["reducer"]
  const CONDITION_RENAMED: seq<string> := ["reducerType"]
  const CONDITION_REST: seq<string> := ["evaluator", "operator", "query", "type"]

  /** The keys the three converting rules read, in rule order. */
  const CONDITION_CONVERTED: seq<string> := ["evaluator", "operator", "reducer"]

  /**
   * The constructor's parameters, in the order the decoder passes them:
   * `query` is replaced by `target`, and `timeRange` comes last.
   */
  const CONDITION_PARAMS: seq<string> := ["reducerType", "evaluator", "operator", "target", "type", "timeRange"]
  const CONDITION_REQUIRED: set<string> := {"target", "evaluator", "timeRange", "operator", "reducerType"}

  /** The `params` of the query: the target's `refId`, then the two bounds. */
  function QueryParams(c: AlertCondition): Json {
    JArr([c.target.refId, EncodeBound(c.timeRange.fromTime), EncodeBound(c.timeRange.toTime)])
  }

  function ConditionValues(c: AlertCondition): (vals: seq<Json>)
    ensures |vals| == 5
  {
    [JObj(map["params" := JArr([]), "type" := c.reducerType]),
     EncodeEvaluator(c.evaluator),
     JObj(map["type" := c.operator]),
     JObj(map["model" := EncodeTarget(c.target), "params" := QueryParams(c)]),
     c.kind]
  }

  /** `AlertCondition.to_json_data`. */
  function EncodeAlertCondition(c: AlertCondition): (e: Json)
    ensures WritesKeys(e, CONDITION_WIRE_NAMES + CONDITION_REST)
  {
    ObjectOfWrites(CONDITION_WIRE_NAMES + CONDITION_REST, ConditionValues(c));
    JObj(ObjectOf(CONDITION_WIRE_NAMES + CONDITION_REST, ConditionValues(c)))
  }

  /** `lambda x: x['type']`, the rule for `operator` and `reducer`. */
  function TypeOf(x: Json): (r: Result<Json>)
    ensures r.Ok? <==> x.JObj? && "type" in x.fields
  {
    Subscript(x, "type")
  }

  /** Sets `k` to the converted value when the rule found its key. */
  function Put(m: Object, k: string, v: Option<Json>): (r: Object)
    ensures v.None? ==> r == m
    ensures v.Some? ==> r == m[k := v.value]
  {
    if v.Some? then m[k := v.value] else m
  }

  /** The target and time range read from the `query` of an encoded condition. */
  datatype Query = Query(target: Target, timeRange: TimeRange)

  /**
   * The `query` step of `AlertCondition.parse_json_data`: the target is
   * read from `model`; the first of `params` becomes its `refId` and the
   * rest are read as a `TimeRange`. Unpacking an empty `params` raises
   * `ValueError`.
   */
  function ReadQuery(query: Json): (r: Result<Query>)
    ensures r.Ok? ==> ObjectBounds(r.value.timeRange)
  {
    var model :- Subscript(query, "model");
    var target :- DecodeTarget(model);
    var params :- Subscript(query, "params");
    var items :- Iterate(params);
    if |items| == 0 then Err(ValueError("not enough values to unpack (expected at least 1, got 0)"))
    else
      var timeRange :- DecodeTimeRange(JArr(items[1..]));
      Ok(Query(target.(refId := items[0]), timeRange))
  }

  /**
   * `AlertCondition(**kwargs)`. The keywords are checked first; the typed
   * `target` and `timeRange` are carried in `query`, and a `target` passed
   * as plain JSON fails its `instance_of(Target)` validator.
   */
  function CallAlertCondition(kwargs: Object, query: Option<Query>, evaluator: Option<Evaluator>): (r: Result<AlertCondition>)
    ensures r.Ok? ==> query.Some? && evaluator.Some? && CheckCall(kwargs, CONDITION_PARAMS, CONDITION_REQUIRED).Ok?
    ensures r.Ok? ==> r.value.target == query.value.target && r.value.timeRange == query.value.timeRange
    ensures r.Ok? ==> r.value.evaluator == evaluator.value
    ensures r.Err? ==> r.error.TypeError?
  {
    var _ :- CheckCall(kwargs, CONDITION_PARAMS, CONDITION_REQUIRED);
    var a := Arguments(kwargs, CONDITION_PARAMS);
    match (query, evaluator)
    case (None, _) => Err(TypeError("'target' must be <class 'Target'>"))
    case (_, None) => Err(TypeError("missing a required argument: 'evaluator'"))
    case (Some(q), Some(e)) =>
      Ok(AlertCondition(q.target, e, q.timeRange, Given(a[2], JNull), Given(a[0], JNull), Given(a[4], JStr(CTYPE_QUERY))))
  }

  /** The keywords passed once `query` has been popped and `target` and `timeRange` set. */
  function WithQuery(m: Object): Object {
    (m - {"query"})["target" := JNull]["timeRange" := JNull]
  }

  /** The `query` step and the constructor call, on the dict the rules produced. */
  function ReadCondition(m: Object, evaluator: Option<Evaluator>): (r: Result<AlertCondition>)
    ensures r.Ok? ==> "query" in m && ObjectBounds(r.value.timeRange)
  {
    if "query" in m then
      var q :- ReadQuery(m["query"]);
      CallAlertCondition(WithQuery(m), Some(q), evaluator)
    else
      CallAlertCondition(m, None, evaluator)
  }

  /**
   * `AlertCondition.parse_json_data`: the evaluator, operator and reducer
   * converted in rule order, `reducer` renamed to `reducerType`, then the
   * `query` popped and read.
   */
  function DecodeAlertCondition(data: Json): (r: Result<AlertCondition>)
    ensures r.Ok? ==> ObjectBounds(r.value.timeRange)
  {
    var d :- DictOf(data);
    var a := Arguments(d, CONDITION_CONVERTED);
    var evaluator :- Present(a[0], DecodeEvaluator);
    var operator :- Present(a[1], TypeOf);
    var reducerType :- Present(a[2], TypeOf);
    var renamed := TransformDict(d, Renames(CONDITION_WIRE_NAMES, CONDITION_RENAMED));
    ReadCondition(Put(Put(renamed, "operator", operator), "reducerType", reducerType), evaluator)
  }

  // The round trip, step by step.

  lemma ConditionKeys()
    ensures Separate(CONDITION_WIRE_NAMES, CONDITION_RENAMED, CONDITION_REST)
    ensures Distinct(CONDITION_WIRE_NAMES + CONDITION_REST) && Distinct(CONDITION_RENAMED + CONDITION_REST)
    ensures Distinct(CONDITION_PARAMS)
  {
    DistinctConcat(CONDITION_WIRE_NAMES, CONDITION_REST);
    DistinctConcat(CONDITION_RENAMED, CONDITION_REST);
  }

  /** The values the constructor's keywords hold after the rules, with `query` still in place. */
  function RuleValues(c: AlertCondition): (vals: seq<Json>)
    ensures |vals| == 5
  {
    ConditionValues(c)[2 := c.operator][0 := c.reducerType]
  }

  /** The three converting rules find their keys and read back the values written. */
  lemma ConditionConverted(c: AlertCondition)
    ensures Arguments(ObjectOf(CONDITION_WIRE_NAMES + CONDITION_REST, ConditionValues(c)), CONDITION_CONVERTED)
      == [Some(ConditionValues(c)[1]), Some(ConditionValues(c)[2]), Some(ConditionValues(c)[0])]
  {
    var keys := CONDITION_WIRE_NAMES + CONDITION_REST;
    var vals := ConditionValues(c);
    ConditionKeys();
    ObjectOfAt(keys, vals, 0);
    ObjectOfAt(keys, vals, 1);
    ObjectOfAt(keys, vals, 2);
  }

  /** The dict after the rules: `reducerType` and `operator` hold the converted values. */
  lemma ConditionRenamed(c: AlertCondition)
    ensures Put(Put(TransformDict(ObjectOf(CONDITION_WIRE_NAMES + CONDITION_REST, ConditionValues(c)),
      Renames(CONDITION_WIRE_NAMES, CONDITION_RENAMED)), "operator", Some(c.operator)), "reducerType", Some(c.reducerType))
      == ObjectOf(CONDITION_RENAMED + CONDITION_REST, RuleValues(c))
  {
    var keys := CONDITION_RENAMED + CONDITION_REST;
    var vals := ConditionValues(c);
    ConditionKeys();
    RenamesInObject(CONDITION_WIRE_NAMES, CONDITION_RENAMED, CONDITION_REST, vals);
    UpdateInObject(keys, vals, 2, c.operator);
    UpdateInObject(keys, vals[2 := c.operator], 0, c.reducerType);
  }

  /** The rules of the decoder applied to a condition's own encoding. */
  lemma ConditionRules(c: AlertCondition)
    ensures DecodeAlertCondition(EncodeAlertCondition(c))
      == ReadCondition(ObjectOf(CONDITION_RENAMED + CONDITION_REST, RuleValues(c)), Some(c.evaluator))
  {
    var vals := ConditionValues(c);
    ConditionConverted(c);
    EvaluatorRoundTrip(c.evaluator);
    assert TypeOf(vals[2]) == Ok(c.operator) && TypeOf(vals[0]) == Ok(c.reducerType);
    ConditionRenamed(c);
  }

  /** The `query` written for a condition whose bounds are `Time`s reads back as its target and range. */
  lemma QueryRoundTrip(c: AlertCondition)
    requires ObjectBounds(c.timeRange)
    ensures ReadQuery(ConditionValues(c)[3]) == Ok(Query(c.target, c.timeRange))
  {
    var rest := [EncodeBound(c.timeRange.fromTime), EncodeBound(c.timeRange.toTime)];
    assert QueryParams(c) == JArr([c.target.refId] + rest);
    TargetRoundTrip(c.target);
    RefIdFromParams(EncodeTarget(c.target), c.target.refId, rest);
    TimeRangeRoundTrip(c.timeRange);
  }

  /** The keywords the constructor receives once `query` is replaced by `target` and `timeRange`. */
  lemma ConditionKwargs(c: AlertCondition)
    ensures var m := ObjectOf(CONDITION_RENAMED + CONDITION_REST, RuleValues(c));
      "query" in m && m["query"] == ConditionValues(c)[3] &&
      WithQuery(m) == ObjectOf(CONDITION_PARAMS, [c.reducerType, EncodeEvaluator(c.evaluator), c.operator, JNull, c.kind, JNull])
  {
    var keys := CONDITION_RENAMED + CONDITION_REST;
    var vals := RuleValues(c);
    ConditionKeys();
    ObjectOfAt(keys, vals, 3);
    ReplaceInObject(keys, vals, 3, "target", JNull);
    assert keys[3 := "target"] == CONDITION_PARAMS[..5];
    var full := [c.reducerType, EncodeEvaluator(c.evaluator), c.operator, JNull, c.kind, JNull];
    assert vals[3 := JNull] == full[..5];
  }

  /** The constructor call that ends the round trip. */
  lemma ConditionCall(c: AlertCondition)
    ensures CallAlertCondition(
      ObjectOf(CONDITION_PARAMS, [c.reducerType, EncodeEvaluator(c.evaluator), c.operator, JNull, c.kind, JNull]),
      Some(Query(c.target, c.timeRange)), Some(c.evaluator)) == Ok(c)
  {
    var vals := [c.reducerType, EncodeEvaluator(c.evaluator), c.operator, JNull, c.kind, JNull];
    var m := ObjectOf(CONDITION_PARAMS, vals);
    ConditionKeys();
    BindAll(CONDITION_PARAMS, vals, CONDITION_REQUIRED);
    var a := Somes(vals);
    assert a[0] == Some(c.reducerType) && a[2] == Some(c.operator) && a[4] == Some(c.kind);
    CallConditionWith(m, Query(c.target, c.timeRange), c.evaluator);
  }

  /** Once the keywords pass, the constructor builds the condition from the query, the evaluator and the arguments. */
  lemma CallConditionWith(m: Object, q: Query, e: Evaluator)
    requires CheckCall(m, CONDITION_PARAMS, CONDITION_REQUIRED) == Ok(())
    ensures var a := Arguments(m, CONDITION_PARAMS);
      CallAlertCondition(m, Some(q), Some(e))
        == Ok(AlertCondition(q.target, e, q.timeRange, Given(a[2], JNull), Given(a[0], JNull), Given(a[4], JStr(CTYPE_QUERY))))
  {
  }

  /** A condition whose time range is made of `Time`s survives its encoding unchanged. */
  lemma AlertConditionRoundTrip(c: AlertCondition)
    requires ObjectBounds(c.timeRange)
    ensures DecodeAlertCondition(EncodeAlertCondition(c)) == Ok(c)
  {
    ConditionRules(c);
    ConditionKwargs(c);
    QueryRoundTrip(c);
    ConditionCall(c);
  }

  /**
   * The encoding: the query carries the target and, as its `params`, the
   * target's `refId` followed by the two bounds; the reducer's `params` are empty.
   */
  lemma ConditionLayout(c: AlertCondition)
    ensures var fields := EncodeAlertCondition(c).fields;
      fields.Keys == {"evaluator", "operator", "query", "reducer", "type"} &&
      fields["query"] == JObj(map["model" := EncodeTarget(c.target), "params" := QueryParams(c)]) &&
      fields["reducer"] == JObj(map["params" := JArr([]), "type" := c.reducerType]) &&
      fields["operator"] == JObj(map["type" := c.operator]) && fields["type"] == c.kind
  {
    var keys := CONDITION_WIRE_NAMES + CONDITION_REST;
    var vals := ConditionValues(c);
    ConditionKeys();
    ObjectOfAt(keys, vals, 0);
    ObjectOfAt(keys, vals, 2);
    ObjectOfAt(keys, vals, 3);
    ObjectOfAt(keys, vals, 4);
    ObjectOfAt(keys, vals, 1);
    forall k ensures k in EncodeAlertCondition(c).fields <==> k in keys {
      ObjectOfKeys(keys, vals, k);
    }
  }

  /**
   * The first of the query's `params` overrides the `refId` of the target
   * read from `model`, whatever that target says, and the rest are read
   * as the time range.
   */
  lemma RefIdFromParams(model: Json, refId: Json, rest: seq<Json>)
    requires DecodeTarget(model).Ok?
    ensures var q := ReadQuery(JObj(map["model" := model, "params" := JArr([refId] + rest)]));
      (q.Ok? <==> DecodeTimeRange(JArr(rest)).Ok?) &&
      (q.Ok? ==> q.value == Query(DecodeTarget(model).value.(refId := refId), DecodeTimeRange(JArr(rest)).value))
  {
    var params := JArr([refId] + rest);
    var query := JObj(map["model" := model, "params" := params]);
    assert Subscript(query, "model") == Ok(model);
    assert Subscript(query, "params") == Ok(params);
    assert Iterate(params) == Ok([refId] + rest);
    assert ([refId] + rest)[1..] == rest;
  }

  /**
   * A condition whose range was given, as documented, by a string such as
   * "5m" does not survive its encoding: decoding it fails.
   */
  lemma AlertConditionFromText(c: AlertCondition, s: string)
    requires c.timeRange.fromTime == TimeRaw(JStr(s))
    ensures DecodeAlertCondition(EncodeAlertCondition(c)).Err?
  {
    ConditionRules(c);
    ConditionKwargs(c);
    QueryFromText(c, s);
  }

  lemma QueryFromText(c: AlertCondition, s: string)
    requires c.timeRange.fromTime == TimeRaw(JStr(s))
    ensures ReadQuery(ConditionValues(c)[3]).Err?
  {
    var rest := [JStr(s), EncodeBound(c.timeRange.toTime)];
    assert QueryParams(c) == JArr([c.target.refId] + rest);
    TargetRoundTrip(c.target);
    RefIdFromParams(EncodeTarget(c.target), c.target.refId, rest);
    TimeRangeFromText(s, c.timeRange.toTime);
  }

  // ---------------------------------------------------------------------
  // Alert
  // ---------------------------------------------------------------------

  /** `STATE_ALERTING` and `STATE_NO_DATA`. */
  const STATE_ALERTING := "alerting"
  const STATE_NO_DATA := "no_data"

  /**
   * An alert. Its conditions are the `AlertCondition`s it was built with,
   * or, once read back, the JSON list of their encodings.
   */
  datatype Alert = Alert(
    name: Json, message: Json, alertConditions: Slot<seq<AlertCondition>>, executionErrorState: Json,
    frequency: Json, handler: Json, noDataState: Json, notifications: Json)

  const ALERT_WIRE_NAMES: seq<string> := ["conditions"]
  const ALERT_RENAMED: seq<string> := ["alertConditions"]
  const ALERT_REST: seq<string> :=
    ["executionErrorState", "frequency", "handler", "message", "name", "noDataState", "notifications"]
  const ALERT_PARAMS: seq<string> := ALERT_RENAMED + ALERT_REST
  const ALERT_REQUIRED: set<string> := {"name", "message", "alertConditions"}

  lemma AlertKeysSeparate()
    ensures Separate(ALERT_WIRE_NAMES, ALERT_RENAMED, ALERT_REST)
  {
  }

  /** The list the conditions are written as. */
  function EncodeConditions(s: Slot<seq<AlertCondition>>): Json {
    match s
    case Raw(j) => j
    case Value(cs) => JArr(Map(EncodeAlertCondition, cs))
  }

  function AlertValues(a: Alert): (vals: seq<Json>)
    ensures |vals| == 8
  {
    [EncodeConditions(a.alertConditions), a.executionErrorState, a.frequency, a.handler,
     a.message, a.name, a.noDataState, a.notifications]
  }

  /** `Alert.to_json_data`. */
  function EncodeAlert(a: Alert): (e: Json)
    ensures WritesKeys(e, ALERT_WIRE_NAMES + ALERT_REST)
  {
    ObjectOfWrites(ALERT_WIRE_NAMES + ALERT_REST, AlertValues(a));
    JObj(ObjectOf(ALERT_WIRE_NAMES + ALERT_REST, AlertValues(a)))
  }

  /** The alert the arguments build; its conditions stay as the JSON passed. */
  function AlertOf(a: seq<Option<Json>>): Alert
    requires |a| == |ALERT_PARAMS|
  {
    Alert(Given(a[5], JNull), Given(a[4], JNull), Raw(Given(a[0], JNull)), Given(a[1], JStr(STATE_ALERTING)),
      Given(a[2], JStr("60s")), Given(a[3], JInt(1)), Given(a[6], JStr(STATE_NO_DATA)), Given(a[7], JArr([])))
  }

  /** `Alert.parse_json_data`: `conditions` renamed, then `cls(**new_data)`; the conditions are not parsed. */
  function DecodeAlert(data: Json): (r: Result<Alert>)
    ensures r.Ok? ==> r.value.alertConditions.Raw?
    ensures r.Ok? <==> DictOf(data).Ok? && CheckCall(TransformDict(DictOf(data).value,
      Renames(ALERT_WIRE_NAMES, ALERT_RENAMED)), ALERT_PARAMS, ALERT_REQUIRED).Ok?
  {
    var d :- DictOf(data);
    var m := TransformDict(d, Renames(ALERT_WIRE_NAMES, ALERT_RENAMED));
    var _ :- CheckCall(m, ALERT_PARAMS, ALERT_REQUIRED);
    Ok(AlertOf(Arguments(m, ALERT_PARAMS)))
  }

  /** What an alert reads back as: its conditions as the JSON they are written as. */
  function CanonAlert(a: Alert): Alert {
    a.(alertConditions := Raw(EncodeConditions(a.alertConditions)))
  }

  /** An alert reads back with its conditions left as JSON, and otherwise unchanged. */
  lemma AlertRoundTrip(a: Alert)
    ensures DecodeAlert(EncodeAlert(a)) == Ok(CanonAlert(a))
  {
    var vals := AlertValues(a);
    AlertKeysSeparate();
    BindRenamed(ALERT_WIRE_NAMES, ALERT_RENAMED, ALERT_REST, vals, ALERT_REQUIRED);
    assert AlertOf(Somes(vals)) == CanonAlert(a);
  }

  /** Re-encoding an alert that was read back writes the same JSON. */
  lemma AlertStable(a: Alert)
    ensures EncodeAlert(CanonAlert(a)) == EncodeAlert(a)
  {
    assert AlertValues(CanonAlert(a)) == AlertValues(a);
  }

  /**
   * The conditions left as JSON can be read one by one with
   * `AlertCondition.parse_json_data`, which gives back the conditions the
   * alert was built with when their time ranges are made of `Time`s.
   */
  lemma {:induction false} ConditionsRoundTrip(cs: seq<AlertCondition>)
    requires forall i | 0 <= i < |cs| :: ObjectBounds(cs[i].timeRange)
    ensures MapResult(DecodeAlertCondition, Map(EncodeAlertCondition, cs)) == Ok(cs)
  {
    if cs != [] {
      AlertConditionRoundTrip(cs[0]);
      ConditionsRoundTrip(cs[1..]);
      assert Map(EncodeAlertCondition, cs)[1..] == Map(EncodeAlertCondition, cs[1..]);
      assert [cs[0]] + cs[1..] == cs;
    }
  }
}
