/**
 * The inputs a dashboard declares under `__inputs`: a data source
 * (`DataSourceInput`) or a constant (`ConstantInput`), told apart by their
 * `type` tag through `INPUT_TYPES`.
 */
module Inputs {
  import opened Wire
  import opened Objects
  import opened Records
  import opened Dispatch

  /** `DATASOURCE_TYPE` and `CONSTANT_TYPE`. */
  const DATASOURCE_TYPE := "datasource"
  const CONSTANT_TYPE := "constant"

  // ---------------------------------------------------------------------
  // DataSourceInput
  // ---------------------------------------------------------------------

  /** A data source input; `labelText` is its `label` and `kind` its `type` attribute. */
  datatype DataSourceInput = DataSourceInput(
    name: Json, labelText: Json, pluginId: Json, pluginName: Json, description: string, kind: Json)

  const DATASOURCE_KEYS: seq<string> := ["name", "label", "pluginId", "pluginName", "description", "type"]
  const DATASOURCE_REQUIRED: set<string> := {"name", "label", "pluginId", "pluginName"}

  function DataSourceValues(i: DataSourceInput): (vals: seq<Json>)
    ensures |vals| == |DATASOURCE_KEYS|
  {
    [i.name, i.labelText, i.pluginId, i.pluginName, JStr(i.description), JStr(DATASOURCE_TYPE)]
  }

  /** `DataSourceInput.to_json_data`: the tag written is always "datasource". */
  function EncodeDataSourceInput(i: DataSourceInput): (e: Json)
    ensures WritesKeys(e, DATASOURCE_KEYS)
  {
    ObjectOfWrites(DATASOURCE_KEYS, DataSourceValues(i));
    JObj(ObjectOf(DATASOURCE_KEYS, DataSourceValues(i)))
  }

  /** `DataSourceInput.parse_json_data`: `cls(**data)`, with `description` a `str`. */
  function DecodeDataSourceInput(data: Json): (r: Result<DataSourceInput>)
    ensures r.Ok? <==> (data.JObj? && CheckCall(data.fields, DATASOURCE_KEYS, DATASOURCE_REQUIRED).Ok? &&
      ("description" in data.fields ==> data.fields["description"].JStr?))
    ensures r.Err? ==> r.error.TypeError?
  {
    var d :- Kwargs(data);
    var _ :- CheckCall(d, DATASOURCE_KEYS, DATASOURCE_REQUIRED);
    var a := Arguments(d, DATASOURCE_KEYS);
    var description :- StrArg(a[4], "");
    Ok(DataSourceInput(Given(a[0], JNull), Given(a[1], JNull), Given(a[2], JNull), Given(a[3], JNull),
      description, Given(a[5], JStr(DATASOURCE_TYPE))))
  }

  /** A data source input reads back with its type set to "datasource", and otherwise unchanged. */
  lemma DataSourceRoundTrip(i: DataSourceInput)
    ensures DecodeDataSourceInput(EncodeDataSourceInput(i)) == Ok(i.(kind := JStr(DATASOURCE_TYPE)))
  {
    BindAll(DATASOURCE_KEYS, DataSourceValues(i), DATASOURCE_REQUIRED);
  }

  // ---------------------------------------------------------------------
  // ConstantInput
  // ---------------------------------------------------------------------

  /** A constant input; `labelText` is its `label` and `kind` its `type` attribute. */
  datatype ConstantInput = ConstantInput(name: Json, labelText: Json, value: Json, description: string, kind: Json)

  const CONSTANT_KEYS: seq<string> := ["name", "label", "value", "description", "type"]
  const CONSTANT_REQUIRED: set<string> := {"name", "label", "value"}

  function ConstantValues(i: ConstantInput): (vals: seq<Json>)
    ensures |vals| == |CONSTANT_KEYS|
  {
    [i.name, i.labelText, i.value, JStr(i.description), JStr(CONSTANT_TYPE)]
  }

  /** `ConstantInput.to_json_data`: the tag written is always "constant". */
  function EncodeConstantInput(i: ConstantInput): (e: Json)
    ensures WritesKeys(e, CONSTANT_KEYS)
  {
    ObjectOfWrites(CONSTANT_KEYS, ConstantValues(i));
    JObj(ObjectOf(CONSTANT_KEYS, ConstantValues(i)))
  }

  /** `ConstantInput.parse_json_data`: `cls(**data)`, with `description` a `str`. */
  function DecodeConstantInput(data: Json): (r: Result<ConstantInput>)
    ensures r.Ok? <==> (data.JObj? && CheckCall(data.fields, CONSTANT_KEYS, CONSTANT_REQUIRED).Ok? &&
      ("description" in data.fields ==> data.fields["description"].JStr?))
    ensures r.Err? ==> r.error.TypeError?
  {
    var d :- Kwargs(data);
    var _ :- CheckCall(d, CONSTANT_KEYS, CONSTANT_REQUIRED);
    var a := Arguments(d, CONSTANT_KEYS);
    var description :- StrArg(a[3], "");
    Ok(ConstantInput(Given(a[0], JNull), Given(a[1], JNull), Given(a[2], JNull), description,
      Given(a[4], JStr(CONSTANT_TYPE))))
  }

  /** A constant input reads back with its type set to "constant", and otherwise unchanged. */
  lemma ConstantRoundTrip(i: ConstantInput)
    ensures DecodeConstantInput(EncodeConstantInput(i)) == Ok(i.(kind := JStr(CONSTANT_TYPE)))
  {
    BindAll(CONSTANT_KEYS, ConstantValues(i), CONSTANT_REQUIRED);
  }

  // ---------------------------------------------------------------------
  // Either input, and INPUT_TYPES
  // ---------------------------------------------------------------------

  datatype Input = DataSource(source: DataSourceInput) | Constant(constant: ConstantInput)

  function EncodeInput(i: Input): Json {
    match i
    case DataSource(s) => EncodeDataSourceInput(s)
    case Constant(c) => EncodeConstantInput(c)
  }

  function DataSourceAsInput(data: Json): Result<Input> {
    var s :- DecodeDataSourceInput(data);
    Ok(DataSource(s))
  }

  function ConstantAsInput(data: Json): Result<Input> {
    var c :- DecodeConstantInput(data);
    Ok(Constant(c))
  }

  /** `INPUT_TYPES`. */
  const INPUT_TYPES: map<string, Json -> Result<Input>> :=
    map[DATASOURCE_TYPE := DataSourceAsInput, CONSTANT_TYPE := ConstantAsInput]

  /** `parse_object(input, INPUT_TYPES)`. */
  function ParseInput(data: Json): (r: Result<Input>)
    ensures data.JObj? && TypeTag(data.fields) == JStr(DATASOURCE_TYPE) ==> r == Caught(DataSourceAsInput(data), JStr(DATASOURCE_TYPE))
    ensures data.JObj? && TypeTag(data.fields) == JStr(CONSTANT_TYPE) ==> r == Caught(ConstantAsInput(data), JStr(CONSTANT_TYPE))
    ensures data.JObj? && TypeTag(data.fields).JStr? && TypeTag(data.fields).s !in {DATASOURCE_TYPE, CONSTANT_TYPE}
      ==> r == Err(ParseJsonException(TypeTag(data.fields)))
  {
    ParseObject(data, INPUT_TYPES)
  }

  /** What an input reads back as: its type set to the tag its encoder wrote. */
  function CanonInput(i: Input): Input {
    match i
    case DataSource(s) => DataSource(s.(kind := JStr(DATASOURCE_TYPE)))
    case Constant(c) => Constant(c.(kind := JStr(CONSTANT_TYPE)))
  }

  /**
   * Every input carries its own tag, so `parse_object` hands it to its own
   * decoder, which reads it back with that tag as its type.
   */
  lemma InputRoundTrip(i: Input)
    ensures ParseInput(EncodeInput(i)) == Ok(CanonInput(i))
  {
    match i
    case DataSource(s) =>
      ObjectOfAt(DATASOURCE_KEYS, DataSourceValues(s), 5);
      DataSourceRoundTrip(s);
      ParseTagged(EncodeInput(i).fields, DATASOURCE_TYPE, INPUT_TYPES, CanonInput(i));
    case Constant(c) =>
      ObjectOfAt(CONSTANT_KEYS, ConstantValues(c), 4);
      ConstantRoundTrip(c);
      ParseTagged(EncodeInput(i).fields, CONSTANT_TYPE, INPUT_TYPES, CanonInput(i));
  }

  /** Each input encoder writes its own tag, whatever the stored `type`. */
  lemma InputTags(i: Input)
    ensures "type" in EncodeInput(i).fields
    ensures EncodeInput(i).fields["type"] == JStr(if i.DataSource? then DATASOURCE_TYPE else CONSTANT_TYPE)
  {
    match i
    case DataSource(s) =>
      ObjectOfAt(DATASOURCE_KEYS, DataSourceValues(s), 5);
    case Constant(c) =>
      ObjectOfAt(CONSTANT_KEYS, ConstantValues(c), 4);
  }
}
