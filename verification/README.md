# grafanalib core, modelled in Dafny

grafanalib describes Grafana dashboards as Python objects. Each object
serialises itself with `to_json_data`, and each class reads its own JSON back
with the class method `parse_json_data`. This project models the core of
`grafanalib/core.py` and proves what the code promises about it:

- `dicttransform` and `transform_dict`, the key renaming and value conversion
  that every decoder applies first;
- the `RGBA`, `RGB`, `Pixels` and `Percent` codecs, with the four regular
  expressions written out as hand-made matchers;
- every record's encoder and decoder:
  - the graph parts: grid, legend, target, tooltip, the axes, `to_y_axes`;
  - the single-stat parts: mapping, sparkline, value and range maps, gauge;
  - the alerting classes, the Evaluator factories and `AlertCondition`;
  - the dashboard parts: links, inputs, templates, time, time picker, rows;
  - the four panels and the dashboard itself;
- `parse_object`, with `PANEL_TYPES` and `INPUT_TYPES`;
- `_balance_panels`, which spreads a row's free width over the panels that
  have no span;
- `Dashboard.auto_panel_ids`, which numbers the panels that have no id.

JSON is the `Wire.Json` datatype. A JSON object is a `map<string, Json>`.
Python exceptions are the `Wire.Error` datatype, carried in a `Result`.

Each decoder is written as the code runs:

1. `dict(data)` or `cls(**data)`;
2. the converting rules, in the order they are listed;
3. the renamings;
4. the constructor's keyword check;
5. the validators, in attribute order.

Each class has a `CanonX` function: what an object reads back as. It fixes
the `type` tag the encoder always writes, and any attribute the encoder
derives.

The main results are these:

- **Round trip.** `DecodeX(EncodeX(x)) == Ok(CanonX(x))` for every record,
  up to the whole dashboard.
- **Stability.** Re-encoding what was read back writes the same JSON:
  `EncodeX(CanonX(x)) == EncodeX(x)`.
- **Balancing.** Panels that have a span keep it. The others get
  `ceil((12 - allotted) / unset)` columns each. Balancing twice is
  balancing once.
- **Panel ids.** `auto_panel_ids` changes only the panels without an id.
  Each gets the next number not already held, so the new ids are fresh,
  strictly increasing and leave no gaps. It is written both as a method with
  loops, as the source runs it, and as the function that specifies it.
- **Quirks.** The code's own quirks are stated as lemmas. Examples: a
  `Table` or `SingleStat` left without a height does not read back; a time
  range given as text cannot be decoded; an axis passed under its attribute
  name is rejected.

Files follow the source's classes:

| file | models |
|---|---|
| `wire.dfy` | JSON values, errors, Python coercions, `foreach` |
| `objects.dfy` | object literals; keyword binding (`cls(**d)`) |
| `records.dfy` | attribute validators; renaming many keys at once |
| `layout.dfy` | keyword binding for records with many groups of keys |
| `transform.dfy` | `dicttransform`, `transform_dict` |
| `numerals.dfy` | `str(int)` |
| `patterns.dfy` | the regular expressions of the codecs |
| `codecs.dfy` | `RGBA`, `RGB`, `Pixels`, `Percent` |
| `dispatch.dfy` | `parse_object` |
| `axes.dfy` | `XAxis`, `YAxis`, `YAxes`, `to_y_axes` |
| `timing.dfy` | `Time`, `TimePicker` |
| `templating.dfy` | `Annotations`, `Templating`, `Template` |
| `links.dfy` | `DashboardLink` |
| `inputs.dfy` | `DataSourceInput`, `ConstantInput`, `INPUT_TYPES` |
| `alerting.dfy` | `Evaluator` and its factories, `TimeRange`, `AlertCondition`, `Alert` |
| `graphparts.dfy` | `Grid`, `Legend`, `Target`, `Tooltip` |
| `graph.dfy` | `Graph` |
| `text.dfy` | `Text` |
| `table.dfy` | `Table` |
| `statparts.dfy` | `Mapping`, `SparkLine`, `ValueMap`, `RangeMap`, `Gauge` |
| `singlestat.dfy` | `SingleStat` |
| `panels.dfy` | the four panels as one type; `PANEL_TYPES` |
| `rows.dfy` | `_balance_panels`, `Row` |
| `dashboard.dfy` | `Dashboard` |
| `panelids.dfy` | `Dashboard._iter_panels`, `_map_panels`, `auto_panel_ids` |

## Model

| member | source | states |
|---|---|---|
| Transform.Rename | grafanalib/core.py:37-42 | `dicttransform(old, new)` keeps both keys; its transform is the identity on every value |
| Transform.Convert | grafanalib/core.py:37-42 | `dicttransform(key, transform=f)` has the new key equal to the old one, and `f` as its transform |
| Transform.ApplyTransforms | grafanalib/core.py:45-55 | the loop: pop each rule's old key when present, store the transformed value under the new key; the result is `TransformDict(data, rules)` |
| Transform.TransformDict | grafanalib/core.py:45-55 | `transform_dict` with no transformations returns the data unchanged |
| Transform.TransformDictSize | grafanalib/core.py:45-55 | each transformation pops one key and stores one, so the result has no more keys than the data |
| Transform.TransformDictKeys | grafanalib/core.py:45-55 | every key of the result was in the data or is the new key of one of the transformations |
| Transform.TransformDictEmpty | grafanalib/core.py:45-55 | an empty dict transforms to an empty dict |
| Transform.TransformDictUntouched | grafanalib/core.py:45-55 | a key that no rule names keeps its presence and its value |
| Transform.TransformDictIndependent | grafanalib/core.py:45-55 | when no two rules share a key, each acts on the original data: a present old key is replaced by the new key holding the transformed value; an absent old key leaves the new key as it was |
| Records.RenamesInObject | grafanalib/core.py:45-55 | renaming the keys of an object literal one rule after another gives the literal with the new keys, when no two rules clash |
| Wire.DictOf | grafanalib/core.py:50 | `dict(data)` succeeds exactly on an object, on `""` and on a list whose every element is a pair; an object is copied, `""` gives the empty dict, a list is read pair by pair |
| Wire.PairOf | grafanalib/core.py:50 | an element of the list `dict` reads is a pair exactly when it is a two-element list with a string key or a two-character string; a wrong length is a `ValueError`, a scalar a `TypeError` |
| Wire.DictOfPairs | grafanalib/core.py:50 | `dict` of a list succeeds exactly when every element is a pair |
| Wire.DictOfPairsKeys | grafanalib/core.py:50 | the dict built from a list of pairs has exactly the pairs' keys |
| Wire.DictOfPairsLast | grafanalib/core.py:50 | the value under a key is that of the last pair with that key |
| Wire.TwoCharacterPair | grafanalib/core.py:50 | `dict(["ab"])` is `{"a": "b"}` |
| Objects.DictOfPairList | grafanalib/core.py:50 | `dict` of a list of `[key, value]` pairs equals the dict literal with the same keys and values in the same order |
| Wire.Kwargs | grafanalib/core.py:376-377 | `cls(**data)` can spread only an object, and then its fields |
| Wire.Subscript | grafanalib/core.py:1045-1061 | `data[key]` succeeds exactly on an object holding `key`, with that value; a missing key is a `KeyError` |
| Wire.Item | grafanalib/core.py:533-536 | `data[i]`: an element of a list or a one-character string; past the end an `IndexError`; on an object a `KeyError` |
| Wire.Iterate | grafanalib/core.py:58-61 | iteration yields a list's elements, each character of a string as a one-character string, the one key of a one-key object, nothing for an empty object, and a `TypeError` on null, booleans and numbers |
| Wire.MapResult | grafanalib/core.py:58-61 | the comprehension succeeds exactly when `f` succeeds on every element, and then holds each result in order |
| Wire.Foreach | grafanalib/core.py:58-61 | `foreach(f)` on a list is the comprehension over its elements |
| Wire.ForeachOfMap | grafanalib/core.py:58-61 | decoding a list of encodings element by element gives the list of decoded elements, when each element survives its own round trip |
| Wire.Contains | grafanalib/core.py:828-833 | `key in c`: a key of an object, an element of a list, a substring of a string; an error exactly on null, booleans and numbers |
| Objects.CheckCall | grafanalib/core.py:376-377 | the keyword check of `cls(**d)` passes exactly when every key is a parameter and every required parameter is passed; otherwise a `TypeError` |
| Objects.Arguments | grafanalib/core.py:376-377 | the keyword arguments `cls(**d)` passes, by parameter: present exactly when the key is, with its value |
| Records.BindRenamed | grafanalib/core.py:45-55 | a record written under renamed keys: the renamings restore the attribute names, every value reaches its parameter, and the keyword check passes |
| Records.BoolArg | grafanalib/core.py:339-349 | `instance_of(bool)`: the default when nothing is passed; otherwise accepted exactly when a boolean, and then its value |
| Records.StrArg | grafanalib/core.py:668 | `instance_of(str)`: the default when nothing is passed; otherwise accepted exactly when a string |
| Records.IntArg | grafanalib/core.py:266 | `instance_of(int)`: the default when nothing is passed; otherwise accepted exactly for a Python `int`, which includes booleans |
| Records.OptIntArg | grafanalib/core.py:1235 | a panel's `id` or `span`: `null` is `None`, an integer is itself, nothing passed is the default |
| Records.Converted | grafanalib/core.py:1338-1362 | a converting rule: the default when the key is absent, otherwise exactly the converter's outcome, an error included |
| Records.Present | grafanalib/core.py:1338-1362 | a converting rule under another key: `None` when absent; otherwise it fails exactly when the converter fails, and holds its value |
| Records.Typed | grafanalib/core.py:1234 | an `instance_of(C)` attribute whose rule decodes it: the decoded value; the default when nothing was passed; a `TypeError` for raw JSON passed under the attribute's own name |
| Numerals.NatToString | grafanalib/core.py:123-124 | `str(n)` for `n >= 0`: non-empty digits, with a leading zero only for 0 |
| Numerals.IntToString | grafanalib/core.py:75-76 | `str(n)`: a minus sign exactly for a negative number |
| Numerals.DigitsValueOfNatToString | grafanalib/core.py:123-141 | reading back the digits `str` wrote gives the number |
| Patterns.FormatEnds | grafanalib/core.py:75-76 | a `str.format` result starts with the template's first literal text and ends with its last |
| Patterns.MatchFormat | grafanalib/core.py:78-94 | matching a pattern against what its template wrote gives back the arguments, when each fits its group |
| Patterns.MatchFromEndsWith | grafanalib/core.py:78-94 | a string a pattern matches ends in the pattern's last text |
| Patterns.AnchoredTrailingNewline | grafanalib/core.py:78-94 | `$` also matches before one final newline: the text with that newline matches as the text without it |
| Codecs.DecodeRgba | grafanalib/core.py:83-94 | `RGBA.parse_json_data` fails only with `ParseJsonException(data)`, or with a `TypeError` on a non-string |
| Codecs.EncodeRgba | grafanalib/core.py:75-76 | `RGBA.to_json_data` writes a string of the form `rgba(...)` |
| Codecs.DecodeRgb | grafanalib/core.py:109-116 | as `DecodeRgba`, for `RGB` |
| Codecs.EncodeRgb | grafanalib/core.py:103-104 | `RGB.to_json_data` writes a string of the form `rgb(...)` |
| Codecs.DecodePixels | grafanalib/core.py:129-141 | an integer is taken as it is, and so is a boolean, which `isinstance(data, int)` admits; `""` gives `None`, and nothing else does |
| Codecs.EncodePixels | grafanalib/core.py:123-124 | `Pixels.to_json_data` writes a string ending in `px` |
| Codecs.BoolPixelsUnreadable | grafanalib/core.py:119-141 | a boolean size is written `Truepx` or `Falsepx`, which the pattern rejects with `ParseJsonException` |
| Codecs.DecodePercent | grafanalib/core.py:154-164 | as `DecodeRgba`, for `Percent` |
| Codecs.EncodePercent | grafanalib/core.py:148-149 | `Percent.to_json_data` writes a string ending in `%` |
| Codecs.RgbaRoundTrip | grafanalib/core.py:69-94 | the text `RGBA.to_json_data` writes matches the pattern and reads back as the colour, for non-negative components and an alpha with a decimal point |
| Codecs.RgbRoundTrip | grafanalib/core.py:98-116 | the same for `RGB` |
| Codecs.PixelsRoundTrip | grafanalib/core.py:120-141 | the same for `Pixels` holding a whole number `num >= 0` |
| Codecs.PercentRoundTrip | grafanalib/core.py:145-164 | the same for an integer `Percent >= 0` |
| Codecs.RgbaTrailingNewline | grafanalib/core.py:78-94 | a colour followed by a newline is still accepted |
| Codecs.RgbaExponentAlphaRejected | grafanalib/core.py:75-94 | an alpha Python prints as `1e-05` has no decimal point, so the colour written is rejected |
| Codecs.ExponentAlphaUnmatched | grafanalib/core.py:78-94 | the `RGBA` pattern does not match a colour whose alpha has an exponent and no point |
| Codecs.BarePixels | grafanalib/core.py:126-141 | a bare number string without `px` reads as that many pixels |
| Dispatch.Caught | grafanalib/core.py:1764-1767 | a `KeyError` raised inside the chosen decoder becomes `ParseJsonException(tag)`; every other outcome passes through |
| Dispatch.ParseObject | grafanalib/core.py:1762-1767 | a non-object has no `get` (`AttributeError`); an unhashable tag is a `TypeError`; a missing or unknown tag is a `ParseJsonException` |
| Dispatch.ParseTagged | grafanalib/core.py:1762-1767 | an object with a known tag is decoded by that tag's decoder, and succeeds with its value |
| Dispatch.ParseUntagged | grafanalib/core.py:1762-1767 | an object with no tag or an unregistered one is rejected |
| Axes.ModeArg | grafanalib/core.py:459-464 | `is_valid_xaxis_mode` accepts exactly "time" and "series", otherwise a `ValueError` |
| Axes.XAxisWrites | grafanalib/core.py:475-478 | `XAxis.to_json_data` writes only `show`: the mode, name, values and buckets are not written |
| Axes.DecodeXAxis | grafanalib/core.py:481-482 | a decoded x axis has a valid mode and came from an object passing the keyword check |
| Axes.XAxisRoundTrip | grafanalib/core.py:467-482 | an x axis reads back with its `show` flag and every other attribute at its default |
| Axes.XAxisStable | grafanalib/core.py:475-478 | re-encoding a read-back x axis writes the same JSON |
| Axes.XAxisModeChecked | grafanalib/core.py:459-464 | a mode passed alone is accepted exactly when valid |
| Axes.EncodeYAxis | grafanalib/core.py:499-508 | `YAxis.to_json_data` writes an object whose keys are exactly its seven attributes |
| Axes.DecodeYAxis | grafanalib/core.py:511-512 | a decoded y axis came from an object passing the keyword check; every failure is a `TypeError` |
| Axes.YAxisRoundTrip | grafanalib/core.py:486-512 | a y axis survives its encoding unchanged |
| Axes.YAxesWrites | grafanalib/core.py:526-530 | `YAxes.to_json_data` writes a list of two axis objects, left then right, each with every `YAxis` key |
| Axes.DecodeYAxes | grafanalib/core.py:533-536 | an object is a `KeyError(0)`; only a list or a string can succeed |
| Axes.YAxesPositional | grafanalib/core.py:533-536 | for a list of two or more: left from element 0, right from element 1, later elements ignored |
| Axes.YAxesShort | grafanalib/core.py:533-536 | the empty list is `IndexError(0)`; a one-element list fails with its left axis's error, or with `IndexError(1)` when that axis reads |
| Axes.YAxesTooShort | grafanalib/core.py:533-536 | a one-element list lacks its right axis |
| Axes.YAxesRoundTrip | grafanalib/core.py:516-536 | a pair of axes survives its encoding unchanged |
| Axes.ToYAxes | grafanalib/core.py:549-573 | a `YAxes` passes through without a warning; a list or tuple must have exactly two elements; anything else is a `ValueError` |
| Axes.ToYAxesRejectsJson | grafanalib/core.py:549-573 | raw JSON never gets through: a two-element list fails with a `TypeError` from the check on its items, anything else with a `ValueError` |
| Axes.ToYAxesAgree | grafanalib/core.py:549-573 | the two-element list and the `YAxes` it stands for give the same axes |
| Timing.DecodeTime | grafanalib/core.py:864-871 | succeeds exactly when `dict(data)`, renamed (`from` to `start`, `to` to `end`), passes the keyword check with both bounds required; a failing `dict(data)` keeps its error |
| Timing.EncodeTime | grafanalib/core.py:857-861 | `Time.to_json_data` writes an object whose keys are exactly `from` and `to` |
| Timing.TimeRoundTrip | grafanalib/core.py:853-871 | a time range survives its encoding unchanged |
| Timing.TimeFromPairs | grafanalib/core.py:864-871 | a list of pairs `[["from", a], ["to", b]]` reads as `Time(a, b)` |
| Timing.TimeFromString | grafanalib/core.py:864-871 | a string is never read as a time: `""` gives a `TypeError`, any other string a `ValueError` |
| Timing.DecodeTimePicker | grafanalib/core.py:900-907 | succeeds exactly when `dict(data)`, renamed, passes the keyword check with `refreshIntervals` and `timeOptions` required |
| Timing.EncodeTimePicker | grafanalib/core.py:888-897 | `TimePicker.to_json_data` writes exactly `refresh_intervals`, `time_options`, `collapse`, `enable`, `notice`, `now` and `status` |
| Timing.TimePickerRoundTrip | grafanalib/core.py:878-907 | a time picker reads back unchanged except for its `type` |
| Templates.DecodeList | grafanalib/core.py:848-849 | `cls(**data)` with the one attribute `list`: its value or `[]`; a `TypeError` otherwise |
| Templates.EncodeAnnotations | grafanalib/core.py:652-655 | `Annotations.to_json_data` writes an object whose one key is `list` |
| Templates.EncodeTemplating | grafanalib/core.py:842-845 | `Templating.to_json_data` writes an object whose one key is `list` |
| Templates.DecodeAnnotations | grafanalib/core.py:658-659 | succeeds exactly when the `list` record decodes |
| Templates.DecodeTemplating | grafanalib/core.py:848-849 | succeeds exactly when the `list` record decodes |
| Templates.ListsRoundTrip | grafanalib/core.py:649-659 | annotations and templating survive their encoding unchanged |
| Templates.PopCurrent | grafanalib/core.py:828-833 | without `current` the dict is unchanged; an object `current` is popped and its `text`, else its `value`, becomes `default` |
| Templates.CallTemplate | grafanalib/core.py:755-795 | success implies the keyword check passed; every failure is a `TypeError` |
| Templates.DecodeTemplate | grafanalib/core.py:822-835 | a `dict(data)` failure is the decoder's error; success implies that popping `current` and the keyword check passed |
| Templates.EncodeTemplate | grafanalib/core.py:797-819 | `Template.to_json_data` writes an object whose keys are exactly those of its dict literal |
| Templates.TemplateRoundTrip | grafanalib/core.py:755-835 | a template reads back with type "query" and its default taken from `current.text` |
| Templates.TemplateStable | grafanalib/core.py:797-819 | re-encoding a read-back template writes the same JSON |
| Templates.DefaultFromCurrent | grafanalib/core.py:828-833 | the default comes from `current.text`, else `current.value`; a `current` with neither leaves `default` missing |
| Links.LinkArguments | grafanalib/core.py:742-751 | after the renaming, `url` is popped: the constructor never sees it |
| Links.DecodeLink | grafanalib/core.py:742-751 | a decoded link's `url` is null; success implies its renamed, popped dict passed the keyword check |
| Links.LinkTitle | grafanalib/core.py:726 | the title written is null only when both the title and the dashboard name are; a set title is kept |
| Links.EncodeLink | grafanalib/core.py:725-739 | `DashboardLink.to_json_data` writes an object whose keys are exactly those of its dict literal, `dashUri` among them |
| Links.LinkRoundTrip | grafanalib/core.py:709-751 | a link reads back with its title filled in and its `url` dropped, and otherwise unchanged |
| Links.LinksRoundTrip | grafanalib/core.py:709-751 | a list of links reads back as what each link reads back as |
| Links.LinkStable | grafanalib/core.py:725-739 | re-encoding a read-back link writes the same JSON |
| Links.LinkEncodingKeys | grafanalib/core.py:725-739 | the `uri` is written under both `dashUri` and `url`; the title is the stored one, or the dashboard's name when unset |
| Links.LinksStable | grafanalib/core.py:725-739 | the same for a list of links |
| Inputs.DecodeDataSourceInput | grafanalib/core.py:682-683 | succeeds exactly on an object passing the keyword check whose `description`, when given, is a string; every failure a `TypeError` |
| Inputs.EncodeDataSourceInput | grafanalib/core.py:671-679 | writes exactly `name`, `label`, `pluginId`, `pluginName`, `description` and `type` |
| Inputs.DataSourceRoundTrip | grafanalib/core.py:663-683 | a data source input reads back with type "datasource", otherwise unchanged |
| Inputs.DecodeConstantInput | grafanalib/core.py:704-705 | as `DecodeDataSourceInput`, for constants |
| Inputs.EncodeConstantInput | grafanalib/core.py:694-701 | writes exactly `name`, `label`, `value`, `description` and `type` |
| Inputs.ConstantRoundTrip | grafanalib/core.py:687-705 | a constant input reads back with type "constant", otherwise unchanged |
| Inputs.ParseInput | grafanalib/core.py:1756-1767 | an input goes to the decoder of its tag; an unknown tag is rejected |
| Inputs.InputRoundTrip | grafanalib/core.py:663-705 | every input carries its own tag, so `parse_object` hands it to its own decoder |
| Inputs.InputTags | grafanalib/core.py:671-701 | each input encoder writes its own tag, whatever the stored `type` |
| Alerting.DecodeEvaluator | grafanalib/core.py:949-950 | succeeds exactly on an object with `type` and `params` and no other key, and holds them |
| Alerting.EncodeEvaluator | grafanalib/core.py:942-946 | `Evaluator.to_json_data` writes an object whose keys are exactly `type` and `params` |
| Alerting.GreaterThan | grafanalib/core.py:953-954 | the evaluator is written as `{"type": "gt", "params": [value]}` |
| Alerting.LowerThan | grafanalib/core.py:957-958 | the evaluator is written as `{"type": "lt", "params": [value]}` |
| Alerting.WithinRange | grafanalib/core.py:961-962 | the evaluator is written as `{"type": "within_range", "params": [from_value, to_value]}` |
| Alerting.OutsideRange | grafanalib/core.py:965-966 | the evaluator is written as `{"type": "outside_range", "params": [from_value, to_value]}` |
| Alerting.NoValue | grafanalib/core.py:969-970 | the evaluator is written as `{"type": "no_value", "params": []}` |
| Alerting.EvaluatorRoundTrip | grafanalib/core.py:938-950 | an evaluator survives its encoding unchanged |
| Alerting.FactoriesDistinct | grafanalib/core.py:953-970 | the five factories never build the same evaluator; `WithinRange` and `GreaterThan` read back with their thresholds as `params` |
| Alerting.DecodeTimeRange | grafanalib/core.py:992-996 | the first two items, each read as a `Time`; success exactly when both read |
| Alerting.TimeRangeWrites | grafanalib/core.py:988-989 | `TimeRange.to_json_data` writes the list `[from_time, to_time]`; a bound that is a `Time` is written as a `from`/`to` object, any other value as it is |
| Alerting.TimeRangeRoundTrip | grafanalib/core.py:974-996 | a range whose bounds are `Time`s survives its encoding unchanged |
| Alerting.TimeRangeFromText | grafanalib/core.py:974-996 | a range given as documented, by strings such as "5m", cannot be read back |
| Alerting.TypeOf | grafanalib/core.py:1045-1061 | `x['type']` succeeds exactly on an object holding `type` |
| Alerting.ReadQuery | grafanalib/core.py:1053-1059 | the query step yields a range whose bounds are `Time`s |
| Alerting.ReadCondition | grafanalib/core.py:1045-1061 | success implies the dict held `query`; the range read has `Time` bounds |
| Alerting.QueryRoundTrip | grafanalib/core.py:1024-1061 | the `query` written for a condition whose bounds are `Time`s reads back as its target and range |
| Alerting.QueryFromText | grafanalib/core.py:1024-1061 | a `query` written for a range given as text cannot be read back |
| Alerting.CallAlertCondition | grafanalib/core.py:1000-1022 | success implies the keyword check passed; target and range come from the query, and the evaluator is the one passed |
| Alerting.DecodeAlertCondition | grafanalib/core.py:1045-1061 | a decoded condition's range has `Time` bounds |
| Alerting.EncodeAlertCondition | grafanalib/core.py:1024-1042 | `AlertCondition.to_json_data` writes an object whose keys are exactly those of its dict literal |
| Alerting.AlertConditionRoundTrip | grafanalib/core.py:1000-1061 | a condition whose range is made of `Time`s survives its encoding unchanged |
| Alerting.ConditionLayout | grafanalib/core.py:1024-1042 | the query carries the target; its `params` are the target's `refId` and the two bounds; the reducer's `params` are empty |
| Alerting.RefIdFromParams | grafanalib/core.py:1053-1059 | the first of `params` overrides the `refId` of the target read from `model`; the rest are the range |
| Alerting.AlertConditionFromText | grafanalib/core.py:1000-1061 | a condition whose range was given as text does not survive its encoding |
| Alerting.DecodeAlert | grafanalib/core.py:1089-1095 | the conditions are renamed but stay raw JSON |
| Alerting.EncodeAlert | grafanalib/core.py:1076-1086 | `Alert.to_json_data` writes an object whose keys are exactly those of its dict literal |
| Alerting.AlertRoundTrip | grafanalib/core.py:1065-1095 | an alert reads back with its conditions as JSON, otherwise unchanged |
| Alerting.AlertStable | grafanalib/core.py:1076-1086 | re-encoding a read-back alert writes the same JSON |
| Alerting.ConditionsRoundTrip | grafanalib/core.py:1065-1095 | the raw conditions read one by one give back the conditions the alert was built with |
| GraphParts.DecodeGrid | grafanalib/core.py:328-334 | success implies `dict(data)` succeeded and its keys passed the keyword check; a failing `dict(data)` fails the decoder |
| GraphParts.EncodeGrid | grafanalib/core.py:313-325 | `Grid.to_json_data` writes an object whose keys are exactly those of its dict literal |
| GraphParts.GridRoundTrip | grafanalib/core.py:300-334 | a grid whose two colours can be read back survives its encoding unchanged |
| GraphParts.GridColours | grafanalib/core.py:313-334 | both colours of an encoded grid read back as they were |
| GraphParts.DecodeLegend | grafanalib/core.py:376-377 | success implies an object whose keys pass the keyword check; every failure is a `TypeError` |
| GraphParts.LegendRoundTrip | grafanalib/core.py:338-377 | a legend reads back with its `values` flag made explicit |
| GraphParts.LegendStable | grafanalib/core.py:354-373 | re-encoding a read-back legend writes the same JSON |
| GraphParts.LegendValuesKey | grafanalib/core.py:354-356 | `values` is the stored flag, or when unset `avg or current or max or min` (`total` excluded) |
| GraphParts.LegendValuesWritten | grafanalib/core.py:354-356 | the `values` flag is never null: a stored one is kept, an unset one is a boolean true exactly when one of `avg`, `current`, `max`, `min` is shown; storing the flag written leaves it unchanged |
| GraphParts.EncodeLegend | grafanalib/core.py:354-373 | `Legend.to_json_data` writes an object whose keys are exactly its fourteen keys |
| GraphParts.DecodeTarget | grafanalib/core.py:430-431 | succeeds exactly on an object passing the keyword check with `expr` required, and keeps that `expr`; every failure a `TypeError` |
| GraphParts.EncodeTarget | grafanalib/core.py:405-427 | `Target.to_json_data` writes an object whose keys are exactly those of its dict literal |
| GraphParts.TargetRoundTrip | grafanalib/core.py:381-431 | a target survives its encoding unchanged |
| GraphParts.TargetsRoundTrip | grafanalib/core.py:381-431 | a list of targets survives its encoding unchanged |
| GraphParts.DecodeTooltip | grafanalib/core.py:451-456 | success implies `dict(data)` succeeded and, after `value_type` is renamed to `valueType`, passed the keyword check |
| GraphParts.EncodeTooltip | grafanalib/core.py:442-448 | writes exactly `value_type`, `msResolution`, `shared` and `sort` |
| GraphParts.TooltipRoundTrip | grafanalib/core.py:435-456 | a tooltip survives its encoding unchanged |
| GraphPanel.GraphRules | grafanalib/core.py:1338-1362 | the converting rules: targets, alert and both axes are decoded exactly when their keys are present |
| GraphPanel.AxesArg | grafanalib/core.py:1261-1266 | `to_y_axes` on `yAxes`: decoded axes pass through; raw JSON is rejected |
| GraphPanel.CallGraph | grafanalib/core.py:1223-1282 | success implies the keyword check passed with `targets` given; `fill` is an `int`; alert and targets are the converted ones |
| GraphPanel.DecodeGraph | grafanalib/core.py:1338-1362 | a `dict(data)` failure, and then the first failing converting rule, is the decoder's error; a decoded graph's `fill` is an `int` |
| GraphPanel.EncodeGraph | grafanalib/core.py:1284-1335 | `Graph.to_json_data` writes an object whose keys are exactly those of its dict literal, with `alert` only when an alert is set |
| GraphPanel.GraphRoundTrip | grafanalib/core.py:1223-1362 | a readable graph reads back with its parts as their decoders give them and its type "graph" |
| GraphPanel.GraphTags | grafanalib/core.py:1316-1335 | `alert` is written exactly when the graph has one; the tag is always "graph" |
| GraphPanel.GraphStable | grafanalib/core.py:1284-1335 | what a graph reads back as encodes exactly as the graph |
| GraphPanel.GraphRejectsRawAxes | grafanalib/core.py:1338-1362 | an axis passed under its attribute name is raw JSON, which the constructor rejects |
| GraphPanel.CallGraphRejectsRawAxes | grafanalib/core.py:1261-1266 | the constructor rejects an axis that reaches it as raw JSON |
| TextPanel.TextLinksRule | grafanalib/core.py:1493-1503 | `links` is decoded exactly when present, and succeeds exactly when the links decode |
| TextPanel.CallText | grafanalib/core.py:1456-1472 | success implies the keyword check passed; `content` is the one passed; links default to `[]`; every failure a `TypeError` |
| TextPanel.CallTextAccepts | grafanalib/core.py:1456-1472 | exactly which keywords the constructor accepts |
| TextPanel.DecodeText | grafanalib/core.py:1493-1503 | success implies that `dict(data)` succeeded and holds `content`, which the panel keeps |
| TextPanel.EncodeText | grafanalib/core.py:1474-1490 | `Text.to_json_data` writes an object whose keys are exactly those of its dict literal |
| TextPanel.TextRoundTrip | grafanalib/core.py:1456-1503 | a text panel reads back with its links decoded and its type "text"; all else unchanged |
| TextPanel.TextTags | grafanalib/core.py:1474-1490 | the tag written is always "text" |
| TextPanel.TextStable | grafanalib/core.py:1474-1490 | what a text panel reads back as encodes as the panel |
| TextPanel.TextRejectsBadLinks | grafanalib/core.py:1493-1503 | links that do not decode stop the decoder with their own error |
| TablePanel.TableRules | grafanalib/core.py:1731-1746 | targets and height decoded exactly when present; a failing `targets` stops the decoder with its own error |
| TablePanel.CallTable | grafanalib/core.py:1680-1702 | every keyword must be a parameter; targets as converted; height `None` when not given |
| TablePanel.DecodeTable | grafanalib/core.py:1731-1746 | a `dict(data)` failure, and then the first failing converting rule, is the decoder's error; success implies the keyword check passed |
| TablePanel.EncodeTable | grafanalib/core.py:1704-1728 | `Table.to_json_data` writes an object whose keys are exactly those of its dict literal |
| TablePanel.TableRoundTrip | grafanalib/core.py:1680-1746 | a table with targets and height reads back with its links decoded and its type "table" |
| TablePanel.TableTags | grafanalib/core.py:1704-1728 | the tag written is always "table" |
| TablePanel.TableStable | grafanalib/core.py:1704-1728 | what a table reads back as encodes as the table |
| TablePanel.NullTargetsRejected | grafanalib/core.py:1731-1746 | `targets: null` cannot be iterated: a `TypeError` |
| TablePanel.NullHeightRejected | grafanalib/core.py:129-141 | `height: null` is a `TypeError` from `Pixels.parse_json_data` |
| TablePanel.TableWithoutTargets | grafanalib/core.py:1686-1746 | a table left with its default targets, `None`, does not read back |
| TablePanel.TableWithoutHeight | grafanalib/core.py:1686-1746 | a table left with its default height, `None`, does not read back |
| StatParts.DecodeMapping | grafanalib/core.py:275-276 | succeeds exactly on an object with `name` and `value`, no other key, and an `int` value; every failure a `TypeError` |
| StatParts.EncodeMapping | grafanalib/core.py:268-272 | writes exactly `name` and `value` |
| StatParts.MappingRoundTrip | grafanalib/core.py:263-276 | a mapping whose value is an `int` survives unchanged |
| StatParts.DecodeSparkLine | grafanalib/core.py:1381-1388 | success implies `dict(data)` succeeded and its keys passed the keyword check |
| StatParts.EncodeSparkLine | grafanalib/core.py:1372-1378 | writes exactly `fillColor`, `full`, `lineColor` and `show` |
| StatParts.SparkLineRoundTrip | grafanalib/core.py:1366-1388 | a sparkline whose colours can be read back survives unchanged |
| StatParts.DecodeValueMap | grafanalib/core.py:1405-1406 | succeeds exactly on an object holding `op`, `text` and `value` and no other key; every failure a `TypeError` |
| StatParts.EncodeValueMap | grafanalib/core.py:1397-1402 | writes exactly `op`, `text` and `value` |
| StatParts.ValueMapRoundTrip | grafanalib/core.py:1392-1406 | a value map survives unchanged |
| StatParts.DecodeRangeMap | grafanalib/core.py:1423-1429 | succeeds exactly when `dict(data)`, with `from` and `to` renamed to `start` and `end`, passes the keyword check with `start`, `end` and `text` required |
| StatParts.EncodeRangeMap | grafanalib/core.py:1415-1420 | writes exactly `from`, `to` and `text` |
| StatParts.RangeMapRoundTrip | grafanalib/core.py:1410-1429 | a range map survives unchanged |
| StatParts.DecodeGauge | grafanalib/core.py:1451-1452 | succeeds exactly on an object whose keys pass the keyword check, whose bounds, when given, are `int`s and whose flags, when given, are booleans; every failure a `TypeError` |
| StatParts.EncodeGauge | grafanalib/core.py:1441-1448 | writes exactly `minValue`, `maxValue`, `show`, `thresholdLabels` and `thresholdMarkers` |
| StatParts.GaugeRoundTrip | grafanalib/core.py:1433-1452 | a gauge with `int` bounds survives unchanged |
| StatParts.ColorsRoundTrip | grafanalib/core.py:1648-1676 | colours that each read back survive as a list |
| StatParts.MappingsRoundTrip | grafanalib/core.py:1648-1676 | mappings with `int` values survive as a list |
| StatParts.ValueMapsRoundTrip | grafanalib/core.py:1648-1676 | value maps survive as a list |
| StatParts.RangeMapsRoundTrip | grafanalib/core.py:1648-1676 | range maps survive as a list |
| StatPanel.StatRules | grafanalib/core.py:1648-1676 | targets and height decoded exactly when present; a decoded gauge has `int` bounds |
| StatPanel.CallStat | grafanalib/core.py:1507-1600 | success implies the keyword check passed with `targets` given; height `None` and gauge the default when not given |
| StatPanel.DecodeStat | grafanalib/core.py:1648-1676 | a decoded panel's gauge has `int` bounds |
| StatPanel.EncodeStat | grafanalib/core.py:1602-1645 | `SingleStat.to_json_data` writes an object whose keys are exactly those of its dict literal |
| StatPanel.StatRoundTrip | grafanalib/core.py:1507-1676 | a readable single-stat panel reads back with its links decoded and its type "singlestat" |
| StatPanel.StatTags | grafanalib/core.py:1602-1645 | the tag written is always "singlestat" |
| StatPanel.StatStable | grafanalib/core.py:1602-1645 | what a single-stat panel reads back as encodes as the panel |
| StatPanel.StatRulesRejectNullHeight | grafanalib/core.py:129-141 | `height: null` is a `TypeError` once the six rules before it decoded |
| StatPanel.StatRulesStopAtHeight | grafanalib/core.py:1648-1676 | the rules stop at `height` with its own error when the six rules before it succeed |
| StatPanel.DecodeStatRejected | grafanalib/core.py:1648-1676 | a literal the rules reject is not decoded, and the error is the rules' own |
| StatPanel.StatWithoutHeight | grafanalib/core.py:1570-1676 | a panel left with its default height, `None`, does not read back |
| Panels.ParsePanel | grafanalib/core.py:1749-1767 | `parse_object(panel, PANEL_TYPES)`; a non-object is rejected |
| Panels.ParsePanelTagged | grafanalib/core.py:1749-1767 | a tagged panel goes to that panel's decoder, a `KeyError` turned into an unknown type |
| Panels.ParsePanelUnknown | grafanalib/core.py:1762-1767 | a missing or other tag is a `ParseJsonException` |
| Panels.CanonPanel | grafanalib/core.py:1749-1754 | reading back keeps a panel's kind, `id` and `span` |
| Panels.PanelTags | grafanalib/core.py:1749-1754 | each panel encoder writes the tag its class is registered under |
| Panels.PanelRoundTrip | grafanalib/core.py:1749-1767 | a readable panel of any kind reads back through its tag |
| Panels.ParsePanelOfTag | grafanalib/core.py:1762-1767 | an object carrying a registered panel tag reads back as that panel's decoder reads it |
| Panels.PanelStable | grafanalib/core.py:1749-1767 | what a panel reads back as encodes as the panel |
| Panels.WithId | grafanalib/core.py:1163-1164 | `attr.assoc(panel, id=i)` sets the id and keeps span and kind |
| Panels.WithSpan | grafanalib/core.py:580-585 | `attr.assoc(panel, span=n)` sets the span and keeps id and kind |
| Rows.CeilDiv | grafanalib/core.py:580-582 | `math.ceil(a / b)`: `(q - 1) * b < a <= q * b` |
| Rows.UnsetSpans | grafanalib/core.py:579 | the number of unset spans is 0 exactly when all are set |
| Rows.Spans | grafanalib/core.py:578-579 | the spans of a row's panels, in order |
| Rows.AllottedBounds | grafanalib/core.py:578 | `allotted_spans` is 0 when no span is set, and not negative when no set span is |
| Rows.AutoSpanShares | grafanalib/core.py:580-581 | `auto_span` is the room left divided among the unset spans, rounded up; with none unset it is the room left itself |
| Rows.FilledSpans | grafanalib/core.py:580-585 | after balancing, each unset span is `auto` and every set one is kept |
| Rows.FillSpan | grafanalib/core.py:583-585 | one panel of the comprehension: a set span stays; an unset one becomes `auto`, with nothing else changed |
| Rows.BalancePanels | grafanalib/core.py:576-585 | same length and order; panels with a span unchanged; the others get the automatic span; ids and kinds kept |
| Rows.BalanceSetsSpans | grafanalib/core.py:576-585 | no span is left unset |
| Rows.BalanceIdempotent | grafanalib/core.py:576-585 | panels whose spans are all set are unchanged; balancing twice is balancing once |
| Rows.FilledAllotted | grafanalib/core.py:576-585 | filling the unset spans adds `auto` per span filled |
| Rows.BalanceFillsRow | grafanalib/core.py:576-585 | with some span unset, the spans reach 12 and overshoot by less than one per panel filled |
| Rows.FilledFillsRow | grafanalib/core.py:576-585 | with the automatic span, the filled spans reach 12 and overshoot by less than one per span filled |
| Rows.BalanceThreeUnset | grafanalib/core.py:576-585 | three panels without spans get 4 each |
| Rows.BalanceHalfSet | grafanalib/core.py:576-585 | [6, None, None] becomes [6, 3, 3] |
| Rows.BalanceOverfull | grafanalib/core.py:576-585 | the width is not clamped: [10, 10, None] gives the third -8 |
| Rows.NewRow | grafanalib/core.py:589-605 | the `panels` converter balances the panels given |
| Rows.HeightArg | grafanalib/core.py:599 | `instance_of(Pixels)`: the default when absent; `None` (from `""`) rejected with a `TypeError` |
| Rows.RowRules | grafanalib/core.py:635-645 | `panels` and `height` decoded exactly when present |
| Rows.CallRow | grafanalib/core.py:589-605 | keyword check, panels balanced, validators; every failure a `TypeError` |
| Rows.DecodeRow | grafanalib/core.py:635-645 | success implies that `dict(data)` succeeded and that the row's panels all have spans |
| Rows.EncodeRow | grafanalib/core.py:613-632 | `Row.to_json_data` writes an object whose keys are exactly those of its dict literal |
| Rows.PanelsRoundTrip | grafanalib/core.py:635-645 | a row's panels read back as each reads back |
| Rows.RowRoundTrip | grafanalib/core.py:589-645 | a readable row reads back with its panels read back and its derived title and `showTitle` |
| Rows.RowTitles | grafanalib/core.py:613-620 | the title is the stored one or "New row"; `showTitle` is the stored one, else whether a title is set |
| Rows.RowStable | grafanalib/core.py:613-632 | what a row reads back as encodes as the row |
| Rows.PanelsStable | grafanalib/core.py:613-632 | panels read back encode as the panels |
| Dashboards.InputsRoundTrip | grafanalib/core.py:1197-1200 | inputs read back each through its tag |
| Dashboards.RowsRoundTrip | grafanalib/core.py:1193-1219 | readable rows read back as each reads back |
| Dashboards.DashboardRules | grafanalib/core.py:1193-1219 | the converting rules in rule order; inputs, rows and time picker present exactly when their keys are; an inputs error propagates |
| Dashboards.Validate | grafanalib/core.py:1104-1138 | the validators in attribute order; a time picker not decoded is rejected; every failure a `TypeError` |
| Dashboards.InputsArg | grafanalib/core.py:1118-1119 | the inputs attribute: those decoded from `__inputs`, else what was passed as `inputs`, else `[]` |
| Dashboards.CallDashboard | grafanalib/core.py:1099-1142 | keyword check with `title` and `rows` required, then the validators |
| Dashboards.NewDashboard | grafanalib/core.py:1099-1142 | `Dashboard(title, rows)` keeps the title and rows and holds every other attribute's default |
| Dashboards.DecodeDashboard | grafanalib/core.py:1193-1219 | success implies `dict(data)` succeeded and held `rows` |
| Dashboards.EncodeDashboard | grafanalib/core.py:1167-1190 | `Dashboard.to_json_data` writes an object whose keys are exactly those of its dict literal, `__inputs` and `timepicker` among them |
| Dashboards.DashboardRoundTrip | grafanalib/core.py:1099-1219 | a readable dashboard reads back with inputs tagged, rows, panels and links as their decoders give them, and the time picker's type fixed |
| Dashboards.RowsRequired | grafanalib/core.py:1101-1102 | without `rows` the constructor call fails with a `TypeError` |
| Dashboards.InputsUnderOwnName | grafanalib/core.py:1118 | inputs passed as `inputs` are not decoded: the dashboard holds the JSON as passed |
| Dashboards.TimePickerUnderOwnName | grafanalib/core.py:1136-1138 | a time picker passed as `timePicker` is not decoded, so the validator rejects it |
| PanelIds.TakenIds | grafanalib/core.py:1160 | the ids held: 0 is never among them, and every truthy id is |
| PanelIds.DashboardPanels | grafanalib/core.py:1144-1147 | `_iter_panels` visits every panel of every row, and nothing else |
| PanelIds.NextFree | grafanalib/core.py:1161 | `next(auto_ids)` from `n`: the least `k >= n` not held |
| PanelIds.NextFreeUnique | grafanalib/core.py:1161 | that least free number is the only one with its properties |
| PanelIds.NextFreeSkip | grafanalib/core.py:1161 | a held number is skipped |
| PanelIds.AssignIds | grafanalib/core.py:1163-1165 | panels with an id kept; each other gets a fresh id between the counter's old and new positions |
| PanelIds.AssignRowIds | grafanalib/core.py:1149-1150 | `_map_panels(set_id)` keeps the rows and replaces only the panels |
| PanelIds.CollectIds | grafanalib/core.py:1144-1147 | the loop over all rows and panels collects exactly the held ids |
| PanelIds.NumberPanels | grafanalib/core.py:1161-1165 | the loop over one row's panels with the shared counter gives `AssignIds` |
| PanelIds.AutoPanelIds | grafanalib/core.py:1152-1165 | the method gives `WithPanelIds(b)` |
| PanelIds.WithPanelIds | grafanalib/core.py:1152-1165 | `auto_panel_ids` changes only the rows' panels, keeping the number of rows and of panels in each |
| PanelIds.AssignIdsConcat | grafanalib/core.py:1161-1165 | numbering two lists in turn numbers their concatenation |
| PanelIds.AssignRowsFlat | grafanalib/core.py:1144-1150 | numbering row by row numbers all panels in row-then-panel order |
| PanelIds.AssignedIncreasing | grafanalib/core.py:1161-1165 | the ids handed out grow strictly |
| PanelIds.AssignedNoGaps | grafanalib/core.py:1161-1165 | every free number the counter passed was handed out |
| PanelIds.AutoIdsKeepRows | grafanalib/core.py:1152-1165 | rows, their other attributes and their panel counts are kept |
| PanelIds.AutoIdsFresh | grafanalib/core.py:1152-1165 | panels with an id are unchanged; each other gets a positive id not held before, and nothing else changes |
| PanelIds.AutoIdsIncreasing | grafanalib/core.py:1152-1165 | the new ids grow strictly in row-then-panel order, so they are distinct |
| PanelIds.AutoIdsNoGaps | grafanalib/core.py:1152-1165 | below any new id, every positive number not held was handed out |
| PanelIds.AutoIdsExample | grafanalib/core.py:1152-1165 | ids 2, unset, unset, 5 become 2, 1, 3, 5 |

## Left out

- Floating point. The `RGBA` alpha is kept as the numeral Python prints.
  `Percent` is an integer. Number formatting and parsing are not modelled.
- Rows.CeilDiv, Rows.AutoSpan: the division `(TOTAL_SPAN - allotted_spans) /
  (len(no_span_set) or 1)` is exact in the model, then rounded up. Python
  divides in floating point, so once `|12 - allotted_spans|` reaches 2^53 its
  result can differ from the exact ceiling (spans `[2^60, None]` give the
  unset panel `-2^60` in Python, `12 - 2^60` in the model), and a total
  beyond the float range raises `OverflowError`, which the model does not
  raise.
- The regular-expression engine. The four patterns are written out as
  hand-made matchers.
- Codecs.DecodeRgba, Codecs.DecodeRgb, Codecs.DecodePixels and
  Codecs.DecodePercent: `\d` and `int()` accept ASCII digits only. Python's
  `\d` on a `str` pattern also matches every other Unicode decimal digit, so
  `"٣px"` reads as `Pixels(3)` in Python and is rejected by the model.
- Wire.DictOf, Wire.PairOf, Wire.DictOfPairs: an element of the pair list whose key is a number, a boolean
  or `None` is rejected with a `TypeError` at once. Python stores it, and the
  constructor call `cls(**data)` then raises `TypeError`; the two differ
  only when a converting rule fails first with another error.
- Wire.DictOf, Wire.PairOf, Wire.DictOfPairs: an element that is a JSON object of two keys is a pair of its
  keys in insertion order. Objects are unordered here, so the model reports
  a `TypeError` for it.
- Wire.Iterate: an object of two or more keys is iterated in insertion
  order, which the model's unordered objects do not keep; the model reports
  a `TypeError`. This reaches `foreach` over an object (Wire.Foreach) and the
  unpacking of a condition's `params` (Alerting.ReadQuery) when either is
  given an object of several keys.
- Records.OptIntArg: `id` and `span` hold `Option<int>` only. A value of
  another kind under these keys is rejected, where Python would store it.
- The `DeprecationWarning` of `to_y_axes`. It is a returned flag, not a
  side effect.
- The constant tables of colours, formats and defaults, except the values
  the encoders and decoders use.
- The JSON serializer, file output and any I/O. JSON objects are unordered
  maps, so key order is not modelled.
- Validator messages. Every validator failure is a `TypeError` or a
  `ValueError` with a fixed reason, not attrs' own text.
- Rule order. A converting rule that keeps its key is applied when the
  arguments are bound. A renaming rule is applied afterwards. The rules in
  the source touch disjoint keys, so the result is the same.
- `attr.assoc` copies without re-running converters. `_map_panels` therefore
  does not rebalance the rows, and the model does not either.
- Dashboards.DashboardRoundTrip: needs the inputs to have been decoded. Raw
  JSON passed as `inputs` is held as it is (see
  Dashboards.InputsUnderOwnName).
