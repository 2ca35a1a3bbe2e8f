/**
 * `parse_object`: decoding an object whose class is chosen by its `type`
 * tag, from a table of decoders such as `PANEL_TYPES` or `INPUT_TYPES`.
 */
module Dispatch {
  import opened Wire

  /** `obj.get('type')`: the tag, or `None` when there is none. */
  function TypeTag(fields: Object): Json {
    if "type" in fields then fields["type"] else JNull
  }

  /** A value Python can use as a dict key: anything but a list or a dict. */
  predicate Hashable(j: Json) {
    !(j.JArr? || j.JObj?)
  }

  /**
   * The `except KeyError` around the chosen decoder: a `KeyError` raised
   * while decoding is reported as an unknown type; every other outcome
   * passes through.
   */
  function Caught<T>(r: Result<T>, tag: Json): (c: Result<T>)
    ensures r.Err? && r.error.KeyError? ==> c == Err(ParseJsonException(tag))
    ensures !(r.Err? && r.error.KeyError?) ==> c == r
  {
    if r.Err? && r.error.KeyError? then Err(ParseJsonException(tag)) else r
  }

  /**
   * `parse_object(obj, mapping)`. Only a dict has `get`; an unhashable
   * tag cannot be looked up; a missing or unknown tag, and a `KeyError`
   * inside the chosen decoder, raise `ParseJsonException`.
   */
  function ParseObject<T>(obj: Json, decoders: map<string, Json -> Result<T>>): (r: Result<T>)
    ensures !obj.JObj? ==> r.Err? && r.error.AttributeError?
    ensures obj.JObj? && !Hashable(TypeTag(obj.fields)) ==> r.Err? && r.error.TypeError?
    ensures obj.JObj? && Hashable(TypeTag(obj.fields)) && !(TypeTag(obj.fields).JStr? && TypeTag(obj.fields).s in decoders)
      ==> r == Err(ParseJsonException(TypeTag(obj.fields)))
    ensures obj.JObj? && TypeTag(obj.fields).JStr? && TypeTag(obj.fields).s in decoders
      ==> r == Caught(decoders[TypeTag(obj.fields).s](obj), TypeTag(obj.fields))
    ensures r.Err? && r.error.KeyError? ==> false
  {
    if !obj.JObj? then Err(AttributeError("get"))
    else
      var tag := TypeTag(obj.fields);
      if !Hashable(tag) then Err(TypeError("unhashable type"))
      else if tag.JStr? && tag.s in decoders then Caught(decoders[tag.s](obj), tag)
      else Err(ParseJsonException(tag))
  }

  /**
   * An object carrying a known tag is decoded by the decoder for that tag:
   * when that decoder succeeds, so does `parse_object`, with the same value.
   */
  lemma ParseTagged<T>(fields: Object, tag: string, decoders: map<string, Json -> Result<T>>, v: T)
    requires "type" in fields && fields["type"] == JStr(tag) && tag in decoders
    requires decoders[tag](JObj(fields)) == Ok(v)
    ensures ParseObject(JObj(fields), decoders) == Ok(v)
  {
  }

  /** An object with no `type`, or with a tag no decoder is registered for, is rejected. */
  lemma ParseUntagged<T>(fields: Object, decoders: map<string, Json -> Result<T>>)
    requires "type" !in fields || (fields["type"].JStr? && fields["type"].s !in decoders)
    ensures ParseObject(JObj(fields), decoders) == Err(ParseJsonException(TypeTag(fields)))
  {
  }
}
