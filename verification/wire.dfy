/**
 * The JSON values that grafanalib's encoders produce and its decoders read,
 * the exceptions a decoder raises, and the few Python coercions that the
 * decoders rely on (`dict(data)`, `cls(**data)`, `x[key]`, `x[i]`, iteration
 * and `foreach`).
 */
module Wire {

  /** A JSON document. Objects are unordered; numbers are integers. */
  datatype Json =
    | JNull
    | JBool(b: bool)
    | JInt(i: int)
    | JStr(s: string)
    | JArr(items: seq<Json>)
    | JObj(fields: map<string, Json>)

  /** The contents of a JSON object, the Python `dict` a decoder works on. */
  type Object = map<string, Json>

  /** The exceptions that escape a decoder. */
  datatype Error =
    | ParseJsonException(offending: Json)
    | ValueError(reason: string)
    | TypeError(reason: string)
    | KeyError(key: Json)
    | IndexError(index: int)
    | AttributeError(name: string)

  datatype Option<+T> = None | Some(value: T) {
    predicate IsFailure() { None? }
    function PropagateFailure<U>(): Option<U> requires None? { None }
    function Extract(): T requires Some? { value }
  }

  /** A decoder's outcome: a value, or the exception it raised. */
  datatype Result<+T> = Ok(value: T) | Err(error: Error) {
    predicate IsFailure() { Err? }
    function PropagateFailure<U>(): Result<U> requires Err? { Err(error) }
    function Extract(): T requires Ok? { value }
  }

  /** `None` as JSON `null`, any other value as itself. */
  function OrNull(j: Option<Json>): Json {
    if j.Some? then j.value else JNull
  }

  /** The value of a keyword argument: the one passed, or the default. */
  function Given(a: Option<Json>, default: Json): Json {
    if a.Some? then a.value else default
  }

  const PAIR_LENGTH := "dictionary update sequence element has the wrong length; 2 is required"

  /** A two-element list with a string key, or a two-character string. */
  predicate IsPair(x: Json) {
    (x.JArr? && |x.items| == 2 && x.items[0].JStr?) || (x.JStr? && |x.s| == 2)
  }

  /**
   * One element of the sequence `dict` builds a mapping from, read as a key
   * and a value: a two-element list, or a two-character string. An element
   * of any other length is a `ValueError`; one that is not a sequence, or
   * whose key cannot be hashed, is a `TypeError`. A key that is a number,
   * a boolean or `None` is hashable, but no decoder's `cls(**data)` accepts
   * it, and the model rejects it here. The two keys of a two-key object
   * come in insertion order, which a map does not keep.
   */
  function PairOf(x: Json): (r: Result<(string, Json)>)
    ensures r.Ok? <==> IsPair(x)
    ensures x.JArr? && IsPair(x) ==> r.value == (x.items[0].s, x.items[1])
    ensures x.JStr? && IsPair(x) ==> r.value == ([x.s[0]], JStr([x.s[1]]))
    ensures x.JNull? || x.JBool? || x.JInt? ==> r.Err? && r.error.TypeError?
  {
    match x
    case JArr(kv) =>
      if |kv| != 2 then Err(ValueError(PAIR_LENGTH))
      else if kv[0].JStr? then Ok((kv[0].s, kv[1]))
      else if kv[0].JArr? || kv[0].JObj? then Err(TypeError("unhashable type"))
      else Err(TypeError("keywords must be strings"))
    case JStr(s) =>
      if |s| != 2 then Err(ValueError(PAIR_LENGTH))
      else Ok(([s[0]], JStr([s[1]])))
    case JObj(m) =>
      if |m| != 2 then Err(ValueError(PAIR_LENGTH))
      else Err(TypeError("the key order of a mapping is not modelled"))
    case _ => Err(TypeError("cannot convert dictionary update sequence element to a sequence"))
  }

  /**
   * `dict(items)` for a list: the pairs are stored in order, a later pair
   * overwriting an earlier one with the same key, and the first element
   * that is not a pair stops it.
   */
  function DictOfPairs(items: seq<Json>): (r: Result<Object>)
    ensures r.Ok? <==> forall i | 0 <= i < |items| :: IsPair(items[i])
  {
    if items == [] then Ok(map[])
    else
      var d :- DictOfPairs(items[..|items| - 1]);
      var kv :- PairOf(items[|items| - 1]);
      Ok(d[kv.0 := kv.1])
  }

  /**
   * `dict(data)`, the copy that `transform_dict` starts from. An object is
   * copied and a list is read as a sequence of pairs; the empty string
   * gives the empty dict, and any other string is rejected, since its
   * characters are one long; every scalar is rejected.
   */
  function DictOf(data: Json): (r: Result<Object>)
    ensures r.Ok? <==>
      data.JObj? || data == JStr("") || (data.JArr? && forall i | 0 <= i < |data.items| :: IsPair(data.items[i]))
    ensures data.JObj? ==> r == Ok(data.fields)
    ensures data.JArr? ==> r == DictOfPairs(data.items)
    ensures data == JStr("") ==> r == Ok(map[])
  {
    match data
    case JObj(m) => Ok(m)
    case JStr(s) =>
      if s == "" then Ok(map[])
      else Err(ValueError("dictionary update sequence element #0 has length 1; 2 is required"))
    case JArr(xs) => DictOfPairs(xs)
    case _ => Err(TypeError("object is not iterable"))
  }

  /** `dict` of a list of pairs has exactly the pairs' keys. */
  lemma {:induction false} DictOfPairsKeys(items: seq<Json>)
    requires forall i | 0 <= i < |items| :: IsPair(items[i])
    ensures DictOfPairs(items).Ok?
    ensures DictOfPairs(items).value.Keys == set i | 0 <= i < |items| :: PairOf(items[i]).value.0
  {
    if items != [] {
      var front := items[..|items| - 1];
      DictOfPairsKeys(front);
      var n := |items| - 1;
      assert forall i | 0 <= i < |front| :: front[i] == items[i];
      var keys := set i | 0 <= i < |items| :: PairOf(items[i]).value.0;
      var frontKeys := set i | 0 <= i < |front| :: PairOf(front[i]).value.0;
      forall k | k in keys
        ensures k in frontKeys + {PairOf(items[n]).value.0}
      {
        var i :| 0 <= i < |items| && PairOf(items[i]).value.0 == k;
        if i < n {
          assert PairOf(front[i]).value.0 == k;
        }
      }
      assert keys == frontKeys + {PairOf(items[n]).value.0};
    }
  }

  /** The value stored under a key is the one of the last pair with that key. */
  lemma {:induction false} DictOfPairsLast(items: seq<Json>, i: nat)
    requires forall j | 0 <= j < |items| :: IsPair(items[j])
    requires i < |items|
    requires forall j | i < j < |items| :: PairOf(items[j]).value.0 != PairOf(items[i]).value.0
    ensures DictOfPairs(items).Ok?
    ensures PairOf(items[i]).value.0 in DictOfPairs(items).value
    ensures DictOfPairs(items).value[PairOf(items[i]).value.0] == PairOf(items[i]).value.1
  {
    var front := items[..|items| - 1];
    assert forall j | 0 <= j < |front| :: front[j] == items[j];
    if i < |items| - 1 {
      DictOfPairsLast(front, i);
    }
  }

  /** A two-character string is a pair too: `dict(["ab"])` is `{"a": "b"}`. */
  lemma TwoCharacterPair()
    ensures DictOf(JArr([JStr("ab")])) == Ok(map["a" := JStr("b")])
  {
    assert IsPair(JStr("ab"));
    assert DictOfPairs([JStr("ab")][..0]) == Ok(map[]);
  }

  /** `cls(**data)`: only a mapping can be spread into keyword arguments. */
  function Kwargs(data: Json): (r: Result<Object>)
    ensures r.Ok? <==> data.JObj?
    ensures data.JObj? ==> r.value == data.fields
  {
    if data.JObj? then Ok(data.fields)
    else Err(TypeError("argument after ** must be a mapping"))
  }

  /** `data[key]` for a string key. */
  function Subscript(data: Json, key: string): (r: Result<Json>)
    ensures r.Ok? <==> data.JObj? && key in data.fields
    ensures r.Ok? ==> r.value == data.fields[key]
    ensures data.JObj? && key !in data.fields ==> r == Err(KeyError(JStr(key)))
  {
    match data
    case JObj(m) => if key in m then Ok(m[key]) else Err(KeyError(JStr(key)))
    case JStr(_) => Err(TypeError("string indices must be integers"))
    case JArr(_) => Err(TypeError("list indices must be integers or slices, not str"))
    case _ => Err(TypeError("object is not subscriptable"))
  }

  /**
   * `data[i]` for a non-negative integer index: an element of a list, a
   * one-character string of a string. A JSON object never has an integer
   * key, so indexing one raises `KeyError`.
   */
  function Item(data: Json, i: nat): (r: Result<Json>)
    ensures data.JArr? && i < |data.items| ==> r == Ok(data.items[i])
    ensures data.JStr? && i < |data.s| ==> r == Ok(JStr([data.s[i]]))
    ensures (data.JArr? && i >= |data.items|) || (data.JStr? && i >= |data.s|) ==> r == Err(IndexError(i))
    ensures data.JObj? ==> r == Err(KeyError(JInt(i)))
    ensures r.Ok? <==> (data.JArr? && i < |data.items|) || (data.JStr? && i < |data.s|)
  {
    match data
    case JArr(xs) => if i < |xs| then Ok(xs[i]) else Err(IndexError(i))
    case JStr(s) => if i < |s| then Ok(JStr([s[i]])) else Err(IndexError(i))
    case JObj(_) => Err(KeyError(JInt(i)))
    case _ => Err(TypeError("object is not subscriptable"))
  }

  /** Two different keys make a map of at least two entries. */
  lemma TwoKeys<V>(m: map<string, V>, a: string, b: string)
    requires a in m && b in m && a != b
    ensures |m| >= 2
  {
    assert {a, b} <= m.Keys;
    assert |{a, b}| == 2;
    SubsetSize({a, b}, m.Keys);
  }

  lemma {:induction false} SubsetSize(a: set<string>, b: set<string>)
    requires a <= b
    ensures |a| <= |b|
  {
    if a != {} {
      var x :| x in a;
      SubsetSize(a - {x}, b - {x});
    }
  }

  /** The one key of a one-entry map. */
  function OnlyKey<V>(m: map<string, V>): (k: string)
    requires |m| == 1
    ensures m.Keys == {k}
  {
    assert exists k :: k in m by {
      assert m.Keys != {};
    }
    assert forall a, b | a in m && b in m :: a == b by {
      forall a, b | a in m && b in m
        ensures a == b
      {
        if a != b {
          TwoKeys(m, a, b);
        }
      }
    }
    var k :| k in m; k
  }

  /**
   * The values a `for` loop visits: the elements of a list, the characters
   * of a string as one-character strings, the keys of an object. An object
   * of two or more keys is visited in insertion order, which a map does not
   * keep; the model reports that case as an error.
   */
  function Iterate(data: Json): (r: Result<seq<Json>>)
    ensures data.JArr? ==> r == Ok(data.items)
    ensures data.JStr? ==> r.Ok? && |r.value| == |data.s|
    ensures data.JStr? ==> forall i | 0 <= i < |data.s| :: r.value[i] == JStr([data.s[i]])
    ensures data.JObj? && |data.fields| <= 1 ==> r.Ok? && |r.value| == |data.fields|
    ensures data.JObj? && |data.fields| == 1 ==> r.value[0].JStr? && data.fields.Keys == {r.value[0].s}
    ensures data.JNull? || data.JBool? || data.JInt? ==> r.Err? && r.error.TypeError?
  {
    match data
    case JArr(xs) => Ok(xs)
    case JStr(s) => Ok(seq(|s|, i requires 0 <= i < |s| => JStr([s[i]])))
    case JObj(m) =>
      if |m| == 0 then Ok([])
      else if |m| == 1 then Ok([JStr(OnlyKey(m))])
      else Err(TypeError(UNORDERED_KEYS))
    case _ => Err(TypeError("object is not iterable"))
  }

  const UNORDERED_KEYS := "iteration over the keys of a mapping is not modelled"

  /** `[f(x) for x in xs]`: the first exception raised stops the list. */
  function MapResult<T>(f: Json -> Result<T>, xs: seq<Json>): (r: Result<seq<T>>)
    ensures r.Ok? ==> |r.value| == |xs|
    ensures r.Ok? <==> forall i | 0 <= i < |xs| :: f(xs[i]).Ok?
    ensures r.Ok? ==> forall i | 0 <= i < |xs| :: r.value[i] == f(xs[i]).value
  {
    if xs == [] then Ok([])
    else
      var y :- f(xs[0]);
      var ys :- MapResult(f, xs[1..]);
      Ok([y] + ys)
  }

  /** `foreach(f)(data)`. */
  function Foreach<T>(f: Json -> Result<T>, data: Json): (r: Result<seq<T>>)
    ensures data.JArr? ==> r == MapResult(f, data.items)
  {
    var xs :- Iterate(data);
    MapResult(f, xs)
  }

  /** `[f(x) for x in xs]` on values that cannot fail. */
  function Map<A, B>(f: A -> B, xs: seq<A>): (r: seq<B>)
    ensures |r| == |xs|
    ensures forall i | 0 <= i < |xs| :: r[i] == f(xs[i])
  {
    if xs == [] then [] else [f(xs[0])] + Map(f, xs[1..])
  }

  /**
   * Decoding the encodings of a list element by element gives the list of
   * the decoded elements, provided each element survives its own round trip.
   */
  lemma {:induction false} ForeachOfMap<T>(enc: T -> Json, dec: Json -> Result<T>, canon: T -> T, xs: seq<T>)
    requires forall i | 0 <= i < |xs| :: dec(enc(xs[i])) == Ok(canon(xs[i]))
    ensures Foreach(dec, JArr(Map(enc, xs))) == Ok(Map(canon, xs))
  {
    if xs != [] {
      ForeachOfMap(enc, dec, canon, xs[1..]);
      assert Map(enc, xs) == [enc(xs[0])] + Map(enc, xs[1..]);
      assert Map(enc, xs)[1..] == Map(enc, xs[1..]);
    }
  }

  /** `key` occurs in `s` as a contiguous piece. */
  predicate Substring(key: string, s: string)
    decreases |s|
  {
    |key| <= |s| && (s[..|key|] == key || (s != [] && Substring(key, s[1..])))
  }

  /**
   * `key in container`: a key of an object, an element of a list, a piece
   * of a string; any other value cannot be searched.
   */
  function Contains(container: Json, key: string): (r: Result<bool>)
    ensures container.JObj? ==> r == Ok(key in container.fields)
    ensures container.JArr? ==> r == Ok(JStr(key) in container.items)
    ensures container.JStr? ==> r == Ok(Substring(key, container.s))
    ensures r.Err? <==> container.JNull? || container.JBool? || container.JInt?
  {
    match container
    case JObj(m) => Ok(key in m)
    case JArr(xs) => Ok(JStr(key) in xs)
    case JStr(s) => Ok(Substring(key, s))
    case _ => Err(TypeError("argument is not iterable"))
  }
}
