/**
 * JSON objects built from a list of keys and a list of values, the way an
 * encoder's dict literal builds them, and the keyword binding of a
 * constructor call `cls(**data)`. Records are encoded and decoded through
 * these, so the facts proved here once serve every record.
 */
module Objects {
  import opened Wire

  /** No key occurs twice. */
  predicate Distinct(keys: seq<string>) {
    forall i, j | 0 <= i < j < |keys| :: keys[i] != keys[j]
  }

  /** The two lists share no key. */
  predicate Disjoint(a: seq<string>, b: seq<string>) {
    forall i, j | 0 <= i < |a| && 0 <= j < |b| :: a[i] != b[j]
  }

  /** The dict literal `{keys[0]: vals[0], keys[1]: vals[1], ...}`: a later key wins. */
  function ObjectOf(keys: seq<string>, vals: seq<Json>): Object
    requires |keys| == |vals|
  {
    if keys == [] then map[]
    else ObjectOf(keys[..|keys| - 1], vals[..|vals| - 1])[keys[|keys| - 1] := vals[|vals| - 1]]
  }

  /** The list of pairs `[[keys[0], vals[0]], [keys[1], vals[1]], ...]`. */
  function PairList(keys: seq<string>, vals: seq<Json>): (ps: seq<Json>)
    requires |keys| == |vals|
    ensures |ps| == |keys|
    ensures forall i | 0 <= i < |keys| :: ps[i] == JArr([JStr(keys[i]), vals[i]])
  {
    seq(|keys|, i requires 0 <= i < |keys| => JArr([JStr(keys[i]), vals[i]]))
  }

  /**
   * `dict` of a list of `[key, value]` pairs is the dict literal with the
   * same keys and values in the same order, a later key winning in both.
   */
  lemma {:induction false} DictOfPairList(keys: seq<string>, vals: seq<Json>)
    requires |keys| == |vals|
    ensures DictOf(JArr(PairList(keys, vals))) == Ok(ObjectOf(keys, vals))
  {
    if keys != [] {
      var n := |keys| - 1;
      DictOfPairList(keys[..n], vals[..n]);
      assert PairList(keys, vals)[..n] == PairList(keys[..n], vals[..n]);
      assert PairOf(PairList(keys, vals)[n]) == Ok((keys[n], vals[n]));
    }
  }

  /** `e` is a JSON object whose keys are exactly `keys`: what a `to_json_data` dict literal writes. */
  ghost predicate WritesKeys(e: Json, keys: seq<string>) {
    e.JObj? && forall k :: k in e.fields <==> k in keys
  }

  /** The dict literal holds exactly the keys written in it. */
  lemma ObjectOfWrites(keys: seq<string>, vals: seq<Json>)
    requires |keys| == |vals|
    ensures WritesKeys(JObj(ObjectOf(keys, vals)), keys)
  {
    forall k
      ensures k in ObjectOf(keys, vals) <==> k in keys
    {
      ObjectOfKeys(keys, vals, k);
    }
  }

  /** A list disjoint from two lists is disjoint from their concatenation, on the right. */
  lemma DisjointConcatRight(a: seq<string>, b: seq<string>, c: seq<string>)
    requires Disjoint(a, b) && Disjoint(a, c)
    ensures Disjoint(a, b + c)
  {
    forall i, j | 0 <= i < |a| && 0 <= j < |b + c|
      ensures a[i] != (b + c)[j]
    {
      if j >= |b| {
        assert (b + c)[j] == c[j - |b|];
      }
    }
  }

  /** The keys of the literal are the keys written in it. */
  lemma {:induction false} ObjectOfKeys(keys: seq<string>, vals: seq<Json>, k: string)
    requires |keys| == |vals|
    ensures k in ObjectOf(keys, vals) <==> k in keys
  {
    if keys != [] {
      var n := |keys| - 1;
      ObjectOfKeys(keys[..n], vals[..n], k);
      assert keys == keys[..n] + [keys[n]];
    }
  }

  /** With distinct keys, each key of the literal maps to the value written beside it. */
  lemma {:induction false} ObjectOfAt(keys: seq<string>, vals: seq<Json>, i: nat)
    requires |keys| == |vals| && i < |keys| && Distinct(keys)
    ensures keys[i] in ObjectOf(keys, vals) && ObjectOf(keys, vals)[keys[i]] == vals[i]
  {
    var n := |keys| - 1;
    if i < n {
      ObjectOfAt(keys[..n], vals[..n], i);
    }
  }

  /** A list of distinct keys stays distinct after dropping its last key. */
  lemma DistinctPrefix(keys: seq<string>, n: nat)
    requires Distinct(keys) && n <= |keys|
    ensures Distinct(keys[..n])
  {
  }

  /** Two distinct, disjoint lists of keys make a distinct list. */
  lemma DistinctConcat(a: seq<string>, b: seq<string>)
    requires Distinct(a) && Distinct(b) && Disjoint(a, b)
    ensures Distinct(a + b)
  {
    forall i, j | 0 <= i < j < |a + b|
      ensures (a + b)[i] != (a + b)[j]
    {
      if j < |a| {
      } else if i >= |a| {
        assert (a + b)[i] == b[i - |a|] && (a + b)[j] == b[j - |a|];
      } else {
        assert (a + b)[j] == b[j - |a|];
      }
    }
  }

  /** A list disjoint from two lists is disjoint from their concatenation. */
  lemma DisjointConcat(a: seq<string>, b: seq<string>, c: seq<string>)
    requires Disjoint(a, c) && Disjoint(b, c)
    ensures Disjoint(a + b, c)
  {
    forall i, j | 0 <= i < |a + b| && 0 <= j < |c|
      ensures (a + b)[i] != c[j]
    {
      if i >= |a| {
        assert (a + b)[i] == b[i - |a|];
      }
    }
  }

  /** The keyword arguments found in `d` for the parameters `params`, by position. */
  function Arguments(d: Object, params: seq<string>): (a: seq<Option<Json>>)
    ensures |a| == |params|
    ensures forall i | 0 <= i < |params| :: a[i].Some? <==> params[i] in d
    ensures forall i | 0 <= i < |params| :: a[i].Some? ==> a[i].value == d[params[i]]
  {
    seq(|params|, i requires 0 <= i < |params| => if params[i] in d then Some(d[params[i]]) else None)
  }

  /**
   * Binding the object literal `ObjectOf(keys, vals)` to the parameters
   * `keys + absent` passes every value to the parameter of its key and leaves
   * every parameter in `absent` at its default.
   */
  lemma ArgumentsOfObject(keys: seq<string>, vals: seq<Json>, absent: seq<string>)
    requires |keys| == |vals| && Distinct(keys) && Disjoint(keys, absent)
    ensures Arguments(ObjectOf(keys, vals), keys + absent)
         == seq(|keys|, i requires 0 <= i < |keys| => Some(vals[i])) + seq(|absent|, i => None)
  {
    var m := ObjectOf(keys, vals);
    var a := Arguments(m, keys + absent);
    var b := seq(|keys|, i requires 0 <= i < |keys| => Some(vals[i])) + seq(|absent|, i => None);
    forall i | 0 <= i < |a|
      ensures a[i] == b[i]
    {
      if i < |keys| {
        ObjectOfAt(keys, vals, i);
      } else {
        var k := (keys + absent)[i];
        assert k == absent[i - |keys|];
        assert k !in keys;
        ObjectOfKeys(keys, vals, k);
      }
    }
  }

  /**
   * The keyword check of `cls(**d)` for a constructor with parameters
   * `params`, of which `required` have no default: an unknown keyword and
   * a missing required argument both raise `TypeError`.
   */
  function CheckCall(d: Object, params: seq<string>, required: set<string>): (r: Result<()>)
    ensures r.Ok? <==> (forall k | k in d :: k in params) && (forall p | p in required :: p in d)
    ensures r.Err? ==> r.error.TypeError?
  {
    if exists k | k in d :: k !in params then Err(TypeError("got an unexpected keyword argument"))
    else if exists p | p in required :: p !in d then Err(TypeError("missing a required argument"))
    else Ok(())
  }
}
