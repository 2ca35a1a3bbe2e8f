/**
 * What every record decoder shares: the renaming rules of its
 * `transform_dict` call, the keyword binding of `cls(**new_data)` to the
 * record's attributes, and the attribute validators (`instance_of(bool)`,
 * `instance_of(str)`, `instance_of(int)`) that run after the binding.
 *
 * A record is encoded as the object literal `ObjectOf(keys, vals)`; the
 * lemmas here show once, for any keys, that decoding such a literal hands
 * each value to the attribute of its key.
 */
module Records {
  import opened Wire
  import opened Objects
  import opened Transform

  /** Every value passed: the arguments bound from an object that has all the keys. */
  function Somes(vals: seq<Json>): (a: seq<Option<Json>>)
    ensures |a| == |vals| && forall i | 0 <= i < |vals| :: a[i] == Some(vals[i])
  {
    seq(|vals|, i requires 0 <= i < |vals| => Some(vals[i]))
  }

  /** No value passed. */
  function Nones(n: nat): (a: seq<Option<Json>>)
    ensures |a| == n && forall i | 0 <= i < n :: a[i] == None
  {
    seq(n, i => None)
  }

  /** The rules `dicttransform(olds[0], news[0]), dicttransform(olds[1], news[1]), ...`. */
  function Renames(olds: seq<string>, news: seq<string>): (rules: seq<DictTransform<Json>>)
    requires |olds| == |news|
    ensures |rules| == |olds|
    ensures forall i | 0 <= i < |olds| :: rules[i] == Rename(olds[i], news[i])
  {
    seq(|olds|, i requires 0 <= i < |olds| => Rename(olds[i], news[i]))
  }

  /** The keys after the first `j` renamings: new names up to `j`, old names after, then the rest. */
  function Midway(olds: seq<string>, news: seq<string>, rest: seq<string>, j: nat): seq<string>
    requires |olds| == |news| && j <= |olds|
  {
    news[..j] + olds[j..] + rest
  }

  /** Renamings between distinct names, none of them renamed twice, do not interfere. */
  lemma RenamesIndependent(olds: seq<string>, news: seq<string>)
    requires |olds| == |news| && Distinct(olds) && Distinct(news) && Disjoint(olds, news)
    ensures Independent(Renames(olds, news))
  {
  }

  /** The old names, the new names and the other keys are all different. */
  predicate Separate(olds: seq<string>, news: seq<string>, rest: seq<string>) {
    Distinct(olds) && Distinct(news) && Distinct(rest) &&
    Disjoint(olds, news) && Disjoint(olds, rest) && Disjoint(news, rest)
  }

  lemma MidwayStart(olds: seq<string>, news: seq<string>, rest: seq<string>)
    requires |olds| == |news|
    ensures Midway(olds, news, rest, 0) == olds + rest
  {
    assert news[..0] == [] && olds[0..] == olds;
  }

  lemma MidwayDistinct(olds: seq<string>, news: seq<string>, rest: seq<string>, j: nat)
    requires |olds| == |news| && j <= |olds| && Separate(olds, news, rest)
    ensures Distinct(Midway(olds, news, rest, j))
  {
    var keys := Midway(olds, news, rest, j);
    forall x, y | 0 <= x < y < |keys|
      ensures keys[x] != keys[y]
    {
      var n := |olds|;
      if y < j {
        assert keys[x] == news[x] && keys[y] == news[y];
      } else if y < n {
        assert keys[y] == olds[y];
        if x < j {
          assert keys[x] == news[x];
        } else {
          assert keys[x] == olds[x];
        }
      } else {
        assert keys[y] == rest[y - n];
        if x < j {
          assert keys[x] == news[x];
        } else if x < n {
          assert keys[x] == olds[x];
        } else {
          assert keys[x] == rest[x - n];
        }
      }
    }
  }

  lemma MidwayStep(olds: seq<string>, news: seq<string>, rest: seq<string>, j: nat)
    requires |olds| == |news| && j < |olds| && Separate(olds, news, rest)
    ensures Midway(olds, news, rest, j)[j] == olds[j]
    ensures Midway(olds, news, rest, j)[j := news[j]] == Midway(olds, news, rest, j + 1)
    ensures olds[j] !in Midway(olds, news, rest, j + 1)
  {
    var next := Midway(olds, news, rest, j + 1);
    assert next == Midway(olds, news, rest, j)[j := news[j]];
    forall x | 0 <= x < |next|
      ensures next[x] != olds[j]
    {
      var n := |olds|;
      if x <= j {
        assert next[x] == news[x];
      } else if x < n {
        assert next[x] == olds[x];
      } else {
        assert next[x] == rest[x - n];
      }
    }
  }

  lemma {:induction false} RenamesFrom(olds: seq<string>, news: seq<string>, rest: seq<string>, vals: seq<Json>, j: nat)
    requires |olds| == |news| && j <= |olds| && |vals| == |olds| + |rest| && Separate(olds, news, rest)
    ensures TransformFrom(ObjectOf(Midway(olds, news, rest, j), vals), Renames(olds, news), j)
         == ObjectOf(news + rest, vals)
    decreases |olds| - j
  {
    var rules := Renames(olds, news);
    if j == |olds| {
      assert Midway(olds, news, rest, j) == news + rest;
    } else {
      var keys := Midway(olds, news, rest, j);
      MidwayStep(olds, news, rest, j);
      MidwayDistinct(olds, news, rest, j + 1);
      RenameInObject(keys, vals, j, news[j]);
      RenamesFrom(olds, news, rest, vals, j + 1);
    }
  }

  /**
   * Renaming the keys `olds` of an object literal to `news`, one rule after
   * another as `transform_dict` does, gives the literal with the new keys,
   * provided no two of the keys involved coincide.
   */
  lemma RenamesInObject(olds: seq<string>, news: seq<string>, rest: seq<string>, vals: seq<Json>)
    requires |olds| == |news| && |vals| == |olds| + |rest| && Separate(olds, news, rest)
    ensures TransformDict(ObjectOf(olds + rest, vals), Renames(olds, news)) == ObjectOf(news + rest, vals)
  {
    MidwayStart(olds, news, rest);
    RenamesFrom(olds, news, rest, vals, 0);
  }

  /**
   * `cls(**ObjectOf(keys, vals))` for a constructor whose parameters are
   * `keys` and `absent`: no keyword is unknown, and every required parameter
   * is passed when it is among the keys.
   */
  lemma CheckCallOfObject(keys: seq<string>, vals: seq<Json>, absent: seq<string>, required: set<string>)
    requires |keys| == |vals| && forall r | r in required :: r in keys
    ensures CheckCall(ObjectOf(keys, vals), keys + absent, required) == Ok(())
  {
    var d := ObjectOf(keys, vals);
    forall k | k in d
      ensures k in keys + absent
    {
      ObjectOfKeys(keys, vals, k);
    }
    forall r | r in required
      ensures r in d
    {
      ObjectOfKeys(keys, vals, r);
    }
  }

  /**
   * The arguments bound from a record's own encoding: with distinct keys,
   * every key of the literal is a known parameter, every required
   * parameter is passed, and each parameter receives the value written
   * under its key.
   */
  lemma BindObject(keys: seq<string>, vals: seq<Json>, absent: seq<string>, required: set<string>)
    requires |keys| == |vals| && Distinct(keys) && Disjoint(keys, absent)
    requires forall r | r in required :: r in keys
    ensures Arguments(ObjectOf(keys, vals), keys + absent) == Somes(vals) + Nones(|absent|)
    ensures CheckCall(ObjectOf(keys, vals), keys + absent, required) == Ok(())
  {
    ArgumentsOfObject(keys, vals, absent);
    assert Somes(vals) == seq(|keys|, i requires 0 <= i < |keys| => Some(vals[i]));
    assert Nones(|absent|) == seq(|absent|, i => None);
    CheckCallOfObject(keys, vals, absent, required);
  }

  /**
   * The parameters named by one stretch of a literal's keys receive the
   * values written in the same stretch.
   */
  lemma ArgumentsOfPart(pre: seq<string>, part: seq<string>, post: seq<string>,
                        vpre: seq<Json>, vpart: seq<Json>, vpost: seq<Json>)
    requires |pre| == |vpre| && |part| == |vpart| && |post| == |vpost|
    requires Distinct(pre + part + post)
    ensures Arguments(ObjectOf(pre + part + post, vpre + vpart + vpost), part) == Somes(vpart)
  {
    var keys := pre + part + post;
    var vals := vpre + vpart + vpost;
    forall i | 0 <= i < |part|
      ensures Arguments(ObjectOf(keys, vals), part)[i] == Somes(vpart)[i]
    {
      assert keys[|pre| + i] == part[i] && vals[|pre| + i] == vpart[i];
      ObjectOfAt(keys, vals, |pre| + i);
    }
  }

  /** `BindObject` for a constructor whose parameters are exactly the keys. */
  lemma BindAll(keys: seq<string>, vals: seq<Json>, required: set<string>)
    requires |keys| == |vals| && Distinct(keys)
    requires forall r | r in required :: r in keys
    ensures Arguments(ObjectOf(keys, vals), keys) == Somes(vals)
    ensures CheckCall(ObjectOf(keys, vals), keys, required) == Ok(())
  {
    BindObject(keys, vals, [], required);
    assert keys + [] == keys;
    assert Somes(vals) + Nones(0) == Somes(vals);
  }

  /**
   * Decoding a record whose encoding writes the attributes `news` under the
   * keys `olds`: the renaming rules restore the attribute names, and the
   * constructor call then binds every value to its attribute.
   */
  lemma BindRenamed(olds: seq<string>, news: seq<string>, rest: seq<string>, vals: seq<Json>, required: set<string>)
    requires |olds| == |news| && |vals| == |olds| + |rest| && Separate(olds, news, rest)
    requires forall r | r in required :: r in news + rest
    ensures TransformDict(ObjectOf(olds + rest, vals), Renames(olds, news)) == ObjectOf(news + rest, vals)
    ensures Arguments(ObjectOf(news + rest, vals), news + rest) == Somes(vals)
    ensures CheckCall(ObjectOf(news + rest, vals), news + rest, required) == Ok(())
  {
    RenamesInObject(olds, news, rest, vals);
    DistinctConcat(news, rest);
    BindAll(news + rest, vals, required);
  }

  /**
   * `BindRenamed` for a constructor with further parameters `absent` that
   * the encoding does not write: those stay at their defaults.
   */
  lemma BindRenamedAbsent(olds: seq<string>, news: seq<string>, rest: seq<string>, vals: seq<Json>,
                          absent: seq<string>, required: set<string>)
    requires |olds| == |news| && |vals| == |olds| + |rest| && Separate(olds, news, rest)
    requires Disjoint(news + rest, absent)
    requires forall r | r in required :: r in news + rest
    ensures TransformDict(ObjectOf(olds + rest, vals), Renames(olds, news)) == ObjectOf(news + rest, vals)
    ensures Arguments(ObjectOf(news + rest, vals), news + rest + absent) == Somes(vals) + Nones(|absent|)
    ensures CheckCall(ObjectOf(news + rest, vals), news + rest + absent, required) == Ok(())
  {
    RenamesInObject(olds, news, rest, vals);
    DistinctConcat(news, rest);
    BindObject(news + rest, vals, absent, required);
  }

  /** Overwriting the value of a key of an object literal overwrites it in the literal. */
  lemma UpdateInObject(keys: seq<string>, vals: seq<Json>, i: nat, v: Json)
    requires |keys| == |vals| && i < |keys| && Distinct(keys)
    ensures ObjectOf(keys, vals)[keys[i] := v] == ObjectOf(keys, vals[i := v])
  {
    var before := ObjectOf(keys, vals)[keys[i] := v];
    var after := ObjectOf(keys, vals[i := v]);
    forall k
      ensures (k in before <==> k in after) && (k in after ==> before[k] == after[k])
    {
      ObjectOfKeys(keys, vals, k);
      ObjectOfKeys(keys, vals[i := v], k);
      if k in keys && k != keys[i] {
        var j :| 0 <= j < |keys| && keys[j] == k;
        ObjectOfAt(keys, vals, j);
        ObjectOfAt(keys, vals[i := v], j);
      } else if k == keys[i] {
        ObjectOfAt(keys, vals[i := v], i);
      }
    }
    assert before == after;
  }

  /**
   * Popping the `i`-th key of an object literal and storing `v` under `k`
   * gives the literal with that key and value replaced.
   */
  lemma ReplaceInObject(keys: seq<string>, vals: seq<Json>, i: nat, k: string, v: Json)
    requires |keys| == |vals| && i < |keys| && Distinct(keys[i := k])
    requires keys[i] == k || keys[i] !in keys[i := k]
    ensures (ObjectOf(keys, vals) - {keys[i]})[k := v] == ObjectOf(keys[i := k], vals[i := v])
  {
    RenameInObject(keys, vals, i, k);
    ObjectOfAt(keys, vals, i);
    assert (ObjectOf(keys, vals) - {keys[i]})[k := vals[i]] == ObjectOf(keys[i := k], vals);
    UpdateInObject(keys[i := k], vals, i, v);
  }

  /**
   * Binding an object literal from which the `i`-th key was popped: that
   * parameter stays at its default and every other one gets its value.
   */
  lemma BindWithout(keys: seq<string>, vals: seq<Json>, i: nat, required: set<string>)
    requires |keys| == |vals| && i < |keys| && Distinct(keys)
    requires forall r | r in required :: r in keys && r != keys[i]
    ensures Arguments(ObjectOf(keys, vals) - {keys[i]}, keys) == Somes(vals)[i := None]
    ensures CheckCall(ObjectOf(keys, vals) - {keys[i]}, keys, required) == Ok(())
  {
    var d := ObjectOf(keys, vals) - {keys[i]};
    var a := Arguments(d, keys);
    forall j | 0 <= j < |keys|
      ensures a[j] == Somes(vals)[i := None][j]
    {
      ObjectOfAt(keys, vals, j);
    }
    forall k | k in d
      ensures k in keys
    {
      ObjectOfKeys(keys, vals, k);
    }
    forall r | r in required
      ensures r in d
    {
      ObjectOfKeys(keys, vals, r);
    }
  }

  // ---------------------------------------------------------------------
  // Attribute validators, run after the keyword binding
  // ---------------------------------------------------------------------

  /** `attr.ib(default=..., validator=instance_of(bool))`. */
  function BoolArg(a: Option<Json>, default: bool): (r: Result<bool>)
    ensures a.None? ==> r == Ok(default)
    ensures a.Some? ==> (r.Ok? <==> a.value.JBool?)
    ensures a.Some? && r.Ok? ==> r.value == a.value.b
    ensures r.Err? ==> r.error.TypeError?
  {
    match a
    case None => Ok(default)
    case Some(JBool(b)) => Ok(b)
    case Some(_) => Err(TypeError("must be <class 'bool'>"))
  }

  /** `attr.ib(default=..., validator=instance_of(str))`. */
  function StrArg(a: Option<Json>, default: string): (r: Result<string>)
    ensures a.None? ==> r == Ok(default)
    ensures a.Some? ==> (r.Ok? <==> a.value.JStr?)
    ensures a.Some? && r.Ok? ==> r.value == a.value.s
    ensures r.Err? ==> r.error.TypeError?
  {
    match a
    case None => Ok(default)
    case Some(JStr(s)) => Ok(s)
    case Some(_) => Err(TypeError("must be <class 'str'>"))
  }

  /** A Python `int`: an integer or, since `bool` is a subclass of `int`, a boolean. */
  predicate IsInt(j: Json) {
    j.JInt? || j.JBool?
  }

  /** `attr.ib(default=..., validator=instance_of(int))`. */
  function IntArg(a: Option<Json>, default: Json): (r: Result<Json>)
    ensures a.None? ==> r == Ok(default)
    ensures a.Some? ==> (r.Ok? <==> IsInt(a.value))
    ensures a.Some? && r.Ok? ==> r.value == a.value
    ensures r.Err? ==> r.error.TypeError?
  {
    match a
    case None => Ok(default)
    case Some(j) => if IsInt(j) then Ok(j) else Err(TypeError("must be <class 'int'>"))
  }

  /**
   * A panel's `id` or `span`: `None` or an integer. The model holds these
   * as `Option<int>` and rejects any other JSON value.
   */
  function OptIntArg(a: Option<Json>, default: Option<int>): (r: Result<Option<int>>)
    ensures a.None? ==> r == Ok(default)
    ensures a == Some(JNull) ==> r == Ok(None)
    ensures a.Some? && a.value.JInt? ==> r == Ok(Some(a.value.i))
    ensures r.Ok? <==> a.None? || a.value.JNull? || a.value.JInt?
  {
    match a
    case None => Ok(default)
    case Some(JNull) => Ok(None)
    case Some(JInt(i)) => Ok(Some(i))
    case Some(_) => Err(TypeError("only null or an integer is modelled here"))
  }

  /** The JSON of an `Option<int>` attribute. */
  function OptIntJson(x: Option<int>): (j: Json)
    ensures OptIntArg(Some(j), None) == Ok(x)
  {
    if x.Some? then JInt(x.value) else JNull
  }

  /**
   * A `dicttransform(key, transform=decode)` rule: when the key is passed its
   * value is decoded (and a failure stops the decoder at once); otherwise
   * the attribute keeps its default.
   */
  function Converted<T>(a: Option<Json>, decode: Json -> Result<T>, default: T): (r: Result<T>)
    ensures a.None? ==> r == Ok(default)
    ensures a.Some? ==> r == decode(a.value)
  {
    if a.Some? then decode(a.value) else Ok(default)
  }

  /**
   * A converting rule whose old key is not the attribute's name: the
   * decoded value when the key is passed, `None` otherwise.
   */
  function Present<T>(a: Option<Json>, decode: Json -> Result<T>): (r: Result<Option<T>>)
    ensures a.None? ==> r == Ok(None)
    ensures a.Some? ==> (r.Ok? <==> decode(a.value).Ok?)
    ensures a.Some? && r.Ok? ==> r.value == Some(decode(a.value).value)
    ensures a.Some? && r.Err? ==> r.error == decode(a.value).error
  {
    if a.None? then Ok(None)
    else
      var v :- decode(a.value);
      Ok(Some(v))
  }

  /**
   * An attribute validated by `instance_of` whose rule decodes the value
   * found under its key: the decoded value; the default when nothing was
   * passed; `TypeError` for a value passed under the attribute's own name,
   * which no rule decoded.
   */
  function Typed<T>(converted: Option<T>, raw: Option<Json>, default: T): (r: Result<T>)
    ensures converted.Some? ==> r == Ok(converted.value)
    ensures converted.None? && raw.None? ==> r == Ok(default)
    ensures converted.None? && raw.Some? ==> r.Err? && r.error.TypeError?
  {
    if converted.Some? then Ok(converted.value)
    else if raw.Some? then Err(TypeError("not an instance of the attribute's class"))
    else Ok(default)
  }

  /** An attribute that holds either a decoded value or JSON that was never decoded. */
  datatype Slot<T> = Raw(json: Json) | Value(value: T)
}
