/**
 * `dicttransform` and `transform_dict`, the key renaming and value
 * conversion that every decoder applies to a copy of its input before
 * calling the constructor.
 */
module Transform {
  import opened Wire
  import opened Objects

  /**
   * `dicttransform(old_key, new_key, transform)`: move the value under
   * `oldKey` to `newKey`, passing it through `transform` on the way.
   */
  datatype DictTransform<!V> = DictTransform(oldKey: string, newKey: string, transform: V -> V)

  /** `dicttransform(old_key, new_key)`: the transform defaults to the identity. */
  function Rename<V(!new)>(oldKey: string, newKey: string): (t: DictTransform<V>)
    ensures t.oldKey == oldKey && t.newKey == newKey
    ensures forall v :: t.transform(v) == v
  {
    DictTransform(oldKey, newKey, v => v)
  }

  /** `dicttransform(key, transform=f)`: the new key defaults to the old one. */
  function Convert<V>(key: string, f: V -> V): (t: DictTransform<V>)
    ensures t.oldKey == key && t.newKey == key && t.transform == f
  {
    DictTransform(key, key, f)
  }

  /** One pass of the loop in `transform_dict`: pop the old key, store the transformed value. */
  function Step<V>(d: map<string, V>, t: DictTransform<V>): map<string, V> {
    if t.oldKey in d then (d - {t.oldKey})[t.newKey := t.transform(d[t.oldKey])] else d
  }

  /** The loop of `transform_dict` from the `i`-th transformation on. */
  function TransformFrom<V>(d: map<string, V>, rules: seq<DictTransform<V>>, i: nat): map<string, V>
    requires i <= |rules|
    decreases |rules| - i
  {
    if i == |rules| then d else TransformFrom(Step(d, rules[i]), rules, i + 1)
  }

  /** A transformation pops one key and stores one: the dict never grows. */
  lemma {:induction false} TransformFromSize<V>(d: map<string, V>, rules: seq<DictTransform<V>>, i: nat)
    requires i <= |rules|
    ensures |TransformFrom(d, rules, i)| <= |d|
    decreases |rules| - i
  {
    if i < |rules| {
      TransformFromSize(Step(d, rules[i]), rules, i + 1);
      var t := rules[i];
      if t.oldKey in d {
        assert |d - {t.oldKey}| == |d| - 1;
      }
    }
  }

  /** A key of the result was a key of `d` or is the new key of a transformation from the `i`-th on. */
  lemma {:induction false} TransformFromKeys<V>(d: map<string, V>, rules: seq<DictTransform<V>>, i: nat, k: string)
    requires i <= |rules| && k in TransformFrom(d, rules, i)
    ensures k in d || exists j | i <= j < |rules| :: rules[j].newKey == k
    decreases |rules| - i
  {
    if i < |rules| {
      TransformFromKeys(Step(d, rules[i]), rules, i + 1, k);
    }
  }

  /** `transform_dict(data, *rules)`. */
  function TransformDict<V>(data: map<string, V>, rules: seq<DictTransform<V>>): (r: map<string, V>)
    ensures rules == [] ==> r == data
  {
    TransformFrom(data, rules, 0)
  }

  lemma TransformDictSize<V>(data: map<string, V>, rules: seq<DictTransform<V>>)
    ensures |TransformDict(data, rules)| <= |data|
  {
    TransformFromSize(data, rules, 0);
  }

  /** Every key `transform_dict` returns was in `data` or is the new key of one of the transformations. */
  lemma TransformDictKeys<V>(data: map<string, V>, rules: seq<DictTransform<V>>)
    ensures forall k | k in TransformDict(data, rules) :: k in data || exists j | 0 <= j < |rules| :: rules[j].newKey == k
  {
    forall k | k in TransformDict(data, rules)
      ensures k in data || exists j | 0 <= j < |rules| :: rules[j].newKey == k
    {
      TransformFromKeys(data, rules, 0, k);
    }
  }

  /** `transform_dict` as written: a loop that updates a copy of `data`, one transformation at a time. */
  method ApplyTransforms<V>(data: map<string, V>, rules: seq<DictTransform<V>>) returns (newData: map<string, V>)
    ensures newData == TransformDict(data, rules)
  {
    newData := data;
    for i := 0 to |rules|
      invariant TransformFrom(newData, rules, i) == TransformDict(data, rules)
    {
      var t := rules[i];
      if t.oldKey in newData {
        var oldValue := newData[t.oldKey];
        newData := newData - {t.oldKey};
        newData := newData[t.newKey := t.transform(oldValue)];
      }
    }
  }

  /** Transforming an empty dict gives an empty dict: no rule finds its old key. */
  lemma {:induction false} TransformFromEmpty<V>(rules: seq<DictTransform<V>>, i: nat)
    requires i <= |rules|
    ensures TransformFrom(map[], rules, i) == map[]
    decreases |rules| - i
  {
    if i < |rules| {
      TransformFromEmpty(rules, i + 1);
    }
  }

  lemma TransformDictEmpty<V>(rules: seq<DictTransform<V>>)
    ensures TransformDict(map[], rules) == map[]
  {
    TransformFromEmpty(rules, 0);
  }

  /** No transformation from the `i`-th on names `k`, as old or as new key. */
  predicate Untouched<V>(k: string, rules: seq<DictTransform<V>>, i: nat)
    requires i <= |rules|
  {
    forall j | i <= j < |rules| :: rules[j].oldKey != k && rules[j].newKey != k
  }

  /** A key that no transformation names keeps its presence and its value. */
  lemma {:induction false} TransformFromUntouched<V>(d: map<string, V>, rules: seq<DictTransform<V>>, i: nat, k: string)
    requires i <= |rules| && Untouched(k, rules, i)
    ensures k in TransformFrom(d, rules, i) <==> k in d
    ensures k in d ==> TransformFrom(d, rules, i)[k] == d[k]
    decreases |rules| - i
  {
    if i < |rules| {
      TransformFromUntouched(Step(d, rules[i]), rules, i + 1, k);
    }
  }

  /** `transform_dict` leaves every key that no transformation names as it was. */
  lemma TransformDictUntouched<V>(data: map<string, V>, rules: seq<DictTransform<V>>, k: string)
    requires Untouched(k, rules, 0)
    ensures k in TransformDict(data, rules) <==> k in data
    ensures k in data ==> TransformDict(data, rules)[k] == data[k]
  {
    TransformFromUntouched(data, rules, 0, k);
  }

  /** No two transformations name a common key. */
  predicate Independent<V>(rules: seq<DictTransform<V>>) {
    forall i, j | 0 <= i < j < |rules| ::
      rules[i].oldKey != rules[j].oldKey && rules[i].oldKey != rules[j].newKey &&
      rules[i].newKey != rules[j].oldKey && rules[i].newKey != rules[j].newKey
  }

  /** What transformation `j` does, judged on the original dict `d`. */
  ghost predicate Moved<V>(d: map<string, V>, r: map<string, V>, t: DictTransform<V>) {
    if t.oldKey in d then
      t.newKey in r && r[t.newKey] == t.transform(d[t.oldKey]) &&
      (t.oldKey != t.newKey ==> t.oldKey !in r)
    else
      (t.newKey in r <==> t.newKey in d) && (t.newKey in d ==> r[t.newKey] == d[t.newKey])
  }

  lemma {:induction false} TransformFromIndependent<V>(d: map<string, V>, rules: seq<DictTransform<V>>, i: nat, j: nat)
    requires Independent(rules) && i <= j < |rules|
    ensures Moved(d, TransformFrom(d, rules, i), rules[j])
    decreases |rules| - i
  {
    var t := rules[j];
    var d' := Step(d, rules[i]);
    if i == j {
      TransformFromUntouched(d', rules, i + 1, t.newKey);
      TransformFromUntouched(d', rules, i + 1, t.oldKey);
    } else {
      TransformFromIndependent(d', rules, i + 1, j);
    }
  }

  /**
   * When no two transformations name a common key, each one acts on the
   * original data: a present old key is replaced by the new key holding the
   * transformed value, and an absent old key leaves the new key alone.
   */
  lemma TransformDictIndependent<V>(data: map<string, V>, rules: seq<DictTransform<V>>, j: nat)
    requires Independent(rules) && j < |rules|
    ensures Moved(data, TransformDict(data, rules), rules[j])
  {
    TransformFromIndependent(data, rules, 0, j);
  }

  /** Distinct keys after renaming one key to a name not already used imply distinct keys before. */
  lemma DistinctBeforeRename(keys: seq<string>, i: nat, newKey: string)
    requires i < |keys| && Distinct(keys[i := newKey])
    requires keys[i] == newKey || keys[i] !in keys[i := newKey]
    ensures Distinct(keys)
  {
    var renamed := keys[i := newKey];
    if keys[i] == newKey {
      assert renamed == keys;
    } else {
      forall a, b | 0 <= a < b < |keys| ensures keys[a] != keys[b] {
        if a != i && b != i {
          assert keys[a] == renamed[a] && keys[b] == renamed[b];
        } else if a == i {
          assert keys[b] == renamed[b] && renamed[b] in renamed;
        } else {
          assert keys[a] == renamed[a] && renamed[a] in renamed;
        }
      }
    }
  }

  /**
   * Renaming the `i`-th key of an object literal gives the literal with
   * that key renamed, provided the renamed keys are distinct.
   */
  lemma RenameInObject(keys: seq<string>, vals: seq<Json>, i: nat, newKey: string)
    requires |keys| == |vals| && i < |keys| && Distinct(keys[i := newKey])
    requires keys[i] == newKey || keys[i] !in keys[i := newKey]
    ensures Distinct(keys)
    ensures Step(ObjectOf(keys, vals), Rename(keys[i], newKey)) == ObjectOf(keys[i := newKey], vals)
  {
    DistinctBeforeRename(keys, i, newKey);
    var renamed := keys[i := newKey];
    var before := ObjectOf(keys, vals);
    var after := ObjectOf(renamed, vals);
    var stepped := Step(before, Rename(keys[i], newKey));
    ObjectOfAt(keys, vals, i);
    assert stepped == (before - {keys[i]})[newKey := vals[i]];
    forall k
      ensures (k in stepped <==> k in after) && (k in after ==> stepped[k] == after[k])
    {
      ObjectOfKeys(keys, vals, k);
      ObjectOfKeys(renamed, vals, k);
      if k == newKey {
        ObjectOfAt(renamed, vals, i);
      } else if k in renamed {
        var j :| 0 <= j < |renamed| && renamed[j] == k;
        assert j != i && keys[j] == k && k != keys[i];
        ObjectOfAt(keys, vals, j);
        ObjectOfAt(renamed, vals, j);
      } else if k in keys {
        var j :| 0 <= j < |keys| && keys[j] == k;
        assert renamed[j] != k;
        assert j == i;
      }
    }
    assert stepped == after;
  }
}
