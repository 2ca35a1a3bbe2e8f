/**
 * Facts about an encoder's dict literal whose keys come in groups: the
 * large panel and dashboard records are laid out as a first group (the
 * keys the decoder renames) followed by five more, and these lemmas let
 * each record check its groups one pair at a time.
 */
module Layout {
  import opened Wire
  import opened Objects
  import opened Transform
  import opened Records

  /** Five groups one after the other. */
  function Join<T>(a: seq<T>, b: seq<T>, c: seq<T>, d: seq<T>, e: seq<T>): (r: seq<T>)
    ensures |r| == |a| + |b| + |c| + |d| + |e|
  {
    a + (b + (c + (d + e)))
  }

  /** Five groups of keys, each without repeats and pairwise disjoint, make a list without repeats. */
  lemma DistinctJoin(a: seq<string>, b: seq<string>, c: seq<string>, d: seq<string>, e: seq<string>)
    requires Distinct(a) && Distinct(b) && Distinct(c) && Distinct(d) && Distinct(e)
    requires Disjoint(a, b) && Disjoint(a, c) && Disjoint(a, d) && Disjoint(a, e)
    requires Disjoint(b, c) && Disjoint(b, d) && Disjoint(b, e)
    requires Disjoint(c, d) && Disjoint(c, e) && Disjoint(d, e)
    ensures Distinct(Join(a, b, c, d, e))
  {
    DistinctConcat(d, e);
    DisjointConcatRight(c, d, e);
    DistinctConcat(c, d + e);
    DisjointConcatRight(b, d, e);
    DisjointConcatRight(b, c, d + e);
    DistinctConcat(b, c + (d + e));
    DisjointConcatRight(a, d, e);
    DisjointConcatRight(a, c, d + e);
    DisjointConcatRight(a, b, c + (d + e));
    DistinctConcat(a, b + (c + (d + e)));
  }

  /** A group disjoint from each of five groups is disjoint from all of them. */
  lemma ApartJoin(x: seq<string>, a: seq<string>, b: seq<string>, c: seq<string>, d: seq<string>, e: seq<string>)
    requires Disjoint(x, a) && Disjoint(x, b) && Disjoint(x, c) && Disjoint(x, d) && Disjoint(x, e)
    ensures Disjoint(x, Join(a, b, c, d, e))
  {
    DisjointConcatRight(x, d, e);
    DisjointConcatRight(x, c, d + e);
    DisjointConcatRight(x, b, c + (d + e));
    DisjointConcatRight(x, a, b + (c + (d + e)));
  }

  lemma DisjointSymmetric(a: seq<string>, b: seq<string>)
    requires Disjoint(a, b)
    ensures Disjoint(b, a)
  {
  }

  /** A literal written in two parts is the union of the two literals, the second part winning. */
  lemma {:induction false} ObjectOfAppend(k1: seq<string>, v1: seq<Json>, k2: seq<string>, v2: seq<Json>)
    requires |k1| == |v1| && |k2| == |v2|
    ensures ObjectOf(k1 + k2, v1 + v2) == ObjectOf(k1, v1) + ObjectOf(k2, v2)
    decreases |k2|
  {
    if k2 == [] {
      assert k1 + k2 == k1 && v1 + v2 == v1;
    } else {
      var n := |k2| - 1;
      ObjectOfAppend(k1, v1, k2[..n], v2[..n]);
      assert (k1 + k2)[..|k1 + k2| - 1] == k1 + k2[..n];
      assert (v1 + v2)[..|v1 + v2| - 1] == v1 + v2[..n];
    }
  }

  /** Every key of a literal with distinct keys holds the value written beside it. */
  lemma Holds(ks: seq<string>, vs: seq<Json>)
    requires |ks| == |vs| && Distinct(ks)
    ensures forall j | 0 <= j < |ks| :: ks[j] in ObjectOf(ks, vs) && ObjectOf(ks, vs)[ks[j]] == vs[j]
  {
    forall j | 0 <= j < |ks|
      ensures ks[j] in ObjectOf(ks, vs) && ObjectOf(ks, vs)[ks[j]] == vs[j]
    {
      ObjectOfAt(ks, vs, j);
    }
  }

  /** A literal holds none of the keys of a group disjoint from its own. */
  lemma Lacks(ks: seq<string>, vs: seq<Json>, others: seq<string>)
    requires |ks| == |vs| && Disjoint(others, ks)
    ensures forall j | 0 <= j < |others| :: others[j] !in ObjectOf(ks, vs)
  {
    forall j | 0 <= j < |others|
      ensures others[j] !in ObjectOf(ks, vs)
    {
      ObjectOfKeys(ks, vs, others[j]);
    }
  }

  /** The parameters of the first part of a two-part literal receive the values written for them. */
  lemma BindFirst(ks: seq<string>, vs: seq<Json>, tail: seq<string>, vtail: seq<Json>)
    requires |ks| == |vs| && |tail| == |vtail| && Distinct(ks) && Disjoint(ks, tail)
    ensures Arguments(ObjectOf(ks + tail, vs + vtail), ks) == Somes(vs)
  {
    ObjectOfAppend(ks, vs, tail, vtail);
    Holds(ks, vs);
    Lacks(tail, vtail, ks);
  }

  /** Parameters the first part does not name are bound as the second part alone would bind them. */
  lemma BindLater(ks: seq<string>, vs: seq<Json>, tail: seq<string>, vtail: seq<Json>, params: seq<string>)
    requires |ks| == |vs| && |tail| == |vtail| && Disjoint(params, ks)
    ensures Arguments(ObjectOf(ks + tail, vs + vtail), params) == Arguments(ObjectOf(tail, vtail), params)
  {
    ObjectOfAppend(ks, vs, tail, vtail);
    Lacks(ks, vs, params);
  }

  /**
   * The six groups of a record's literal: the first group, then five more
   * joined. Each group that has no repeats and shares no key with another
   * receives the values written for it; a group of parameters that no key
   * of the first five groups names is bound as the last group alone binds it.
   */
  lemma BindGroups(n: seq<string>, o: seq<string>, s: seq<string>, e: seq<string>, k: seq<string>, a: seq<string>,
                   vn: seq<Json>, vo: seq<Json>, vs: seq<Json>, ve: seq<Json>, vk: seq<Json>, va: seq<Json>,
                   p: seq<string>)
    requires |n| == |vn| && |o| == |vo| && |s| == |vs| && |e| == |ve| && |k| == |vk| && |a| == |va|
    requires Distinct(n) && Distinct(o) && Distinct(s) && Distinct(e) && Distinct(k)
    requires Disjoint(n, o) && Disjoint(n, s) && Disjoint(n, e) && Disjoint(n, k) && Disjoint(n, a)
    requires Disjoint(o, s) && Disjoint(o, e) && Disjoint(o, k) && Disjoint(o, a)
    requires Disjoint(s, e) && Disjoint(s, k) && Disjoint(s, a)
    requires Disjoint(e, k) && Disjoint(e, a) && Disjoint(k, a)
    requires Disjoint(p, n) && Disjoint(p, o) && Disjoint(p, s) && Disjoint(p, e) && Disjoint(p, k)
    ensures var m := ObjectOf(n + Join(o, s, e, k, a), vn + Join(vo, vs, ve, vk, va));
      Arguments(m, n) == Somes(vn) && Arguments(m, o) == Somes(vo) && Arguments(m, s) == Somes(vs) &&
      Arguments(m, e) == Somes(ve) && Arguments(m, k) == Somes(vk) &&
      Arguments(m, p) == Arguments(ObjectOf(a, va), p)
  {
    DisjointConcatRight(e, k, a);
    DisjointConcatRight(s, k, a);
    DisjointConcatRight(s, e, k + a);
    DisjointConcatRight(o, k, a);
    DisjointConcatRight(o, e, k + a);
    DisjointConcatRight(o, s, e + (k + a));
    ApartJoin(n, o, s, e, k, a);
    BindFirst(n, vn, Join(o, s, e, k, a), Join(vo, vs, ve, vk, va));
    BindFirst(o, vo, s + (e + (k + a)), vs + (ve + (vk + va)));
    BindFirst(s, vs, e + (k + a), ve + (vk + va));
    BindFirst(e, ve, k + a, vk + va);
    BindFirst(k, vk, a, va);
    DisjointSymmetric(n, o);
    BindLater(n, vn, Join(o, s, e, k, a), Join(vo, vs, ve, vk, va), o);
    DisjointSymmetric(n, s);
    DisjointSymmetric(o, s);
    BindLater(n, vn, Join(o, s, e, k, a), Join(vo, vs, ve, vk, va), s);
    BindLater(o, vo, s + (e + (k + a)), vs + (ve + (vk + va)), s);
    DisjointSymmetric(n, e);
    DisjointSymmetric(o, e);
    DisjointSymmetric(s, e);
    BindLater(n, vn, Join(o, s, e, k, a), Join(vo, vs, ve, vk, va), e);
    BindLater(o, vo, s + (e + (k + a)), vs + (ve + (vk + va)), e);
    BindLater(s, vs, e + (k + a), ve + (vk + va), e);
    DisjointSymmetric(n, k);
    DisjointSymmetric(o, k);
    DisjointSymmetric(s, k);
    DisjointSymmetric(e, k);
    BindLater(n, vn, Join(o, s, e, k, a), Join(vo, vs, ve, vk, va), k);
    BindLater(o, vo, s + (e + (k + a)), vs + (ve + (vk + va)), k);
    BindLater(s, vs, e + (k + a), ve + (vk + va), k);
    BindLater(e, ve, k + a, vk + va, k);
    BindLater(n, vn, Join(o, s, e, k, a), Join(vo, vs, ve, vk, va), p);
    BindLater(o, vo, s + (e + (k + a)), vs + (ve + (vk + va)), p);
    BindLater(s, vs, e + (k + a), ve + (vk + va), p);
    BindLater(e, ve, k + a, vk + va, p);
    BindLater(k, vk, a, va, p);
  }

  /**
   * Renaming the first group of such a literal: the written names, the
   * attribute names and the five other groups are all different.
   */
  lemma SeparateGroups(w: seq<string>, n: seq<string>, o: seq<string>, s: seq<string>, e: seq<string>,
                       k: seq<string>, a: seq<string>)
    requires Distinct(w) && Distinct(n) && Disjoint(w, n)
    requires Distinct(o) && Distinct(s) && Distinct(e) && Distinct(k) && Distinct(a)
    requires Disjoint(w, o) && Disjoint(w, s) && Disjoint(w, e) && Disjoint(w, k) && Disjoint(w, a)
    requires Disjoint(n, o) && Disjoint(n, s) && Disjoint(n, e) && Disjoint(n, k) && Disjoint(n, a)
    requires Disjoint(o, s) && Disjoint(o, e) && Disjoint(o, k) && Disjoint(o, a)
    requires Disjoint(s, e) && Disjoint(s, k) && Disjoint(s, a)
    requires Disjoint(e, k) && Disjoint(e, a) && Disjoint(k, a)
    ensures Separate(w, n, Join(o, s, e, k, a))
  {
    DistinctJoin(o, s, e, k, a);
    ApartJoin(w, o, s, e, k, a);
    ApartJoin(n, o, s, e, k, a);
  }

  /**
   * Every key of such a literal is a parameter, when the parameters are
   * the six groups and the literal leaves out the last group or writes it.
   */
  lemma KeysWithin(n: seq<string>, o: seq<string>, s: seq<string>, e: seq<string>, k: seq<string>,
                   a: seq<string>, params: seq<string>, vals: seq<Json>)
    requires |vals| == |n + Join(o, s, e, k, a)|
    requires forall x | x in a :: x in params
    ensures forall x | x in ObjectOf(n + Join(o, s, e, k, a), vals) :: x in n + Join(o, s, e, k, params)
  {
    forall x | x in ObjectOf(n + Join(o, s, e, k, a), vals)
      ensures x in n + Join(o, s, e, k, params)
    {
      ObjectOfKeys(n + Join(o, s, e, k, a), vals, x);
    }
  }
}
