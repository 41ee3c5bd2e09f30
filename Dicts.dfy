/**
 * Python dictionaries remember the order in which their keys were first
 * inserted, and the programs modelled here list results in that order.
 * `Dict` is such a dictionary with string keys: `keys` lists every key once,
 * oldest first, and `vals` holds the values.
 */
module Dicts {

  datatype Dict<V> = Dict(keys: seq<string>, vals: map<string, V>)

  /** `{}` */
  function Empty<V>(): Dict<V> {
    Dict([], map[])
  }

  predicate Distinct(s: seq<string>) {
    forall i, j :: 0 <= i < j < |s| ==> s[i] != s[j]
  }

  /** Every key listed once, and exactly the keys that have a value. */
  ghost predicate Valid<V>(d: Dict<V>) {
    Distinct(d.keys) && (forall k :: k in d.vals <==> k in d.keys)
  }

  /** `d.get(k, default)` */
  function Get<V>(d: Dict<V>, k: string, default: V): V {
    if k in d.vals then d.vals[k] else default
  }

  /**
   * `d[k] = v`: the value of `k` becomes `v`, every other entry stays; a new
   * key goes to the end of the order, an existing key keeps its place.
   */
  function Put<V>(d: Dict<V>, k: string, v: V): (r: Dict<V>)
    requires Valid(d)
    ensures Valid(r)
    ensures r.vals == d.vals[k := v]
    ensures r.keys == if k in d.vals then d.keys else d.keys + [k]
  {
    if k in d.vals then Dict(d.keys, d.vals[k := v]) else Dict(d.keys + [k], d.vals[k := v])
  }

  /** Storing twice under one key is storing the second value once. */
  lemma PutPut<V>(d: Dict<V>, k: string, a: V, b: V)
    requires Valid(d)
    ensures Put(Put(d, k, a), k, b) == Put(d, k, b)
  {
  }

  /** `sum(f(v) for v in d.values())`, restricted to the keys in `keys`. */
  function SumOver<V>(keys: seq<string>, vals: map<string, V>, f: V -> real): real {
    if keys == [] then 0.0
    else (if keys[0] in vals then f(vals[keys[0]]) else 0.0) + SumOver(keys[1..], vals, f)
  }

  /** `sum(f(v) for v in d.values())` */
  function Sum<V>(d: Dict<V>, f: V -> real): real {
    SumOver(d.keys, d.vals, f)
  }

  /** Appending a key adds its term at the end of the sum. */
  lemma {:induction false} SumOverAppend<V>(keys: seq<string>, x: string, vals: map<string, V>, f: V -> real)
    ensures SumOver(keys + [x], vals, f) == SumOver(keys, vals, f) + (if x in vals then f(vals[x]) else 0.0)
  {
    if keys != [] {
      assert (keys + [x])[1..] == keys[1..] + [x];
      SumOverAppend(keys[1..], x, vals, f);
    }
  }

  /** A value stored under a key that is not summed does not change the sum. */
  lemma {:induction false} SumOverOutside<V>(keys: seq<string>, vals: map<string, V>, k: string, v: V, f: V -> real)
    requires k !in keys
    ensures SumOver(keys, vals[k := v], f) == SumOver(keys, vals, f)
  {
    if keys != [] {
      SumOverOutside(keys[1..], vals, k, v, f);
    }
  }

  /** Replacing the value of a key summed once replaces its term in the sum. */
  lemma {:induction false} SumOverReplace<V>(keys: seq<string>, vals: map<string, V>, k: string, v: V, f: V -> real)
    requires Distinct(keys) && k in keys && k in vals
    ensures SumOver(keys, vals[k := v], f) == SumOver(keys, vals, f) - f(vals[k]) + f(v)
  {
    if keys[0] == k {
      assert k !in keys[1..];
      SumOverOutside(keys[1..], vals, k, v, f);
    } else {
      SumOverReplace(keys[1..], vals, k, v, f);
    }
  }

  /**
   * After `d[k] = v` the sum has lost the old term of `k`, if there was one,
   * and gained `f(v)`.
   */
  lemma PutSum<V>(d: Dict<V>, k: string, v: V, f: V -> real)
    requires Valid(d)
    ensures Sum(Put(d, k, v), f) == Sum(d, f) - (if k in d.vals then f(d.vals[k]) else 0.0) + f(v)
  {
    if k in d.vals {
      SumOverReplace(d.keys, d.vals, k, v, f);
    } else {
      SumOverAppend(d.keys, k, d.vals[k := v], f);
      SumOverOutside(d.keys, d.vals, k, v, f);
    }
  }

  /** A sum of non-negative terms is non-negative. */
  lemma {:induction false} SumOverNonNegative<V>(keys: seq<string>, vals: map<string, V>, f: V -> real)
    requires forall k :: k in vals ==> f(vals[k]) >= 0.0
    ensures SumOver(keys, vals, f) >= 0.0
  {
    if keys != [] {
      SumOverNonNegative(keys[1..], vals, f);
    }
  }

  /** `r` is `s` with some elements left out and the rest in their order. */
  ghost predicate Subsequence(r: seq<string>, s: seq<string>)
    decreases |s|
  {
    r == [] || (s != [] && ((r[0] == s[0] && Subsequence(r[1..], s[1..])) || Subsequence(r, s[1..])))
  }

  /**
   * `[k for k in keys if keep(vals[k])]`: exactly the listed keys whose value
   * is kept, in their listed order.
   */
  function KeysWhere<V>(keys: seq<string>, vals: map<string, V>, keep: V -> bool): (r: seq<string>)
    ensures forall k :: k in r <==> k in keys && k in vals && keep(vals[k])
    ensures Subsequence(r, keys)
  {
    if keys == [] then []
    else
      var rest := KeysWhere(keys[1..], vals, keep);
      if keys[0] in vals && keep(vals[keys[0]]) then [keys[0]] + rest else rest
  }

  /** Filtering a list with one more key at the end keeps that key last when it passes. */
  lemma {:induction false} KeysWhereSnoc<V>(keys: seq<string>, x: string, vals: map<string, V>, keep: V -> bool)
    ensures KeysWhere(keys + [x], vals, keep)
         == KeysWhere(keys, vals, keep) + (if x in vals && keep(vals[x]) then [x] else [])
  {
    if keys != [] {
      assert (keys + [x])[1..] == keys[1..] + [x];
      KeysWhereSnoc(keys[1..], x, vals, keep);
    }
  }

  /** Leaving elements out of a list without repeats leaves none repeated. */
  lemma {:induction false} SubsequenceDistinct(r: seq<string>, s: seq<string>)
    requires Subsequence(r, s) && Distinct(s)
    ensures Distinct(r)
    decreases |s|
  {
    if r != [] {
      assert s != [];
      if r[0] == s[0] && Subsequence(r[1..], s[1..]) {
        SubsequenceDistinct(r[1..], s[1..]);
        SubsequenceIn(r[1..], s[1..]);
        forall j | 0 < j < |r|
          ensures r[0] != r[j]
        {
          assert r[j] == r[1..][j - 1];
          assert r[j] in r[1..];
          assert r[j] in s[1..];
          var i :| 0 <= i < |s[1..]| && s[1..][i] == r[j];
          assert s[i + 1] == r[j];
        }
      } else {
        SubsequenceDistinct(r, s[1..]);
      }
    }
  }

  /** Every element of a subsequence is an element of the list. */
  lemma {:induction false} SubsequenceIn(r: seq<string>, s: seq<string>)
    requires Subsequence(r, s)
    ensures forall k :: k in r ==> k in s
    decreases |s|
  {
    if r != [] {
      if r[0] == s[0] && Subsequence(r[1..], s[1..]) {
        SubsequenceIn(r[1..], s[1..]);
        assert forall k :: k in r ==> k == r[0] || k in r[1..];
      } else {
        SubsequenceIn(r, s[1..]);
      }
    }
  }

  /** `[k for k, v in d.items() if keep(v)]` */
  function Where<V>(d: Dict<V>, keep: V -> bool): (r: seq<string>)
    requires Valid(d)
    ensures forall k :: k in r <==> k in d.vals && keep(d.vals[k])
    ensures Subsequence(r, d.keys)
  {
    KeysWhere(d.keys, d.vals, keep)
  }
}
