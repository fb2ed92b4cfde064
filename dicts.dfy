/** Insertion-ordered dictionaries and JSON-like values.

    A JavaScript `Map` or plain object and a Python `dict` keep their keys in
    insertion order: assigning to an existing key keeps its position, a new key
    goes to the end, and deleting a key closes the gap.  They are modelled as a
    list of entries, `Assoc<K, V>`, whose keys are kept pairwise distinct by the
    operations below. */
module Dicts {
  import opened Wrappers

  type Assoc<K, V> = seq<(K, V)>

  /** A JSON-like value: what a JavaScript object literal or a Python dict of
      plain data holds.  Numbers are integers (floating point is not modelled). */
  datatype Json =
    | JNull
    | JBool(b: bool)
    | JNum(n: int)
    | JStr(s: string)
    | JArr(items: seq<Json>)
    | JObj(fields: Assoc<string, Json>)

  /** A plain object / dictionary with string keys. */
  type Dict = Assoc<string, Json>

  function Keys<K, V>(m: Assoc<K, V>): (ks: seq<K>)
    ensures |ks| == |m|
    ensures forall i :: 0 <= i < |m| ==> ks[i] == m[i].0
  {
    if m == [] then [] else [m[0].0] + Keys(m[1..])
  }

  function Values<K, V>(m: Assoc<K, V>): (vs: seq<V>)
    ensures |vs| == |m|
    ensures forall i :: 0 <= i < |m| ==> vs[i] == m[i].1
  {
    if m == [] then [] else [m[0].1] + Values(m[1..])
  }

  ghost predicate DistinctKeys<K, V>(m: Assoc<K, V>) {
    forall i, j :: 0 <= i < j < |m| ==> m[i].0 != m[j].0
  }

  /** `m.get(k)` / `m[k]`: the value stored under `k`, if any. */
  function Get<K(==, !new), V>(m: Assoc<K, V>, k: K): Option<V> {
    if m == [] then None
    else if m[0].0 == k then Some(m[0].1)
    else Get(m[1..], k)
  }

  /** Looking a key up in a list with one more entry at the front. */
  lemma GetCons<K(!new), V>(e: (K, V), m: Assoc<K, V>, k: K)
    ensures Get([e] + m, k) == if e.0 == k then Some(e.1) else Get(m, k)
  {
    assert ([e] + m)[1..] == m;
  }

  /** A key has a value exactly when it is among the keys. */
  lemma {:induction false} GetKeys<K(!new), V>(m: Assoc<K, V>, k: K)
    ensures Get(m, k).None? <==> k !in Keys(m)
    ensures Get(m, k).Some? ==> (k, Get(m, k).value) in m
  {
    if m != [] {
      assert Keys(m) == [m[0].0] + Keys(m[1..]);
      GetKeys(m[1..], k);
    }
  }

  /** The value found under a key is that of its first entry. */
  lemma {:induction false} GetAt<K(!new), V>(m: Assoc<K, V>, i: nat)
    requires i < |m|
    requires forall j :: 0 <= j < i ==> m[j].0 != m[i].0
    ensures Get(m, m[i].0) == Some(m[i].1)
  {
    if i > 0 {
      assert m[1..][i - 1] == m[i];
      GetAt(m[1..], i - 1);
    }
  }

  /** `m[k] = v` / `m.set(k, v)`: replaces the value in place when `k` is
      present, appends a new entry otherwise. */
  function Put<K(==), V>(m: Assoc<K, V>, k: K, v: V): Assoc<K, V> {
    if m == [] then [(k, v)]
    else if m[0].0 == k then [(k, v)] + m[1..]
    else [m[0]] + Put(m[1..], k, v)
  }

  /** A put key keeps its place or comes last, and holds the new value; every
      other key keeps its value. */
  lemma {:induction false} PutSpec<K(!new), V>(m: Assoc<K, V>, k: K, v: V)
    ensures var r := Put(m, k, v);
      && Keys(r) == (if k in Keys(m) then Keys(m) else Keys(m) + [k])
      && Get(r, k) == Some(v)
      && forall k' :: k' != k ==> Get(r, k') == Get(m, k')
  {
    if m != [] {
      var r := Put(m, k, v);
      assert Keys(m) == [m[0].0] + Keys(m[1..]);
      if m[0].0 == k {
        assert r[1..] == m[1..];
        assert Keys(r) == [k] + Keys(m[1..]);
      } else {
        var rest := Put(m[1..], k, v);
        PutSpec(m[1..], k, v);
        assert r[1..] == rest;
        assert Keys(r) == [m[0].0] + Keys(rest);
      }
    }
  }

  /** The value under one key after a put. */
  lemma {:induction false} PutGet<K(!new), V>(m: Assoc<K, V>, k: K, v: V, k': K)
    ensures Get(Put(m, k, v), k') == if k' == k then Some(v) else Get(m, k')
  {
    if m != [] {
      var r := Put(m, k, v);
      if m[0].0 == k {
        assert r[1..] == m[1..];
      } else {
        assert r[1..] == Put(m[1..], k, v);
        PutGet(m[1..], k, v, k');
      }
    }
  }

  /** A second put under the same key overwrites the first. */
  lemma {:induction false} PutTwice<K(!new), V>(m: Assoc<K, V>, k: K, a: V, b: V)
    ensures Put(Put(m, k, a), k, b) == Put(m, k, b)
  {
    if m != [] && m[0].0 != k {
      PutTwice(m[1..], k, a, b);
      assert Put(m, k, a)[1..] == Put(m[1..], k, a);
    }
  }

  lemma KeysAppend<K, V>(m: Assoc<K, V>, k: K, v: V)
    ensures Keys(m + [(k, v)]) == Keys(m) + [k]
  {
    assert Keys(m + [(k, v)])[|m|] == k;
  }

  /** Putting a new key appends its entry. */
  lemma {:induction false} PutNew<K(!new), V>(m: Assoc<K, V>, k: K, v: V)
    requires k !in Keys(m)
    ensures Put(m, k, v) == m + [(k, v)]
  {
    if m != [] {
      assert Keys(m) == [m[0].0] + Keys(m[1..]);
      PutNew(m[1..], k, v);
      assert m == [m[0]] + m[1..];
    }
  }

  /** Putting a new key adds it at the end of the keys. */
  lemma KeysPutNew<K(!new), V>(m: Assoc<K, V>, k: K, v: V)
    requires k !in Keys(m)
    ensures Keys(Put(m, k, v)) == Keys(m) + [k]
  {
    PutNew(m, k, v);
    KeysAppend(m, k, v);
  }

  /** `del m[k]` / `m.delete(k)`. */
  function Remove<K(==, !new), V>(m: Assoc<K, V>, k: K): (r: Assoc<K, V>)
    ensures Get(r, k) == None
    ensures forall k' :: k' != k ==> Get(r, k') == Get(m, k')
    ensures forall i :: 0 <= i < |r| ==> r[i] in m && r[i].0 != k
    ensures forall i :: 0 <= i < |m| && m[i].0 != k ==> m[i] in r
  {
    if m == [] then []
    else if m[0].0 == k then Remove(m[1..], k)
    else [m[0]] + Remove(m[1..], k)
  }

  /** `Object.assign(m, u)` / `m.update(u)`: every entry of `u`, in order, is
      put into `m`. */
  function Assign<K(==, !new), V>(m: Assoc<K, V>, u: Assoc<K, V>): (r: Assoc<K, V>)
    decreases |u|
  {
    if u == [] then m else Assign(Put(m, u[0].0, u[0].1), u[1..])
  }

  lemma {:induction false} PutDistinct<K(!new), V>(m: Assoc<K, V>, k: K, v: V)
    requires DistinctKeys(m)
    ensures DistinctKeys(Put(m, k, v))
  {
    var r := Put(m, k, v);
    PutSpec(m, k, v);
    forall i, j | 0 <= i < j < |r| ensures r[i].0 != r[j].0 {
      assert Keys(r)[i] == r[i].0 && Keys(r)[j] == r[j].0;
      if k !in Keys(m) && j == |m| {
        assert r[i].0 == Keys(m)[i];
      } else {
        assert Keys(r)[i] == Keys(m)[i] && Keys(r)[j] == Keys(m)[j];
      }
    }
  }

  lemma {:induction false} RemoveDistinct<K(!new), V>(m: Assoc<K, V>, k: K)
    requires DistinctKeys(m)
    ensures DistinctKeys(Remove(m, k))
  {
    if m != [] {
      var tail := m[1..];
      assert DistinctKeys(tail) by {
        forall i, j | 0 <= i < j < |tail| ensures tail[i].0 != tail[j].0 {
          assert tail[i] == m[i + 1] && tail[j] == m[j + 1];
        }
      }
      RemoveDistinct(tail, k);
      var rest := Remove(tail, k);
      if m[0].0 != k {
        assert Remove(m, k) == [m[0]] + rest;
        forall i | 0 <= i < |rest| ensures rest[i].0 != m[0].0 {
          assert rest[i] in m[1..];
        }
        var r := [m[0]] + rest;
        forall i, j | 0 <= i < j < |r| ensures r[i].0 != r[j].0 {
          if i == 0 { assert r[j] == rest[j - 1]; assert rest[j - 1] in m[1..]; }
          else { assert r[i] == rest[i - 1] && r[j] == rest[j - 1]; }
        }
      }
    }
  }

  /** Object.assign overwrites exactly the keys of the update and keeps the
      value of every other key. */
  lemma {:induction false} AssignGet<K(!new), V>(m: Assoc<K, V>, u: Assoc<K, V>, k: K)
    requires DistinctKeys(u)
    ensures Get(Assign(m, u), k) == if k in Keys(u) then Get(u, k) else Get(m, k)
    decreases |u|
  {
    if u != [] {
      var u' := u[1..];
      assert DistinctKeys(u');
      assert Keys(u) == [u[0].0] + Keys(u');
      PutSpec(m, u[0].0, u[0].1);
      AssignGet(Put(m, u[0].0, u[0].1), u', k);
      if k == u[0].0 {
        forall i | 0 <= i < |u'| ensures Keys(u')[i] != k {
          assert u[i + 1] == u'[i];
        }
      }
    }
  }

  /** Assigning keeps the keys distinct. */
  lemma {:induction false} AssignDistinct<K(!new), V>(m: Assoc<K, V>, u: Assoc<K, V>)
    requires DistinctKeys(m)
    ensures DistinctKeys(Assign(m, u))
    decreases |u|
  {
    if u != [] {
      PutDistinct(m, u[0].0, u[0].1);
      AssignDistinct(Put(m, u[0].0, u[0].1), u[1..]);
    }
  }

  /** The keys of `m` are those of `Assign(m, u)` that `u` does not bring. */
  lemma {:induction false} AssignKeys<K(!new), V>(m: Assoc<K, V>, u: Assoc<K, V>, k: K)
    ensures k in Keys(Assign(m, u)) <==> k in Keys(m) || k in Keys(u)
    decreases |u|
  {
    if u != [] {
      assert Keys(u) == [u[0].0] + Keys(u[1..]);
      PutSpec(m, u[0].0, u[0].1);
      AssignKeys(Put(m, u[0].0, u[0].1), u[1..], k);
    }
  }
  /** `Array.from(m.values())` for a JavaScript Map whose keys, in insertion
      order, are `ids`. */
  function InOrder<K(==), V>(m: map<K, V>, ids: seq<K>): seq<V> {
    if ids == [] then [] else (if ids[0] in m then [m[ids[0]]] else []) + InOrder(m, ids[1..])
  }

  /** When every listed key is present, the values come one per key, in key order. */
  lemma {:induction false} InOrderAt<K(!new), V>(m: map<K, V>, ids: seq<K>)
    requires forall k :: 0 <= k < |ids| ==> ids[k] in m
    ensures var vs := InOrder(m, ids); |vs| == |ids| && forall k :: 0 <= k < |ids| ==> vs[k] == m[ids[k]]
  {
    if ids != [] {
      assert forall k :: 0 <= k < |ids[1..]| ==> ids[1..][k] == ids[k + 1];
      InOrderAt(m, ids[1..]);
    }
  }
}
