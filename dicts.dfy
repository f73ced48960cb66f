/**
  Python's `dict`, as the source uses it: an insertion-ordered table with at most
  one entry per key. Assigning `d[k] = v` overwrites the entry of `k` in place
  when there is one and appends a new entry otherwise.
 */
module Dicts {
  import opened Wrappers

  type Dict<K, V> = seq<(K, V)>

  /** The keys, in insertion order (`list(d.keys())`, `for k in d`). */
  function Keys<K, V>(d: Dict<K, V>): (ks: seq<K>)
    ensures |ks| == |d|
    ensures forall i {:trigger ks[i]} :: 0 <= i < |d| ==> ks[i] == d[i].0
  {
    if d == [] then [] else [d[0].0] + Keys(d[1..])
  }

  /** The values, in insertion order (`d.values()`). */
  function Values<K, V>(d: Dict<K, V>): (vs: seq<V>)
    ensures |vs| == |d|
    ensures forall i :: 0 <= i < |d| ==> vs[i] == d[i].1
  {
    if d == [] then [] else [d[0].1] + Values(d[1..])
  }

  /** Every key occurs once, as in any Python dict. */
  ghost predicate DistinctKeys<K, V>(d: Dict<K, V>) {
    forall i, j :: 0 <= i < j < |d| ==> d[i].0 != d[j].0
  }

  /** `{k: h(k, v) for k, v in d.items()}`: the same keys in the same order. */
  function MapValues<K, V, W>(d: Dict<K, V>, h: (K, V) -> W): (r: Dict<K, W>)
    ensures |r| == |d|
    ensures forall i :: 0 <= i < |d| ==> r[i] == (d[i].0, h(d[i].0, d[i].1))
  {
    seq(|d|, i requires 0 <= i < |d| => (d[i].0, h(d[i].0, d[i].1)))
  }

  /** `d.get(k)`: `None` when `k` is not a key. */
  function Get<K(==), V>(d: Dict<K, V>, k: K): (r: Option<V>)
    ensures r.Some? <==> k in Keys(d)
  {
    if d == [] then None
    else if d[0].0 == k then Some(d[0].1)
    else Get(d[1..], k)
  }

  /** `d.get(k, default)`. */
  function GetOr<K(==), V>(d: Dict<K, V>, k: K, default: V): V {
    match Get(d, k)
    case Some(v) => v
    case None => default
  }

  /** `d[k] = v`: the entry of `k` now holds `v`, every other key keeps its entry,
      and a new key goes at the end. */
  function Put<K(==,!new), V>(d: Dict<K, V>, k: K, v: V): (r: Dict<K, V>)
    ensures Get(r, k) == Some(v)
    ensures forall j {:trigger Get(r, j)} :: j != k ==> Get(r, j) == Get(d, j)
  {
    if d == [] then [(k, v)]
    else if d[0].0 == k then [(k, v)] + d[1..]
    else
      var rest := Put(d[1..], k, v);
      assert ([d[0]] + rest)[1..] == rest;
      [d[0]] + rest
  }

  lemma {:induction false} GetAt<K, V>(d: Dict<K, V>, i: nat)
    requires DistinctKeys(d) && i < |d|
    ensures Get(d, d[i].0) == Some(d[i].1)
  {
    if i > 0 {
      assert d[1..][i - 1] == d[i];
      GetAt(d[1..], i - 1);
    }
  }

  /** `get` answers with the first entry that holds the key. */
  lemma {:induction false} GetFirst<K, V>(d: Dict<K, V>, i: nat, k: K)
    requires i < |d| && d[i].0 == k
    requires forall j :: 0 <= j < i ==> d[j].0 != k
    ensures Get(d, k) == Some(d[i].1)
  {
    if i > 0 {
      assert d[1..][i - 1] == d[i];
      GetFirst(d[1..], i - 1, k);
    }
  }

  /** A lookup in the mapped dict is the mapped lookup. */
  lemma {:induction false} GetMapValues<K, V, W>(d: Dict<K, V>, h: (K, V) -> W, k: K)
    ensures Get(MapValues(d, h), k) == match Get(d, k) case None => None case Some(v) => Some(h(k, v))
  {
    if d != [] && d[0].0 != k {
      assert MapValues(d, h)[1..] == MapValues(d[1..], h);
      GetMapValues(d[1..], h, k);
    }
  }

  /** A write overwrites an existing key where it stands and appends a new key at the end. */
  lemma {:induction false} PutKeys<K(!new), V>(d: Dict<K, V>, k: K, v: V)
    ensures Keys(Put(d, k, v)) == if k in Keys(d) then Keys(d) else Keys(d) + [k]
  {
    if d == [] {
    } else if d[0].0 == k {
      PutKeysHead(d, k, v);
    } else {
      PutKeys(d[1..], k, v);
      PutKeysStep(d, k, v);
    }
  }

  lemma PutKeysHead<K(!new), V>(d: Dict<K, V>, k: K, v: V)
    requires d != [] && d[0].0 == k
    ensures Keys(Put(d, k, v)) == Keys(d) && k in Keys(d)
  {
    var r := [(k, v)] + d[1..];
    assert Put(d, k, v) == r;
    assert r[1..] == d[1..];
    assert Keys(r) == [k] + Keys(d[1..]);
  }

  lemma PutKeysStep<K(!new), V>(d: Dict<K, V>, k: K, v: V)
    requires d != [] && d[0].0 != k
    requires Keys(Put(d[1..], k, v)) == if k in Keys(d[1..]) then Keys(d[1..]) else Keys(d[1..]) + [k]
    ensures Keys(Put(d, k, v)) == if k in Keys(d) then Keys(d) else Keys(d) + [k]
  {
    var rest := Put(d[1..], k, v);
    PutCons(d, k, v);
    KeysCons([d[0]] + rest);
    assert ([d[0]] + rest)[1..] == rest;
    KeysCons(d);
    if k in Keys(d[1..]) {
      assert k in Keys(d);
    } else {
      assert k !in Keys(d);
      assert [d[0].0] + (Keys(d[1..]) + [k]) == ([d[0].0] + Keys(d[1..])) + [k];
    }
  }

  lemma PutCons<K(!new), V>(d: Dict<K, V>, k: K, v: V)
    requires d != [] && d[0].0 != k
    ensures Put(d, k, v) == [d[0]] + Put(d[1..], k, v)
  {
  }

  lemma KeysCons<K, V>(d: Dict<K, V>)
    requires d != []
    ensures Keys(d) == [d[0].0] + Keys(d[1..])
  {
  }

  lemma {:induction false} PutKeepsDistinct<K(!new), V>(d: Dict<K, V>, k: K, v: V)
    requires DistinctKeys(d)
    ensures DistinctKeys(Put(d, k, v))
  {
    var r := Put(d, k, v);
    var ks := Keys(r);
    PutKeys(d, k, v);
    assert ks == if k in Keys(d) then Keys(d) else Keys(d) + [k];
    forall i, j | 0 <= i < j < |r| ensures r[i].0 != r[j].0 {
      assert ks[i] == r[i].0 && ks[j] == r[j].0;
      if k !in Keys(d) && j == |d| {
        assert ks[i] == Keys(d)[i] == d[i].0;
      } else {
        assert ks[i] == d[i].0 && ks[j] == d[j].0;
      }
    }
  }

  /** Writing the value a key already holds changes nothing. */
  lemma {:induction false} PutSame<K(!new), V>(d: Dict<K, V>, k: K, v: V)
    requires Get(d, k) == Some(v)
    ensures Put(d, k, v) == d
  {
    if d[0].0 != k {
      PutSame(d[1..], k, v);
    }
  }

  /** Two dicts with distinct keys that list the same keys in the same order
      and agree on every lookup are the same dict. */
  lemma {:induction false} SameLookupsSameDict<K, V>(d: Dict<K, V>, e: Dict<K, V>)
    requires DistinctKeys(d) && DistinctKeys(e)
    requires Keys(d) == Keys(e)
    requires forall k :: Get(d, k) == Get(e, k)
    ensures d == e
  {
    forall i | 0 <= i < |d| ensures d[i] == e[i] {
      assert Keys(d)[i] == Keys(e)[i];
      GetAt(d, i);
      GetAt(e, i);
    }
  }

  /** A value `get` finds is stored in the dict under that key. */
  lemma {:induction false} GetSomeIn<K, V>(d: Dict<K, V>, k: K)
    requires Get(d, k).Some?
    ensures exists i :: 0 <= i < |d| && d[i] == (k, Get(d, k).value)
  {
    if d[0].0 != k {
      GetSomeIn(d[1..], k);
      var i :| 0 <= i < |d[1..]| && d[1..][i] == (k, Get(d, k).value);
      assert d[i + 1] == d[1..][i];
    }
  }

  /** Every entry of `Put(d, k, v)` is the new entry or an entry of `d`. */
  lemma {:induction false} PutEntries<K(!new), V>(d: Dict<K, V>, k: K, v: V)
    ensures forall e :: e in Put(d, k, v) ==> e == (k, v) || e in d
  {
    if d != [] && d[0].0 != k {
      PutEntries(d[1..], k, v);
    }
  }

  /** Writing a new key appends its entry. */
  lemma {:induction false} PutNuevo<K(!new), V>(d: Dict<K, V>, k: K, v: V)
    requires Get(d, k).None?
    ensures Put(d, k, v) == d + [(k, v)]
  {
    if d != [] {
      PutNuevo(d[1..], k, v);
      PutNuevoPaso(d, k, v);
    }
  }

  lemma PutNuevoPaso<K(!new), V>(d: Dict<K, V>, k: K, v: V)
    requires d != [] && d[0].0 != k
    requires Put(d[1..], k, v) == d[1..] + [(k, v)]
    ensures Put(d, k, v) == d + [(k, v)]
  {
    assert d + [(k, v)] == [d[0]] + (d[1..] + [(k, v)]);
  }

  /** Writing a key that is already present replaces its entry where it stands. */
  lemma {:induction false} PutAt<K(!new), V>(d: Dict<K, V>, i: nat, v: V)
    requires DistinctKeys(d) && i < |d|
    ensures Put(d, d[i].0, v) == d[i := (d[i].0, v)]
  {
    var k := d[i].0;
    if i == 0 {
      assert Put(d, k, v) == [(k, v)] + d[1..];
    } else {
      assert d[0].0 != k;
      var cola := d[1..];
      assert DistinctKeys(cola) && cola[i - 1] == d[i];
      PutAt(cola, i - 1, v);
      assert Put(d, k, v) == [d[0]] + cola[i - 1 := (k, v)];
      assert d[i := (k, v)] == [d[0]] + cola[i - 1 := (k, v)];
    }
  }

  /** Replacing the value of an entry keeps the keys distinct. */
  lemma UpdateKeepsDistinct<K, V>(d: Dict<K, V>, i: nat, v: V)
    requires DistinctKeys(d) && i < |d|
    ensures DistinctKeys(d[i := (d[i].0, v)])
  {
    var e := d[i := (d[i].0, v)];
    forall a, b | 0 <= a < b < |e| ensures e[a].0 != e[b].0 {
      assert e[a].0 == d[a].0 && e[b].0 == d[b].0;
    }
  }

  /** With distinct keys, no earlier entry holds the key of entry `i`. */
  lemma {:induction false} GetPrefixNone<K, V>(d: Dict<K, V>, i: nat)
    requires DistinctKeys(d) && i < |d|
    ensures Get(d[..i], d[i].0).None?
  {
    if i > 0 {
      assert d[0].0 != d[i].0;
      assert DistinctKeys(d[1..]) && d[1..][i - 1] == d[i];
      GetPrefixNone(d[1..], i - 1);
      assert d[..i][1..] == d[1..][..i - 1];
    }
  }

  /** Mapping one more entry appends its image. */
  lemma MapValuesSnoc<K, V, W>(d: Dict<K, V>, h: (K, V) -> W, i: nat)
    requires i < |d|
    ensures MapValues(d[..i + 1], h) == MapValues(d[..i], h) + [(d[i].0, h(d[i].0, d[i].1))]
  {
    var a := MapValues(d[..i + 1], h);
    var b := MapValues(d[..i], h) + [(d[i].0, h(d[i].0, d[i].1))];
    assert |a| == |b|;
    forall j | 0 <= j < |a| ensures a[j] == b[j] {
      if j < i {
        assert d[..i + 1][j] == d[..i][j];
      }
    }
  }

  /** The keys of a prefix are the prefix of the keys. */
  lemma KeysPrefix<K, V>(d: Dict<K, V>, i: nat)
    requires i <= |d|
    ensures Keys(d[..i]) == Keys(d)[..i]
  {
    var a := Keys(d[..i]);
    assert |a| == i;
    forall j | 0 <= j < i ensures a[j] == Keys(d)[..i][j] {
      assert a[j] == d[..i][j].0;
      assert Keys(d)[j] == d[j].0;
    }
  }
}
