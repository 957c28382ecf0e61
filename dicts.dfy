/**
 * Python's `dict`: an insertion-ordered table. Iteration order is observable in the
 * modelled code (serialisers, the health tree, the "first entity" fallback), so a
 * dictionary is a sequence of key/value pairs rather than a Dafny `map`.
 */
module Dicts {
  import opened Wrappers

  type Dict<K, V> = seq<(K, V)>

  /** The keys, in iteration order (`list(d.keys())`). */
  function Keys<K, V>(d: Dict<K, V>): seq<K> {
    seq(|d|, i requires 0 <= i < |d| => d[i].0)
  }

  /** The values, in iteration order (`list(d.values())`). */
  function Values<K, V>(d: Dict<K, V>): seq<V> {
    seq(|d|, i requires 0 <= i < |d| => d[i].1)
  }

  /** A Python dict never holds a key twice. */
  ghost predicate UniqueKeys<K, V>(d: Dict<K, V>) {
    forall i, j :: 0 <= i < j < |d| ==> d[i].0 != d[j].0
  }

  /** No element of the sequence occurs twice. */
  ghost predicate Distinct<T>(s: seq<T>) {
    forall a, b :: 0 <= a < b < |s| ==> s[a] != s[b]
  }

  /** A dict whose key list has no repeats has unique keys. */
  lemma DistinctKeys<K, V>(d: Dict<K, V>)
    requires Distinct(Keys(d))
    ensures UniqueKeys(d)
  {
    forall a, b | 0 <= a < b < |d|
      ensures d[a].0 != d[b].0
    {
      assert Keys(d)[a] == d[a].0 && Keys(d)[b] == d[b].0;
    }
  }

  /** `d.get(k)`: the value stored under `k`, or None. */
  function Get<K(==), V>(d: Dict<K, V>, k: K): Option<V> {
    if |d| == 0 then None
    else if d[0].0 == k then Some(d[0].1)
    else Get(d[1..], k)
  }

  /**
   * `d[k] = v`: a key already present keeps its position and takes the new value;
   * a new key goes at the end.
   */
  function Put<K(==), V>(d: Dict<K, V>, k: K, v: V): (r: Dict<K, V>)
    ensures Get(r, k) == Some(v)
    ensures |r| == |d| || |r| == |d| + 1
  {
    if |d| == 0 then [(k, v)]
    else if d[0].0 == k then [(k, v)] + d[1..]
    else [d[0]] + Put(d[1..], k, v)
  }

  lemma KeysCons<K, V>(d: Dict<K, V>)
    requires |d| > 0
    ensures Keys(d) == [d[0].0] + Keys(d[1..])
  {
  }

  lemma ValuesCons<K, V>(d: Dict<K, V>)
    requires |d| > 0
    ensures Values(d) == [d[0].1] + Values(d[1..])
  {
  }

  /** A key is found exactly when it is one of the keys, and then its pair is in the dict. */
  lemma {:induction false} GetFound<K, V>(d: Dict<K, V>, k: K)
    ensures Get(d, k).Some? <==> k in Keys(d)
    ensures Get(d, k).Some? ==> (k, Get(d, k).value) in d
  {
    if |d| > 0 {
      KeysCons(d);
      GetFound(d[1..], k);
    }
  }

  /** The lookup finds the first pair that carries the key. */
  lemma {:induction false} GetFirst<K, V>(d: Dict<K, V>, k: K, i: nat)
    requires i < |d| && d[i].0 == k
    requires forall j :: 0 <= j < i ==> d[j].0 != k
    ensures Get(d, k) == Some(d[i].1)
  {
    if i > 0 {
      GetFirst(d[1..], k, i - 1);
    }
  }

  /** In a dict with unique keys, looking up the key at position i gives the value at position i. */
  lemma GetAt<K, V>(d: Dict<K, V>, i: nat)
    requires UniqueKeys(d) && i < |d|
    ensures Get(d, d[i].0) == Some(d[i].1)
  {
    GetFirst(d, d[i].0, i);
  }

  /** Storing under one key leaves every other key's lookup as it was. */
  lemma {:induction false} PutOther<K, V>(d: Dict<K, V>, k: K, v: V, k': K)
    requires k' != k
    ensures Get(Put(d, k, v), k') == Get(d, k')
  {
    if |d| > 0 && d[0].0 != k {
      PutOther(d[1..], k, v, k');
    }
  }

  /** Storing never reorders keys: an existing key stays put, a new one is appended. */
  lemma {:induction false} PutKeys<K, V>(d: Dict<K, V>, k: K, v: V)
    ensures Keys(Put(d, k, v)) == if k in Keys(d) then Keys(d) else Keys(d) + [k]
  {
    if |d| > 0 {
      KeysCons(d);
      KeysCons(Put(d, k, v));
      if d[0].0 != k {
        PutKeys(d[1..], k, v);
        assert Put(d, k, v)[1..] == Put(d[1..], k, v);
      } else {
        assert Put(d, k, v)[1..] == d[1..];
      }
    }
  }

  /** Storing keeps the keys unique. */
  lemma PutUnique<K, V>(d: Dict<K, V>, k: K, v: V)
    requires UniqueKeys(d)
    ensures UniqueKeys(Put(d, k, v))
  {
    var r := Put(d, k, v);
    PutKeys(d, k, v);
    forall i, j | 0 <= i < j < |r| ensures r[i].0 != r[j].0 {
      assert r[i].0 == Keys(r)[i] && r[j].0 == Keys(r)[j];
      if j < |d| {
        assert Keys(d)[i] == d[i].0 && Keys(d)[j] == d[j].0;
      } else {
        assert Keys(d)[i] == d[i].0;
      }
    }
  }

  /** Every pair after storing is the stored pair or was already there. */
  lemma {:induction false} PutPairs<K, V>(d: Dict<K, V>, k: K, v: V)
    ensures forall p :: p in Put(d, k, v) ==> p == (k, v) || p in d
  {
    if |d| > 0 && d[0].0 != k {
      PutPairs(d[1..], k, v);
    }
  }

  /** Storing a new key appends exactly one pair. */
  lemma {:induction false} PutAbsent<K, V>(d: Dict<K, V>, k: K, v: V)
    requires k !in Keys(d)
    ensures Put(d, k, v) == d + [(k, v)]
  {
    if |d| > 0 {
      KeysCons(d);
      PutAbsent(d[1..], k, v);
      assert [d[0]] + (d[1..] + [(k, v)]) == d + [(k, v)];
    }
  }
}
