/**
 * A Python `dict` with string keys as the scripts use it: lookups, `d[k] = v` that keeps an
 * existing key's position and appends a new one, and `items()` in insertion order. The entries
 * are a sequence of key/value pairs with no key repeated.
 */
module Ordered {
  import opened Wrappers

  type Dict<V> = seq<(string, V)>

  /** The keys in insertion order (`list(d)`). */
  function Keys<V>(d: Dict<V>): (ks: seq<string>)
    ensures |ks| == |d|
    ensures forall i :: 0 <= i < |d| ==> ks[i] == d[i].0
  {
    if |d| == 0 then [] else [d[0].0] + Keys(d[1..])
  }

  /** No key occurs twice: the well-formedness every dictionary value keeps. */
  predicate Unique<V>(d: Dict<V>) {
    forall i, j :: 0 <= i < j < |d| ==> d[i].0 != d[j].0
  }

  /** `d.get(k)`. */
  function Get<V>(d: Dict<V>, k: string): (r: Option<V>)
    ensures r.None? <==> k !in Keys(d)
  {
    if |d| == 0 then None
    else if d[0].0 == k then Some(d[0].1)
    else Get(d[1..], k)
  }

  /** Dropping the first entry keeps a dictionary well formed. */
  lemma UniqueTail<V>(d: Dict<V>)
    requires Unique(d) && |d| > 0
    ensures Unique(d[1..])
    ensures d[0].0 !in Keys(d[1..])
  {
    forall a, b | 0 <= a < b < |d[1..]| ensures d[1..][a].0 != d[1..][b].0 {
      assert d[1..][a] == d[a + 1] && d[1..][b] == d[b + 1];
    }
  }

  /** In a well-formed dictionary, the value of the entry carrying `k`. */
  lemma {:induction false} GetAt<V>(d: Dict<V>, i: nat)
    requires Unique(d) && i < |d|
    ensures Get(d, d[i].0) == Some(d[i].1)
  {
    if i > 0 {
      UniqueTail(d);
      assert d[1..][i - 1] == d[i];
      GetAt(d[1..], i - 1);
    }
  }

  /** `d[k] = v`. */
  function Put<V>(d: Dict<V>, k: string, v: V): (r: Dict<V>)
    ensures Keys(r) == if k in Keys(d) then Keys(d) else Keys(d) + [k]
    ensures Get(r, k) == Some(v)
    ensures forall j :: j != k ==> Get(r, j) == Get(d, j)
  {
    if |d| == 0 then [(k, v)]
    else if d[0].0 == k then
      var r := [(k, v)] + d[1..];
      assert r[1..] == d[1..];
      r
    else
      var t := Put(d[1..], k, v);
      var r := [d[0]] + t;
      assert r[1..] == t;
      r
  }

  /** Assignment keeps a dictionary well formed. */
  lemma {:induction false} PutUnique<V>(d: Dict<V>, k: string, v: V)
    requires Unique(d)
    ensures Unique(Put(d, k, v))
  {
    var r := Put(d, k, v);
    forall a, b | 0 <= a < b < |r| ensures r[a].0 != r[b].0 {
      assert Keys(r)[a] == r[a].0 && Keys(r)[b] == r[b].0;
      if k in Keys(d) {
        assert Keys(d)[a] == d[a].0 && Keys(d)[b] == d[b].0;
      } else if b < |d| {
        assert Keys(d)[a] == d[a].0 && Keys(d)[b] == d[b].0;
      } else {
        assert Keys(d)[a] == d[a].0;
      }
    }
  }

  /** `k in d`. */
  predicate Has<V>(d: Dict<V>, k: string) {
    k in Keys(d)
  }
}
