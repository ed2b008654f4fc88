/**
 * Python dicts keep their keys in insertion order, and the client depends on
 * it (command parameters are formatted in dict order, callbacks are tried in
 * registration order). A dict is modelled as a sequence of (key, value)
 * pairs with distinct keys.
 */
module Dicts {

  datatype Option<T> = None | Some(value: T)

  function Keys<K, V>(d: seq<(K, V)>): (ks: seq<K>)
    ensures |ks| == |d|
    ensures forall i :: 0 <= i < |d| ==> ks[i] == d[i].0
  {
    seq(|d|, i requires 0 <= i < |d| => d[i].0)
  }

  predicate UniqueKeys<K(==), V>(d: seq<(K, V)>) {
    forall i, j :: 0 <= i < j < |d| ==> d[i].0 != d[j].0
  }

  /** Position of `k` in the dict, or -1. */
  function IndexOf<K(==), V>(d: seq<(K, V)>, k: K): (i: int)
    ensures -1 <= i < |d|
    ensures i == -1 <==> k !in Keys(d)
    ensures i >= 0 ==> d[i].0 == k && k !in Keys(d[..i])
  {
    if d == [] then -1
    else if d[0].0 == k then 0
    else
      var j := IndexOf(d[1..], k);
      assert Keys(d) == [d[0].0] + Keys(d[1..]);
      if j < 0 then -1
      else
        assert Keys(d[..j + 1]) == [d[0].0] + Keys(d[1..][..j]);
        j + 1
  }

  /** `d.get(k)` */
  function Get<K(==), V>(d: seq<(K, V)>, k: K): (r: Option<V>)
    ensures r.Some? <==> k in Keys(d)
  {
    var i := IndexOf(d, k);
    if i < 0 then None else Some(d[i].1)
  }

  /** `d[k] = v`: an existing key keeps its position, a new key goes last. */
  function Put<K(==), V>(d: seq<(K, V)>, k: K, v: V): (r: seq<(K, V)>)
    ensures k in Keys(d) ==> |r| == |d|
    ensures k !in Keys(d) ==> r == d + [(k, v)]
    ensures Keys(r) == if k in Keys(d) then Keys(d) else Keys(d) + [k]
  {
    var i := IndexOf(d, k);
    if i < 0 then d + [(k, v)]
    else
      assert Keys(d[i := (k, v)]) == Keys(d);
      d[i := (k, v)]
  }

  /** `del d[k]`: None stands for the KeyError raised when `k` is absent. */
  function Delete<K(==), V>(d: seq<(K, V)>, k: K): (r: Option<seq<(K, V)>>)
    ensures r.Some? <==> k in Keys(d)
    ensures r.Some? ==> |r.value| == |d| - 1
  {
    var i := IndexOf(d, k);
    if i < 0 then None else Some(d[..i] + d[i + 1..])
  }

  // ---------------------------------------------------------------------

  /** In a dict with distinct keys, looking up the key at position `i` finds position `i`. */
  lemma IndexOfUnique<K, V>(d: seq<(K, V)>, i: nat)
    requires UniqueKeys(d)
    requires i < |d|
    ensures IndexOf(d, d[i].0) == i
    ensures Get(d, d[i].0) == Some(d[i].1)
  {
  }

  /** `d[k] = v` keeps the keys distinct and in place, adding `k` last when it is new. */
  lemma PutKeys<K, V>(d: seq<(K, V)>, k: K, v: V)
    requires UniqueKeys(d)
    ensures UniqueKeys(Put(d, k, v))
    ensures Keys(Put(d, k, v)) == if k in Keys(d) then Keys(d) else Keys(d) + [k]
  {
    var r := Put(d, k, v);
    if k in Keys(d) {
      assert Keys(r) == Keys(d);
    } else {
      assert Keys(r) == Keys(d) + [k];
    }
  }

  /** After `d[k] = v`, `k` maps to `v`. */
  lemma PutGetSame<K, V>(d: seq<(K, V)>, k: K, v: V)
    requires UniqueKeys(d)
    ensures Get(Put(d, k, v), k) == Some(v)
  {
    PutKeys(d, k, v);
    var i := IndexOf(d, k);
    IndexOfUnique(Put(d, k, v), if i < 0 then |d| else i);
  }

  /** After `d[k] = v`, every other key keeps its value. */
  lemma PutGetOther<K, V>(d: seq<(K, V)>, k: K, v: V, k': K)
    requires UniqueKeys(d)
    requires k' != k
    ensures Get(Put(d, k, v), k') == Get(d, k')
  {
    PutKeys(d, k, v);
    var r := Put(d, k, v);
    if k' in Keys(d) {
      var j := IndexOf(d, k');
      IndexOfUnique(d, j);
      IndexOfUnique(r, j);
    }
  }

  /** After `del d[k]`, exactly `k` is gone and the other keys keep their order. */
  lemma DeleteKeys<K, V>(d: seq<(K, V)>, k: K)
    requires UniqueKeys(d)
    requires k in Keys(d)
    ensures Delete(d, k).Some?
    ensures UniqueKeys(Delete(d, k).value)
    ensures Keys(Delete(d, k).value) == RemoveKey(Keys(d), k)
  {
    var i := IndexOf(d, k);
    var r := Delete(d, k).value;
    assert Keys(r) == Keys(d)[..i] + Keys(d)[i + 1..];
    RemoveKeyAt(Keys(d), i);
  }

  /** After `del d[k]`, every other key keeps its value. */
  lemma DeleteGetOther<K, V>(d: seq<(K, V)>, k: K, k': K)
    requires UniqueKeys(d)
    requires k in Keys(d)
    requires k' != k
    ensures Delete(d, k).Some?
    ensures Get(Delete(d, k).value, k') == Get(d, k')
  {
    DeleteKeys(d, k);
    var i := IndexOf(d, k);
    var r := d[..i] + d[i + 1..];
    assert Delete(d, k).value == r;
    if k' in Keys(d) {
      var j := IndexOf(d, k');
      var j' := if j < i then j else j - 1;
      assert r[j'] == d[j];
      IndexOfUnique(d, j);
      IndexOfUnique(r, j');
    } else {
      RemoveKeyIn(Keys(d), k, k');
    }
  }

  /** The sequence with every occurrence of `x` removed. */
  function RemoveKey<K(==)>(ks: seq<K>, x: K): (r: seq<K>)
    ensures |r| <= |ks|
  {
    if ks == [] then []
    else if ks[0] == x then RemoveKey(ks[1..], x)
    else [ks[0]] + RemoveKey(ks[1..], x)
  }

  lemma {:induction false} RemoveKeyAt<K>(ks: seq<K>, i: nat)
    requires i < |ks|
    requires forall a, b :: 0 <= a < b < |ks| ==> ks[a] != ks[b]
    ensures RemoveKey(ks, ks[i]) == ks[..i] + ks[i + 1..]
  {
    var tail := ks[1..];
    DistinctTail(ks);
    if i == 0 {
      RemoveKeyAbsent(tail, ks[0]);
      assert ks[..0] + ks[1..] == tail;
    } else {
      assert tail[i - 1] == ks[i];
      calc {
        RemoveKey(ks, ks[i]);
        [ks[0]] + RemoveKey(tail, tail[i - 1]);
        { RemoveKeyAt(tail, i - 1); }
        [ks[0]] + (tail[..i - 1] + tail[i..]);
        { assert ks[..i] == [ks[0]] + tail[..i - 1]; assert ks[i + 1..] == tail[i..]; }
        ks[..i] + ks[i + 1..];
      }
    }
  }

  /** Dropping the head of a sequence of distinct keys leaves distinct keys, none equal to the head. */
  lemma DistinctTail<K>(ks: seq<K>)
    requires |ks| > 0
    requires forall a, b :: 0 <= a < b < |ks| ==> ks[a] != ks[b]
    ensures forall a, b :: 0 <= a < b < |ks[1..]| ==> ks[1..][a] != ks[1..][b]
    ensures ks[0] !in ks[1..]
  {
    var tail := ks[1..];
    forall a, b | 0 <= a < b < |tail| ensures tail[a] != tail[b] {
      assert tail[a] == ks[a + 1] && tail[b] == ks[b + 1];
    }
    forall b | 0 <= b < |tail| ensures tail[b] != ks[0] {
      assert tail[b] == ks[b + 1];
    }
  }

  /** What is left after removing `x` is exactly the other keys. */
  lemma {:induction false} RemoveKeyIn<K>(ks: seq<K>, x: K, y: K)
    ensures y in RemoveKey(ks, x) <==> y in ks && y != x
  {
    if ks != [] {
      RemoveKeyIn(ks[1..], x, y);
      assert y in ks <==> y == ks[0] || y in ks[1..];
    }
  }

  lemma {:induction false} RemoveKeyAbsent<K>(ks: seq<K>, x: K)
    requires x !in ks
    ensures RemoveKey(ks, x) == ks
  {
    if ks != [] {
      RemoveKeyAbsent(ks[1..], x);
    }
  }
}
