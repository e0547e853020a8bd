/**
  Python dictionaries as the plugin uses them: an insertion-ordered list of
  (key, value) entries. Reading a missing key and deleting a missing key raise
  `KeyError` in Python; here they return `None`. Assigning to a present key
  replaces its value in place; assigning to a new key appends it at the end.
 */
module Dicts {
  import opened Wrappers

  /** Entries oldest first. */
  type Dict<K, V> = seq<(K, V)>

  /** No element occurs twice. */
  predicate Distinct<T(==)>(s: seq<T>) {
    |s| == 0 || (s[0] !in s[1..] && Distinct(s[1..]))
  }

  /** `s` with every occurrence of `x` removed, the rest kept in order. */
  function Erase<T(==,!new)>(s: seq<T>, x: T): (r: seq<T>)
    ensures forall y :: y in r <==> y in s && y != x
    ensures x !in s ==> r == s
    ensures Distinct(s) ==> Distinct(r)
    ensures |r| <= |s|
  {
    if |s| == 0 then []
    else if s[0] == x then Erase(s[1..], x)
    else [s[0]] + Erase(s[1..], x)
  }

  /** The keys in insertion order, as `list(d)` lists them. */
  function Keys<K, V>(d: Dict<K, V>): (ks: seq<K>)
    ensures |ks| == |d|
    ensures forall i :: 0 <= i < |d| ==> ks[i] == d[i].0
  {
    if |d| == 0 then [] else [d[0].0] + Keys(d[1..])
  }

  /** Every dict Python can build has each key at most once. */
  predicate Valid<K(==,!new), V>(d: Dict<K, V>) {
    Distinct(Keys(d))
  }

  /** The key-to-value mapping a dict denotes, forgetting insertion order. */
  function ToMap<K(==,!new), V>(d: Dict<K, V>): (m: map<K, V>)
    ensures forall k :: k in m <==> k in Keys(d)
  {
    if |d| == 0 then map[] else ToMap(d[1..])[d[0].0 := d[0].1]
  }

  /** `d[k]`: the value stored under `k`, or `None` where Python raises `KeyError`. */
  function Lookup<K(==,!new), V>(d: Dict<K, V>, k: K): (r: Option<V>)
    ensures r.Some? <==> k in ToMap(d)
    ensures r.Some? ==> r.value == ToMap(d)[k]
  {
    if |d| == 0 then None
    else if d[0].0 == k then Some(d[0].1)
    else Lookup(d[1..], k)
  }

  /** `d[k] = v`: a present key keeps its position, a new key goes last. */
  function Store<K(==,!new), V>(d: Dict<K, V>, k: K, v: V): (r: Dict<K, V>)
    ensures ToMap(r) == ToMap(d)[k := v]
  {
    if |d| == 0 then [(k, v)]
    else if d[0].0 == k then
      var r := [(k, v)] + d[1..];
      assert r[1..] == d[1..];
      r
    else
      var rest := Store(d[1..], k, v);
      var r := [d[0]] + rest;
      assert r[1..] == rest;
      r
  }

  /** Appending an element that does not occur keeps a sequence free of repeats. */
  lemma {:induction false} DistinctAppend<T>(s: seq<T>, x: T)
    requires Distinct(s) && x !in s
    ensures Distinct(s + [x])
  {
    if |s| > 0 {
      assert (s + [x])[1..] == s[1..] + [x];
      DistinctAppend(s[1..], x);
    }
  }

  /** Storing keeps the key order: an existing key stays where it is, a new key is appended. */
  lemma {:induction false} StoreKeys<K(!new), V>(d: Dict<K, V>, k: K, v: V)
    ensures k in Keys(d) ==> Keys(Store(d, k, v)) == Keys(d)
    ensures k !in Keys(d) ==> Keys(Store(d, k, v)) == Keys(d) + [k]
    ensures Valid(d) ==> Valid(Store(d, k, v))
  {
    if |d| > 0 {
      assert Keys(d) == [d[0].0] + Keys(d[1..]);
      var r := Store(d, k, v);
      if d[0].0 == k {
        assert r[1..] == d[1..];
        assert Keys(r) == [k] + Keys(d[1..]);
      } else {
        StoreKeys(d[1..], k, v);
        assert r[1..] == Store(d[1..], k, v);
        assert Keys(r) == [d[0].0] + Keys(Store(d[1..], k, v));
        if k !in Keys(d) {
          assert Keys(r) == Keys(d) + [k];
          if Valid(d) {
            DistinctAppend(Keys(d), k);
          }
        }
      }
    }
  }

  /** Every entry whose key is not `k`, in order. */
  function Drop<K(==,!new), V>(d: Dict<K, V>, k: K): (r: Dict<K, V>)
    ensures ToMap(r) == ToMap(d) - {k}
  {
    if |d| == 0 then []
    else if d[0].0 == k then Drop(d[1..], k)
    else
      var rest := Drop(d[1..], k);
      var r := [d[0]] + rest;
      assert r[1..] == rest;
      r
  }

  /** Dropping a key keeps the order of the remaining keys. */
  lemma {:induction false} DropKeys<K(!new), V>(d: Dict<K, V>, k: K)
    ensures Keys(Drop(d, k)) == Erase(Keys(d), k)
  {
    if |d| > 0 {
      DropKeys(d[1..], k);
      assert Keys(d) == [d[0].0] + Keys(d[1..]);
      if d[0].0 != k {
        var r := Drop(d, k);
        assert r[1..] == Drop(d[1..], k);
        assert Keys(r) == [d[0].0] + Keys(Drop(d[1..], k));
      }
    }
  }

  /** `del d[k]`: the dict without `k`, or `None` where Python raises `KeyError`. */
  function Delete<K(==,!new), V>(d: Dict<K, V>, k: K): (r: Option<Dict<K, V>>)
    ensures r.Some? <==> k in ToMap(d)
    ensures r.Some? ==> ToMap(r.value) == ToMap(d) - {k}
    ensures r.Some? ==> Keys(r.value) == Erase(Keys(d), k)
    ensures r.Some? && Valid(d) ==> Valid(r.value)
  {
    if k in Keys(d) then DropKeys(d, k); Some(Drop(d, k)) else None
  }

  /** Erasing `x` from a sequence extended by a different element extends the erased sequence. */
  lemma {:induction false} EraseAppend<T(!new)>(s: seq<T>, y: T, x: T)
    requires y != x
    ensures Erase(s + [y], x) == Erase(s, x) + [y]
  {
    if |s| > 0 {
      assert (s + [y])[1..] == s[1..] + [y];
      EraseAppend(s[1..], y, x);
    }
  }
}
