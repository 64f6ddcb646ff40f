/**
  Enumerations of a map's keys, standing in for the order in which a
  `HashMap` or a `SELECT` without `ORDER BY` hands out its entries, and the
  `skip`/`take` (`OFFSET`/`LIMIT`) cut of such an enumeration.
 */
module Listing {
  import opened Wrappers

  /** `order` lists every key of `keys` exactly once */
  predicate IsEnumeration<K(!new)>(order: seq<K>, keys: set<K>)
  {
    (forall i, j :: 0 <= i < j < |order| ==> order[i] != order[j]) &&
    (forall k :: k in order ==> k in keys) &&
    (forall k :: k in keys ==> k in order)
  }

  /** The values of `m` in the order `order` lists their keys */
  function Values<K(!new), V>(order: seq<K>, m: map<K, V>): (vs: seq<V>)
    requires forall k :: k in order ==> k in m
    ensures |vs| == |order|
    ensures forall i :: 0 <= i < |order| ==> vs[i] == m[order[i]]
  {
    seq(|order|, i requires 0 <= i < |order| => m[order[i]])
  }

  function Min(a: nat, b: nat): nat
  {
    if a < b then a else b
  }

  /** `s.iter().skip(skip).take(take)`; no `take` means no limit. */
  function Page<T>(s: seq<T>, skip: nat, take: Option<nat>): (r: seq<T>)
    ensures skip >= |s| ==> r == []
    ensures skip < |s| && take.None? ==> |r| == |s| - skip
    ensures skip < |s| && take.Some? ==> |r| == Min(take.value, |s| - skip)
    ensures forall i :: 0 <= i < |r| ==> skip + i < |s| && r[i] == s[skip + i]
  {
    if skip >= |s| then []
    else
      var rest := s[skip..];
      match take
      case None => rest
      case Some(n) => if n < |rest| then rest[..n] else rest
  }

  /** No `skip` and no `take` leave the sequence whole. */
  lemma PageWhole<T>(s: seq<T>)
    ensures Page(s, 0, None) == s
  {
    if s != [] {
      assert s[0..] == s;
    }
  }

  /** `order` without `k`, the others kept in their order */
  function RemoveKey<K(==,!new)>(order: seq<K>, k: K): (r: seq<K>)
    ensures forall x :: x in r <==> x in order && x != k
    ensures |r| <= |order|
  {
    if order == [] then []
    else if order[0] == k then RemoveKey(order[1..], k)
    else [order[0]] + RemoveKey(order[1..], k)
  }

  /** The values left in the order of `order`, with `k`'s dropped, are those of the shrunk map. */
  lemma {:induction false} RemoveKeyKeepsOrder<K(!new), V>(order: seq<K>, m: map<K, V>, k: K)
    requires forall x :: x in order ==> x in m
    ensures forall x :: x in RemoveKey(order, k) ==> x in m - {k}
    ensures Values(RemoveKey(order, k), m - {k}) == Filtered(Values(order, m), order, k)
  {
    if order != [] {
      RemoveKeyKeepsOrder(order[1..], m, k);
      assert Values(order, m)[1..] == Values(order[1..], m);
      if order[0] != k {
        var rest := RemoveKey(order[1..], k);
        assert Values([order[0]] + rest, m - {k}) == [m[order[0]]] + Values(rest, m - {k});
      }
    }
  }

  /** The values whose key in `order` is not `k` */
  function Filtered<K(==), V>(vs: seq<V>, order: seq<K>, k: K): seq<V>
    requires |vs| == |order|
  {
    if order == [] then []
    else if order[0] == k then Filtered(vs[1..], order[1..], k)
    else [vs[0]] + Filtered(vs[1..], order[1..], k)
  }

  /** Dropping a key from an enumeration of `keys` enumerates `keys` without it. */
  lemma {:induction false} RemoveKeyEnumerates<K(!new)>(order: seq<K>, keys: set<K>, k: K)
    requires IsEnumeration(order, keys)
    ensures IsEnumeration(RemoveKey(order, k), keys - {k})
  {
    if order != [] {
      var tail := order[1..];
      var tailKeys := set x | x in tail;
      assert IsEnumeration(tail, tailKeys) by {
        forall i, j | 0 <= i < j < |tail| ensures tail[i] != tail[j] {
          assert tail[i] == order[i + 1] && tail[j] == order[j + 1];
        }
      }
      RemoveKeyEnumerates(tail, tailKeys, k);
      var rest := RemoveKey(tail, k);
      if order[0] != k {
        var r := [order[0]] + rest;
        forall i, j | 0 <= i < j < |r| ensures r[i] != r[j] {
          if i == 0 {
            assert r[j] in rest;
            assert order[0] !in tail by {
              forall t | 0 <= t < |tail| ensures tail[t] != order[0] {
                assert tail[t] == order[t + 1];
              }
            }
          } else {
            assert r[i] == rest[i - 1] && r[j] == rest[j - 1];
          }
        }
      }
    }
  }

  /** Appending a key that is not there yet enumerates the larger key set. */
  lemma AppendEnumerates<K(!new)>(order: seq<K>, keys: set<K>, k: K)
    requires IsEnumeration(order, keys) && k !in keys
    ensures IsEnumeration(order + [k], keys + {k})
  {
    var r := order + [k];
    forall i, j | 0 <= i < j < |r| ensures r[i] != r[j] {
      if j == |order| {
        assert r[i] in order;
      } else {
        assert r[i] == order[i] && r[j] == order[j];
      }
    }
  }
}
