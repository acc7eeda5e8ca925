/**
 * A JavaScript `Map` as an insertion-ordered list of entries. `Set` on a key
 * that is present replaces its value in place; on a new key it appends.
 * `Delete` removes the entry. `First` is `values().next().value`.
 */
module JsMap {
  import opened Wrappers

  function Keys<K, V>(m: seq<(K, V)>): seq<K> {
    if m == [] then [] else [m[0].0] + Keys(m[1..])
  }

  function Values<K, V>(m: seq<(K, V)>): seq<V> {
    if m == [] then [] else [m[0].1] + Values(m[1..])
  }

  /** No key occurs twice, as in every JavaScript Map. */
  ghost predicate DistinctKeys<K, V>(m: seq<(K, V)>) {
    m != [] ==> m[0].0 !in Keys(m[1..]) && DistinctKeys(m[1..])
  }

  /** No value occurs twice. */
  ghost predicate DistinctValues<K, V>(m: seq<(K, V)>) {
    m != [] ==> m[0].1 !in Values(m[1..]) && DistinctValues(m[1..])
  }

  /** `m.get(k)`. */
  function Get<K(==), V>(m: seq<(K, V)>, k: K): (r: Option<V>)
    ensures r.Some? <==> k in Keys(m)
    ensures r.Some? ==> r.value in Values(m)
  {
    if m == [] then None
    else if m[0].0 == k then Some(m[0].1)
    else Get(m[1..], k)
  }

  /** `m.set(k, v)`. */
  function Set<K(==), V>(m: seq<(K, V)>, k: K, v: V): (r: seq<(K, V)>)
    ensures Get(r, k) == Some(v)
    ensures k in Keys(m) ==> |r| == |m|
    ensures k !in Keys(m) ==> |r| == |m| + 1
  {
    if m == [] then [(k, v)]
    else if m[0].0 == k then [(k, v)] + m[1..]
    else [m[0]] + Set(m[1..], k, v)
  }

  /** `m.delete(k)`. */
  function Delete<K(==), V>(m: seq<(K, V)>, k: K): (r: seq<(K, V)>)
    ensures k in Keys(m) ==> |r| == |m| - 1
    ensures k !in Keys(m) ==> |r| == |m|
  {
    if m == [] then []
    else if m[0].0 == k then m[1..]
    else [m[0]] + Delete(m[1..], k)
  }

  /** `m.values().next().value`: the value of the oldest entry, if any. */
  function First<K, V>(m: seq<(K, V)>): (r: Option<V>)
    ensures r.None? <==> m == []
    ensures r.Some? ==> r.value in Values(m) && r.value == m[0].1
  {
    if m == [] then None else Some(m[0].1)
  }

  lemma {:induction false} KeysAt<K, V>(m: seq<(K, V)>, i: nat)
    requires i < |m|
    ensures |Keys(m)| == |m| && Keys(m)[i] == m[i].0
    ensures |Values(m)| == |m| && Values(m)[i] == m[i].1
  {
    if i > 0 {
      KeysAt(m[1..], i - 1);
    } else if |m| > 1 {
      KeysAt(m[1..], 0);
    }
  }

  /** After `set`, `k` reads `v` and every other key reads what it read before. */
  lemma {:induction false} GetSet<K, V>(m: seq<(K, V)>, k: K, v: V, x: K)
    ensures Get(Set(m, k, v), x) == if x == k then Some(v) else Get(m, x)
  {
    if m != [] && m[0].0 != k {
      GetSet(m[1..], k, v, x);
    }
  }

  /** After `delete`, `k` is gone and every other key reads what it read before. */
  lemma {:induction false} GetDelete<K, V>(m: seq<(K, V)>, k: K, x: K)
    requires DistinctKeys(m)
    ensures Get(Delete(m, k), x) == if x == k then None else Get(m, x)
  {
    if m != [] {
      if m[0].0 == k {
        if x == k {
          assert k !in Keys(m[1..]);
        }
      } else {
        GetDelete(m[1..], k, x);
      }
    }
  }

  /** `set` on a new key appends the entry at the end of the insertion order. */
  lemma {:induction false} SetAppends<K, V>(m: seq<(K, V)>, k: K, v: V)
    requires k !in Keys(m)
    ensures Set(m, k, v) == m + [(k, v)]
  {
    if m != [] {
      SetAppends(m[1..], k, v);
      assert m == [m[0]] + m[1..];
    }
  }

  /** `set` on a present key replaces its value and keeps its position; nothing else moves. */
  lemma {:induction false} SetKeepsPosition<K, V>(m: seq<(K, V)>, i: nat, v: V)
    requires DistinctKeys(m) && i < |m|
    ensures Set(m, m[i].0, v) == m[..i] + [(m[i].0, v)] + m[i + 1..]
  {
    if i > 0 {
      KeysAt(m[1..], i - 1);
      assert m[i].0 == m[1..][i - 1].0;
      assert m[0].0 != m[i].0;
      SetKeepsPosition(m[1..], i - 1, v);
      assert m[1..][..i - 1] == m[1..i];
      assert m[1..][i..] == m[i + 1..];
    }
  }

  /** `delete` of a present key removes exactly that entry and keeps the order of the rest. */
  lemma {:induction false} DeleteRemovesEntry<K, V>(m: seq<(K, V)>, i: nat)
    requires DistinctKeys(m) && i < |m|
    ensures Delete(m, m[i].0) == m[..i] + m[i + 1..]
  {
    if i > 0 {
      KeysAt(m[1..], i - 1);
      assert m[0].0 != m[i].0;
      DeleteRemovesEntry(m[1..], i - 1);
      assert m[1..][..i - 1] == m[1..i];
      assert m[1..][i..] == m[i + 1..];
    }
  }

  /** `delete` of an absent key changes nothing. */
  lemma {:induction false} DeleteMissing<K, V>(m: seq<(K, V)>, k: K)
    requires k !in Keys(m)
    ensures Delete(m, k) == m
  {
    if m != [] {
      DeleteMissing(m[1..], k);
    }
  }

  lemma {:induction false} SetKeys<K, V>(m: seq<(K, V)>, k: K, v: V)
    ensures forall x :: x in Keys(Set(m, k, v)) <==> x == k || x in Keys(m)
    ensures forall y :: y in Values(Set(m, k, v)) ==> y == v || y in Values(m)
  {
    if m != [] && m[0].0 != k {
      SetKeys(m[1..], k, v);
    }
  }

  /** `set` keeps keys distinct, and keeps values distinct when the new value is not already stored. */
  lemma {:induction false} SetPreserves<K, V>(m: seq<(K, V)>, k: K, v: V)
    requires DistinctKeys(m)
    ensures DistinctKeys(Set(m, k, v))
    ensures DistinctValues(m) && v !in Values(m) ==> DistinctValues(Set(m, k, v))
  {
    if m != [] && m[0].0 != k {
      SetPreserves(m[1..], k, v);
      SetKeys(m[1..], k, v);
    }
  }

  lemma {:induction false} DeleteKeys<K, V>(m: seq<(K, V)>, k: K)
    ensures forall x :: x in Keys(Delete(m, k)) ==> x in Keys(m)
    ensures forall y :: y in Values(Delete(m, k)) ==> y in Values(m)
  {
    if m != [] && m[0].0 != k {
      DeleteKeys(m[1..], k);
    }
  }

  /**
   * `delete` keeps keys and values distinct, and when values are distinct the
   * deleted entry's value is no longer stored anywhere.
   */
  lemma {:induction false} DeletePreserves<K, V>(m: seq<(K, V)>, k: K)
    ensures DistinctKeys(m) ==> DistinctKeys(Delete(m, k))
    ensures DistinctValues(m) ==> DistinctValues(Delete(m, k))
    ensures DistinctKeys(m) && DistinctValues(m) && Get(m, k).Some? ==>
      Get(m, k).value !in Values(Delete(m, k))
  {
    if m != [] && m[0].0 != k {
      DeletePreserves(m[1..], k);
      DeleteKeys(m[1..], k);
    }
  }
}
