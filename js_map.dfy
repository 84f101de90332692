/**
 * A JavaScript `Map` as the hub uses it: entries kept in insertion order,
 * `set` on an existing key overwrites the value in its old position, `set`
 * on a new key appends, `delete` drops the entry, and `values()` yields the
 * values in entry order.
 */
module JsMap {
  import opened Wrappers
  import opened Seqs

  type Entries<K, V> = seq<(K, V)>

  /** The keys, in insertion order (`map.keys()`). */
  function Keys<K, V>(m: Entries<K, V>): seq<K> {
    seq(|m|, i requires 0 <= i < |m| => m[i].0)
  }

  /** The values, in insertion order (`Array.from(map.values())`). */
  function Values<K, V>(m: Entries<K, V>): seq<V> {
    seq(|m|, i requires 0 <= i < |m| => m[i].1)
  }

  /** A `Map` never holds two entries for one key. */
  predicate NoDuplicateKeys<K(==), V>(m: Entries<K, V>) {
    Distinct(Keys(m))
  }

  /** `map.get(k)`, with `None` for a missing key. */
  function Get<K(==), V>(m: Entries<K, V>, k: K): Option<V> {
    if m == [] then None
    else if m[0].0 == k then Some(m[0].1)
    else Get(m[1..], k)
  }

  /** `map.set(k, v)`. */
  function Put<K(==), V>(m: Entries<K, V>, k: K, v: V): Entries<K, V> {
    if m == [] then [(k, v)]
    else if m[0].0 == k then [(k, v)] + m[1..]
    else [m[0]] + Put(m[1..], k, v)
  }

  /** `map.delete(k)`. */
  function Remove<K(==), V>(m: Entries<K, V>, k: K): Entries<K, V> {
    if m == [] then []
    else if m[0].0 == k then m[1..]
    else [m[0]] + Remove(m[1..], k)
  }

  lemma KeysTail<K, V>(m: Entries<K, V>)
    requires m != []
    ensures Keys(m) == [m[0].0] + Keys(m[1..])
  {
    assert Keys(m)[0] == m[0].0;
    assert Keys(m)[1..] == Keys(m[1..]);
  }

  lemma NoDuplicatesTail<K, V>(m: Entries<K, V>)
    requires NoDuplicateKeys(m) && m != []
    ensures NoDuplicateKeys(m[1..]) && m[0].0 !in Keys(m[1..])
  {
    KeysTail(m);
    var ks := Keys(m[1..]);
    forall i, j | 0 <= i < j < |ks| ensures ks[i] != ks[j] {
      assert ks[i] == Keys(m)[i + 1] && ks[j] == Keys(m)[j + 1];
    }
    forall i | 0 <= i < |ks| ensures ks[i] != m[0].0 {
      assert ks[i] == Keys(m)[i + 1] && m[0].0 == Keys(m)[0];
    }
  }

  /** A key is found exactly when it is one of the keys. */
  lemma {:induction false} GetFound<K, V>(m: Entries<K, V>, k: K)
    ensures Get(m, k).Some? <==> k in Keys(m)
  {
    if m != [] {
      KeysTail(m);
      GetFound(m[1..], k);
    }
  }

  /** The value at each position is what `get` returns for the key at that position. */
  lemma {:induction false} ValuesInKeyOrder<K, V>(m: Entries<K, V>, i: nat)
    requires NoDuplicateKeys(m)
    requires i < |m|
    ensures Get(m, Keys(m)[i]) == Some(Values(m)[i])
  {
    KeysTail(m);
    if i > 0 {
      assert Keys(m)[0] != Keys(m)[i];
      assert Keys(m[1..])[i - 1] == Keys(m)[i];
      assert Values(m[1..])[i - 1] == Values(m)[i];
      NoDuplicatesTail(m);
      ValuesInKeyOrder(m[1..], i - 1);
    }
  }

  /** After `set(k, v)`, `get(k)` is `v` and every other key reads as before. */
  lemma {:induction false} PutGet<K, V>(m: Entries<K, V>, k: K, v: V, j: K)
    ensures Get(Put(m, k, v), j) == if j == k then Some(v) else Get(m, j)
  {
    if m != [] && m[0].0 != k {
      PutGet(m[1..], k, v, j);
    }
  }

  /** `set` keeps an existing key in its position and appends a new one. */
  lemma {:induction false} PutKeys<K, V>(m: Entries<K, V>, k: K, v: V)
    ensures Keys(Put(m, k, v)) == if k in Keys(m) then Keys(m) else Keys(m) + [k]
  {
    if m != [] {
      KeysTail(m);
      KeysTail(Put(m, k, v));
      if m[0].0 != k {
        PutKeys(m[1..], k, v);
      }
    }
  }

  /** `set` never creates a second entry for a key. */
  lemma PutNoDuplicates<K, V>(m: Entries<K, V>, k: K, v: V)
    requires NoDuplicateKeys(m)
    ensures NoDuplicateKeys(Put(m, k, v))
  {
    PutKeys(m, k, v);
  }

  /** On a key already present, `set` overwrites that one entry in place. */
  lemma {:induction false} PutInPlace<K, V>(m: Entries<K, V>, k: K, v: V, i: nat)
    requires NoDuplicateKeys(m)
    requires i < |m| && m[i].0 == k
    ensures Put(m, k, v) == m[i := (k, v)]
  {
    KeysTail(m);
    if i > 0 {
      assert Keys(m)[0] != Keys(m)[i];
      assert m[1..][i - 1].0 == k;
      NoDuplicatesTail(m);
      PutInPlace(m[1..], k, v, i - 1);
      assert [m[0]] + m[1..][i - 1 := (k, v)] == m[i := (k, v)];
    }
  }

  /** On a new key, `set` appends one entry at the end. */
  lemma {:induction false} PutAppends<K, V>(m: Entries<K, V>, k: K, v: V)
    requires k !in Keys(m)
    ensures Put(m, k, v) == m + [(k, v)]
  {
    if m != [] {
      KeysTail(m);
      PutAppends(m[1..], k, v);
      assert [m[0]] + (m[1..] + [(k, v)]) == m + [(k, v)];
    }
  }

  /** After `delete(k)`, `get(k)` misses and every other key reads as before. */
  lemma {:induction false} RemoveGet<K, V>(m: Entries<K, V>, k: K, j: K)
    requires NoDuplicateKeys(m)
    ensures Get(Remove(m, k), j) == if j == k then None else Get(m, j)
  {
    if m != [] {
      NoDuplicatesTail(m);
      if m[0].0 == k {
        GetFound(m[1..], k);
      } else {
        RemoveGet(m[1..], k, j);
      }
    }
  }

  /** `delete(k)` takes out key `k` and keeps the order of the others. */
  lemma {:induction false} RemoveKeys<K, V>(m: Entries<K, V>, k: K)
    requires NoDuplicateKeys(m)
    ensures Keys(Remove(m, k)) == Without(Keys(m), k)
    ensures NoDuplicateKeys(Remove(m, k))
  {
    WithoutSpec(Keys(m), k);
    if m != [] {
      KeysTail(m);
      NoDuplicatesTail(m);
      if m[0].0 == k {
        WithoutSpec(Keys(m[1..]), k);
      } else {
        RemoveKeys(m[1..], k);
        KeysTail(Remove(m, k));
      }
    }
  }

  /** `delete(k)` keeps every other key, whatever the map holds. */
  lemma {:induction false} RemoveKeepsOthers<K, V>(m: Entries<K, V>, k: K, j: K)
    requires j in Keys(m) && j != k
    ensures j in Keys(Remove(m, k))
  {
    KeysTail(m);
    if m[0].0 != k {
      KeysTail(Remove(m, k));
      if m[0].0 != j {
        RemoveKeepsOthers(m[1..], k, j);
      }
    } else {
      assert j in Keys(m[1..]);
    }
  }

  /** `delete` of a key that is not there changes nothing. */
  lemma {:induction false} RemoveAbsent<K, V>(m: Entries<K, V>, k: K)
    requires k !in Keys(m)
    ensures Remove(m, k) == m
  {
    if m != [] {
      KeysTail(m);
      RemoveAbsent(m[1..], k);
    }
  }
}
