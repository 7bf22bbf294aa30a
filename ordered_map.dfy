/**
  A JavaScript `Map` as the dispatcher uses it: entries in insertion order,
  each key at most once. `set` on an absent key appends the entry, `set` on a
  present key replaces the value where the entry already stands, `delete`
  removes the one entry with that key, and `entries().next()` is the first
  entry.
 */
module OrderedMap {
  import opened Wrappers

  /** The set of keys. */
  function KeySet<K, V>(m: seq<(K, V)>): set<K>
  {
    if m == [] then {} else {m[0].0} + KeySet(m[1..])
  }

  /** No key occurs twice: what every JavaScript `Map` satisfies. */
  ghost predicate UniqueKeys<K, V>(m: seq<(K, V)>)
  {
    m == [] || (m[0].0 !in KeySet(m[1..]) && UniqueKeys(m[1..]))
  }

  /** `m.get(k)`: the value stored under `k`, or None when `k` is absent. */
  function Get<K(==), V>(m: seq<(K, V)>, k: K): (r: Option<V>)
    ensures r.None? <==> k !in KeySet(m)
    ensures r.Some? ==> (k, r.value) in m
  {
    if m == [] then None
    else if m[0].0 == k then Some(m[0].1)
    else Get(m[1..], k)
  }

  /** `m.set(k, v)`. */
  function Set<K(==), V>(m: seq<(K, V)>, k: K, v: V): (r: seq<(K, V)>)
    ensures KeySet(r) == KeySet(m) + {k}
    ensures UniqueKeys(m) ==> UniqueKeys(r)
  {
    if m == [] then [(k, v)]
    else if m[0].0 == k then [(k, v)] + m[1..]
    else [m[0]] + Set(m[1..], k, v)
  }

  /** `m.delete(k)`. */
  function Delete<K(==), V>(m: seq<(K, V)>, k: K): seq<(K, V)>
  {
    if m == [] then []
    else if m[0].0 == k then m[1..]
    else [m[0]] + Delete(m[1..], k)
  }

  /** Every entry's key is in the key set. */
  lemma {:induction false} KeyAtInKeySet<K, V>(m: seq<(K, V)>, i: nat)
    requires i < |m|
    ensures m[i].0 in KeySet(m)
  {
    if i > 0 {
      KeyAtInKeySet(m[1..], i - 1);
    }
  }

  /** With unique keys, two different positions hold different keys. */
  lemma {:induction false} UniqueKeysAt<K, V>(m: seq<(K, V)>, i: nat, j: nat)
    requires UniqueKeys(m)
    requires i < j < |m|
    ensures m[i].0 != m[j].0
  {
    if i == 0 {
      KeyAtInKeySet(m[1..], j - 1);
    } else {
      UniqueKeysAt(m[1..], i - 1, j - 1);
    }
  }

  /** After `set(k, v)`, `get(k)` gives `v` and every other key reads as before. */
  lemma {:induction false} GetAfterSet<K, V>(m: seq<(K, V)>, k: K, v: V, k': K)
    ensures Get(Set(m, k, v), k') == if k' == k then Some(v) else Get(m, k')
  {
    if m != [] && m[0].0 != k {
      GetAfterSet(m[1..], k, v, k');
    }
  }

  /** `delete(k)` removes one entry when `k` is present, and keeps the keys unique. */
  lemma {:induction false} DeleteKeys<K, V>(m: seq<(K, V)>, k: K)
    ensures KeySet(Delete(m, k)) <= KeySet(m)
    ensures |Delete(m, k)| == if k in KeySet(m) then |m| - 1 else |m|
    ensures UniqueKeys(m) ==> UniqueKeys(Delete(m, k)) && KeySet(Delete(m, k)) == KeySet(m) - {k}
  {
    if m != [] && m[0].0 != k {
      DeleteKeys(m[1..], k);
    }
  }

  /** After `delete(k)`, `get(k)` gives nothing and every other key reads as before. */
  lemma {:induction false} GetAfterDelete<K, V>(m: seq<(K, V)>, k: K, k': K)
    requires UniqueKeys(m)
    ensures Get(Delete(m, k), k') == if k' == k then None else Get(m, k')
  {
    if m != [] && m[0].0 != k {
      GetAfterDelete(m[1..], k, k');
    }
  }

  /** Setting an absent key puts the new entry last. */
  lemma {:induction false} SetAbsentAppends<K, V>(m: seq<(K, V)>, k: K, v: V)
    requires k !in KeySet(m)
    ensures Set(m, k, v) == m + [(k, v)]
  {
    if m != [] {
      SetAbsentAppends(m[1..], k, v);
      assert m == [m[0]] + m[1..];
    }
  }

  /** Setting a present key replaces that entry's value in place: no entry moves. */
  lemma {:induction false} SetPresentInPlace<K, V>(m: seq<(K, V)>, i: nat, v: V)
    requires UniqueKeys(m)
    requires i < |m|
    ensures Set(m, m[i].0, v) == m[i := (m[i].0, v)]
  {
    if i > 0 {
      UniqueKeysAt(m, 0, i);
      assert m[1..][i - 1] == m[i];
      SetPresentInPlace(m[1..], i - 1, v);
      assert m[i := (m[i].0, v)] == [m[0]] + m[1..][i - 1 := (m[i].0, v)];
    }
  }

  /** Deleting the first key removes exactly the first entry; the rest keep their order. */
  lemma DeleteFirst<K, V>(m: seq<(K, V)>)
    requires m != []
    ensures Delete(m, m[0].0) == m[1..]
  {
  }

  /** `delete` removes the first entry with the key: the rest keep their order. */
  lemma {:induction false} DeleteFirstOccurrence<K, V>(m: seq<(K, V)>, i: nat)
    requires i < |m|
    requires forall j :: 0 <= j < i ==> m[j].0 != m[i].0
    ensures Delete(m, m[i].0) == m[..i] + m[i + 1..]
  {
    if i > 0 {
      var rest := m[1..];
      assert rest[i - 1] == m[i];
      DeleteFirstOccurrence(rest, i - 1);
      calc {
        Delete(m, m[i].0);
        [m[0]] + Delete(rest, m[i].0);
        [m[0]] + (rest[..i - 1] + rest[i..]);
        { assert rest[..i - 1] == m[1..i]; assert rest[i..] == m[i + 1..]; }
        [m[0]] + (m[1..i] + m[i + 1..]);
        { assert m[..i] == [m[0]] + m[1..i]; }
        m[..i] + m[i + 1..];
      }
    }
  }

  /** Deleting the key of entry `i` removes that entry and no other; the rest keep their order. */
  lemma DeleteAt<K, V>(m: seq<(K, V)>, i: nat)
    requires UniqueKeys(m)
    requires i < |m|
    ensures Delete(m, m[i].0) == m[..i] + m[i + 1..]
  {
    forall j | 0 <= j < i
      ensures m[j].0 != m[i].0
    {
      UniqueKeysAt(m, j, i);
    }
    DeleteFirstOccurrence(m, i);
  }

  /** With unique keys, the number of entries is the number of distinct keys: `size` counts keys. */
  lemma {:induction false} SizeIsKeyCount<K, V>(m: seq<(K, V)>)
    ensures UniqueKeys(m) ==> |KeySet(m)| == |m|
  {
    if m != [] {
      SizeIsKeyCount(m[1..]);
    }
  }
}
