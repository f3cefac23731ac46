/** Small shared vocabulary: an optional value, and the front-to-back search
    that `Array.prototype.find` performs. */
module Prelude {

  /** A value that may be absent; stands for TypeScript's `T | undefined`. */
  datatype Option<T> = None | Some(value: T)

  /** Index of the first element at or after `from` that satisfies `p`. */
  function FindFrom<T>(s: seq<T>, p: T -> bool, from: nat): (r: Option<nat>)
    requires from <= |s|
    ensures r.Some? ==> from <= r.value < |s| && p(s[r.value])
    ensures r.Some? ==> forall j :: from <= j < r.value ==> !p(s[j])
    ensures r.None? <==> forall j :: from <= j < |s| ==> !p(s[j])
    decreases |s| - from
  {
    if from == |s| then None
    else if p(s[from]) then Some(from)
    else FindFrom(s, p, from + 1)
  }

  /** Index of the first element of `s` that satisfies `p`, scanning from the front. */
  function Find<T>(s: seq<T>, p: T -> bool): (r: Option<nat>)
    ensures r.Some? ==> r.value < |s| && p(s[r.value])
    ensures r.Some? ==> forall j :: 0 <= j < r.value ==> !p(s[j])
    ensures r.None? <==> forall j :: 0 <= j < |s| ==> !p(s[j])
  {
    FindFrom(s, p, 0)
  }
}

/** A JavaScript `Map`: a finite map together with the order in which its
    keys were first inserted. Iterating `values()` follows that order, and
    `set` on a key that is already present keeps its position. */
module OrderedMap {
  import opened Prelude

  datatype OrderedMap<K, V> = OrderedMap(entries: map<K, V>, order: seq<K>)

  /** The order lists every key exactly once. */
  predicate Valid<K, V>(m: OrderedMap<K, V>) {
    && (forall i, j :: 0 <= i < j < |m.order| ==> m.order[i] != m.order[j])
    && (forall k :: k in m.entries ==> k in m.order)
    && (forall i :: 0 <= i < |m.order| ==> m.order[i] in m.entries)
  }

  function Empty<K, V>(): (r: OrderedMap<K, V>)
    ensures Valid(r) && |r.entries| == 0
  {
    OrderedMap(map[], [])
  }

  /** `Map.prototype.set`: overwrite in place, or append a new key at the end. */
  function Set<K, V>(m: OrderedMap<K, V>, k: K, v: V): (r: OrderedMap<K, V>)
    requires Valid(m)
    ensures Valid(r)
    ensures r.entries == m.entries[k := v]
    ensures k in m.entries ==> r.order == m.order
    ensures k !in m.entries ==> r.order == m.order + [k]
  {
    if k in m.entries then OrderedMap(m.entries[k := v], m.order)
    else OrderedMap(m.entries[k := v], m.order + [k])
  }

  /** A second write to the same key hides the first. */
  lemma OverwriteTwice<K, V>(m: map<K, V>, k: K, v1: V, v2: V)
    ensures m[k := v1][k := v2] == m[k := v2]
  {
  }

  /** `Map.prototype.get`. */
  function Get<K, V>(m: OrderedMap<K, V>, k: K): (r: Option<V>)
    ensures r.Some? <==> k in m.entries
    ensures r.Some? ==> r.value == m.entries[k]
  {
    if k in m.entries then Some(m.entries[k]) else None
  }
}
