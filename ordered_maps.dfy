/**
 * Insertion-ordered dictionaries, the way a Python `dict` behaves: iteration
 * follows the order in which keys were first inserted, assigning to a key that
 * is already present keeps its place, and assigning to a new key appends it.
 * A dictionary is modelled as the sequence of its items, oldest key first.
 */
module OrderedMaps {
  import opened Wrappers

  type Entries<K, V> = seq<(K, V)>

  /** The keys of a dictionary in iteration order (`list(d)`). */
  function KeysOf<K, V>(m: Entries<K, V>): (ks: seq<K>)
    ensures |ks| == |m|
    ensures forall i :: 0 <= i < |m| ==> ks[i] == m[i].0
  {
    if m == [] then [] else [m[0].0] + KeysOf(m[1..])
  }

  predicate NoDuplicates<K(==)>(s: seq<K>)
  {
    forall i, j :: 0 <= i < j < |s| ==> s[i] != s[j]
  }

  /** The representation invariant of a dictionary: every key occurs once. */
  predicate DistinctKeys<K(==), V>(m: Entries<K, V>)
  {
    NoDuplicates(KeysOf(m))
  }

  /** `d.get(k)`: the value stored under `k`, if any. */
  function Get<K(==), V>(m: Entries<K, V>, k: K): (r: Option<V>)
    ensures r.Some? <==> k in KeysOf(m)
  {
    if m == [] then None
    else if m[0].0 == k then Some(m[0].1)
    else Get(m[1..], k)
  }

  /** `d[k] = v`: an existing key is overwritten in place, a new key goes last. */
  function Set<K(==), V>(m: Entries<K, V>, k: K, v: V): (r: Entries<K, V>)
    ensures KeysOf(r) == if k in KeysOf(m) then KeysOf(m) else KeysOf(m) + [k]
    ensures Get(r, k) == Some(v)
  {
    if m == [] then [(k, v)]
    else if m[0].0 == k then [(k, v)] + m[1..]
    else
      var rest := Set(m[1..], k, v);
      assert ([m[0]] + rest)[1..] == rest;
      [m[0]] + rest
  }

  /** Assigning one key leaves the lookup of every other key as it was. */
  lemma {:induction false} SetKeepsOthers<K, V>(m: Entries<K, V>, k: K, v: V, j: K)
    requires j != k
    ensures Get(Set(m, k, v), j) == Get(m, j)
  {
    if m != [] && m[0].0 != k {
      SetKeepsOthers(m[1..], k, v, j);
      assert ([m[0]] + Set(m[1..], k, v))[1..] == Set(m[1..], k, v);
    }
  }

  /** Assigning a key keeps the keys of a dictionary distinct. */
  lemma SetKeepsDistinct<K, V>(m: Entries<K, V>, k: K, v: V)
    requires DistinctKeys(m)
    ensures DistinctKeys(Set(m, k, v))
  {
  }

  /** In a dictionary, `Get` finds the value stored beside the key in the key's own item. */
  lemma {:induction false} EntryAt<K, V>(m: Entries<K, V>, i: nat)
    requires DistinctKeys(m)
    requires i < |m|
    ensures Get(m, m[i].0) == Some(m[i].1)
  {
    if i > 0 {
      assert KeysOf(m[1..]) == KeysOf(m)[1..];
      assert DistinctKeys(m[1..]);
      EntryAt(m[1..], i - 1);
      assert KeysOf(m)[0] == m[0].0 != KeysOf(m)[i];
    }
  }

  /**
   * The keys of `ks` that are not in `base`, each once, in the order of their
   * first occurrence in `ks`: the keys that assigning `ks` one after the other
   * appends to a dictionary whose keys are `base`.
   */
  function Appended<K(==)>(base: seq<K>, ks: seq<K>): seq<K>
  {
    if ks == [] then []
    else
      var earlier := Appended(base, ks[..|ks| - 1]);
      var k := ks[|ks| - 1];
      if k in base || k in earlier then earlier else earlier + [k]
  }

  /** Assigning one more key appends it unless it is already there. */
  lemma AppendedSnoc<K>(base: seq<K>, ks: seq<K>, k: K)
    ensures base + Appended(base, ks + [k])
         == if k in base + Appended(base, ks) then base + Appended(base, ks)
            else base + Appended(base, ks) + [k]
  {
    assert (ks + [k])[..|ks|] == ks;
  }

  /** Exactly the keys of `ks` missing from `base` are appended, each of them once. */
  lemma {:induction false} AppendedMembers<K>(base: seq<K>, ks: seq<K>)
    ensures forall k :: k in Appended(base, ks) <==> k in ks && k !in base
    ensures NoDuplicates(Appended(base, ks))
  {
    if ks != [] {
      var init := ks[..|ks| - 1];
      AppendedMembers(base, init);
      assert ks == init + [ks[|ks| - 1]];
    }
  }

  /** Assigning `xs` and then `ys` appends what `xs` appends, then what `ys` adds beyond that. */
  lemma {:induction false} AppendedConcat<K>(base: seq<K>, xs: seq<K>, ys: seq<K>)
    ensures Appended(base, xs + ys) == Appended(base, xs) + Appended(base + Appended(base, xs), ys)
  {
    if ys == [] {
      assert xs + ys == xs;
    } else {
      var init := ys[..|ys| - 1];
      AppendedConcat(base, xs, init);
      assert (xs + ys)[..|xs + ys| - 1] == xs + init;
    }
  }

  /** Two passes of assignments append what one pass over both key lists appends. */
  lemma AppendedTwice<K>(base: seq<K>, xs: seq<K>, ys: seq<K>)
    ensures var afterXs := base + Appended(base, xs);
            afterXs + Appended(afterXs, ys) == base + Appended(base, xs + ys)
  {
    AppendedConcat(base, xs, ys);
  }

  /** When every assigned key is already present, nothing is appended. */
  lemma {:induction false} AppendedNothing<K>(base: seq<K>, ks: seq<K>)
    requires forall k :: k in ks ==> k in base
    ensures Appended(base, ks) == []
  {
    if ks != [] {
      var init := ks[..|ks| - 1];
      assert forall k :: k in init ==> k in ks;
      AppendedNothing(base, init);
      assert ks[|ks| - 1] in ks;
    }
  }
}
