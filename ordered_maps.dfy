/**
 * A dictionary that remembers the order in which its keys were first
 * inserted, as Python's `dict` does: `keys` is that order, `entries` the
 * key/value pairs.
 */
module OrderedMaps {

  datatype OrderedMap<K, V> = OrderedMap(keys: seq<K>, entries: map<K, V>)
  {
    /** The keys are distinct and are exactly the domain of `entries`. */
    ghost predicate Valid() {
      && (forall i, j :: 0 <= i < j < |keys| ==> keys[i] != keys[j])
      && (forall i :: 0 <= i < |keys| ==> keys[i] in entries)
      && (forall k | k in entries :: k in keys)
    }

    /** `d[k] = v`: a new key goes to the end, an existing key keeps its place. */
    function Put(k: K, v: V): (r: OrderedMap<K, V>)
      ensures Valid() ==> r.Valid()
      ensures r.entries == entries[k := v]
      ensures k in entries ==> r.keys == keys
      ensures k !in entries ==> r.keys == keys + [k]
    {
      if k in entries then OrderedMap(keys, entries[k := v])
      else OrderedMap(keys + [k], entries[k := v])
    }

    /** `d.values()`, in key order. */
    function Values(): (vs: seq<V>)
      requires Valid()
      ensures |vs| == |keys|
    {
      seq(|keys|, i requires 0 <= i < |keys| => entries[keys[i]])
    }
  }

  function Empty<K, V>(): OrderedMap<K, V> {
    OrderedMap([], map[])
  }

  /** The keys of a list of pairs, in order. */
  function Firsts<K, V>(puts: seq<(K, V)>): (ks: seq<K>)
    ensures |ks| == |puts|
    ensures forall i :: 0 <= i < |puts| ==> ks[i] == puts[i].0
    decreases |puts|
  {
    if puts == [] then [] else Firsts(puts[..|puts| - 1]) + [puts[|puts| - 1].0]
  }

  lemma FirstsCons<K, V>(put: (K, V), puts: seq<(K, V)>)
    ensures Firsts([put] + puts) == [put.0] + Firsts(puts)
  {
    var q, r := [put] + puts, [put.0] + Firsts(puts);
    forall i | 0 <= i < |q| ensures Firsts(q)[i] == r[i] {
      if i > 0 {
        assert q[i] == puts[i - 1] && r[i] == Firsts(puts)[i - 1];
      }
    }
  }

  /** The values of a list of pairs, in order. */
  function Seconds<K, V>(puts: seq<(K, V)>): (vs: seq<V>)
    ensures |vs| == |puts|
    decreases |puts|
  {
    if puts == [] then [] else Seconds(puts[..|puts| - 1]) + [puts[|puts| - 1].1]
  }

  ghost predicate Distinct<K>(ks: seq<K>) {
    forall i, j :: 0 <= i < j < |ks| ==> ks[i] != ks[j]
  }

  /** `for k, v in puts: d[k] = v`. */
  function PutAll<K, V>(m: OrderedMap<K, V>, puts: seq<(K, V)>): (r: OrderedMap<K, V>)
    ensures m.Valid() ==> r.Valid()
    decreases |puts|
  {
    if puts == [] then m
    else
      var last := puts[|puts| - 1];
      PutAll(m, puts[..|puts| - 1]).Put(last.0, last.1)
  }

  /** Inserting a list of pairs is inserting its first pair, then the rest. */
  lemma {:induction false} PutAllFirst<K, V>(m: OrderedMap<K, V>, put: (K, V), puts: seq<(K, V)>)
    ensures PutAll(m, [put] + puts) == PutAll(m.Put(put.0, put.1), puts)
    decreases |puts|
  {
    var q := [put] + puts;
    if puts == [] {
      assert q[..0] == [];
    } else {
      var init, last := puts[..|puts| - 1], puts[|puts| - 1];
      PutAllFirst(m, put, init);
      assert q[..|q| - 1] == [put] + init && q[|q| - 1] == last;
      assert PutAll(m, q) == PutAll(m, [put] + init).Put(last.0, last.1);
      assert PutAll(m.Put(put.0, put.1), puts) == PutAll(m.Put(put.0, put.1), init).Put(last.0, last.1);
    }
  }

  /** Putting a new key appends its value to `Values()`. */
  lemma PutNewKeyAppends<K, V>(m: OrderedMap<K, V>, k: K, v: V)
    requires m.Valid() && k !in m.entries
    ensures m.Put(k, v).keys == m.keys + [k]
    ensures m.Put(k, v).Values() == m.Values() + [v]
  {
    var r := m.Put(k, v);
    forall i | 0 <= i < |m.keys| ensures r.Values()[i] == m.Values()[i] {
      assert r.keys[i] == m.keys[i] && m.keys[i] in m.entries;
    }
  }

  /**
   * Inserting pairs whose keys are new and distinct appends those keys, and
   * their values, in the order of insertion.
   */
  lemma {:induction false} PutAllAppends<K, V>(m: OrderedMap<K, V>, puts: seq<(K, V)>)
    requires m.Valid()
    requires Distinct(Firsts(puts))
    requires forall i :: 0 <= i < |puts| ==> puts[i].0 !in m.entries
    ensures PutAll(m, puts).keys == m.keys + Firsts(puts)
    ensures PutAll(m, puts).Values() == m.Values() + Seconds(puts)
    decreases |puts|
  {
    if puts != [] {
      var init, last := puts[..|puts| - 1], puts[|puts| - 1];
      NewPutsSplit(m, puts, init);
      PutAllAppends(m, init);
      var p := PutAll(m, init);
      assert last.0 !in p.entries by {
        assert last.0 !in p.keys;
      }
      PutNewKeyAppends(p, last.0, last.1);
      assert PutAll(m, puts) == p.Put(last.0, last.1);
      assert Firsts(puts) == Firsts(init) + [last.0];
      AppendAssoc(m.keys, Firsts(init), [last.0]);
      AppendAssoc(m.Values(), Seconds(init), [last.1]);
    }
  }

  lemma AppendAssoc<T>(a: seq<T>, b: seq<T>, c: seq<T>)
    ensures a + (b + c) == (a + b) + c
  {
  }

  /** The facts `PutAllAppends` needs about the pairs but the last, and about the last one. */
  lemma NewPutsSplit<K, V>(m: OrderedMap<K, V>, puts: seq<(K, V)>, init: seq<(K, V)>)
    requires m.Valid() && puts != [] && init == puts[..|puts| - 1]
    requires Distinct(Firsts(puts))
    requires forall i :: 0 <= i < |puts| ==> puts[i].0 !in m.entries
    ensures Distinct(Firsts(init))
    ensures forall i :: 0 <= i < |init| ==> init[i].0 !in m.entries
    ensures puts[|puts| - 1].0 !in m.keys + Firsts(init)
    ensures Seconds(puts) == Seconds(init) + [puts[|puts| - 1].1]
  {
    var last := puts[|puts| - 1];
    assert forall i :: 0 <= i < |init| ==> Firsts(init)[i] == Firsts(puts)[i];
    assert forall i :: 0 <= i < |m.keys| ==> m.keys[i] in m.entries;
    assert Firsts(puts)[|puts| - 1] == last.0;
  }

  /** After `PutAll`, a key is present exactly when it was present before or was inserted. */
  lemma {:induction false} PutAllHas<K, V>(m: OrderedMap<K, V>, puts: seq<(K, V)>, k: K)
    ensures k in PutAll(m, puts).entries <==> k in m.entries || k in Firsts(puts)
    decreases |puts|
  {
    if puts != [] {
      var init := puts[..|puts| - 1];
      PutAllHas(m, init, k);
    }
  }

  /** No key occurs twice among the pairs. */
  ghost predicate DistinctKeys<K, V>(puts: seq<(K, V)>) {
    forall i, j :: 0 <= i < j < |puts| ==> puts[i].0 != puts[j].0
  }

  lemma DistinctKeysOfFirsts<K, V>(puts: seq<(K, V)>)
    ensures DistinctKeys(puts) <==> Distinct(Firsts(puts))
  {
  }

  /** Inserting pairs with distinct keys leaves each key holding its own value. */
  lemma {:induction false} PutAllLookup<K, V>(m: OrderedMap<K, V>, puts: seq<(K, V)>)
    requires DistinctKeys(puts)
    ensures forall k :: 0 <= k < |puts| ==> puts[k].0 in PutAll(m, puts).entries && PutAll(m, puts).entries[puts[k].0] == puts[k].1
    decreases |puts|
  {
    if puts != [] {
      var init, last := puts[..|puts| - 1], puts[|puts| - 1];
      PutAllLookup(m, init);
    }
  }
}
