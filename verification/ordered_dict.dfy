/** Python's insertion-ordered `dict`, as built by a comprehension `{key(x): x for x in items}`:
    a key seen twice keeps the position of its first occurrence and the value of its last. */
module OrderedDict {
  import opened Wrappers
  import opened Text

  /** Keys in iteration order, and the key-to-value mapping. */
  datatype Dict<K, V> = Dict(keys: seq<K>, entries: map<K, V>)

  /** The keys listed are pairwise distinct and are exactly the keys of the mapping. */
  ghost predicate Valid<K, V>(d: Dict<K, V>) {
    && (forall i, j :: 0 <= i < j < |d.keys| ==> d.keys[i] != d.keys[j])
    && d.entries.Keys == set k | k in d.keys
  }

  /** `d[k] = v`: an existing key keeps its place and takes the new value, a new key goes last. */
  function Put<K(==), V>(d: Dict<K, V>, k: K, v: V): (r: Dict<K, V>)
    requires Valid(d)
    ensures Valid(r)
  {
    if k in d.entries then Dict(d.keys, d.entries[k := v])
    else Dict(d.keys + [k], d.entries[k := v])
  }

  /** `{key(x): x for x in items}`. */
  function FromSeq<K(==), V>(items: seq<V>, key: V -> K): (d: Dict<K, V>)
    ensures Valid(d)
  {
    if |items| == 0 then Dict([], map[])
    else Put(FromSeq(items[..|items| - 1], key), key(items[|items| - 1]), items[|items| - 1])
  }

  /** A dictionary built from a list has no more keys than the list has items. */
  lemma {:induction false} FromSeqSize<K, V>(items: seq<V>, key: V -> K)
    ensures |FromSeq(items, key).keys| <= |items|
    decreases |items|
  {
    if |items| > 0 {
      FromSeqSize(items[..|items| - 1], key);
    }
  }

  /** The key of every item, in item order. */
  function KeysOf<K(==), V>(items: seq<V>, key: V -> K): (ks: seq<K>)
    ensures |ks| == |items|
    ensures forall i :: 0 <= i < |items| ==> ks[i] == key(items[i])
  {
    seq(|items|, i requires 0 <= i < |items| => key(items[i]))
  }

  /** Index of the first item whose key is `k`. */
  function FirstIndex<K(==), V>(items: seq<V>, key: V -> K, k: K): (i: nat)
    requires k in KeysOf(items, key)
    ensures i < |items| && key(items[i]) == k
    ensures forall j :: 0 <= j < i ==> key(items[j]) != k
  {
    var ks := KeysOf(items, key);
    var i := Find(ks, k).value;
    assert forall j :: 0 <= j < i ==> ks[..i][j] == ks[j];
    i
  }

  /** The dictionary holds a key exactly when some item has that key. */
  lemma {:induction false} FromSeqKeys<K, V>(items: seq<V>, key: V -> K)
    ensures forall k :: k in FromSeq(items, key).entries <==> k in KeysOf(items, key)
    decreases |items|
  {
    if |items| > 0 {
      var init := items[..|items| - 1];
      FromSeqKeys(init, key);
      assert KeysOf(items, key) == KeysOf(init, key) + [key(items[|items| - 1])];
    }
  }

  /** A key maps to the LAST item carrying it. */
  lemma {:induction false} FromSeqLastWins<K, V>(items: seq<V>, key: V -> K, i: nat)
    requires i < |items|
    requires forall j :: i < j < |items| ==> key(items[j]) != key(items[i])
    ensures key(items[i]) in FromSeq(items, key).entries
    ensures FromSeq(items, key).entries[key(items[i])] == items[i]
    decreases |items|
  {
    if i < |items| - 1 {
      var init := items[..|items| - 1];
      assert init[i] == items[i];
      FromSeqLastWins(init, key, i);
    }
  }

  /** Looking a key up in a prefix's first occurrence agrees with the whole sequence. */
  lemma FirstIndexPrefix<K, V>(items: seq<V>, key: V -> K, n: nat, k: K)
    requires n <= |items|
    requires k in KeysOf(items[..n], key)
    ensures k in KeysOf(items, key)
    ensures FirstIndex(items, key, k) == FirstIndex(items[..n], key, k)
  {
    var a := FirstIndex(items[..n], key, k);
    assert items[..n][a] == items[a];
    assert KeysOf(items, key)[a] == k;
    var b := FirstIndex(items, key, k);
    if b < a {
      assert items[..n][b] == items[b];
    }
  }

  /** Every key of `ks` is some item's key, and the keys come in the order their first items do. */
  ghost predicate FirstSeenInOrder<K, V>(items: seq<V>, key: V -> K, ks: seq<K>) {
    && (forall k :: k in ks ==> k in KeysOf(items, key))
    && (forall p, q :: 0 <= p < q < |ks| ==> FirstIndex(items, key, ks[p]) < FirstIndex(items, key, ks[q]))
  }

  /** Iteration order is the order of first occurrence: an earlier key was first seen earlier. */
  lemma {:induction false} FromSeqOrder<K, V>(items: seq<V>, key: V -> K)
    ensures FirstSeenInOrder(items, key, FromSeq(items, key).keys)
    decreases |items|
  {
    if |items| > 0 {
      var n := |items| - 1;
      FromSeqOrder(items[..n], key);
      FromSeqKeys(items, key);
      var d := FromSeq(items, key);
      assert forall k :: k in d.keys ==> k in KeysOf(items, key);
      forall p, q | 0 <= p < q < |d.keys|
        ensures FirstIndex(items, key, d.keys[p]) < FirstIndex(items, key, d.keys[q])
      {
        FromSeqOrderPair(items, key, p, q);
      }
    }
  }

  /** The ordering of one pair of keys, given the ordering of the keys built from all items
      but the last. */
  lemma FromSeqOrderPair<K, V>(items: seq<V>, key: V -> K, p: nat, q: nat)
    requires |items| > 0
    requires p < q < |FromSeq(items, key).keys|
    requires FirstSeenInOrder(items[..|items| - 1], key, FromSeq(items[..|items| - 1], key).keys)
    requires forall k :: k in FromSeq(items, key).keys ==> k in KeysOf(items, key)
    ensures FirstIndex(items, key, FromSeq(items, key).keys[p]) < FirstIndex(items, key, FromSeq(items, key).keys[q])
  {
    var n := |items| - 1;
    var d := FromSeq(items, key);
    var d' := FromSeq(items[..n], key);
    FromSeqOrderStep(items, key);
    assert d.keys[p] in d'.keys;
    FirstIndexPrefix(items, key, n, d.keys[p]);
    if q < |d'.keys| {
      assert d.keys[q] == d'.keys[q] && d.keys[p] == d'.keys[p];
      FirstIndexPrefix(items, key, n, d.keys[q]);
    }
  }

  /** One step of `FromSeq`: the old keys keep their places, and a key appended at the end
      is the last item's key, seen for the first time there. */
  lemma FromSeqOrderStep<K, V>(items: seq<V>, key: V -> K)
    requires |items| > 0
    ensures var n := |items| - 1;
      var d' := FromSeq(items[..n], key);
      var d := FromSeq(items, key);
      && d'.keys <= d.keys
      && (|d.keys| > |d'.keys| ==>
            |d.keys| == |d'.keys| + 1
            && d.keys[|d'.keys|] == key(items[n])
            && key(items[n]) in KeysOf(items, key)
            && FirstIndex(items, key, key(items[n])) == n)
      && (forall k :: k in d'.keys ==> k in KeysOf(items[..n], key))
  {
    var n := |items| - 1;
    var init := items[..n];
    var d' := FromSeq(init, key);
    var kx := key(items[n]);
    var d := FromSeq(items, key);
    assert d == Put(d', kx, items[n]);
    FromSeqKeys(init, key);
    assert forall k :: k in d'.keys ==> k in d'.entries;
    if kx in d'.entries {
      assert d.keys == d'.keys;
    } else {
      assert d.keys == d'.keys + [kx];
      assert kx !in KeysOf(init, key);
      assert KeysOf(items, key)[n] == kx;
      forall j | 0 <= j < n
        ensures key(items[j]) != kx
      {
        assert KeysOf(init, key)[j] == key(items[j]);
      }
    }
  }
}
