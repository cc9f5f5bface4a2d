/** Python's insertion-ordered `dict`, as the modelled code uses it: a sequence of
    (key, value) items in insertion order. Storing a key that is already present
    replaces its value in place; storing a new key appends it. */
module PyDict {

  datatype Option<+T> = None | Some(value: T)

  /** A dict as its items, in insertion order. */
  type Dict<K, V> = seq<(K, V)>

  /** The keys of a dict, in insertion order (`list(d)`). */
  function Keys<K, V>(d: Dict<K, V>): (ks: seq<K>)
    ensures |ks| == |d|
    ensures forall i :: 0 <= i < |d| ==> ks[i] == d[i].0
  {
    if d == [] then [] else [d[0].0] + Keys(d[1..])
  }

  /** The keys of consecutive items are consecutive. */
  lemma KeysAppend<K, V>(a: Dict<K, V>, b: Dict<K, V>)
    ensures Keys(a + b) == Keys(a) + Keys(b)
  {
  }

  /** No key occurs twice: what every real dict satisfies. */
  ghost predicate UniqueKeys<K, V>(d: Dict<K, V>) {
    forall i, j :: 0 <= i < j < |d| ==> d[i].0 != d[j].0
  }

  /** `d.get(k)`: the value stored under `k`, if any. */
  function Get<K(==), V>(d: Dict<K, V>, k: K): (r: Option<V>)
    ensures r.None? <==> k !in Keys(d)
    ensures r.Some? ==> exists i :: 0 <= i < |d| && d[i] == (k, r.value)
  {
    if d == [] then None
    else if d[0].0 == k then Some(d[0].1)
    else
      var r := Get(d[1..], k);
      assert r.Some? ==> exists i :: 0 <= i < |d[1..]| && d[1..][i] == (k, r.value);
      r
  }

  /** `get` finds the first item that carries a key. */
  lemma {:induction false} GetFirst<K, V>(d: Dict<K, V>, i: nat)
    requires i < |d| && forall j :: 0 <= j < i ==> d[j].0 != d[i].0
    ensures Get(d, d[i].0) == Some(d[i].1)
  {
    if i > 0 {
      GetFirst(d[1..], i - 1);
    }
  }

  /** `d[k] = v`: replaces the value of a present key where it stands, or appends a new item. */
  function Put<K(==,!new), V>(d: Dict<K, V>, k: K, v: V): Dict<K, V>
  {
    if d == [] then [(k, v)]
    else if d[0].0 == k then [(k, v)] + d[1..]
    else [d[0]] + Put(d[1..], k, v)
  }

  /** After `d[k] = v`, `k` maps to `v` and every other key keeps its value. */
  lemma {:induction false} PutGet<K(!new), V>(d: Dict<K, V>, k: K, v: V, k': K)
    ensures Get(Put(d, k, v), k) == Some(v)
    ensures k' != k ==> Get(Put(d, k, v), k') == Get(d, k')
  {
    if d != [] && d[0].0 != k {
      PutGet(d[1..], k, v, k');
      assert ([d[0]] + Put(d[1..], k, v))[1..] == Put(d[1..], k, v);
    }
  }

  /** Storing a present key keeps the key order; storing a new key appends it. */
  lemma {:induction false} PutKeys<K(!new), V>(d: Dict<K, V>, k: K, v: V)
    ensures k in Keys(d) ==> Keys(Put(d, k, v)) == Keys(d)
    ensures k !in Keys(d) ==> Keys(Put(d, k, v)) == Keys(d) + [k]
  {
    if d == [] {
      assert Put(d, k, v) == [(k, v)];
    } else {
      var x, rest := d[0], d[1..];
      assert d == [x] + rest;
      KeysCons(x, rest);
      if x.0 == k {
        assert Put(d, k, v) == [(k, v)] + rest;
        KeysCons((k, v), rest);
      } else {
        var put := Put(rest, k, v);
        assert Put(d, k, v) == [x] + put;
        KeysCons(x, put);
        PutKeys(rest, k, v);
        assert k in Keys(d) <==> k in Keys(rest);
        if k !in Keys(rest) {
          assert [x.0] + (Keys(rest) + [k]) == ([x.0] + Keys(rest)) + [k];
        }
      }
    }
  }

  lemma KeysCons<K, V>(x: (K, V), rest: Dict<K, V>)
    ensures Keys([x] + rest) == [x.0] + Keys(rest)
  {
    assert ([x] + rest)[1..] == rest;
  }

  /** Storing a key the dict does not have appends it at the end. */
  lemma {:induction false} PutNew<K(!new), V>(d: Dict<K, V>, k: K, v: V)
    requires k !in Keys(d)
    ensures Put(d, k, v) == d + [(k, v)]
  {
    if d != [] {
      var x, rest := d[0], d[1..];
      assert d == [x] + rest;
      KeysCons(x, rest);
      assert x.0 != k && k !in Keys(rest);
      PutNew(rest, k, v);
      assert Put(d, k, v) == [x] + (rest + [(k, v)]);
      assert [x] + (rest + [(k, v)]) == d + [(k, v)];
    }
  }

  /** Storing three distinct keys into an empty dict keeps them in that order. */
  lemma PutThreeNew<K(!new), V>(k0: K, v0: V, k1: K, v1: V, k2: K, v2: V)
    requires k0 != k1 && k0 != k2 && k1 != k2
    ensures Put(Put(Put([], k0, v0), k1, v1), k2, v2) == [(k0, v0), (k1, v1), (k2, v2)]
    ensures Keys(Put(Put(Put([], k0, v0), k1, v1), k2, v2)) == [k0, k1, k2]
  {
    var a := [(k0, v0)];
    var b := a + [(k1, v1)];
    assert Keys(a) == [k0];
    PutNew(a, k1, v1);
    assert Keys(b) == [k0, k1];
    PutNew(b, k2, v2);
  }

  /** `for k, v in items: d[k] = v`, which is also how a dict display or a dict
      comprehension is built: the items are stored left to right. */
  function PutAll<K(==,!new), V>(d: Dict<K, V>, items: seq<(K, V)>): Dict<K, V>
  {
    if items == [] then d
    else
      var last := items[|items| - 1];
      Put(PutAll(d, items[..|items| - 1]), last.0, last.1)
  }

  /** `dict(items)`: a fresh dict built from `items` in order. */
  function FromPairs<K(==,!new), V>(items: seq<(K, V)>): Dict<K, V>
  {
    PutAll([], items)
  }

  /** The value of the last item of `items` whose key is `k`: the one that wins
      when the items are stored in order. */
  function LastGet<K(==), V>(items: seq<(K, V)>, k: K): Option<V>
  {
    if items == [] then None
    else if items[|items| - 1].0 == k then Some(items[|items| - 1].1)
    else LastGet(items[..|items| - 1], k)
  }

  /** Storing `items` in order: a key that `items` mentions ends up with its last
      value there; every other key keeps what it had. */
  lemma {:induction false} PutAllGet<K(!new), V>(d: Dict<K, V>, items: seq<(K, V)>, k: K)
    ensures Get(PutAll(d, items), k)
         == if LastGet(items, k).Some? then LastGet(items, k) else Get(d, k)
  {
    if items != [] {
      var last := items[|items| - 1];
      PutAllGet(d, items[..|items| - 1], k);
      PutGet(PutAll(d, items[..|items| - 1]), last.0, last.1, k);
    }
  }

  /** Storing items keeps the keys of a dict unique. */
  lemma {:induction false} PutAllUniqueKeys<K(!new), V>(d: Dict<K, V>, items: seq<(K, V)>)
    requires UniqueKeys(d)
    ensures UniqueKeys(PutAll(d, items))
  {
    if items != [] {
      var last := items[|items| - 1];
      var before := PutAll(d, items[..|items| - 1]);
      PutAllUniqueKeys(d, items[..|items| - 1]);
      PutUniqueKeys(before, last.0, last.1);
    }
  }

  lemma PutUniqueKeys<K(!new), V>(d: Dict<K, V>, k: K, v: V)
    requires UniqueKeys(d)
    ensures UniqueKeys(Put(d, k, v))
  {
    var r := Put(d, k, v);
    PutKeys(d, k, v);
    forall i, j | 0 <= i < j < |r| ensures r[i].0 != r[j].0 {
      if k in Keys(d) {
        assert Keys(r)[i] == Keys(d)[i] && Keys(r)[j] == Keys(d)[j];
      } else {
        assert Keys(r)[i] == (Keys(d) + [k])[i] && Keys(r)[j] == (Keys(d) + [k])[j];
        if j == |d| {
          assert Keys(d)[i] == d[i].0;
        }
      }
    }
  }

  /** In items with unique keys, the last item with key `k` is the only one. */
  lemma {:induction false} LastGetUnique<K, V>(items: seq<(K, V)>, i: nat)
    requires UniqueKeys(items) && i < |items|
    ensures LastGet(items, items[i].0) == Some(items[i].1)
  {
    if i < |items| - 1 {
      assert items[i].0 != items[|items| - 1].0;
      LastGetUnique(items[..|items| - 1], i);
    }
  }

  /** `LastGet` finds a key exactly when some item carries it. */
  lemma {:induction false} LastGetSome<K, V>(items: seq<(K, V)>, k: K)
    ensures LastGet(items, k).Some? <==> k in Keys(items)
    ensures LastGet(items, k).Some? ==> (k, LastGet(items, k).value) in items
  {
    if items != [] {
      LastGetSome(items[..|items| - 1], k);
      assert Keys(items) == Keys(items[..|items| - 1]) + [items[|items| - 1].0];
    }
  }

  /** Storing `a` and then `b` is storing `a + b`. */
  lemma {:induction false} PutAllConcat<K(!new), V>(d: Dict<K, V>, a: seq<(K, V)>, b: seq<(K, V)>)
    ensures PutAll(d, a + b) == PutAll(PutAll(d, a), b)
  {
    if b == [] {
      assert a + b == a;
    } else {
      PutAllConcat(d, a, b[..|b| - 1]);
      assert (a + b)[..|a + b| - 1] == a + b[..|b| - 1];
      assert (a + b)[|a + b| - 1] == b[|b| - 1];
    }
  }

  /** After storing `items`, the keys are those the dict had and those `items` mention. */
  lemma PutAllKeys<K(!new), V>(d: Dict<K, V>, items: seq<(K, V)>, k: K)
    ensures k in Keys(PutAll(d, items)) <==> k in Keys(d) || k in Keys(items)
  {
    PutAllGet(d, items, k);
    LastGetSome(items, k);
  }

  /** In a dict with unique keys, the last item with a key is the one `get` finds. */
  lemma LastGetIsGet<K, V>(d: Dict<K, V>, k: K)
    requires UniqueKeys(d)
    ensures LastGet(d, k) == Get(d, k)
  {
    LastGetSome(d, k);
    var g := Get(d, k);
    if g.Some? {
      var i :| 0 <= i < |d| && d[i] == (k, g.value);
      LastGetUnique(d, i);
    }
  }
}
