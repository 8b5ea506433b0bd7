/**
 * Insertion-ordered key/value entries: the model of a JavaScript object or
 * `Map`. Lookup finds the first entry with the key; assignment replaces that
 * entry in place, or appends a new entry when the key is new, so the order of
 * `Object.keys`/`Object.values` is the order in which keys were first set.
 */
module Ordered {
  import opened Wrappers
  import opened Seqs

  type Entries<K, V> = seq<(K, V)>

  /** `Object.keys`: the keys in insertion order. */
  function Keys<K, V>(m: Entries<K, V>): (r: seq<K>)
    ensures |r| == |m|
    ensures forall i :: 0 <= i < |m| ==> r[i] == m[i].0
  {
    seq(|m|, i requires 0 <= i < |m| => m[i].0)
  }

  /** `Object.values`: the values in insertion order. */
  function Values<K, V>(m: Entries<K, V>): (r: seq<V>)
    ensures |r| == |m|
    ensures forall i :: 0 <= i < |m| ==> r[i] == m[i].1
  {
    seq(|m|, i requires 0 <= i < |m| => m[i].1)
  }

  /** Every key occurs once, as in any JavaScript object. */
  predicate DistinctKeys<K(==), V>(m: Entries<K, V>) {
    Distinct(Keys(m))
  }

  /** `obj[k]`: the value of the first entry whose key is `k`. */
  function Get<K(==), V>(m: Entries<K, V>, k: K): (r: Option<V>)
    ensures r.None? <==> k !in Keys(m)
    ensures r.Some? ==> exists i :: 0 <= i < |m| && m[i] == (k, r.value)
    decreases |m|
  {
    if |m| == 0 then None
    else if m[0].0 == k then Some(m[0].1)
    else
      assert Keys(m)[1..] == Keys(m[1..]);
      var r := Get(m[1..], k);
      assert r.Some? ==> exists i :: 0 <= i < |m| && m[i] == (k, r.value) by {
        if r.Some? {
          var j :| 0 <= j < |m[1..]| && m[1..][j] == (k, r.value);
          assert m[j + 1] == (k, r.value);
        }
      }
      r
  }

  /** `obj[k] = v`: replace the entry for `k` in place, or append one when `k` is new. */
  function Put<K(==), V>(m: Entries<K, V>, k: K, v: V): (r: Entries<K, V>)
    ensures k in Keys(m) ==> Keys(r) == Keys(m)
    ensures k !in Keys(m) ==> Keys(r) == Keys(m) + [k]
    decreases |m|
  {
    if |m| == 0 then [(k, v)]
    else
      KeysCons(m[0], m[1..]);
      assert [m[0]] + m[1..] == m;
      if m[0].0 == k then
        KeysCons((k, v), m[1..]);
        [(k, v)] + m[1..]
      else
        var rest := Put(m[1..], k, v);
        KeysCons(m[0], rest);
        [m[0]] + rest
  }

  /** The keys of a map with one entry in front of the rest. */
  lemma KeysCons<K, V>(e: (K, V), m: Entries<K, V>)
    ensures Keys([e] + m) == [e.0] + Keys(m)
  {
  }

  /** After assigning `k`, reading `k` gives the assigned value. */
  lemma {:induction false} PutSame<K, V>(m: Entries<K, V>, k: K, v: V)
    ensures Get(Put(m, k, v), k) == Some(v)
    decreases |m|
  {
    if |m| > 0 && m[0].0 != k {
      PutSame(m[1..], k, v);
      assert Put(m, k, v)[1..] == Put(m[1..], k, v);
    }
  }

  /** Assigning one key leaves every other key's value as it was. */
  lemma {:induction false} PutOther<K, V>(m: Entries<K, V>, k: K, v: V, other: K)
    requires other != k
    ensures Get(Put(m, k, v), other) == Get(m, other)
    decreases |m|
  {
    if |m| > 0 && m[0].0 != k {
      PutOther(m[1..], k, v, other);
      assert Put(m, k, v)[1..] == Put(m[1..], k, v);
    }
  }

  /** Assignment in one lemma: the key reads the new value, other keys are untouched, keys stay distinct. */
  lemma PutFrame<K, V>(m: Entries<K, V>, k: K, v: V)
    ensures Get(Put(m, k, v), k) == Some(v)
    ensures forall other :: other != k ==> Get(Put(m, k, v), other) == Get(m, other)
    ensures DistinctKeys(m) ==> DistinctKeys(Put(m, k, v))
  {
    PutSame(m, k, v);
    forall other | other != k ensures Get(Put(m, k, v), other) == Get(m, other) {
      PutOther(m, k, v, other);
    }
    if DistinctKeys(m) {
      PutDistinct(m, k, v);
    }
  }

  /** Without its first entry, a map with distinct keys still has distinct keys and lacks the first key. */
  lemma DistinctKeysTail<K, V>(m: Entries<K, V>)
    requires |m| > 0 && DistinctKeys(m)
    ensures DistinctKeys(m[1..])
    ensures m[0].0 !in Keys(m[1..])
  {
    var keys, tail := Keys(m), Keys(m[1..]);
    assert forall j :: 0 <= j < |tail| ==> tail[j] == keys[j + 1];
  }

  /** Assignment keeps the keys distinct. */
  lemma PutDistinct<K, V>(m: Entries<K, V>, k: K, v: V)
    requires DistinctKeys(m)
    ensures DistinctKeys(Put(m, k, v))
  {
    var keys := Keys(Put(m, k, v));
    if k !in Keys(m) {
      assert keys == Keys(m) + [k];
      forall i, j | 0 <= i < j < |keys| ensures keys[i] != keys[j] {
        if j == |keys| - 1 {
          assert keys[i] == Keys(m)[i];
        }
      }
    }
  }

  /** The values of two maps written one after the other. */
  lemma ValuesAppend<K, V>(a: Entries<K, V>, b: Entries<K, V>)
    ensures Values(a + b) == Values(a) + Values(b)
  {
    var l, r := Values(a + b), Values(a) + Values(b);
    forall i | 0 <= i < |l| ensures l[i] == r[i] {
      if i < |a| {
        assert (a + b)[i] == a[i];
      } else {
        assert (a + b)[i] == b[i - |a|];
      }
    }
  }

  /** Looking up in a map with one entry in front of the rest. */
  lemma GetCons<K, V>(k0: K, v: V, rest: Entries<K, V>, k: K)
    ensures Get([(k0, v)] + rest, k) == if k0 == k then Some(v) else Get(rest, k)
  {
    assert ([(k0, v)] + rest)[1..] == rest;
  }
}
