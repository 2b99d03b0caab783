/**
 * A plain JavaScript object with string keys, as the skills store uses one.
 * Its own properties are kept as a sequence of (key, value) entries in key-iteration
 * order: `for...in`, `Object.keys` and `Object.values` visit them in this order, and
 * for the non-integer keys used here that order is insertion order.
 */
module JsObject {
  import opened Wrappers

  type Entries<V> = seq<(string, V)>

  /** `Object.keys(m)`. */
  function Keys<V>(m: Entries<V>): (ks: seq<string>)
    ensures |ks| == |m|
    ensures forall i :: 0 <= i < |m| ==> ks[i] == m[i].0
  {
    if m == [] then [] else [m[0].0] + Keys(m[1..])
  }

  /** No key occurs twice, as in every JavaScript object. */
  predicate DistinctKeys<V>(m: Entries<V>) {
    forall i, j :: 0 <= i < j < |m| ==> m[i].0 != m[j].0
  }

  /** `m[k]` when `k` is an own property, `None` for `undefined`. */
  function Lookup<V>(m: Entries<V>, k: string): (r: Option<V>)
    ensures r.None? <==> k !in Keys(m)
  {
    if m == [] then None
    else if m[0].0 == k then Some(m[0].1)
    else
      assert Keys(m) == [m[0].0] + Keys(m[1..]);
      Lookup(m[1..], k)
  }

  /** What a lookup finds is the value of an entry with that key. */
  lemma {:induction false} LookupFound<V>(m: Entries<V>, k: string)
    requires Lookup(m, k).Some?
    ensures exists i :: 0 <= i < |m| && m[i] == (k, Lookup(m, k).value)
  {
    if m[0].0 != k {
      LookupFound(m[1..], k);
      var i :| 0 <= i < |m[1..]| && m[1..][i] == (k, Lookup(m, k).value);
      assert m[i + 1] == m[1..][i];
    }
  }

  /** In an object, the entry at position `i` is what looking up its key gives. */
  lemma {:induction false} LookupAt<V>(m: Entries<V>, i: nat)
    requires DistinctKeys(m) && i < |m|
    ensures Lookup(m, m[i].0) == Some(m[i].1)
  {
    if i > 0 {
      assert DistinctKeys(m[1..]);
      LookupAt(m[1..], i - 1);
    }
  }

  /** The assignment `m[k] = v`. */
  function Put<V>(m: Entries<V>, k: string, v: V): Entries<V> {
    if m == [] then [(k, v)]
    else if m[0].0 == k then [(k, v)] + m[1..]
    else [m[0]] + Put(m[1..], k, v)
  }

  /** After `m[k] = v` the key holds the new value: an existing key keeps its place in
      key order, a new key comes last, and every other key keeps its value. */
  lemma {:induction false} PutSpec<V>(m: Entries<V>, k: string, v: V)
    ensures Keys(Put(m, k, v)) == if k in Keys(m) then Keys(m) else Keys(m) + [k]
    ensures Lookup(Put(m, k, v), k) == Some(v)
    ensures forall c :: c != k ==> Lookup(Put(m, k, v), c) == Lookup(m, c)
  {
    if m != [] && m[0].0 != k {
      PutSpec(m[1..], k, v);
      assert Keys(m) == [m[0].0] + Keys(m[1..]);
      assert Keys(Put(m, k, v)) == [m[0].0] + Keys(Put(m[1..], k, v));
    }
  }

  /** Assignment keeps the keys of an object distinct. */
  lemma PutDistinct<V>(m: Entries<V>, k: string, v: V)
    requires DistinctKeys(m)
    ensures DistinctKeys(Put(m, k, v))
  {
    PutSpec(m, k, v);
    var r := Put(m, k, v);
    assert forall i :: 0 <= i < |r| ==> r[i].0 == Keys(r)[i];
    assert forall i :: 0 <= i < |m| ==> m[i].0 == Keys(m)[i];
  }

  /** The statement `delete m[k]`. */
  function Remove<V>(m: Entries<V>, k: string): Entries<V> {
    if m == [] then []
    else if m[0].0 == k then Remove(m[1..], k)
    else [m[0]] + Remove(m[1..], k)
  }

  /** After `delete m[k]` the key is gone, the remaining keys keep their order and their
      values, and the keys stay distinct. */
  lemma RemoveSpec<V>(m: Entries<V>, k: string)
    ensures Keys(Remove(m, k)) == Without(Keys(m), k)
    ensures Lookup(Remove(m, k), k) == None
    ensures forall c :: c != k ==> Lookup(Remove(m, k), c) == Lookup(m, c)
    ensures DistinctKeys(m) ==> DistinctKeys(Remove(m, k))
  {
    RemoveKeys(m, k);
    RemoveLookup(m, k);
    if DistinctKeys(m) {
      RemoveDistinct(m, k);
    }
  }

  lemma {:induction false} RemoveKeys<V>(m: Entries<V>, k: string)
    ensures Keys(Remove(m, k)) == Without(Keys(m), k)
  {
    if m != [] {
      RemoveKeys(m[1..], k);
      assert Keys(m) == [m[0].0] + Keys(m[1..]);
      if m[0].0 != k {
        assert Keys([m[0]] + Remove(m[1..], k)) == [m[0].0] + Keys(Remove(m[1..], k));
      }
    }
  }

  lemma {:induction false} RemoveLookup<V>(m: Entries<V>, k: string)
    ensures forall c :: Lookup(Remove(m, k), c) == if c == k then None else Lookup(m, c)
  {
    if m != [] {
      RemoveLookup(m[1..], k);
    }
  }

  lemma {:induction false} RemoveDistinct<V>(m: Entries<V>, k: string)
    requires DistinctKeys(m)
    ensures DistinctKeys(Remove(m, k))
  {
    if m != [] {
      assert DistinctKeys(m[1..]);
      RemoveDistinct(m[1..], k);
      RemoveKeys(m[1..], k);
      var rest := Remove(m[1..], k);
      if m[0].0 != k {
        assert m[0].0 !in Keys(m[1..]);
        assert forall j :: 0 <= j < |rest| ==> rest[j].0 == Keys(rest)[j];
      }
    }
  }

  /** `ks.filter((c) => c !== k)` on a list of keys. */
  function Without(ks: seq<string>, k: string): (r: seq<string>)
    ensures k !in r
    ensures forall c :: c != k ==> (c in r <==> c in ks)
    ensures |r| <= |ks|
  {
    if ks == [] then []
    else if ks[0] == k then Without(ks[1..], k)
    else [ks[0]] + Without(ks[1..], k)
  }

  /** Removing a key that is not there changes nothing. */
  lemma {:induction false} RemoveAbsent<V>(m: Entries<V>, k: string)
    requires k !in Keys(m)
    ensures Remove(m, k) == m
  {
    if m != [] {
      assert Keys(m) == [m[0].0] + Keys(m[1..]);
      RemoveAbsent(m[1..], k);
    }
  }

  /** Storing the value a key already has changes nothing. */
  lemma {:induction false} PutSame<V>(m: Entries<V>, k: string)
    requires DistinctKeys(m) && Lookup(m, k).Some?
    ensures Put(m, k, Lookup(m, k).value) == m
  {
    if m[0].0 != k {
      assert DistinctKeys(m[1..]);
      PutSame(m[1..], k);
    }
  }
}
