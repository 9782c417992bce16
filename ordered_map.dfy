/**
 * Insertion-ordered maps: the model of a PHP array with string keys, and of
 * every registry the library keeps in one.
 *
 * Assigning to an existing key keeps its position, assigning to a new key
 * appends it, `unset` drops the key and leaves the others in order.
 */
module OrderedMaps {

  import opened Errors

  /** Distinct elements. */
  predicate Distinct<K(==)>(s: seq<K>) {
    forall i, j {:trigger DistinctAt(s, i, j)} :: 0 <= i < j < |s| ==> DistinctAt(s, i, j)
  }

  /** Positions `i` and `j` of `s` hold different elements. */
  predicate DistinctAt<K(==)>(s: seq<K>, i: int, j: int) {
    0 <= i < j < |s| ==> s[i] != s[j]
  }

  /** Two positions of a distinct sequence hold different elements. */
  lemma DistinctIndices<K>(s: seq<K>, i: int, j: int)
    requires Distinct(s) && 0 <= i < |s| && 0 <= j < |s| && i != j
    ensures s[i] != s[j]
  {
    if i < j { assert DistinctAt(s, i, j); } else { assert DistinctAt(s, j, i); }
  }

  /** A distinct sequence splits into a head absent from a distinct tail. */
  lemma DistinctTail<K>(s: seq<K>)
    requires Distinct(s) && s != []
    ensures s[0] !in s[1..] && Distinct(s[1..])
  {
    var t := s[1..];
    if s[0] in t {
      var j :| 0 <= j < |t| && t[j] == s[0];
      DistinctIndices(s, 0, j + 1);
    }
    forall i, j | 0 <= i < j < |t| ensures DistinctAt(t, i, j) {
      DistinctIndices(s, i + 1, j + 1);
    }
  }

  /** A longer prefix of `s` is the shorter one and the next element. */
  lemma TakeSnoc<K>(s: seq<K>, i: int)
    requires 0 <= i < |s|
    ensures s[..i + 1] == s[..i] + [s[i]]
  {
  }

  /** Dropping one more element of `s`. */
  lemma DropOne<K>(s: seq<K>, i: int)
    requires 0 <= i < |s|
    ensures s[i..][1..] == s[i + 1..]
  {
  }

  /** Appending a new element keeps a sequence distinct. */
  lemma DistinctSnoc<K>(t: seq<K>, a: K)
    requires a !in t && Distinct(t)
    ensures Distinct(t + [a])
  {
    var s := t + [a];
    forall i, j | 0 <= i < j < |s| ensures DistinctAt(s, i, j) {
      if j < |t| { DistinctIndices(t, i, j); } else { assert s[i] in t; }
    }
  }

  /** `s` without the occurrences of `x`, order kept. */
  function Without<K(==,!new)>(s: seq<K>, x: K): (r: seq<K>)
    ensures forall y :: y in r <==> y in s && y != x
    ensures |r| <= |s|
    ensures Distinct(s) ==> Distinct(r)
  {
    if s == [] then []
    else
      assert Distinct(s) ==> s[0] !in s[1..] && Distinct(s[1..]) by { if Distinct(s) { DistinctTail(s); } }
      var t := Without(s[1..], x);
      if s[0] == x then t
      else
        assert Distinct(s) ==> Distinct([s[0]] + t) by { if Distinct(s) { DistinctCons(s[0], t); } }
        [s[0]] + t
  }

  lemma DistinctCons<K>(a: K, t: seq<K>)
    requires a !in t && Distinct(t)
    ensures Distinct([a] + t)
  {
    var s := [a] + t;
    forall i, j | 0 <= i < j < |s| ensures DistinctAt(s, i, j) {
      if i > 0 { DistinctIndices(t, i - 1, j - 1); } else { assert s[j] in t; }
    }
  }

  lemma {:induction false} WithoutAbsent<K(!new)>(s: seq<K>, x: K)
    requires x !in s
    ensures Without(s, x) == s
  {
    if s != [] {
      WithoutAbsent(s[1..], x);
    }
  }

  datatype OrderedMap<K(==,!new), +V> = OrderedMap(keys: seq<K>, items: map<K, V>)
  {
    /** The key order lists exactly the keys of the map, each once. */
    ghost predicate Valid() {
      Distinct(keys) && (forall k :: k in keys <==> k in items)
    }

    predicate Has(k: K) { k in items }

    /** `$array[$k] = $v`. */
    function Put(k: K, v: V): (r: OrderedMap<K, V>)
      ensures r.items == items[k := v]
      ensures k in items ==> r.keys == keys
      ensures k !in items ==> r.keys == keys + [k]
      ensures Valid() ==> r.Valid()
    {
      if k in items then OrderedMap(keys, items[k := v])
      else
        assert Valid() ==> Distinct(keys + [k]) by { if Valid() { DistinctSnoc(keys, k); } }
        OrderedMap(keys + [k], items[k := v])
    }

    /** `unset($array[$k])`. */
    function Remove(k: K): (r: OrderedMap<K, V>)
      ensures r.items == items - {k}
      ensures r.keys == Without(keys, k)
      ensures Valid() ==> r.Valid()
    {
      OrderedMap(Without(keys, k), items - {k})
    }

    /** The value at `k`, or `None`. */
    function Lookup(k: K): (r: Option<V>)
      ensures r.Some? <==> k in items
      ensures r.Some? ==> r.value == items[k]
    {
      if k in items then Some(items[k]) else None
    }
  }

  function Empty<K(==,!new), V>(): (r: OrderedMap<K, V>)
    ensures r.Valid() && r.keys == [] && r.items == map[]
  {
    OrderedMap([], map[])
  }
}
