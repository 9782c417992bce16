/**
 * Configuration values and definitions.
 *
 * The configuration layer passes PHP arrays around: string- or int-keyed,
 * insertion ordered, holding scalars, nested arrays and definition objects.
 * A definition is never changed after it is built by the library itself, so
 * every definition class is one constructor of the `Definition` value type.
 */
module Values {

  import opened Errors
  import opened OrderedMaps

  datatype Key = IntKey(i: int) | StrKey(s: string)

  datatype Value =
    | Null
    | Bool(b: bool)
    | Int(i: int)
    | Str(s: string)
    | Arr(a: OrderedMap<Key, Value>)
    | Def(d: Definition)

  type PArray = OrderedMap<Key, Value>

  datatype Definition =
    /** Definition: a name and a data array. */
    | Plain(name: string, data: OrderedMap<Key, Value>)
    /** DictionaryDefinition. */
    | Dictionary(name: string, data: OrderedMap<Key, Value>)
    /** DecoratedDictionaryDefinition: local overrides over another dictionary definition. */
    | Decorated(decorated: Definition, data: OrderedMap<Key, Value>)
    /** ExtendedDictionaryDefinition: local overrides over the configuration's dictionary of the same name. */
    | ExtendedDictionary(name: string, data: OrderedMap<Key, Value>)
    /** ReferencedJobDefinition: local overrides over the configuration's job of the same name. */
    | ReferencedJob(name: string, data: OrderedMap<Key, Value>)
    /** CopyJobDefinition: a named job copying between two dictionary definitions. */
    | CopyJob(name: string, source: Definition, target: Definition, data: OrderedMap<Key, Value>)
    /** BatchJobDefinition: a named list of job definitions. */
    | BatchJob(name: string, jobs: seq<Definition>, data: OrderedMap<Key, Value>)
  {
    /** getName(): a decorated definition takes the name of the one it decorates. */
    function Name(): string {
      if Decorated? then decorated.Name() else name
    }

    /** The definition is one of the DictionaryDefinition classes. */
    predicate IsDictionaryDefinition() {
      Dictionary? || Decorated? || ExtendedDictionary?
    }
  }

  function S(s: string): Key { StrKey(s) }

  /** `isset($a[$k])`: present and not null. */
  predicate IsSet(a: PArray, k: Key) {
    k in a.items && a.items[k] != Null
  }

  /** Decimal rendering of an integer, PHP's `(string)$i`. */
  function IntToString(i: int): (r: string)
    ensures r != []
    decreases if i < 0 then 1 - i else i
  {
    if i < 0 then "-" + IntToString(-i)
    else if i < 10 then [DigitChar(i)]
    else IntToString(i / 10) + [DigitChar(i % 10)]
  }

  function DigitChar(d: int): char
    requires 0 <= d < 10
  {
    "0123456789"[d]
  }

  function KeyToString(k: Key): string {
    match k
    case IntKey(i) => IntToString(i)
    case StrKey(s) => s
  }

  /** The string PHP's `.` operator makes of a value. */
  function ToPhpString(v: Value): Result<string> {
    match v
    case Null => Ok("")
    case Bool(b) => Ok(if b then "1" else "")
    case Int(i) => Ok(IntToString(i))
    case Str(s) => Ok(s)
    case Arr(_) => Ok("Array")
    case Def(_) => Err(TypeError("Object of class Definition could not be converted to string"))
  }

  /** A value passed to a `string` parameter under strict types. */
  function AsString(v: Value): (r: Result<string>)
    ensures r.Ok? <==> v.Str?
    ensures r.Ok? ==> r.value == v.s
  {
    if v.Str? then Ok(v.s) else Err(TypeError("Value is not a string"))
  }

  /** The PHP list `[v0, v1, ...]`. */
  function List(vs: seq<Value>): (r: PArray)
    ensures r.Valid()
    ensures r.keys == seq(|vs|, i => IntKey(i))
    ensures forall i :: 0 <= i < |vs| ==> IntKey(i) in r.items && r.items[IntKey(i)] == vs[i]
    ensures forall k :: k in r.items ==> k.IntKey? && 0 <= k.i < |vs|
  {
    if vs == [] then Empty()
    else
      var front := List(vs[..|vs| - 1]);
      assert IntKey(|vs| - 1) !in front.items;
      front.Put(IntKey(|vs| - 1), vs[|vs| - 1])
  }

  /** The values of an array in key order. */
  function ValuesOf(a: PArray): (r: seq<Value>)
    requires a.Valid()
    ensures |r| == |a.keys|
    ensures forall i :: 0 <= i < |r| ==> r[i] == a.items[a.keys[i]]
  {
    seq(|a.keys|, i requires 0 <= i < |a.keys| => a.items[a.keys[i]])
  }

  /** Number of integer keys, the next index `array_merge` assigns. */
  function IntKeyCount(keys: seq<Key>): nat {
    if keys == [] then 0
    else (if keys[0].IntKey? then 1 else 0) + IntKeyCount(keys[1..])
  }

  /** The values `b` holds under the integer keys listed in `ks`, in order. */
  function IntValues(b: PArray, ks: seq<Key>): seq<Value> {
    if ks == [] then []
    else (if ks[0].IntKey? && ks[0] in b.items then [b.items[ks[0]]] else []) + IntValues(b, ks[1..])
  }

  /** The integer keys of `a` are 0, 1, ... in turn, holding `vs`. */
  ghost predicate Numbered(a: PArray, vs: seq<Value>) {
    && (forall i :: IntKey(i) in a.items <==> 0 <= i < |vs|)
    && forall i :: 0 <= i < |vs| ==> a.items[IntKey(i)] == vs[i]
  }

  /**
   * The keys `array_merge` takes from `b`, walking `ks` in order: absent
   * keys are skipped, string keys kept, integer keys replaced by `n`,
   * `n + 1`, ... in turn.
   */
  function Renumbered(b: PArray, ks: seq<Key>, n: nat): (r: seq<Key>)
    ensures forall s :: StrKey(s) in r <==> StrKey(s) in ks && StrKey(s) in b.items
    decreases |ks|
  {
    if ks == [] then []
    else if ks[0] !in b.items then Renumbered(b, ks[1..], n)
    else if ks[0].StrKey? then [ks[0]] + Renumbered(b, ks[1..], n)
    else [IntKey(n)] + Renumbered(b, ks[1..], n + 1)
  }

  /** The key order after assigning the keys `more` in turn to an array ordered as `keys`. */
  function Appended(keys: seq<Key>, more: seq<Key>): (r: seq<Key>)
    ensures forall k :: k in r <==> k in keys || k in more
    ensures |keys| <= |r| && r[..|keys|] == keys
    decreases |more|
  {
    if more == [] then keys
    else
      var next := if more[0] in keys then keys else keys + [more[0]];
      var r := Appended(next, more[1..]);
      assert r[..|keys|] == r[..|next|][..|keys|];
      r
  }

  /** Assigning `p` and then `q` orders the keys as assigning `p + q`. */
  lemma {:induction false} AppendedConcat(keys: seq<Key>, p: seq<Key>, q: seq<Key>)
    ensures Appended(Appended(keys, p), q) == Appended(keys, p + q)
    decreases |p|
  {
    if p == [] {
      assert p + q == q;
    } else {
      var next := if p[0] in keys then keys else keys + [p[0]];
      assert (p + q)[0] == p[0] && (p + q)[1..] == p[1..] + q;
      AppendedConcat(next, p[1..], q);
    }
  }

  /**
   * Appends the entries of `b` listed in `ks` to `acc`, as `array_merge`
   * does: string keys are assigned (an existing key keeps its place),
   * integer keys are renumbered after the `n` already present.
   */
  function MergeInto(acc: PArray, n: nat, b: PArray, ks: seq<Key>): (r: PArray)
    ensures acc.Valid() ==> r.Valid()
    ensures acc.Valid() ==> r.keys == Appended(acc.keys, Renumbered(b, ks, n))
    ensures forall s :: StrKey(s) in r.items <==>
      StrKey(s) in acc.items || (StrKey(s) in ks && StrKey(s) in b.items)
    ensures forall s :: StrKey(s) in r.items ==>
      r.items[StrKey(s)] == if StrKey(s) in ks && StrKey(s) in b.items then b.items[StrKey(s)] else acc.items[StrKey(s)]
    decreases |ks|
  {
    if ks == [] then acc
    else if ks[0] !in b.items then MergeInto(acc, n, b, ks[1..])
    else if ks[0].StrKey? then MergeInto(acc.Put(ks[0], b.items[ks[0]]), n, b, ks[1..])
    else MergeInto(acc.Put(IntKey(n), b.items[ks[0]]), n + 1, b, ks[1..])
  }

  /** Appending renumbers the integer keys of `b` after the `|vs|` already present. */
  lemma {:induction false} MergeIntoNumbers(acc: PArray, vs: seq<Value>, b: PArray, ks: seq<Key>)
    requires Numbered(acc, vs)
    ensures Numbered(MergeInto(acc, |vs|, b, ks), vs + IntValues(b, ks))
    decreases |ks|
  {
    if ks == [] {
      assert vs + [] == vs;
    } else if ks[0] !in b.items {
      assert IntValues(b, ks) == IntValues(b, ks[1..]);
      MergeIntoNumbers(acc, vs, b, ks[1..]);
    } else if ks[0].StrKey? {
      var next := acc.Put(ks[0], b.items[ks[0]]);
      assert MergeInto(acc, |vs|, b, ks) == MergeInto(next, |vs|, b, ks[1..]);
      assert IntValues(b, ks) == IntValues(b, ks[1..]);
      NumberedPutStr(acc, vs, ks[0], b.items[ks[0]]);
      MergeIntoNumbers(next, vs, b, ks[1..]);
    } else {
      var v := b.items[ks[0]];
      var next := acc.Put(IntKey(|vs|), v);
      assert MergeInto(acc, |vs|, b, ks) == MergeInto(next, |vs + [v]|, b, ks[1..]);
      NumberedPutNext(acc, vs, v);
      MergeIntoNumbers(next, vs + [v], b, ks[1..]);
      assert IntValues(b, ks) == [v] + IntValues(b, ks[1..]);
      assert (vs + [v]) + IntValues(b, ks[1..]) == vs + IntValues(b, ks);
    }
  }

  lemma NumberedPutStr(acc: PArray, vs: seq<Value>, k: Key, v: Value)
    requires Numbered(acc, vs) && k.StrKey?
    ensures Numbered(acc.Put(k, v), vs)
  {
  }

  lemma NumberedPutNext(acc: PArray, vs: seq<Value>, v: Value)
    requires Numbered(acc, vs)
    ensures Numbered(acc.Put(IntKey(|vs|), v), vs + [v])
  {
  }

  /** Every listed key present: the count of integer keys is the number of integer-keyed values. */
  lemma {:induction false} IntKeyCountValues(a: PArray, ks: seq<Key>)
    requires forall k :: k in ks ==> k in a.items
    ensures IntKeyCount(ks) == |IntValues(a, ks)|
  {
    if ks != [] {
      assert ks[0] in ks;
      IntKeyCountValues(a, ks[1..]);
    }
  }

  /**
   * PHP `array_merge($a, $b)`: later string keys win, integer keys are
   * renumbered from 0, the values of `$a`'s integer keys first. The order
   * is `$a`'s keys, then `$b`'s keys `$a` does not have.
   */
  function ArrayMerge(a: PArray, b: PArray): (r: PArray)
    ensures r.Valid()
    ensures a.Valid() ==> Numbered(r, IntValues(a, a.keys) + IntValues(b, b.keys))
    ensures a.Valid() ==> r.keys == Appended([], Renumbered(a, a.keys, 0) + Renumbered(b, b.keys, IntKeyCount(a.keys)))
    ensures a.Valid() && b.Valid() ==>
      forall s :: StrKey(s) in r.items <==> StrKey(s) in a.items || StrKey(s) in b.items
    ensures a.Valid() && b.Valid() ==> forall s :: StrKey(s) in r.items ==>
      r.items[StrKey(s)] == if StrKey(s) in b.items then b.items[StrKey(s)] else a.items[StrKey(s)]
  {
    var left := MergeInto(Empty(), 0, a, a.keys);
    assert Numbered(Empty(), []);
    MergeIntoNumbers(Empty(), [], a, a.keys);
    assert [] + IntValues(a, a.keys) == IntValues(a, a.keys);
    assert a.Valid() ==> IntKeyCount(a.keys) == |IntValues(a, a.keys)| by {
      if a.Valid() { IntKeyCountValues(a, a.keys); }
    }
    MergeIntoNumbers(left, IntValues(a, a.keys), b, b.keys);
    AppendedConcat([], Renumbered(a, a.keys, 0), Renumbered(b, b.keys, IntKeyCount(a.keys)));
    MergeInto(left, IntKeyCount(a.keys), b, b.keys)
  }

  /** The integer keys `n`, ..., `n + m - 1` in order. */
  function IntRun(n: nat, m: nat): (r: seq<Key>)
    ensures |r| == m && forall i :: 0 <= i < m ==> r[i] == IntKey(n + i)
  {
    seq(m, i requires 0 <= i < m => IntKey(n + i))
  }

  /** Integer keys, all present, are numbered `n`, `n + 1`, ... in turn. */
  lemma {:induction false} RenumberedInts(b: PArray, ks: seq<Key>, n: nat)
    requires forall i :: 0 <= i < |ks| ==> ks[i].IntKey? && ks[i] in b.items
    ensures Renumbered(b, ks, n) == IntRun(n, |ks|) && IntKeyCount(ks) == |ks|
    decreases |ks|
  {
    if ks != [] {
      assert ks[0].IntKey? && ks[0] in b.items;
      RenumberedInts(b, ks[1..], n + 1);
    }
  }

  /** Appending the next integer keys to `0`, ..., `k - 1` gives `0`, ..., `k + m - 1`. */
  lemma {:induction false} AppendedRun(k: nat, m: nat)
    ensures Appended(IntRun(0, k), IntRun(k, m)) == IntRun(0, k + m)
    decreases m
  {
    if m > 0 {
      var more := IntRun(k, m);
      assert more[0] !in IntRun(0, k);
      assert more[1..] == IntRun(k + 1, m - 1);
      assert IntRun(0, k) + [more[0]] == IntRun(0, k + 1);
      AppendedRun(k + 1, m - 1);
    }
  }

  /** An array whose keys are `0`, ..., `|xs| - 1` in order, holding `xs`. */
  ghost predicate IsList(a: PArray, xs: seq<Value>) {
    && a.Valid() && a.keys == IntRun(0, |xs|)
    && forall i :: 0 <= i < |xs| ==> IntKey(i) in a.items && a.items[IntKey(i)] == xs[i]
  }

  /** `List` builds a list. */
  lemma ListShape(xs: seq<Value>)
    ensures IsList(List(xs), xs)
  {
    var a := List(xs);
    assert a.keys == IntRun(0, |xs|);
  }

  /** Merging two lists gives a list: keys 0, 1, ... in order, the first list's values first. */
  lemma MergeLists(a: PArray, xs: seq<Value>, b: PArray, ys: seq<Value>)
    requires IsList(a, xs) && IsList(b, ys)
    ensures IsList(ArrayMerge(a, b), xs + ys)
  {
    var r := ArrayMerge(a, b);
    MergedListKeys(a, xs, b, ys);
    MergedListValues(a, xs, b, ys);
    NumberedList(r, xs + ys);
  }

  /** A well-formed array keyed `0`, ..., `|zs| - 1` in order and numbered by `zs` is the list of `zs`. */
  lemma NumberedList(r: PArray, zs: seq<Value>)
    requires r.Valid() && r.keys == IntRun(0, |zs|) && Numbered(r, zs)
    ensures IsList(r, zs)
  {
  }

  lemma MergedListKeys(a: PArray, xs: seq<Value>, b: PArray, ys: seq<Value>)
    requires IsList(a, xs) && IsList(b, ys)
    ensures ArrayMerge(a, b).keys == IntRun(0, |xs| + |ys|)
  {
    ListKeys(a, xs, 0);
    ListKeys(b, ys, |xs|);
    MergedRuns(|xs|, |ys|);
  }

  lemma MergedListValues(a: PArray, xs: seq<Value>, b: PArray, ys: seq<Value>)
    requires IsList(a, xs) && IsList(b, ys)
    ensures Numbered(ArrayMerge(a, b), xs + ys)
  {
    ListKeys(a, xs, 0);
    ListKeys(b, ys, |xs|);
  }

  /** A list's keys are renumbered in place, and its integer-keyed values are its elements. */
  lemma ListKeys(a: PArray, xs: seq<Value>, n: nat)
    requires IsList(a, xs)
    ensures IntKeyCount(a.keys) == |xs| && Renumbered(a, a.keys, n) == IntRun(n, |xs|)
    ensures IntValues(a, a.keys) == xs
  {
    assert forall i :: 0 <= i < |a.keys| ==> a.keys[i] == IntKey(i) && a.keys[i] in a.items;
    RenumberedInts(a, a.keys, n);
    IntValuesRun(a, a.keys, xs);
  }

  /** The keys of `0`, ..., `k - 1` followed by the next `m` integer keys, assigned in turn to an empty array. */
  lemma MergedRuns(k: nat, m: nat)
    ensures Appended([], IntRun(0, k) + IntRun(k, m)) == IntRun(0, k + m)
  {
    assert Appended([], IntRun(0, k)) == IntRun(0, k) by {
      AppendedRun(0, k);
      assert IntRun(0, 0) == [];
    }
    AppendedConcat([], IntRun(0, k), IntRun(k, m));
    AppendedRun(k, m);
  }

  /** The values `a` holds under integer keys `ks`, all present, are `xs`. */
  lemma {:induction false} IntValuesRun(a: PArray, ks: seq<Key>, xs: seq<Value>)
    requires |ks| == |xs|
    requires forall i :: 0 <= i < |ks| ==> ks[i].IntKey? && ks[i] in a.items && a.items[ks[i]] == xs[i]
    ensures IntValues(a, ks) == xs
    decreases |ks|
  {
    if ks != [] {
      IntValuesRun(a, ks[1..], xs[1..]);
      assert xs == [xs[0]] + xs[1..];
    }
  }
}
