/**
 * The contents of the runtime dictionaries as values.
 *
 * A `MemView` is what a memory dictionary holds: its keys in insertion
 * order and the two texts stored under each key. A `DictView` is either a
 * memory dictionary or a compound one, whose keys are `prefix.key` and are
 * routed to the child registered under `prefix`. The operations here are
 * the specification the heap classes are proved against.
 */
module Views {

  import opened Errors
  import opened OrderedMaps

  /** `!$text` for a ?string: PHP treats null, "" and "0" as false. */
  predicate IsEmptyText(s: Option<string>) {
    s == None || s == Some("") || s == Some("0")
  }

  /** The source and target text of one translation value. */
  datatype Text = Text(source: Option<string>, target: Option<string>)

  /** A fresh value: `new MemoryTranslationValue($key)`. */
  const Blank := Text(None, None)

  /** A memory dictionary's buffer: keys in insertion order and their texts. */
  datatype MemView = MemView(keys: seq<string>, texts: map<string, Text>)
  {
    ghost predicate Valid() {
      Distinct(keys) && forall k :: k in keys <==> k in texts
    }
  }

  /** `getWritable($key)` / `get($key)` of a memory dictionary. */
  function MemGet(m: MemView, k: string): (r: Result<Text>)
    ensures r.Ok? <==> k in m.texts
    ensures r.Ok? ==> r.value == m.texts[k]
    ensures r.Err? ==> r.error == TranslationNotFound(k)
  {
    if k in m.texts then Ok(m.texts[k]) else Err(TranslationNotFound(k))
  }

  /** `add($key)` of a memory dictionary: a blank value appended at the end. */
  function MemAdd(m: MemView, k: string): (r: Result<MemView>)
    ensures r.Ok? <==> k !in m.texts
    ensures r.Err? ==> r.error == TranslationAlreadyContained(k)
    ensures r.Ok? ==> r.value.keys == m.keys + [k] && r.value.texts == m.texts[k := Blank]
    ensures r.Ok? && m.Valid() ==> r.value.Valid()
  {
    if k in m.texts then Err(TranslationAlreadyContained(k))
    else
      assert m.Valid() ==> k !in m.keys;
      assert m.Valid() ==> Distinct(m.keys + [k]) by { if m.Valid() { DistinctSnoc(m.keys, k); } }
      Ok(MemView(m.keys + [k], m.texts[k := Blank]))
  }

  /** `remove($key)` of a memory dictionary. */
  function MemRemove(m: MemView, k: string): (r: Result<MemView>)
    ensures r.Ok? <==> k in m.texts
    ensures r.Err? ==> r.error == TranslationNotFound(k)
    ensures r.Ok? ==> r.value.keys == Without(m.keys, k) && r.value.texts == m.texts - {k}
    ensures r.Ok? && m.Valid() ==> r.value.Valid()
  {
    if k in m.texts then Ok(MemView(Without(m.keys, k), m.texts - {k}))
    else Err(TranslationNotFound(k))
  }

  /** Adding a key and removing it again gives back the dictionary. */
  lemma MemAddRemove(m: MemView, k: string)
    requires m.Valid() && k !in m.texts
    ensures MemAdd(m, k).Ok?
    ensures MemRemove(MemAdd(m, k).value, k) == Ok(m)
  {
    assert k !in m.keys;
    WithoutAbsent(m.keys, k);
    assert Without(m.keys + [k], k) == m.keys by { WithoutAppend(m.keys, k); }
    assert m.texts[k := Blank] - {k} == m.texts;
  }

  lemma {:induction false} WithoutAppend(s: seq<string>, k: string)
    requires k !in s
    ensures Without(s + [k], k) == s
  {
    if s == [] {
    } else {
      assert (s + [k])[1..] == s[1..] + [k];
      WithoutAppend(s[1..], k);
    }
  }

  /** Index of the first '.' in `s`: `strpos($s, '.')`. */
  function FirstDot(s: string): (r: Option<nat>)
    ensures r.None? <==> '.' !in s
    ensures r.Some? ==> r.value < |s| && s[r.value] == '.' && '.' !in s[..r.value]
  {
    if s == [] then None
    else if s[0] == '.' then Some(0)
    else match FirstDot(s[1..])
      case None => None
      case Some(i) =>
        assert s[..i + 1] == [s[0]] + s[1..][..i];
        Some(i + 1)
  }

  /** A key and its prefix joined by the separator. */
  function Join(prefix: string, key: string): string {
    prefix + "." + key
  }

  /**
   * `splitRemainderAndPrefix($key)` of a compound dictionary: the text before
   * the first '.' names the child, the rest is the child's key.
   */
  function Route(children: map<string, MemView>, key: string): (r: Result<(string, string)>)
    ensures r.Ok? ==> r.value.0 in children && '.' !in r.value.0 && key == Join(r.value.0, r.value.1)
    ensures '.' !in key ==> r == Err(InvalidArgument("Key " + Quote(key) + " has invalid format."))
    ensures r.Err? && '.' in key ==> r == Err(TranslationNotFound(key))
  {
    match FirstDot(key)
    case None => Err(InvalidArgument("Key " + Quote(key) + " has invalid format."))
    case Some(i) =>
      if key[..i] !in children then Err(TranslationNotFound(key))
      else
        assert key == key[..i] + "." + key[i + 1..];
        Ok((key[..i], key[i + 1..]))
  }

  /** Splitting a joined key gives back its prefix and remainder. */
  lemma RouteJoin(children: map<string, MemView>, p: string, k: string)
    requires '.' !in p && p in children
    ensures Route(children, Join(p, k)) == Ok((p, k))
  {
    var key := Join(p, k);
    FirstDotJoin(p, k);
    assert key[..|p|] == p;
    assert key[|p| + 1..] == k;
  }

  lemma FirstDotJoin(p: string, k: string)
    requires '.' !in p
    ensures FirstDot(Join(p, k)) == Some(|p|)
  {
    var key := Join(p, k);
    var r := FirstDot(key);
    assert key[|p|] == '.';
    assert key[..|p|] == p;
  }

  /** Two keys that route to the same child key are the same key. */
  lemma RouteInjective(children: map<string, MemView>, a: string, b: string)
    requires Route(children, a).Ok? && Route(children, b).Ok?
    requires Route(children, a).value == Route(children, b).value
    ensures a == b
  {
  }

  /** Replacing a registered child's view routes every key as before. */
  lemma RouteReplaced(children: map<string, MemView>, p: string, c: MemView, key: string)
    requires p in children
    ensures Route(children[p := c], key) == Route(children, key)
  {
  }

  /** `$prefix . '.' . $key` for each key of one child, in order. */
  function Prefixed(p: string, ks: seq<string>): (r: seq<string>)
    ensures |r| == |ks|
    ensures forall i :: 0 <= i < |ks| ==> r[i] == Join(p, ks[i])
  {
    if ks == [] then [] else [Join(p, ks[0])] + Prefixed(p, ks[1..])
  }

  /** The keys of a compound: each child's keys behind its prefix, children in registration order. */
  function CompoundKeys(prefixes: seq<string>, children: map<string, MemView>): seq<string>
    requires forall p :: p in prefixes ==> p in children
  {
    if prefixes == [] then []
    else Prefixed(prefixes[0], children[prefixes[0]].keys) + CompoundKeys(prefixes[1..], children)
  }

  /** A key is listed by a compound exactly when some registered child lists its remainder. */
  lemma {:induction false} CompoundKeysMembership(prefixes: seq<string>, children: map<string, MemView>, key: string)
    requires forall p :: p in prefixes ==> p in children
    ensures key in CompoundKeys(prefixes, children) <==>
      exists p, k :: p in prefixes && k in children[p].keys && key == Join(p, k)
  {
    if prefixes != [] {
      CompoundKeysMembership(prefixes[1..], children, key);
      var p0 := prefixes[0];
      var ks := children[p0].keys;
      if key in Prefixed(p0, ks) {
        var i :| 0 <= i < |ks| && Prefixed(p0, ks)[i] == key;
        assert p0 in prefixes && ks[i] in children[p0].keys && key == Join(p0, ks[i]);
      }
      if exists p, k :: p in prefixes && k in children[p].keys && key == Join(p, k) {
        var p, k :| p in prefixes && k in children[p].keys && key == Join(p, k);
        if p == p0 {
          var i :| 0 <= i < |ks| && ks[i] == k;
          assert Prefixed(p0, ks)[i] == key;
        } else {
          assert p in prefixes[1..];
        }
      }
    }
  }

  /** The runtime dictionary the copy job works on, as a value. */
  datatype DictView =
    | MemoryView(m: MemView)
    | CompoundView(prefixes: seq<string>, children: map<string, MemView>)
  {
    ghost predicate Valid() {
      match this
      case MemoryView(m) => m.Valid()
      case CompoundView(prefixes, children) =>
        && Distinct(prefixes)
        && (forall p :: p in prefixes <==> p in children)
        && forall p :: p in children ==> children[p].Valid()
    }
  }

  /** `keys()`: what iterating the dictionary yields. */
  function Keys(v: DictView): seq<string>
    requires v.Valid()
  {
    match v
    case MemoryView(m) => m.keys
    case CompoundView(prefixes, children) => CompoundKeys(prefixes, children)
  }

  /** `has($key)`: a compound fails on a key it cannot route. */
  function Has(v: DictView, key: string): (r: Result<bool>)
  {
    match v
    case MemoryView(m) => Ok(key in m.texts)
    case CompoundView(_, children) =>
      var route :- Route(children, key);
      Ok(route.1 in children[route.0].texts)
  }

  /** `get($key)` and `getWritable($key)`: the texts under a key. */
  function Get(v: DictView, key: string): (r: Result<Text>)
  {
    match v
    case MemoryView(m) => MemGet(m, key)
    case CompoundView(_, children) =>
      var route :- Route(children, key);
      MemGet(children[route.0], route.1)
  }

  /** `add($key)`: a blank value under a new key. */
  function Add(v: DictView, key: string): (r: Result<DictView>)
  {
    match v
    case MemoryView(m) =>
      var m' :- MemAdd(m, key);
      Ok(MemoryView(m'))
    case CompoundView(prefixes, children) =>
      var route :- Route(children, key);
      var child :- MemAdd(children[route.0], route.1);
      Ok(CompoundView(prefixes, children[route.0 := child]))
  }

  /** `remove($key)`. */
  function Remove(v: DictView, key: string): (r: Result<DictView>)
  {
    match v
    case MemoryView(m) =>
      var m' :- MemRemove(m, key);
      Ok(MemoryView(m'))
    case CompoundView(prefixes, children) =>
      var route :- Route(children, key);
      var child :- MemRemove(children[route.0], route.1);
      Ok(CompoundView(prefixes, children[route.0 := child]))
  }

  /** Writing the texts of an existing key through its writable value. */
  function Update(v: DictView, key: string, t: Text): (r: DictView)
    requires Get(v, key).Ok?
  {
    match v
    case MemoryView(m) => MemoryView(MemView(m.keys, m.texts[key := t]))
    case CompoundView(prefixes, children) =>
      var route := Route(children, key).value;
      var child := children[route.0];
      CompoundView(prefixes, children[route.0 := MemView(child.keys, child.texts[route.1 := t])])
  }

  /** The registered children and their order; what no key operation changes. */
  predicate SameShape(a: DictView, b: DictView) {
    match a
    case MemoryView(_) => b.MemoryView?
    case CompoundView(prefixes, children) =>
      b.CompoundView? && b.prefixes == prefixes && b.children.Keys == children.Keys
  }

  /** `has` and `get` agree: a key is present exactly when it can be read, and fail alike otherwise. */
  lemma HasAgreesWithGet(v: DictView, key: string)
    ensures Has(v, key) == Ok(true) <==> Get(v, key).Ok?
    ensures Has(v, key).Err? <==> v.CompoundView? && Route(v.children, key).Err?
    ensures Has(v, key).Err? ==> Has(v, key).error == Get(v, key).error
  {
  }

  /** After `add`, the key is present with blank texts; nothing else changes. */
  lemma AddThenGet(v: DictView, key: string, other: string)
    requires v.Valid() && Add(v, key).Ok?
    ensures Add(v, key).value.Valid() && SameShape(v, Add(v, key).value)
    ensures Has(v, key) == Ok(false)
    ensures Get(Add(v, key).value, key) == Ok(Blank)
    ensures other != key ==> Get(Add(v, key).value, other) == Get(v, other)
    ensures other != key ==> Has(Add(v, key).value, other) == Has(v, other)
  {
    match v
    case MemoryView(_) =>
    case CompoundView(_, children) =>
      var route := Route(children, key).value;
      var after := Add(v, key).value;
      RouteReplaced(children, route.0, after.children[route.0], other);
      if other != key && Route(children, other).Ok? && Route(children, other).value.0 == route.0 {
        assert Route(children, other).value.1 != route.1;
      }
  }

  /** `add` fails exactly when `has` fails or says the key is present. */
  lemma AddFailsWhenPresent(v: DictView, key: string)
    ensures Add(v, key).Ok? <==> Has(v, key) == Ok(false)
    ensures Has(v, key) == Ok(true) ==>
      Add(v, key) == Err(TranslationAlreadyContained(if v.MemoryView? then key else Route(v.children, key).value.1))
    ensures Has(v, key).Err? ==> Add(v, key) == Err(Has(v, key).error)
  {
  }

  /** After `remove`, the key is gone; nothing else changes. */
  lemma RemoveThenGet(v: DictView, key: string, other: string)
    requires v.Valid() && Remove(v, key).Ok?
    ensures Remove(v, key).value.Valid() && SameShape(v, Remove(v, key).value)
    ensures Has(v, key) == Ok(true)
    ensures Get(Remove(v, key).value, key).Err?
    ensures other != key ==> Get(Remove(v, key).value, other) == Get(v, other)
    ensures other != key ==> Has(Remove(v, key).value, other) == Has(v, other)
  {
    match v
    case MemoryView(_) =>
    case CompoundView(_, children) =>
      var route := Route(children, key).value;
      var after := Remove(v, key).value;
      RouteReplaced(children, route.0, after.children[route.0], other);
      if other != key && Route(children, other).Ok? && Route(children, other).value.0 == route.0 {
        assert Route(children, other).value.1 != route.1;
      }
  }

  /** A write through a writable value changes the texts of that key only. */
  lemma UpdateThenGet(v: DictView, key: string, t: Text, other: string)
    requires v.Valid() && Get(v, key).Ok?
    ensures Update(v, key, t).Valid() && SameShape(v, Update(v, key, t))
    ensures Get(Update(v, key, t), key) == Ok(t)
    ensures other != key ==> Get(Update(v, key, t), other) == Get(v, other)
    ensures Has(Update(v, key, t), other) == Has(v, other)
  {
    match v
    case MemoryView(_) =>
    case CompoundView(_, children) =>
      var route := Route(children, key).value;
      var after := Ok(Update(v, key, t)).value;
      RouteReplaced(children, route.0, after.children[route.0], other);
      if other != key && Route(children, other).Ok? && Route(children, other).value.0 == route.0 {
        assert Route(children, other).value.1 != route.1;
      }
  }

  /** Writing back the texts a key already has changes nothing. */
  lemma UpdateSame(v: DictView, key: string)
    requires Get(v, key).Ok?
    ensures Update(v, key, Get(v, key).value) == v
  {
    match v
    case MemoryView(m) =>
      assert m.texts[key := m.texts[key]] == m.texts;
    case CompoundView(prefixes, children) =>
      var route := Route(children, key).value;
      var child := children[route.0];
      assert child.texts[route.1 := child.texts[route.1]] == child.texts;
      assert children[route.0 := child] == children;
  }

  /**
   * No prefix of a compound holds a '.': every key `keys()` lists routes
   * back to the child that lists it. `addDictionary` does not check this.
   */
  predicate Routable(v: DictView) {
    v.CompoundView? ==> forall p :: p in v.prefixes ==> '.' !in p
  }

  /** Every key a compound lists can be read back when no prefix holds a '.'. */
  lemma ListedKeysArePresent(v: DictView, key: string)
    requires v.Valid() && key in Keys(v) && Routable(v)
    ensures Has(v, key) == Ok(true)
  {
    if v.CompoundView? {
      CompoundKeysMembership(v.prefixes, v.children, key);
      var p, k :| p in v.prefixes && k in v.children[p].keys && key == Join(p, k);
      RouteJoin(v.children, p, k);
    }
  }

  /** `add` on a compound is `add` of the routed child's key on that child. */
  lemma AddRouted(v: DictView, key: string, p: string, rest: string)
    requires v.CompoundView? && Route(v.children, key) == Ok((p, rest))
    ensures MemAdd(v.children[p], rest).Err? ==> Add(v, key) == Err(MemAdd(v.children[p], rest).error)
    ensures MemAdd(v.children[p], rest).Ok? ==>
      Add(v, key) == Ok(CompoundView(v.prefixes, v.children[p := MemAdd(v.children[p], rest).value]))
  {
  }

  /** `remove` on a compound is `remove` of the routed child's key on that child. */
  lemma RemoveRouted(v: DictView, key: string, p: string, rest: string)
    requires v.CompoundView? && Route(v.children, key) == Ok((p, rest))
    ensures MemRemove(v.children[p], rest).Err? ==> Remove(v, key) == Err(MemRemove(v.children[p], rest).error)
    ensures MemRemove(v.children[p], rest).Ok? ==>
      Remove(v, key) == Ok(CompoundView(v.prefixes, v.children[p := MemRemove(v.children[p], rest).value]))
  {
  }

  /** Dropping a key from two joined sequences drops it from each. */
  lemma {:induction false} WithoutConcat(a: seq<string>, b: seq<string>, x: string)
    ensures Without(a + b, x) == Without(a, x) + Without(b, x)
  {
    if a != [] {
      assert (a + b)[1..] == a[1..] + b;
      WithoutConcat(a[1..], b, x);
    } else {
      assert a + b == b;
    }
  }

  /** Two keys behind the same prefix are equal exactly when their remainders are. */
  lemma JoinCancel(p: string, a: string, b: string)
    ensures Join(p, a) == Join(p, b) <==> a == b
  {
    if Join(p, a) == Join(p, b) {
      assert Join(p, a)[|p| + 1..] == a;
      assert Join(p, b)[|p| + 1..] == b;
    }
  }

  /** Keys behind two different prefixes without a '.' differ. */
  lemma JoinApart(p: string, q: string, a: string, b: string)
    requires '.' !in p && '.' !in q && p != q
    ensures Join(p, a) != Join(q, b)
  {
    FirstDotJoin(p, a);
    FirstDotJoin(q, b);
    assert Join(p, a)[..|p|] == p;
    assert Join(q, b)[..|q|] == q;
  }

  /** Removing a remainder from a child's keys removes the joined key from its prefixed keys. */
  lemma {:induction false} PrefixedWithout(p: string, ks: seq<string>, rest: string)
    ensures Prefixed(p, Without(ks, rest)) == Without(Prefixed(p, ks), Join(p, rest))
  {
    if ks != [] {
      PrefixedWithout(p, ks[1..], rest);
      JoinCancel(p, ks[0], rest);
    }
  }

  /** The keys behind another dot-free prefix do not include the joined key. */
  lemma PrefixedApart(q: string, ks: seq<string>, p: string, rest: string)
    requires '.' !in p && '.' !in q && p != q
    ensures Without(Prefixed(q, ks), Join(p, rest)) == Prefixed(q, ks)
  {
    forall i | 0 <= i < |ks| ensures Prefixed(q, ks)[i] != Join(p, rest) {
      JoinApart(q, p, ks[i], rest);
    }
    WithoutAbsent(Prefixed(q, ks), Join(p, rest));
  }

  /** Replacing a child by one without a remainder removes the joined key from the compound's keys. */
  lemma {:induction false} CompoundKeysWithout(prefixes: seq<string>, children: map<string, MemView>,
                                                p: string, rest: string, child: MemView)
    requires forall q :: q in prefixes ==> q in children && '.' !in q
    requires p in children && '.' !in p && child.keys == Without(children[p].keys, rest)
    ensures CompoundKeys(prefixes, children[p := child]) == Without(CompoundKeys(prefixes, children), Join(p, rest))
  {
    if prefixes != [] {
      var q := prefixes[0];
      CompoundKeysWithout(prefixes[1..], children, p, rest, child);
      WithoutConcat(Prefixed(q, children[q].keys), CompoundKeys(prefixes[1..], children), Join(p, rest));
      if q == p {
        PrefixedWithout(p, children[p].keys, rest);
      } else {
        PrefixedApart(q, children[q].keys, p, rest);
      }
    }
  }

  /** `remove` drops the key from `keys()` and keeps the others in order. */
  lemma KeysAfterRemove(v: DictView, key: string)
    requires v.Valid() && Routable(v) && Remove(v, key).Ok?
    ensures Remove(v, key).value.Valid() && Routable(Remove(v, key).value)
    ensures Keys(Remove(v, key).value) == Without(Keys(v), key)
  {
    RemoveThenGet(v, key, key);
    if v.CompoundView? {
      var route := Route(v.children, key).value;
      CompoundKeysWithout(v.prefixes, v.children, route.0, route.1, MemRemove(v.children[route.0], route.1).value);
    }
  }
}
