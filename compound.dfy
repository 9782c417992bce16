/**
 * Compound dictionaries: several dictionaries of the same language pair
 * joined under prefixes. A key `prefix.rest` is routed to the dictionary
 * registered under `prefix` (the text before the first '.'), which is asked
 * for `rest`. The values handed out wrap the child's value and report the
 * prefixed key.
 */
module Compound {

  import opened Errors
  import opened OrderedMaps
  import opened Views
  import opened Memory

  /** `Compound\TranslationValue`: a child's value seen under a prefix. */
  class TranslationValue {
    const prefix: string
    const delegate: MemoryTranslationValue

    constructor (prefix: string, delegate: MemoryTranslationValue)
      ensures this.prefix == prefix && this.delegate == delegate
    {
      this.prefix := prefix;
      this.delegate := delegate;
    }

    /** `getKey()`: the child's key behind the prefix. */
    function Key(): string {
      Join(prefix, delegate.key)
    }

    /** `getSource()` and `getTarget()`: the child's texts. */
    function Texts(): Text
      reads delegate
    {
      delegate.Texts()
    }

    predicate IsSourceEmpty()
      reads delegate
    {
      delegate.IsSourceEmpty()
    }

    predicate IsTargetEmpty()
      reads delegate
    {
      delegate.IsTargetEmpty()
    }
  }

  /** `Compound\WritableTranslationValue`: the writable variant; every write goes to the child's value. */
  class WritableTranslationValue {
    const prefix: string
    const delegate: MemoryTranslationValue

    constructor (prefix: string, delegate: MemoryTranslationValue)
      ensures this.prefix == prefix && this.delegate == delegate
    {
      this.prefix := prefix;
      this.delegate := delegate;
    }

    function Key(): string {
      Join(prefix, delegate.key)
    }

    function Texts(): Text
      reads delegate
    {
      delegate.Texts()
    }

    predicate IsSourceEmpty()
      reads delegate
    {
      delegate.IsSourceEmpty()
    }

    predicate IsTargetEmpty()
      reads delegate
    {
      delegate.IsTargetEmpty()
    }

    method SetSource(value: string) returns (self: WritableTranslationValue)
      modifies delegate
      ensures delegate.Texts() == Text(Some(value), old(delegate.target)) && self == this
    {
      var _ := delegate.SetSource(value);
      self := this;
    }

    method SetTarget(value: string) returns (self: WritableTranslationValue)
      modifies delegate
      ensures delegate.Texts() == Text(old(delegate.source), Some(value)) && self == this
    {
      var _ := delegate.SetTarget(value);
      self := this;
    }

    method ClearSource() returns (self: WritableTranslationValue)
      modifies delegate
      ensures delegate.Texts() == Text(None, old(delegate.target)) && self == this
    {
      var _ := delegate.ClearSource();
      self := this;
    }

    method ClearTarget() returns (self: WritableTranslationValue)
      modifies delegate
      ensures delegate.Texts() == Text(old(delegate.source), None) && self == this
    {
      var _ := delegate.ClearTarget();
      self := this;
    }
  }

  /**
   * `CompoundDictionary`, and with `writable` set `WritableCompoundDictionary`.
   * The children are memory dictionaries.
   */
  class CompoundDictionary {
    const sourceLanguage: string
    const targetLanguage: string
    const writable: bool
    /** The registration order of `$dictionaries`. */
    var prefixes: seq<string>
    var children: map<string, MemoryDictionary>
    /** This object, the children and their values. */
    ghost var Repr: set<object>

    /** Prefixes registered once each; every child is well formed and speaks the compound's languages. */
    ghost predicate Valid()
      reads this, Repr
    {
      && this in Repr
      && Distinct(prefixes)
      && (forall p :: p in prefixes <==> p in children)
      && forall p :: p in children ==>
           && children[p] in Repr
           && (forall v :: v in children[p].buffer.Values ==> v in Repr)
           && children[p].Valid()
           && children[p].sourceLanguage == sourceLanguage
           && children[p].targetLanguage == targetLanguage
    }

    /** No dictionary is registered under two prefixes. */
    ghost predicate Unshared()
      reads this
    {
      forall p, q :: p in children && q in children && p != q ==> children[p] != children[q]
    }

    ghost function View(): DictView
      requires Valid()
      reads this, Repr
    {
      CompoundView(prefixes, map p | p in children :: children[p].View())
    }

    /** The view lists the registered prefixes and each child's own view. */
    lemma ViewFacts()
      requires Valid()
      ensures View().Valid() && View().prefixes == prefixes && View().children.Keys == children.Keys
      ensures forall p :: p in children ==> View().children[p] == children[p].View()
    {
    }

    /** `new CompoundDictionary($source, $target)`: no children yet. */
    constructor (sourceLanguage: string, targetLanguage: string, writable: bool)
      ensures Valid() && Unshared() && prefixes == [] && children == map[]
      ensures this.sourceLanguage == sourceLanguage && this.targetLanguage == targetLanguage
      ensures this.writable == writable
      ensures fresh(Repr)
    {
      this.sourceLanguage := sourceLanguage;
      this.targetLanguage := targetLanguage;
      this.writable := writable;
      prefixes := [];
      children := map[];
      Repr := {this};
    }

    /**
     * `addDictionary($prefix, $dictionary)`: a taken prefix fails first, then
     * a different source language, then a different target language.
     */
    method AddDictionary(prefix: string, dictionary: MemoryDictionary) returns (r: Result<()>)
      requires Valid() && dictionary.Valid()
      modifies this
      ensures Valid()
      ensures r == AddDictionaryCheck(old(children.Keys), prefix, (sourceLanguage, targetLanguage), (dictionary.sourceLanguage, dictionary.targetLanguage))
      ensures r.Err? ==> unchanged(this)
      ensures r.Ok? ==> prefixes == old(prefixes) + [prefix] && children == old(children)[prefix := dictionary]
      ensures r.Ok? ==> Repr == old(Repr) + {dictionary} + dictionary.buffer.Values
      ensures old(Unshared()) && dictionary !in old(children.Values) ==> Unshared()
    {
      r := AddDictionaryCheck(children.Keys, prefix, (sourceLanguage, targetLanguage), (dictionary.sourceLanguage, dictionary.targetLanguage));
      if r.Err? {
        return;
      }
      assert prefix !in prefixes;
      DistinctSnoc(prefixes, prefix);
      prefixes := prefixes + [prefix];
      children := children[prefix := dictionary];
      Repr := Repr + {dictionary} + dictionary.buffer.Values;
    }

    /** `splitDictionaryRemainderAndPrefix($key)`: the child a key routes to and the child's key. */
    function Split(key: string): (r: Result<(MemoryDictionary, string, string)>)
      requires Valid()
      reads this, Repr
      ensures r.Ok? <==> Route(View().children, key).Ok?
      ensures r.Err? ==> r.error == Route(View().children, key).error
      ensures r.Ok? ==> (r.value.2, r.value.1) == Route(View().children, key).value
      ensures r.Ok? ==> r.value.2 in children && r.value.0 == children[r.value.2]
    {
      match FirstDot(key)
      case None => Err(InvalidArgument("Key " + Quote(key) + " has invalid format."))
      case Some(dot) =>
        var prefix := key[..dot];
        if prefix !in children then Err(TranslationNotFound(key))
        else Ok((children[prefix], key[dot + 1..], prefix))
    }

    /** `keys()`: each child's keys behind its prefix, children in registration order. */
    method Keys() returns (r: seq<string>)
      requires Valid()
      ensures r == Views.Keys(View())
    {
      ghost var all := map p | p in children :: children[p].View();
      var orders := map p | p in children :: children[p].order;
      r := ListKeys(prefixes, orders, all);
    }

    /** `has($key)`: asks the routed child; a key that cannot be routed fails. */
    method Has(key: string) returns (r: Result<bool>)
      requires Valid()
      ensures r == Views.Has(View(), key)
    {
      var split := Split(key);
      if split.Err? {
        return Err(split.error);
      }
      ViewFacts();
      var present := split.value.0.Has(split.value.1);
      r := Ok(present);
    }

    /** `get($key)`: the routed child's value, wrapped to report the full key. */
    method Get(key: string) returns (r: Result<TranslationValue>)
      requires Valid()
      ensures r.Ok? <==> Views.Get(View(), key).Ok?
      ensures r.Err? ==> r.error == Views.Get(View(), key).error
      ensures r.Ok? ==> fresh(r.value) && r.value.Key() == key
      ensures r.Ok? ==> r.value.Texts() == Views.Get(View(), key).value
    {
      var split := Split(key);
      if split.Err? {
        return Err(split.error);
      }
      ViewFacts();
      var child, remainder, prefix := split.value.0, split.value.1, split.value.2;
      var value := child.Get(remainder);
      if value.Err? {
        return Err(value.error);
      }
      var wrapped := new TranslationValue(prefix, value.value);
      r := Ok(wrapped);
    }

    /** `getWritable($key)` of the writable compound: the child's stored value, wrapped. */
    method GetWritable(key: string) returns (r: Result<WritableTranslationValue>)
      requires Valid() && writable
      ensures r.Ok? <==> Views.Get(View(), key).Ok?
      ensures r.Err? ==> r.error == Views.Get(View(), key).error
      ensures r.Ok? ==> fresh(r.value) && r.value.Key() == key
      ensures r.Ok? ==> r.value.Texts() == Views.Get(View(), key).value
      ensures r.Ok? ==> Stores(r.value.prefix, r.value.delegate) && r.value.delegate == CellOf(key)
    {
      var split := Split(key);
      if split.Err? {
        return Err(split.error);
      }
      ViewFacts();
      var child, remainder, prefix := split.value.0, split.value.1, split.value.2;
      var value := child.GetWritable(remainder);
      if value.Err? {
        return Err(value.error);
      }
      var wrapped := new WritableTranslationValue(prefix, value.value);
      r := Ok(wrapped);
    }

    /** The child under `prefix` stores `value` under the value's own key. */
    ghost predicate Stores(prefix: string, value: MemoryTranslationValue)
      reads this, Repr
    {
      && prefix in children
      && children[prefix] in Repr
      && value.key in children[prefix].buffer
      && children[prefix].buffer[value.key] == value
    }

    /** `add($key)` of the writable compound: the routed child adds the child key. */
    method Add(key: string) returns (r: Result<WritableTranslationValue>)
      requires Valid() && Unshared() && writable
      modifies Repr
      ensures Valid() && Unshared() && children == old(children) && prefixes == old(prefixes)
      ensures fresh(Repr - old(Repr))
      ensures r.Ok? <==> Views.Add(old(View()), key).Ok?
      ensures r.Err? ==> r.error == Views.Add(old(View()), key).error && View() == old(View())
      ensures r.Ok? ==> View() == Views.Add(old(View()), key).value
      ensures r.Ok? ==> fresh(r.value) && r.value.Key() == key
      ensures r.Ok? ==> Stores(r.value.prefix, r.value.delegate)
    {
      var split := Split(key);
      if split.Err? {
        return Err(split.error);
      }
      var child, remainder, prefix := split.value.0, split.value.1, split.value.2;
      ViewFacts();
      ghost var before := View();
      AddRouted(before, key, prefix, remainder);
      var value := AddToChild(child, prefix, remainder);
      if value.Err? {
        return Err(value.error);
      }
      label added:
      var wrapped := new WritableTranslationValue(prefix, value.value);
      Kept@added();
      r := Ok(wrapped);
    }

    /** The routed child adds `remainder`; the compound's view changes in that child only. */
    method AddToChild(child: MemoryDictionary, prefix: string, remainder: string)
      returns (r: Result<MemoryTranslationValue>)
      requires Valid() && Unshared() && prefix in children && children[prefix] == child
      modifies Repr
      ensures Valid() && Unshared() && children == old(children) && prefixes == old(prefixes)
      ensures fresh(Repr - old(Repr))
      ensures r.Ok? <==> MemAdd(old(child.View()), remainder).Ok?
      ensures r.Err? ==> r.error == MemAdd(old(child.View()), remainder).error
      ensures r.Err? ==> View() == old(View())
      ensures r.Ok? ==> View() == CompoundView(old(prefixes), old(View()).children[prefix := MemAdd(old(child.View()), remainder).value])
      ensures r.Ok? ==> fresh(r.value) && r.value.key == remainder && Stores(prefix, r.value)
    {
      ViewFacts();
      ghost var added := MemAdd(child.View(), remainder);
      r := child.Add(remainder);
      if r.Err? {
        assert r.error == added.error;
        Kept();
        return;
      }
      Repr := Repr + {r.value};
      assert fresh(Repr - old(Repr)) by {
        assert Repr - old(Repr) <= {r.value};
      }
      ChildGrew(prefix);
    }

    /**
     * The child under `prefix` kept every value it had and may have gained
     * some, all in the footprint; nothing else changed.
     */
    twostate lemma ChildGrew(prefix: string)
      requires old(Valid()) && old(Unshared()) && prefix in old(children)
      requires prefixes == old(prefixes) && children == old(children) && old(Repr) <= Repr
      requires forall o :: o in old(Repr) && o != this && o != children[prefix] ==> unchanged(o)
      requires children[prefix].Valid()
      requires forall k :: k in old(children[prefix].buffer) ==>
        k in children[prefix].buffer && children[prefix].buffer[k] == old(children[prefix].buffer[k])
      requires forall k :: k in children[prefix].buffer && k !in old(children[prefix].buffer) ==> children[prefix].buffer[k] in Repr
      ensures Valid() && Unshared()
      ensures View() == CompoundView(old(View()).prefixes, old(View()).children[prefix := children[prefix].View()])
    {
      var child := children[prefix];
      forall v | v in child.buffer.Values ensures v in Repr {
        var k :| k in child.buffer && child.buffer[k] == v;
        if k in old(child.buffer) {
          assert v in old(child.buffer.Values);
        }
      }
      forall p | p in children && p != prefix
        ensures unchanged(children[p]) && unchanged(children[p].buffer.Values)
      {
        assert children[p] != child;
        forall v | v in children[p].buffer.Values ensures v in old(Repr) {
        }
      }
      ChildChanged(prefix);
    }

    /** `remove($key)` of the writable compound: the routed child removes the child key. */
    method Remove(key: string) returns (r: Result<()>)
      requires Valid() && Unshared() && writable
      modifies Repr
      ensures Valid() && Unshared() && children == old(children) && prefixes == old(prefixes)
      ensures Repr == old(Repr)
      ensures r.Ok? <==> Views.Remove(old(View()), key).Ok?
      ensures r.Err? ==> r.error == Views.Remove(old(View()), key).error && View() == old(View())
      ensures r.Ok? ==> View() == Views.Remove(old(View()), key).value
    {
      var split := Split(key);
      if split.Err? {
        return Err(split.error);
      }
      var child, remainder, prefix := split.value.0, split.value.1, split.value.2;
      ViewFacts();
      ghost var before := View();
      RemoveRouted(before, key, prefix, remainder);
      r := child.Remove(remainder);
      ChildChanged(prefix);
      if r.Err? {
        assert before.children[prefix := child.View()] == before.children;
      }
    }

    /**
     * Only the child under `prefix` changed, and stayed well formed: the
     * compound's view is the old one with that child's view replaced.
     */
    twostate lemma ChildChanged(prefix: string)
      requires old(Valid()) && old(Unshared())
      requires prefixes == old(prefixes) && children == old(children) && old(Repr) <= Repr && prefix in children
      requires forall p :: p in children && p != prefix ==> unchanged(children[p]) && unchanged(children[p].buffer.Values)
      requires children[prefix].Valid() && forall v :: v in children[prefix].buffer.Values ==> v in Repr
      ensures Valid() && Unshared()
      ensures View() == CompoundView(old(View()).prefixes, old(View()).children[prefix := children[prefix].View()])
    {
      forall p | p in children && p != prefix
        ensures children[p].View() == old(children[p].View())
      {
        OtherChildUnchanged(p);
      }
    }

    /** The child's value object that a routable, present key refers to. */
    ghost function CellOf(key: string): MemoryTranslationValue
      requires Valid() && Views.Get(View(), key).Ok?
      reads this, Repr
    {
      ViewFacts();
      var route := Route(View().children, key).value;
      children[route.0].buffer[route.1]
    }

    /**
     * A write through the value `getWritable($key)` wraps shows in the
     * compound under that key and nowhere else.
     */
    twostate lemma WrittenThrough(key: string)
      requires old(Valid()) && old(Unshared()) && old(Views.Get(View(), key).Ok?)
      requires unchanged(this)
      requires forall o :: o in old(Repr) && o != old(CellOf(key)) ==> unchanged(o)
      ensures Valid() && Unshared()
      ensures View() == Views.Update(old(View()), key, old(CellOf(key)).Texts())
    {
      ghost var route := Route(old(View()).children, key).value;
      ghost var p, rest := route.0, route.1;
      ghost var child := children[p];
      ghost var cell := old(CellOf(key));
      assert cell == child.buffer[rest];
      forall k | k in child.buffer && k != rest
        ensures unchanged(child.buffer[k])
      {
        assert child.buffer[k] in old(Repr) && child.buffer[k].key != cell.key;
      }
      child.WrittenThrough(rest);
      ChildChanged(p);
    }

    /** Nothing the view reads has changed. */
    twostate lemma Kept()
      requires old(Valid()) && unchanged(this) && unchanged(Repr)
      ensures Valid() && View() == old(View())
    {
    }

    twostate lemma OtherChildUnchanged(p: string)
      requires old(Valid()) && children == old(children) && p in children
      requires unchanged(children[p]) && unchanged(children[p].buffer.Values)
      ensures children[p].View() == old(children[p].View())
    {
    }
  }

  /** The checks of `addDictionary`, in the order it makes them. */
  function AddDictionaryCheck(taken: set<string>, prefix: string, expected: (string, string), got: (string, string)): (r: Result<()>)
    ensures r.Ok? <==> prefix !in taken && got == expected
    ensures prefix in taken ==> r == Err(Runtime("A dictionary with prefix " + Quote(prefix) + " has already been added."))
    ensures prefix !in taken && got.0 != expected.0 ==> r.error.NotSupported?
    ensures prefix !in taken && got.0 == expected.0 && got.1 != expected.1 ==> r.error.NotSupported?
  {
    if prefix in taken then
      Err(Runtime("A dictionary with prefix " + Quote(prefix) + " has already been added."))
    else if got.0 != expected.0 then
      Err(NotSupported("Languages can not be mixed in compounds, expected source " + Quote(expected.0) + " but got " + Quote(got.0)))
    else if got.1 != expected.1 then
      Err(NotSupported("Languages can not be mixed in compounds, expected target " + Quote(expected.1) + " but got " + Quote(got.1)))
    else Ok(())
  }

  /**
   * The loops of `keys()`: for each prefix in order, each key of that child
   * (`orders[p]`, the child's own `keys()`) behind the prefix.
   */
  method ListKeys(ps: seq<string>, orders: map<string, seq<string>>, ghost all: map<string, MemView>) returns (r: seq<string>)
    requires forall p :: p in ps ==> p in orders && p in all && orders[p] == all[p].keys
    ensures r == CompoundKeys(ps, all)
  {
    r := [];
    var i := 0;
    while i < |ps|
      invariant 0 <= i <= |ps|
      invariant r == CompoundKeys(ps[..i], all)
    {
      var p := ps[i];
      var ks := orders[p];
      CompoundKeysSnoc(ps[..i], p, all);
      assert ps[..i + 1] == ps[..i] + [p];
      ghost var done := r;
      var j := 0;
      while j < |ks|
        invariant 0 <= j <= |ks|
        invariant r == done + Prefixed(p, ks[..j])
      {
        PrefixedTake(p, ks, j);
        r := r + [Join(p, ks[j])];
        j := j + 1;
      }
      assert ks[..j] == ks;
      i := i + 1;
    }
    assert ps[..i] == ps;
  }

  /** Registering one more prefix appends that child's prefixed keys. */
  lemma {:induction false} CompoundKeysSnoc(ps: seq<string>, p: string, all: map<string, MemView>)
    requires p in all && forall q :: q in ps ==> q in all
    ensures CompoundKeys(ps + [p], all) == CompoundKeys(ps, all) + Prefixed(p, all[p].keys)
  {
    if ps != [] {
      assert (ps + [p])[1..] == ps[1..] + [p];
      CompoundKeysSnoc(ps[1..], p, all);
    }
  }

  /** One more key of a child lists one more prefixed key. */
  lemma PrefixedTake(p: string, ks: seq<string>, j: int)
    requires 0 <= j < |ks|
    ensures Prefixed(p, ks[..j + 1]) == Prefixed(p, ks[..j]) + [Join(p, ks[j])]
  {
    var a, b := Prefixed(p, ks[..j + 1]), Prefixed(p, ks[..j]) + [Join(p, ks[j])];
    assert |a| == |b|;
    forall i | 0 <= i < |a| ensures a[i] == b[i] {
      if i < j { assert ks[..j + 1][i] == ks[..j][i]; }
    }
  }
}
