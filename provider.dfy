/**
 * MemoryDictionaryProvider: memory dictionaries registered by name.
 *
 * The registry is keyed by name alone, while a lookup asks for a name and
 * a language pair: a registered dictionary is found only when its languages
 * are the ones asked for.
 */
module MemoryProviders {

  import opened Errors
  import opened OrderedMaps
  import opened Memory
  import opened DictionaryInformations
  import opened Views

  type Registry = OrderedMap<string, MemoryDictionary>

  /** The dictionary registered as `name`, provided it speaks the two languages asked for. */
  function Registered(dictionaries: Registry, name: string, sourceLanguage: string, targetLanguage: string)
    : Option<MemoryDictionary>
  {
    if name in dictionaries.items
       && dictionaries.items[name].sourceLanguage == sourceLanguage
       && dictionaries.items[name].targetLanguage == targetLanguage
    then Some(dictionaries.items[name])
    else None
  }

  /** `createInformation()` for every registered dictionary, in registration order. */
  function Listing(dictionaries: Registry): (r: seq<DictionaryInformation>)
    requires dictionaries.Valid()
    ensures |r| == |dictionaries.keys|
    ensures forall i :: 0 <= i < |r| ==>
      var d := dictionaries.items[dictionaries.keys[i]];
      r[i] == DictionaryInformation(dictionaries.keys[i], d.sourceLanguage, d.targetLanguage)
  {
    seq(|dictionaries.keys|, i requires 0 <= i < |dictionaries.keys| =>
      var d := dictionaries.items[dictionaries.keys[i]];
      DictionaryInformation(dictionaries.keys[i], d.sourceLanguage, d.targetLanguage))
  }

  /**
   * Registering a dictionary under its name makes it the one found for that
   * name and its languages, hides whatever was registered under the name
   * before, and leaves every other name's lookup as it was.
   */
  lemma RegisterThenFind(dictionaries: Registry, d: MemoryDictionary, name: string, other: string, s: string, t: string)
    ensures Registered(dictionaries.Put(name, d), name, d.sourceLanguage, d.targetLanguage) == Some(d)
    ensures (s, t) != (d.sourceLanguage, d.targetLanguage) ==> Registered(dictionaries.Put(name, d), name, s, t) == None
    ensures other != name ==> Registered(dictionaries.Put(name, d), other, s, t) == Registered(dictionaries, other, s, t)
  {
  }

  /**
   * Registering keeps the listing's order: a new name is listed last, and a
   * name registered again keeps its place with the new dictionary's languages.
   */
  lemma {:induction false} RegisterListing(dictionaries: Registry, d: MemoryDictionary, name: string)
    requires dictionaries.Valid()
    ensures var info := DictionaryInformation(name, d.sourceLanguage, d.targetLanguage);
      && (name !in dictionaries.items ==> Listing(dictionaries.Put(name, d)) == Listing(dictionaries) + [info])
      && (name in dictionaries.items ==>
            exists i :: 0 <= i < |dictionaries.keys| && dictionaries.keys[i] == name &&
              Listing(dictionaries.Put(name, d)) == Listing(dictionaries)[i := info])
  {
    var after := dictionaries.Put(name, d);
    var info := DictionaryInformation(name, d.sourceLanguage, d.targetLanguage);
    if name !in dictionaries.items {
      assert Listing(after) == Listing(dictionaries) + [info] by {
        forall i | 0 <= i < |after.keys| ensures Listing(after)[i] == (Listing(dictionaries) + [info])[i] {
          if i < |dictionaries.keys| {
            assert after.keys[i] == dictionaries.keys[i] != name;
          }
        }
      }
    } else {
      var i :| 0 <= i < |dictionaries.keys| && dictionaries.keys[i] == name;
      forall j | 0 <= j < |after.keys| ensures Listing(after)[j] == Listing(dictionaries)[i := info][j] {
        if j != i {
          DistinctIndices(dictionaries.keys, i, j);
        }
      }
    }
  }

  class MemoryDictionaryProvider {
    /** `$dictionaries`: the dictionaries by name, in registration order. */
    var dictionaries: Registry

    /** The registry is well formed and every registered dictionary is. */
    ghost predicate Valid()
      reads this, dictionaries.items.Values
    {
      && dictionaries.Valid()
      && forall d :: d in dictionaries.items.Values ==> d.Valid()
    }

    /** `new MemoryDictionaryProvider()`: nothing registered, both listings empty. */
    constructor ()
      ensures Valid() && dictionaries.keys == [] && dictionaries.items == map[]
      ensures Listing(dictionaries) == []
    {
      dictionaries := Empty();
    }

    /** `getAvailableDictionaries()`: the information of each registered dictionary, in registration order. */
    method AvailableDictionaries() returns (r: seq<DictionaryInformation>)
      requires Valid()
      ensures r == Listing(dictionaries)
    {
      r := [];
      var i := 0;
      while i < |dictionaries.keys|
        invariant 0 <= i <= |dictionaries.keys|
        invariant r == Listing(dictionaries)[..i]
      {
        var name := dictionaries.keys[i];
        var dictionary := dictionaries.items[name];
        r := r + [DictionaryInformation(name, dictionary.sourceLanguage, dictionary.targetLanguage)];
        i := i + 1;
      }
    }

    /** `getAvailableWritableDictionaries()`: the same listing; every memory dictionary is writable. */
    method AvailableWritableDictionaries() returns (r: seq<DictionaryInformation>)
      requires Valid()
      ensures |r| == |dictionaries.keys|
      ensures forall i :: 0 <= i < |r| ==> r[i].name == dictionaries.keys[i]
      ensures r == Listing(dictionaries)
    {
      r := AvailableDictionaries();
    }

    /**
     * The search loop of the three lookups: the first registered dictionary
     * whose name and languages are the ones asked for.
     */
    method Find(name: string, sourceLanguage: string, targetLanguage: string) returns (r: Option<MemoryDictionary>)
      requires Valid()
      ensures r == Registered(dictionaries, name, sourceLanguage, targetLanguage)
    {
      var i := 0;
      while i < |dictionaries.keys|
        invariant 0 <= i <= |dictionaries.keys|
        invariant forall j :: 0 <= j < i && dictionaries.keys[j] == name ==>
          Registered(dictionaries, name, sourceLanguage, targetLanguage).None?
      {
        var dictionaryName := dictionaries.keys[i];
        var dictionary := dictionaries.items[dictionaryName];
        if dictionaryName == name && sourceLanguage == dictionary.sourceLanguage && targetLanguage == dictionary.targetLanguage {
          return Some(dictionary);
        }
        i := i + 1;
      }
      r := None;
    }

    /**
     * `getDictionary($name, $source, $target)`: the registered instance
     * itself when name and languages match, DictionaryNotFound otherwise.
     */
    method GetDictionary(name: string, sourceLanguage: string, targetLanguage: string) returns (r: Result<MemoryDictionary>)
      requires Valid()
      ensures r.Ok? <==> Registered(dictionaries, name, sourceLanguage, targetLanguage).Some?
      ensures r.Ok? ==> r.value == dictionaries.items[name] && r.value.Valid()
      ensures r.Err? ==> r.error == DictionaryNotFound(name, sourceLanguage, targetLanguage)
    {
      var found := Find(name, sourceLanguage, targetLanguage);
      if found.None? {
        return Err(DictionaryNotFound(name, sourceLanguage, targetLanguage));
      }
      r := Ok(found.value);
    }

    /** `getDictionaryForWrite(...)`: the same lookup as `getDictionary`. */
    method GetDictionaryForWrite(name: string, sourceLanguage: string, targetLanguage: string)
      returns (r: Result<MemoryDictionary>)
      requires Valid()
      ensures r.Ok? <==> Registered(dictionaries, name, sourceLanguage, targetLanguage).Some?
      ensures r.Ok? ==> r.value == dictionaries.items[name] && r.value.Valid()
      ensures r.Err? ==> r.error == DictionaryNotFound(name, sourceLanguage, targetLanguage)
    {
      r := GetDictionary(name, sourceLanguage, targetLanguage);
    }

    /**
     * `createDictionary($name, $source, $target)`: "already exists" when a
     * dictionary of that name and those languages is registered; otherwise
     * a new empty dictionary is registered under the name, replacing one of
     * the same name with other languages in its place.
     */
    method CreateDictionary(name: string, sourceLanguage: string, targetLanguage: string)
      returns (r: Result<MemoryDictionary>)
      requires Valid()
      modifies this
      ensures Valid()
      ensures r.Err? <==> old(Registered(dictionaries, name, sourceLanguage, targetLanguage)).Some?
      ensures r.Err? ==> r.error == InvalidArgument("Dictionary " + name + " already exists.") && dictionaries == old(dictionaries)
      ensures r.Ok? ==> && fresh(r.value) && r.value.Valid() && r.value.View() == MemView([], map[])
                        && r.value.sourceLanguage == sourceLanguage && r.value.targetLanguage == targetLanguage
                        && dictionaries == old(dictionaries).Put(name, r.value)
    {
      var found := Find(name, sourceLanguage, targetLanguage);
      if found.Some? {
        return Err(InvalidArgument("Dictionary " + name + " already exists."));
      }
      var dictionary := new MemoryDictionary(sourceLanguage, targetLanguage);
      dictionaries := dictionaries.Put(name, dictionary);
      r := Ok(dictionary);
    }
  }
}
