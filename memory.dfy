/**
 * The in-memory dictionary and its translation values.
 *
 * A `MemoryDictionary` keeps its values in an insertion-ordered buffer;
 * `getWritable` hands out the stored value object itself, so writes through
 * it change the dictionary. Each value records (as ghost state) the
 * dictionary that stores it, which keeps the values of two dictionaries
 * apart.
 */
module Memory {

  import opened Errors
  import opened OrderedMaps
  import opened Views

  class MemoryTranslationValue {
    const key: string
    var source: Option<string>
    var target: Option<string>
    /** The dictionary whose buffer holds this value. */
    ghost const owner: MemoryDictionary?

    constructor (key: string, source: Option<string>, target: Option<string>, ghost owner: MemoryDictionary?)
      ensures this.key == key && this.source == source && this.target == target
      ensures this.owner == owner
    {
      this.key := key;
      this.source := source;
      this.target := target;
      this.owner := owner;
    }

    /** Both texts as one value. */
    function Texts(): Text
      reads this
    {
      Text(source, target)
    }

    /** `isSourceEmpty()`. */
    predicate IsSourceEmpty()
      reads this
    {
      IsEmptyText(source)
    }

    /** `isTargetEmpty()`. */
    predicate IsTargetEmpty()
      reads this
    {
      IsEmptyText(target)
    }

    method SetSource(value: string) returns (self: MemoryTranslationValue)
      modifies this
      ensures source == Some(value) && target == old(target) && self == this
    {
      source := Some(value);
      self := this;
    }

    method SetTarget(value: string) returns (self: MemoryTranslationValue)
      modifies this
      ensures target == Some(value) && source == old(source) && self == this
    {
      target := Some(value);
      self := this;
    }

    method ClearSource() returns (self: MemoryTranslationValue)
      modifies this
      ensures source == None && target == old(target) && self == this
    {
      source := None;
      self := this;
    }

    method ClearTarget() returns (self: MemoryTranslationValue)
      modifies this
      ensures target == None && source == old(source) && self == this
    {
      target := None;
      self := this;
    }
  }

  /** A value built from only a key holds neither text, and both count as empty. */
  lemma NewValueIsEmpty()
    ensures Blank.source == None && Blank.target == None
    ensures IsEmptyText(Blank.source) && IsEmptyText(Blank.target)
  {
  }

  /** A value from the translation buffer of a constructor call: its 'source' and 'target' entries. */
  type Entry = map<string, Option<string>>

  predicate IsTranslationArray(e: Entry) {
    "source" in e && "target" in e
  }

  class MemoryDictionary {
    const sourceLanguage: string
    const targetLanguage: string
    /** `array_keys($translationBuffer)`. */
    var order: seq<string>
    var buffer: map<string, MemoryTranslationValue>

    /** The key order lists the buffer's keys once each; each value is stored under its own key and belongs here. */
    ghost predicate Valid()
      reads this
    {
      && Distinct(order)
      && (forall k :: k in order <==> k in buffer)
      && (forall k :: k in buffer ==> buffer[k].owner == this && buffer[k].key == k)
    }

    /** What the dictionary holds, as a value. */
    ghost function View(): MemView
      reads this, buffer.Values
    {
      MemView(order, map k | k in buffer :: buffer[k].Texts())
    }

    /** The start of `__construct`: the languages and an empty buffer. */
    constructor (sourceLanguage: string, targetLanguage: string)
      ensures Valid() && View() == MemView([], map[])
      ensures this.sourceLanguage == sourceLanguage && this.targetLanguage == targetLanguage
    {
      this.sourceLanguage := sourceLanguage;
      this.targetLanguage := targetLanguage;
      order := [];
      buffer := map[];
    }

    /**
     * `new MemoryDictionary($source, $target, $buffer)`: every entry of the
     * buffer becomes a value; an entry without 'source' or 'target' aborts
     * the construction.
     */
    static method Create(sourceLanguage: string, targetLanguage: string, items: OrderedMap<string, Entry>)
      returns (r: Result<MemoryDictionary>)
      requires items.Valid()
      ensures r.Ok? <==> forall k :: k in items.items ==> IsTranslationArray(items.items[k])
      ensures r.Err? ==> r.error == InvalidArgument("Invalid translation array: ")
      ensures r.Ok? ==> fresh(r.value) && r.value.Valid()
      ensures r.Ok? ==> r.value.sourceLanguage == sourceLanguage && r.value.targetLanguage == targetLanguage
      ensures r.Ok? ==> r.value.View() == MemView(items.keys, Loaded(items.items))
    {
      var d := new MemoryDictionary(sourceLanguage, targetLanguage);
      var loaded := d.AddItems(items);
      if loaded.Err? {
        return Err(loaded.error);
      }
      r := Ok(d);
    }

    /** The loop of `__construct`: `addItem` for each entry, in order, until one fails. */
    method AddItems(items: OrderedMap<string, Entry>) returns (r: Result<()>)
      requires Valid() && items.Valid() && View() == MemView([], map[])
      modifies this
      ensures Valid()
      ensures r.Ok? <==> forall k :: k in items.items ==> IsTranslationArray(items.items[k])
      ensures r.Err? ==> r.error == InvalidArgument("Invalid translation array: ")
      ensures r.Ok? ==> View() == MemView(items.keys, Loaded(items.items))
    {
      var i := 0;
      while i < |items.keys|
        invariant 0 <= i <= |items.keys|
        invariant Valid()
        invariant View().keys == items.keys[..i]
        invariant forall k :: k in View().texts ==> Stored(items.items, View().texts, k)
      {
        var added := LoadEntry(items, i);
        if added.Err? {
          return Err(added.error);
        }
        i := i + 1;
      }
      assert items.keys[..i] == items.keys;
      LoadedView(View(), items);
      r := Ok(());
    }

    /** One round of the constructor's loop: `addItem` for the entry at position `i`. */
    method LoadEntry(items: OrderedMap<string, Entry>, i: int) returns (r: Result<()>)
      requires Valid() && items.Valid() && 0 <= i < |items.keys|
      requires View().keys == items.keys[..i]
      requires forall k :: k in View().texts ==> Stored(items.items, View().texts, k)
      modifies this
      ensures Valid()
      ensures r.Ok? <==> IsTranslationArray(items.items[items.keys[i]])
      ensures r.Err? ==> r.error == InvalidArgument("Invalid translation array: ")
      ensures r.Ok? ==> View().keys == items.keys[..i + 1]
      ensures r.Ok? ==> forall k :: k in View().texts ==> Stored(items.items, View().texts, k)
    {
      var k := items.keys[i];
      assert k !in View().keys by {
        if k in items.keys[..i] {
          var j :| 0 <= j < i && items.keys[j] == k;
          DistinctIndices(items.keys, j, i);
        }
      }
      TakeSnoc(items.keys, i);
      r := AddItem(k, items.items[k]);
    }

    /**
     * `addItem($key, $values)`: store a value with the entry's texts, or fail
     * when either entry is missing.
     */
    method AddItem(key: string, entry: Entry) returns (r: Result<()>)
      requires Valid()
      modifies this
      ensures Valid()
      ensures r.Ok? <==> IsTranslationArray(entry)
      ensures r.Err? ==> r.error == InvalidArgument("Invalid translation array: ") && unchanged(this)
      ensures r.Ok? ==> View() == MemView(
        if key in old(View()).texts then old(View()).keys else old(View()).keys + [key],
        old(View()).texts[key := Text(entry["source"], entry["target"])])
    {
      if !("source" in entry && "target" in entry) {
        return Err(InvalidArgument("Invalid translation array: "));
      }
      var value := new MemoryTranslationValue(key, entry["source"], entry["target"], this);
      if key !in buffer {
        assert key !in order;
        DistinctSnoc(order, key);
        order := order + [key];
      }
      buffer := buffer[key := value];
      Replaced(value);
      r := Ok(());
    }

    /** `keys()`: a snapshot of the key order. */
    method Keys() returns (r: seq<string>)
      ensures r == View().keys
    {
      r := order;
    }

    /** `has($key)`. */
    method Has(key: string) returns (r: bool)
      requires Valid()
      ensures r <==> key in View().texts
    {
      r := key in buffer;
    }

    /** `getWritable($key)`: the stored value object itself. */
    method GetWritable(key: string) returns (r: Result<MemoryTranslationValue>)
      requires Valid()
      ensures r.Ok? <==> MemGet(View(), key).Ok?
      ensures r.Err? ==> r.error == MemGet(View(), key).error
      ensures r.Ok? ==> r.value == buffer[key] && r.value.owner == this && r.value.key == key
      ensures r.Ok? ==> r.value.Texts() == MemGet(View(), key).value
    {
      if key !in buffer {
        return Err(TranslationNotFound(key));
      }
      r := Ok(buffer[key]);
    }

    /** `get($key)`: the same object `getWritable` returns. */
    method Get(key: string) returns (r: Result<MemoryTranslationValue>)
      requires Valid()
      ensures r.Ok? <==> MemGet(View(), key).Ok?
      ensures r.Err? ==> r.error == MemGet(View(), key).error
      ensures r.Ok? ==> r.value == buffer[key] && r.value.owner == this && r.value.key == key
      ensures r.Ok? ==> r.value.Texts() == MemGet(View(), key).value
    {
      r := GetWritable(key);
    }

    /** `add($key)`: a new blank value at the end, returned for writing. */
    method Add(key: string) returns (r: Result<MemoryTranslationValue>)
      requires Valid()
      modifies this
      ensures Valid()
      ensures r.Ok? <==> MemAdd(old(View()), key).Ok?
      ensures r.Err? ==> r.error == MemAdd(old(View()), key).error && unchanged(this)
      ensures r.Ok? ==> View() == MemAdd(old(View()), key).value
      ensures r.Ok? ==> fresh(r.value) && buffer == old(buffer)[key := r.value]
      ensures r.Ok? ==> r.value.owner == this && r.value.key == key
    {
      if key in buffer {
        return Err(TranslationAlreadyContained(key));
      }
      var value := new MemoryTranslationValue(key, None, None, this);
      assert key !in order;
      DistinctSnoc(order, key);
      order := order + [key];
      buffer := buffer[key := value];
      Replaced(value);
      r := Ok(value);
    }

    /** `remove($key)`. */
    method Remove(key: string) returns (r: Result<()>)
      requires Valid()
      modifies this
      ensures Valid()
      ensures r.Ok? <==> MemRemove(old(View()), key).Ok?
      ensures r.Err? ==> r.error == MemRemove(old(View()), key).error && unchanged(this)
      ensures r.Ok? ==> View() == MemRemove(old(View()), key).value
      ensures r.Ok? ==> buffer == old(buffer) - {key}
    {
      if key !in buffer {
        return Err(TranslationNotFound(key));
      }
      order := Without(order, key);
      buffer := buffer - {key};
      Dropped(key);
      r := Ok(());
    }

    /**
     * The buffer gained or replaced the entry under `value.key` and no other
     * value changed: the view's texts gained that value's texts.
     */
    twostate lemma Replaced(new value: MemoryTranslationValue)
      requires value.key in buffer && buffer[value.key] == value
      requires forall k :: k in buffer && k != value.key ==> k in old(buffer) && buffer[k] == old(buffer[k]) && unchanged(buffer[k])
      requires buffer.Keys == old(buffer.Keys) + {value.key}
      ensures View().texts == old(View()).texts[value.key := value.Texts()]
    {
    }

    /** The buffer lost the entry under `key` and no value changed: so did the view's texts. */
    twostate lemma Dropped(key: string)
      requires forall k :: k in buffer ==> k in old(buffer) && buffer[k] == old(buffer[k]) && unchanged(buffer[k])
      requires buffer.Keys == old(buffer.Keys) - {key}
      ensures View().texts == old(View()).texts - {key}
    {
    }

    /**
     * A write through the value stored under `key` shows in the dictionary
     * under that key and nowhere else.
     */
    twostate lemma WrittenThrough(key: string)
      requires old(Valid()) && unchanged(this) && key in buffer
      requires forall k :: k in buffer && k != key ==> unchanged(buffer[k])
      ensures Valid()
      ensures View() == MemView(old(View()).keys, old(View()).texts[key := buffer[key].Texts()])
    {
    }
  }

  /** The constructor's loop has stored the entry under `k`, which is well formed, with its texts. */
  ghost predicate Stored(items: map<string, Entry>, texts: map<string, Text>, k: string)
    requires k in texts
  {
    k in items && IsTranslationArray(items[k]) && texts[k] == Loaded(items)[k]
  }

  /** After the constructor's loop every entry is well formed and the dictionary holds exactly their texts, in their order. */
  lemma LoadedView(v: MemView, items: OrderedMap<string, Entry>)
    requires v.Valid() && items.Valid() && v.keys == items.keys
    requires forall k :: k in v.texts ==> Stored(items.items, v.texts, k)
    ensures forall k :: k in items.items ==> IsTranslationArray(items.items[k])
    ensures v == MemView(items.keys, Loaded(items.items))
  {
    assert v.texts.Keys == Loaded(items.items).Keys;
  }

  /** The texts a constructor call stores for each entry. */
  ghost function Loaded(items: map<string, Entry>): map<string, Text> {
    map k | k in items :: Text(Field(items[k], "source"), Field(items[k], "target"))
  }

  /** An entry's text, or null when it is missing. */
  function Field(e: Entry, name: string): Option<string> {
    if name in e then e[name] else None
  }
}
