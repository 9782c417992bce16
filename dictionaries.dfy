/**
 * The dictionaries the copy job reads from and writes to.
 *
 * `DictionaryInterface` and `WritableDictionaryInterface` are implemented by
 * the memory dictionary and by the (writable) compound dictionary. A `Dict`
 * is one of the two; each operation dispatches to the class and is stated
 * against the view functions of `Views`.
 */
module Dictionaries {

  import opened Errors
  import opened Views
  import opened Memory
  import opened Compound

  datatype Dict = MemoryDict(memory: MemoryDictionary) | CompoundDict(compound: CompoundDictionary)
  {
    /** The dictionary object itself. */
    function Top(): object {
      if MemoryDict? then memory else compound
    }
  }

  /** Every object whose state the dictionary's contents depend on. */
  ghost function Footprint(d: Dict): set<object>
    reads d.Top()
  {
    match d
    case MemoryDict(m) => {m} + m.buffer.Values
    case CompoundDict(c) => c.Repr
  }

  ghost predicate Valid(d: Dict)
    reads d.Top(), Footprint(d)
  {
    match d
    case MemoryDict(m) => m.Valid()
    case CompoundDict(c) => c.Valid() && c.Unshared()
  }

  ghost function View(d: Dict): DictView
    requires Valid(d)
    reads d.Top(), Footprint(d)
  {
    match d
    case MemoryDict(m) => MemoryView(m.View())
    case CompoundDict(c) => c.View()
  }

  /** A well-formed dictionary has a well-formed view, and its object belongs to its footprint. */
  lemma ViewValid(d: Dict)
    requires Valid(d)
    ensures View(d).Valid() && d.Top() in Footprint(d)
  {
    if d.CompoundDict? {
      d.compound.ViewFacts();
    }
  }

  /** `WritableDictionaryInterface`: every memory dictionary, and the writable compound. */
  predicate Writable(d: Dict) {
    d.MemoryDict? || d.compound.writable
  }

  /** `getWritable` of a memory dictionary hands out the stored value, the compound a wrapper around it. */
  datatype WritableValue =
    | MemoryValue(value: MemoryTranslationValue)
    | CompoundValue(wrapper: WritableTranslationValue)

  /** The memory value every write through `w` reaches. */
  function Cell(w: WritableValue): MemoryTranslationValue {
    match w
    case MemoryValue(v) => v
    case CompoundValue(v) => v.delegate
  }

  /** The stored value object a present key refers to. */
  ghost function CellOf(d: Dict, key: string): MemoryTranslationValue
    requires Valid(d) && Views.Get(View(d), key).Ok?
    reads d.Top(), Footprint(d)
  {
    match d
    case MemoryDict(m) => m.buffer[key]
    case CompoundDict(c) => c.CellOf(key)
  }

  lemma CellInFootprint(d: Dict, key: string)
    requires Valid(d) && Views.Get(View(d), key).Ok?
    ensures CellOf(d, key) in Footprint(d)
    ensures CellOf(d, key).Texts() == Views.Get(View(d), key).value
  {
    if d.CompoundDict? {
      d.compound.ViewFacts();
    }
  }

  /** `keys()`: the dictionary and its objects stay as they were. */
  method Keys(d: Dict, ghost v: DictView) returns (r: seq<string>)
    requires Valid(d) && View(d) == v
    ensures Valid(d) && View(d) == v && Footprint(d) == old(Footprint(d))
    ensures v.Valid() && r == Views.Keys(v)
  {
    ViewValid(d);
    match d
    case MemoryDict(m) => r := m.Keys();
    case CompoundDict(c) => r := c.Keys();
  }

  /** `has($key)`. */
  method Has(d: Dict, key: string, ghost v: DictView) returns (r: Result<bool>)
    requires Valid(d) && View(d) == v
    ensures Valid(d) && View(d) == v && Footprint(d) == old(Footprint(d))
    ensures r == Views.Has(v, key)
  {
    match d
    case MemoryDict(m) =>
      var b := m.Has(key);
      r := Ok(b);
    case CompoundDict(c) =>
      r := c.Has(key);
  }

  /** `get($key)`, read out as the value's two texts. */
  method Get(d: Dict, key: string, ghost v: DictView) returns (r: Result<Text>)
    requires Valid(d) && View(d) == v
    ensures Valid(d) && View(d) == v && Footprint(d) == old(Footprint(d))
    ensures r == Views.Get(v, key)
  {
    match d
    case MemoryDict(m) =>
      var got := m.Get(key);
      if got.Err? {
        return Err(got.error);
      }
      r := Ok(got.value.Texts());
    case CompoundDict(c) =>
      var got := c.Get(key);
      if got.Err? {
        return Err(got.error);
      }
      r := Ok(got.value.Texts());
  }

  /** `getWritable($key)`: a handle on the stored value. */
  method GetWritable(d: Dict, key: string, ghost v: DictView) returns (r: Result<WritableValue>)
    requires Valid(d) && Writable(d) && View(d) == v
    ensures Valid(d) && View(d) == v && Footprint(d) == old(Footprint(d))
    ensures r.Ok? <==> Views.Get(v, key).Ok?
    ensures r.Err? ==> r.error == Views.Get(v, key).error
    ensures r.Ok? ==> Cell(r.value) == CellOf(d, key) && Cell(r.value) in Footprint(d)
    ensures r.Ok? ==> Cell(r.value).Texts() == Views.Get(v, key).value
  {
    match d
    case MemoryDict(m) =>
      var got := m.GetWritable(key);
      if got.Err? {
        return Err(got.error);
      }
      r := Ok(MemoryValue(got.value));
      CellInFootprint(d, key);
    case CompoundDict(c) =>
      var got := c.GetWritable(key);
      if got.Err? {
        return Err(got.error);
      }
      r := Ok(CompoundValue(got.value));
      CellInFootprint(d, key);
  }

  /** `add($key)`. */
  method Add(d: Dict, key: string, ghost v: DictView) returns (r: Result<()>)
    requires Valid(d) && Writable(d) && View(d) == v
    modifies Footprint(d)
    ensures Valid(d) && fresh(Footprint(d) - old(Footprint(d)))
    ensures r.Ok? <==> Views.Add(v, key).Ok?
    ensures r.Err? ==> r.error == Views.Add(v, key).error && View(d) == v
    ensures r.Ok? ==> View(d) == Views.Add(v, key).value
  {
    match d
    case MemoryDict(m) =>
      var got := m.Add(key);
      if got.Err? {
        return Err(got.error);
      }
      assert m.buffer.Values <= old(m.buffer.Values) + {got.value};
      r := Ok(());
    case CompoundDict(c) =>
      var got := c.Add(key);
      if got.Err? {
        return Err(got.error);
      }
      r := Ok(());
  }

  /** `remove($key)`. */
  method Remove(d: Dict, key: string, ghost v: DictView) returns (r: Result<()>)
    requires Valid(d) && Writable(d) && View(d) == v
    modifies Footprint(d)
    ensures Valid(d) && Footprint(d) <= old(Footprint(d))
    ensures r.Ok? <==> Views.Remove(v, key).Ok?
    ensures r.Err? ==> r.error == Views.Remove(v, key).error && View(d) == v
    ensures r.Ok? ==> View(d) == Views.Remove(v, key).value
  {
    match d
    case MemoryDict(m) =>
      r := m.Remove(key);
    case CompoundDict(c) =>
      r := c.Remove(key);
  }

  /** `setSource($value)` through a writable value. */
  method SetSource(w: WritableValue, value: string)
    modifies Cell(w)
    ensures Cell(w).Texts() == Text(Some(value), old(Cell(w).target))
  {
    match w
    case MemoryValue(v) =>
      var _ := v.SetSource(value);
    case CompoundValue(v) =>
      var _ := v.SetSource(value);
  }

  /** `setTarget($value)` through a writable value. */
  method SetTarget(w: WritableValue, value: string)
    modifies Cell(w)
    ensures Cell(w).Texts() == Text(old(Cell(w).source), Some(value))
  {
    match w
    case MemoryValue(v) =>
      var _ := v.SetTarget(value);
    case CompoundValue(v) =>
      var _ := v.SetTarget(value);
  }

  /** `clearTarget()` through a writable value. */
  method ClearTarget(w: WritableValue)
    modifies Cell(w)
    ensures Cell(w).Texts() == Text(old(Cell(w).source), None)
  {
    match w
    case MemoryValue(v) =>
      var _ := v.ClearTarget();
    case CompoundValue(v) =>
      var _ := v.ClearTarget();
  }
}
