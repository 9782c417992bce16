/**
 * Reading definitions: own data, the layered definitions that fall back to
 * another definition (decorated, extended dictionary, referenced job), the
 * one-level merge of `getData()` and the typed accessors of dictionary
 * definitions.
 *
 * An extended dictionary or referenced job definition holds the
 * configuration it was built with and looks its delegate up by its own name
 * on every call; here that configuration is the `cfg` parameter. A chain of
 * registry lookups that comes back to an entry it already went through
 * would make PHP recurse without end; the model reports it as
 * `DefinitionCycle`.
 */
module Definitions {

  import opened Errors
  import opened OrderedMaps
  import opened Values
  import opened Configurations

  /** A registry entry of the configuration. */
  datatype Slot = JobSlot(name: string) | DictionarySlot(name: string)

  function Slots(cfg: Snapshot): set<Slot>
  {
    (set n | n in cfg.jobs.items :: JobSlot(n)) + (set n | n in cfg.dictionaries.items :: DictionarySlot(n))
  }

  /** The registry entry a definition delegates to, if it delegates through the configuration. */
  function DelegateSlot(d: Definition): Option<Slot> {
    match d
    case ExtendedDictionary(name, _) => Some(DictionarySlot(name))
    case ReferencedJob(name, _) => Some(JobSlot(name))
    case _ => None
  }

  function LookupSlot(cfg: Snapshot, slot: Slot): (r: Result<Definition>)
    ensures r.Ok? <==> slot in Slots(cfg)
  {
    match slot
    case JobSlot(n) => cfg.GetJob(n)
    case DictionarySlot(n) => cfg.GetDictionary(n)
  }

  /** getDelegated(): the definition an extended or referenced definition stands on. */
  function Delegated(cfg: Snapshot, d: Definition): (r: Result<Definition>)
    requires d.ExtendedDictionary? || d.ReferencedJob?
    ensures d.ExtendedDictionary? ==> r == cfg.GetDictionary(d.name)
    ensures d.ReferencedJob? ==> r == cfg.GetJob(d.name)
  {
    LookupSlot(cfg, DelegateSlot(d).value)
  }

  function MissingKey(k: string): Error {
    InvalidArgument("Key " + Quote(k) + " does not exist.")
  }

  /**
   * get($key): the own value when the definition has one; otherwise, for a
   * layered definition, the delegate's value; otherwise an error.
   */
  function GetIn(cfg: Snapshot, d: Definition, k: string, visited: set<Slot>): (r: Result<Value>)
    ensures StrKey(k) in d.data.items ==> r == Ok(d.data.items[StrKey(k)])
    decreases Slots(cfg) - visited, d
  {
    if StrKey(k) in d.data.items then Ok(d.data.items[StrKey(k)])
    else if d.Decorated? then GetIn(cfg, d.decorated, k, visited)
    else if DelegateSlot(d).Some? then
      var slot := DelegateSlot(d).value;
      var base :- LookupSlot(cfg, slot);
      if slot in visited then Err(DefinitionCycle(d.name))
      else GetIn(cfg, base, k, visited + {slot})
    else Err(MissingKey(k))
  }

  function Get(cfg: Snapshot, d: Definition, k: string): Result<Value>
  {
    GetIn(cfg, d, k, {})
  }

  /** has($key): own key, or (for a layered definition) the delegate has it. */
  function HasIn(cfg: Snapshot, d: Definition, k: string, visited: set<Slot>): (r: Result<bool>)
    ensures StrKey(k) in d.data.items ==> r == Ok(true)
    decreases Slots(cfg) - visited, d
  {
    if StrKey(k) in d.data.items then Ok(true)
    else if d.Decorated? then HasIn(cfg, d.decorated, k, visited)
    else if DelegateSlot(d).Some? then
      var slot := DelegateSlot(d).value;
      var base :- LookupSlot(cfg, slot);
      if slot in visited then Err(DefinitionCycle(d.name))
      else HasIn(cfg, base, k, visited + {slot})
    else Ok(false)
  }

  function Has(cfg: Snapshot, d: Definition, k: string): Result<bool>
  {
    HasIn(cfg, d, k, {})
  }

  function CannotMerge(k: Key): Error {
    Runtime("Can not merge key " + Quote(KeyToString(k)) + ", parent value is not an array.")
  }

  /**
   * The loop of ExtendedDefinitionTrait::getData() over the own entries
   * listed in `ks`: a new key is added, an array value is array_merge'd
   * into the parent's array (an error when the parent's value is not an
   * array), any other value replaces the parent's.
   */
  function MergeLocal(combined: PArray, local: PArray, ks: seq<Key>): (r: Result<PArray>)
    decreases |ks|
  {
    if ks == [] then Ok(combined)
    else if ks[0] !in local.items then MergeLocal(combined, local, ks[1..])
    else
      var k, v := ks[0], local.items[ks[0]];
      if k !in combined.items then MergeLocal(combined.Put(k, v), local, ks[1..])
      else if v.Arr? then
        if !combined.items[k].Arr? then Err(CannotMerge(k))
        else MergeLocal(combined.Put(k, Arr(ArrayMerge(combined.items[k].a, v.a))), local, ks[1..])
      else MergeLocal(combined.Put(k, v), local, ks[1..])
  }

  /** getData(): own data, merged one level deep over the delegate's data for a layered definition. */
  function GetDataIn(cfg: Snapshot, d: Definition, visited: set<Slot>): (r: Result<PArray>)
    decreases Slots(cfg) - visited, d
  {
    if d.Decorated? then
      var parent :- GetDataIn(cfg, d.decorated, visited);
      MergeLocal(parent, d.data, d.data.keys)
    else if DelegateSlot(d).Some? then
      var slot := DelegateSlot(d).value;
      var base :- LookupSlot(cfg, slot);
      if slot in visited then Err(DefinitionCycle(d.name))
      else
        var parent :- GetDataIn(cfg, base, visited + {slot});
        MergeLocal(parent, d.data, d.data.keys)
    else Ok(d.data)
  }

  function GetData(cfg: Snapshot, d: Definition): Result<PArray>
  {
    GetDataIn(cfg, d, {})
  }

  /** getIterator(): the entries of getData(), in order. */
  function Entries(cfg: Snapshot, d: Definition): (r: Result<seq<(Key, Value)>>)
    ensures r.Ok? <==> GetData(cfg, d).Ok?
    ensures r.Ok? ==> |r.value| == |GetData(cfg, d).value.keys|
    ensures r.Ok? && GetData(cfg, d).value.Valid() ==> forall i :: 0 <= i < |r.value| ==>
      r.value[i].0 == GetData(cfg, d).value.keys[i] && r.value[i].0 in GetData(cfg, d).value.items &&
      r.value[i].1 == GetData(cfg, d).value.items[r.value[i].0]
  {
    var data :- GetData(cfg, d);
    Ok(seq(|data.keys|, i requires 0 <= i < |data.keys| =>
      (data.keys[i], if data.keys[i] in data.items then data.items[data.keys[i]] else Null)))
  }

  /** setData(): replaces the own data. */
  function SetData(d: Definition, data: PArray): (r: Definition)
    ensures r.data == data && r.Name() == d.Name()
  {
    d.(data := data)
  }

  /** set($key, $value): assigns one own entry. */
  function Set(d: Definition, k: string, v: Value): (r: Definition)
    ensures r.data == d.data.Put(StrKey(k), v) && r.Name() == d.Name()
  {
    d.(data := d.data.Put(StrKey(k), v))
  }

  // ----- DictionaryDefinition accessors -----

  const TypeKey := "type"
  const ProviderKey := "provider"
  const DictionaryKey := "dictionary"
  const SourceLanguageKey := "source_language"
  const TargetLanguageKey := "target_language"
  const NoType := "No type set for dictionary "
  const NoSourceLanguage := "No source language set for dictionary "
  const NoTargetLanguage := "No target language set for dictionary "

  function RequiredString(cfg: Snapshot, d: Definition, k: string, missing: string): Result<string>
  {
    var present :- Has(cfg, d, k);
    if !present then Err(Runtime(missing + Quote(d.Name())))
    else
      var v :- Get(cfg, d, k);
      AsString(v)
  }

  /** getType(): the "type" entry, "No type set for dictionary ..." when there is none. */
  function GetType(cfg: Snapshot, d: Definition): Result<string>
    requires d.IsDictionaryDefinition()
  {
    RequiredString(cfg, d, TypeKey, NoType)
  }

  /** getProvider(): the "provider" entry, falling back to the type. */
  function GetProvider(cfg: Snapshot, d: Definition): Result<string>
    requires d.IsDictionaryDefinition()
  {
    var present :- Has(cfg, d, ProviderKey);
    if present then
      var v :- Get(cfg, d, ProviderKey);
      AsString(v)
    else GetType(cfg, d)
  }

  /** getDictionary(): the "dictionary" entry, falling back to the definition's name. */
  function GetDictionaryName(cfg: Snapshot, d: Definition): Result<string>
    requires d.IsDictionaryDefinition()
  {
    var present :- Has(cfg, d, DictionaryKey);
    if present then
      var v :- Get(cfg, d, DictionaryKey);
      AsString(v)
    else Ok(d.Name())
  }

  /** getSourceLanguage(): the "source_language" entry, "No source language set ..." when there is none. */
  function GetSourceLanguage(cfg: Snapshot, d: Definition): Result<string>
    requires d.IsDictionaryDefinition()
  {
    RequiredString(cfg, d, SourceLanguageKey, NoSourceLanguage)
  }

  /** getTargetLanguage(): the "target_language" entry, "No target language set ..." when there is none. */
  function GetTargetLanguage(cfg: Snapshot, d: Definition): Result<string>
    requires d.IsDictionaryDefinition()
  {
    RequiredString(cfg, d, TargetLanguageKey, NoTargetLanguage)
  }
}
