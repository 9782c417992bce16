/**
 * Definition builders: raw configuration arrays to definitions.
 *
 * DefinitionBuilder dispatches on the `type` entry to the builder
 * registered for it (one registry for dictionaries, one for jobs); the
 * compound dictionary and batch job builders call back into it for their
 * inline children. The functions below are the specification; the two
 * builders whose source is a loop over the children are also written as
 * loops (`CompoundDictionaryDefinitionBuilder.Build`,
 * `BatchJobDefinitionBuilder.Build`) and proved equal to it.
 *
 * The configuration the PHP builders receive is only handed on to the
 * extended and referenced definitions they create; here those definitions
 * take it when they are read (see Definitions), so the builders do not need it.
 */
module DefinitionBuilders {

  import opened Errors
  import opened OrderedMaps
  import opened Values

  /** The dictionary definition builders a registry can hold. */
  datatype DictionaryDefinitionBuilderKind = MemoryDictionaryDefinitions | CompoundDictionaryDefinitions

  /** The job definition builders a registry can hold. */
  datatype JobDefinitionBuilderKind = CopyJobDefinitions | BatchJobDefinitions

  /** DefinitionBuilder: the two service locators, as maps from type name to builder. */
  datatype DefinitionBuilder = DefinitionBuilder(
    dictionaryBuilders: map<string, DictionaryDefinitionBuilderKind>,
    jobBuilders: map<string, JobDefinitionBuilderKind>)

  // ----- termination measure -----

  /**
   * Nesting height of a value. `null` and `false` count like an array
   * holding scalars, since assigning an entry to them turns them into one.
   */
  ghost function Height(v: Value): nat {
    match v
    case Arr(a) => 1 + MaxHeight(a, a.items.Keys)
    case Null => 1
    case Bool(b) => if b then 0 else 1
    case _ => 0
  }

  ghost function MaxHeight(a: PArray, ks: set<Key>): nat
    requires ks <= a.items.Keys
    decreases a, ks
  {
    if ks == {} then 0
    else
      var k :| k in ks;
      var h, rest := Height(a.items[k]), MaxHeight(a, ks - {k});
      if h > rest then h else rest
  }

  lemma {:induction false} MaxHeightAtLeast(a: PArray, ks: set<Key>, k: Key)
    requires ks <= a.items.Keys && k in ks
    ensures Height(a.items[k]) <= MaxHeight(a, ks)
    decreases ks
  {
    var k' :| k' in ks && MaxHeight(a, ks) == (
      var h, rest := Height(a.items[k']), MaxHeight(a, ks - {k'}); if h > rest then h else rest);
    if k' != k {
      MaxHeightAtLeast(a, ks - {k'}, k);
    }
  }

  lemma {:induction false} MaxHeightAtMost(a: PArray, ks: set<Key>, bound: nat)
    requires ks <= a.items.Keys
    requires forall k :: k in ks ==> Height(a.items[k]) <= bound
    ensures MaxHeight(a, ks) <= bound
    decreases ks
  {
    if ks != {} {
      var k' :| k' in ks && MaxHeight(a, ks) == (
        var h, rest := Height(a.items[k']), MaxHeight(a, ks - {k'}); if h > rest then h else rest);
      MaxHeightAtMost(a, ks - {k'}, bound);
    }
  }

  /** An entry of an array is lower than the array. */
  lemma EntryLower(a: PArray, k: Key)
    requires k in a.items
    ensures Height(a.items[k]) < Height(Arr(a))
  {
    MaxHeightAtLeast(a, a.items.Keys, k);
  }

  /** Assigning a string entry does not raise an array. */
  lemma PutStringNotHigher(a: PArray, k: Key, s: string)
    ensures Height(Arr(a.Put(k, Str(s)))) <= Height(Arr(a))
  {
    var b := a.Put(k, Str(s));
    forall k' | k' in b.items.Keys ensures Height(b.items[k']) <= MaxHeight(a, a.items.Keys) {
      if k' != k { MaxHeightAtLeast(a, a.items.Keys, k'); }
    }
    MaxHeightAtMost(b, b.items.Keys, MaxHeight(a, a.items.Keys));
  }

  // ----- shared helpers -----

  /** `$data['k']`: the entry, or null (with a PHP warning) when it is missing. */
  function Field(data: PArray, k: string): Value {
    if S(k) in data.items then data.items[S(k)] else Null
  }

  /** The required-keys loop: the first missing key, in the order given, is reported. */
  function RequireKeys(data: PArray, required: seq<string>): (r: Result<()>)
    ensures r.Ok? <==> forall k :: k in required ==> S(k) in data.items
    ensures r.Err? ==>
      exists i ::
        && 0 <= i < |required| && S(required[i]) !in data.items
        && (forall j :: 0 <= j < i ==> S(required[j]) in data.items)
        && r.error == InvalidArgument("Missing key " + Quote(required[i]))
  {
    if required == [] then Ok(())
    else if S(required[0]) !in data.items then Err(InvalidArgument("Missing key " + Quote(required[0])))
    else
      var r := RequireKeys(data, required[1..]);
      if r.Err? then
        var i :| 0 <= i < |required[1..]| && S(required[1..][i]) !in data.items &&
          (forall j :: 0 <= j < i ==> S(required[1..][j]) in data.items) &&
          r.error == InvalidArgument("Missing key " + Quote(required[1..][i]));
        assert S(required[i + 1]) !in data.items;
        r
      else r
  }

  /**
   * An inline child entry as the array the builder patches: null and false
   * become an empty array, any other scalar cannot be used as an array.
   */
  function AsArray(v: Value): (r: Result<PArray>)
    ensures r.Ok? ==> Height(Arr(r.value)) <= Height(v)
  {
    match v
    case Arr(a) => Ok(a)
    case Null => Ok(Empty())
    case Bool(b) =>
      if b then Err(TypeError("Cannot use a scalar value as an array"))
      else Ok(Empty())
    case _ => Err(TypeError("Cannot use a scalar value as an array"))
  }

  /** `if (!isset($a['k'])) { $a['k'] = $default; }` */
  function Default(a: PArray, k: string, default: string): (r: PArray)
    ensures S(k) in r.items && r.items[S(k)] == if IsSet(a, S(k)) then a.items[S(k)] else Str(default)
    ensures forall k' :: k' != S(k) ==> (k' in r.items <==> k' in a.items)
    ensures forall k' :: k' != S(k) && k' in a.items ==> r.items[k'] == a.items[k']
    ensures a.Valid() ==> r.Valid()
    ensures Height(Arr(r)) <= Height(Arr(a))
  {
    if IsSet(a, S(k)) then a
    else PutStringNotHigher(a, S(k), default); a.Put(S(k), Str(default))
  }

  /**
   * The `type` entry as the service id looked up: a missing entry is null
   * and looks up "", an array is an illegal offset.
   */
  function TypeId(data: PArray): (r: Result<string>)
    ensures Field(data, "type").Str? ==> r == Ok(Field(data, "type").s)
  {
    var t := Field(data, "type");
    if t.Arr? then Err(TypeError("Illegal offset type")) else ToPhpString(t)
  }

  // ----- DefinitionBuilder -----

  /** buildDictionary(): the result of the builder registered for the type, or "Unknown dictionary type". */
  function BuildDictionary(db: DefinitionBuilder, data: PArray): (r: Result<Definition>)
    ensures r.Ok? ==> r.value.Dictionary?
    decreases Height(Arr(data)), 2, 0
  {
    var t :- TypeId(data);
    if t !in db.dictionaryBuilders then Err(Runtime("Unknown dictionary type " + Quote(t)))
    else match db.dictionaryBuilders[t]
      case MemoryDictionaryDefinitions => MemoryDictionaryBuild(data)
      case CompoundDictionaryDefinitions => CompoundDictionaryBuild(db, data)
  }

  /** MemoryDictionaryDefinitionBuilder::build(). */
  function MemoryDictionaryBuild(data: PArray): (r: Result<Definition>)
    ensures r.Ok? ==> r.value.Dictionary?
  {
    var name :- AsString(Field(data, "name"));
    Ok(Dictionary(name, data.Remove(S("name")).Put(S("type"), Str("memory"))))
  }

  /** CompoundDictionaryDefinitionBuilder::build(). */
  function CompoundDictionaryBuild(db: DefinitionBuilder, data: PArray): (r: Result<Definition>)
    ensures r.Ok? ==> r.value.Dictionary?
    decreases Height(Arr(data)), 1, 0
  {
    var _ :- RequireKeys(data, ["name", "dictionaries"]);
    var list := data.items[S("dictionaries")];
    EntryLower(data, S("dictionaries"));
    var children :- if list.Arr? then CompoundChildren(db, list.a, list.a.keys, []) else Ok([]);
    CompoundResult(data, children)
  }

  /** The definition the compound builder returns once its children are built. */
  function CompoundResult(data: PArray, children: seq<Definition>): Result<Definition>
    requires S("name") in data.items
  {
    var name :- AsString(data.items[S("name")]);
    var rest := data.Remove(S("name")).Remove(S("dictionaries"));
    var defs := seq(|children|, i requires 0 <= i < |children| => Def(children[i]));
    Ok(Dictionary(name, rest.Put(S("dictionaries"), Arr(List(defs))).Put(S("type"), Str("compound"))))
  }

  /** One child of a compound dictionary. */
  function CompoundChild(db: DefinitionBuilder, list: PArray, k: Key): Result<Definition>
    requires k in list.items
    decreases Height(Arr(list)), 0, 1
  {
    var prefix := KeyToString(k);
    var entry := list.items[k];
    if entry.Str? then Ok(ExtendedDictionary(entry.s, Empty<Key, Value>().Put(S("prefix"), Str(prefix))))
    else
      var a :- AsArray(entry);
      EntryLower(list, k);
      BuildDictionary(db, Default(Default(a, "name", prefix), "prefix", prefix))
  }

  /** The loop of the compound builder over the entries listed in `ks`, appending to `acc`. */
  function CompoundChildren(db: DefinitionBuilder, list: PArray, ks: seq<Key>, acc: seq<Definition>): (r: Result<seq<Definition>>)
    ensures r.Ok? ==> |r.value| >= |acc| && r.value[..|acc|] == acc
    decreases Height(Arr(list)), 0, |ks| + 2
  {
    if ks == [] then Ok(acc)
    else if ks[0] !in list.items then CompoundChildren(db, list, ks[1..], acc)
    else
      var d :- CompoundChild(db, list, ks[0]);
      CompoundChildren(db, list, ks[1..], acc + [d])
  }

  /** buildJob(): the result of the builder registered for the type, or "Unknown job type". */
  function BuildJob(db: DefinitionBuilder, data: PArray): (r: Result<Definition>)
    ensures r.Ok? ==> r.value.CopyJob? || r.value.BatchJob?
    decreases Height(Arr(data)), 2, 0
  {
    var t :- TypeId(data);
    if t !in db.jobBuilders then Err(Runtime("Unknown job type " + Quote(t)))
    else match db.jobBuilders[t]
      case CopyJobDefinitions => CopyJobBuild(data)
      case BatchJobDefinitions => BatchJobBuild(db, data)
  }

  /** BatchJobDefinitionBuilder::build(). */
  function BatchJobBuild(db: DefinitionBuilder, data: PArray): (r: Result<Definition>)
    ensures r.Ok? ==> r.value.BatchJob?
    decreases Height(Arr(data)), 1, 0
  {
    var _ :- RequireKeys(data, ["name", "jobs"]);
    var list := data.items[S("jobs")];
    EntryLower(data, S("jobs"));
    var jobs :- if list.Arr? then BatchChildren(db, data.items[S("name")], list.a, list.a.keys, []) else Ok([]);
    BatchResult(data, jobs)
  }

  function BatchResult(data: PArray, jobs: seq<Definition>): Result<Definition>
    requires S("name") in data.items
  {
    var name :- AsString(data.items[S("name")]);
    Ok(BatchJob(name, jobs, data.Remove(S("name")).Remove(S("jobs"))))
  }

  /** One child of a batch job: a reference by name, or an inline job named `<batch>.<index>` by default. */
  function BatchChild(db: DefinitionBuilder, name: Value, list: PArray, k: Key): Result<Definition>
    requires k in list.items
    decreases Height(Arr(list)), 0, 1
  {
    var entry := list.items[k];
    if entry.Str? then Ok(ReferencedJob(entry.s, Empty()))
    else
      var a :- AsArray(entry);
      EntryLower(list, k);
      if IsSet(a, S("name")) then BuildJob(db, a)
      else
        var batchName :- ToPhpString(name);
        BuildJob(db, Default(a, "name", batchName + "." + KeyToString(k)))
  }

  function BatchChildren(db: DefinitionBuilder, name: Value, list: PArray, ks: seq<Key>, acc: seq<Definition>): (r: Result<seq<Definition>>)
    ensures r.Ok? ==> |r.value| >= |acc| && r.value[..|acc|] == acc
    decreases Height(Arr(list)), 0, |ks| + 2
  {
    if ks == [] then Ok(acc)
    else if ks[0] !in list.items then BatchChildren(db, name, list, ks[1..], acc)
    else
      var d :- BatchChild(db, name, list, ks[0]);
      BatchChildren(db, name, list, ks[1..], acc + [d])
  }

  // ----- CopyJobDefinitionBuilder -----

  /** getDictionaryOverrides(): moves `source_language` and `target_language` from the job data to the overrides. */
  function DictionaryOverrides(data: PArray): (r: (PArray, PArray))
    ensures var (overrides, rest) := r;
      (forall k :: k in overrides.items <==> k in data.items && k in {S("source_language"), S("target_language")}) &&
      (forall k :: k in overrides.items ==> overrides.items[k] == data.items[k]) &&
      rest.items == data.items - {S("source_language"), S("target_language")} &&
      overrides.Valid() && (data.Valid() ==> rest.Valid())
  {
    var (o1, d1) := MoveKey(Empty(), data, "source_language");
    MoveKey(o1, d1, "target_language")
  }

  function MoveKey(overrides: PArray, data: PArray, k: string): (r: (PArray, PArray))
    ensures r.0.items == if S(k) in data.items then overrides.items[S(k) := data.items[S(k)]] else overrides.items
    ensures r.1.items == data.items - {S(k)}
    ensures overrides.Valid() ==> r.0.Valid()
    ensures data.Valid() ==> r.1.Valid()
  {
    if S(k) in data.items then (overrides.Put(S(k), data.items[S(k)]), data.Remove(S(k)))
    else (overrides, data)
  }

  /** makeDictionary(): a name, or an inline array with a name, to an extended dictionary definition. */
  function MakeDictionary(dictionary: Value, overrides: PArray, path: string): (r: Result<Definition>)
    ensures r.Ok? ==> r.value.ExtendedDictionary?
  {
    if dictionary.Arr? then
      if !IsSet(dictionary.a, S("name")) then
        Err(InvalidArgument("Dictionary " + Quote(path) + " information is missing key \"name\"."))
      else
        var name :- AsString(dictionary.a.items[S("name")]);
        Ok(ExtendedDictionary(name, ArrayMerge(overrides, dictionary.a).Remove(S("name"))))
    else
      var name :- AsString(dictionary);
      Ok(ExtendedDictionary(name, overrides))
  }

  /** CopyJobDefinitionBuilder::build(). */
  function CopyJobBuild(data: PArray): (r: Result<Definition>)
    ensures r.Ok? ==> r.value.CopyJob?
  {
    var _ :- RequireKeys(data, ["name", "source", "target"]);
    var (overrides, rest) := DictionaryOverrides(data);
    var path :- ToPhpString(rest.items[S("name")]);
    var source :- MakeDictionary(rest.items[S("source")], overrides, path + ".source");
    var target :- MakeDictionary(rest.items[S("target")], overrides, path + ".target");
    var name :- AsString(rest.items[S("name")]);
    Ok(CopyJob(name, source, target, rest.Remove(S("name")).Remove(S("source")).Remove(S("target"))))
  }

  // ----- the two builders whose source is a loop -----

  datatype CompoundDictionaryDefinitionBuilder = CompoundDictionaryDefinitionBuilder(definitionBuilder: DefinitionBuilder)
  {
    /** build(): the loop appending one definition per entry of `dictionaries`. */
    method Build(data: PArray) returns (r: Result<Definition>)
      ensures r == CompoundDictionaryBuild(definitionBuilder, data)
    {
      var required := RequireKeys(data, ["name", "dictionaries"]);
      if required.Err? {
        return Err(required.error);
      }
      var list := data.items[S("dictionaries")];
      var dictionaries: seq<Definition> := [];
      if list.Arr? {
        var ks := list.a.keys;
        var i := 0;
        while i < |ks|
          invariant 0 <= i <= |ks|
          invariant CompoundChildren(definitionBuilder, list.a, ks, []) ==
                    CompoundChildren(definitionBuilder, list.a, ks[i..], dictionaries)
        {
          if ks[i] in list.a.items {
            var child := CompoundChild(definitionBuilder, list.a, ks[i]);
            if child.Err? {
              return Err(child.error);
            }
            dictionaries := dictionaries + [child.value];
          }
          assert ks[i..][1..] == ks[i + 1..];
          i := i + 1;
        }
      }
      r := CompoundResult(data, dictionaries);
    }
  }

  datatype BatchJobDefinitionBuilder = BatchJobDefinitionBuilder(definitionBuilder: DefinitionBuilder)
  {
    /** build(): the loop appending one job definition per entry of `jobs`. */
    method Build(data: PArray) returns (r: Result<Definition>)
      ensures r == BatchJobBuild(definitionBuilder, data)
    {
      var required := RequireKeys(data, ["name", "jobs"]);
      if required.Err? {
        return Err(required.error);
      }
      var name := data.items[S("name")];
      var list := data.items[S("jobs")];
      var jobs: seq<Definition> := [];
      if list.Arr? {
        var ks := list.a.keys;
        var i := 0;
        while i < |ks|
          invariant 0 <= i <= |ks|
          invariant BatchChildren(definitionBuilder, name, list.a, ks, []) ==
                    BatchChildren(definitionBuilder, name, list.a, ks[i..], jobs)
        {
          if ks[i] in list.a.items {
            var child := BatchChild(definitionBuilder, name, list.a, ks[i]);
            if child.Err? {
              return Err(child.error);
            }
            jobs := jobs + [child.value];
          }
          assert ks[i..][1..] == ks[i + 1..];
          i := i + 1;
        }
      }
      r := BatchResult(data, jobs);
    }
  }
}
