/**
 * What the definition builders promise: dispatch on the type through two
 * separate registries, required keys checked in order, the memory builder's
 * two edits, the copy job builder's language overrides and dictionary
 * forms, and the children of compound dictionaries and batch jobs built in
 * input order with their defaulted names and prefixes.
 */
module DefinitionBuilderProperties {

  import opened Errors
  import opened OrderedMaps
  import opened Values
  import opened DefinitionBuilders

  // ----- DefinitionBuilder -----

  /**
   * A type string selects the builder registered for it in the registry of
   * the kind being built; a type missing from that registry is reported,
   * even when the other registry knows it.
   */
  lemma DispatchByType(db: DefinitionBuilder, data: PArray, t: string)
    requires Field(data, "type") == Str(t)
    ensures t !in db.dictionaryBuilders ==> BuildDictionary(db, data) == Err(Runtime("Unknown dictionary type " + Quote(t)))
    ensures t !in db.jobBuilders ==> BuildJob(db, data) == Err(Runtime("Unknown job type " + Quote(t)))
    ensures t in db.dictionaryBuilders && db.dictionaryBuilders[t] == MemoryDictionaryDefinitions ==>
      BuildDictionary(db, data) == MemoryDictionaryBuild(data)
    ensures t in db.dictionaryBuilders && db.dictionaryBuilders[t] == CompoundDictionaryDefinitions ==>
      BuildDictionary(db, data) == CompoundDictionaryBuild(db, data)
    ensures t in db.jobBuilders && db.jobBuilders[t] == CopyJobDefinitions ==> BuildJob(db, data) == CopyJobBuild(data)
    ensures t in db.jobBuilders && db.jobBuilders[t] == BatchJobDefinitions ==> BuildJob(db, data) == BatchJobBuild(db, data)
  {
  }

  /** Data without a type looks up the empty service id. */
  lemma MissingTypeIsEmptyId(db: DefinitionBuilder, data: PArray)
    requires S("type") !in data.items
    ensures "" !in db.dictionaryBuilders ==> BuildDictionary(db, data) == Err(Runtime("Unknown dictionary type " + Quote("")))
    ensures "" !in db.jobBuilders ==> BuildJob(db, data) == Err(Runtime("Unknown job type " + Quote("")))
  {
  }

  // ----- MemoryDictionaryDefinitionBuilder -----

  /**
   * The memory builder names the definition after the string `name` entry,
   * drops that entry, forces `type` to "memory" and keeps every other entry.
   */
  lemma MemoryDictionaryBuildMeaning(data: PArray)
    ensures MemoryDictionaryBuild(data).Ok? <==> S("name") in data.items && data.items[S("name")].Str?
    ensures MemoryDictionaryBuild(data).Ok? ==>
      var d := MemoryDictionaryBuild(data).value;
      && d.name == data.items[S("name")].s
      && S("name") !in d.data.items
      && S("type") in d.data.items && d.data.items[S("type")] == Str("memory")
      && (forall k :: k != S("name") && k != S("type") ==> (k in d.data.items <==> k in data.items))
      && (forall k :: k != S("name") && k != S("type") && k in data.items ==> d.data.items[k] == data.items[k])
      && (data.Valid() ==> d.data.Valid())
  {
  }

  // ----- required keys -----

  /** The copy job builder reports the first missing key of name, source, target. */
  lemma CopyJobRequiredKeys(data: PArray)
    ensures S("name") !in data.items ==> CopyJobBuild(data) == Err(InvalidArgument("Missing key " + Quote("name")))
    ensures S("name") in data.items && S("source") !in data.items ==>
      CopyJobBuild(data) == Err(InvalidArgument("Missing key " + Quote("source")))
    ensures S("name") in data.items && S("source") in data.items && S("target") !in data.items ==>
      CopyJobBuild(data) == Err(InvalidArgument("Missing key " + Quote("target")))
  {
    var required := ["name", "source", "target"];
    assert required[1..] == ["source", "target"] && required[1..][1..] == ["target"];
    if S("name") in data.items {
      assert RequireKeys(data, required) == RequireKeys(data, required[1..]);
      if S("source") in data.items {
        assert RequireKeys(data, required[1..]) == RequireKeys(data, required[1..][1..]);
      }
    }
  }

  /** The compound dictionary builder reports the first missing key of name, dictionaries. */
  lemma CompoundRequiredKeys(db: DefinitionBuilder, data: PArray)
    ensures S("name") !in data.items ==> CompoundDictionaryBuild(db, data) == Err(InvalidArgument("Missing key " + Quote("name")))
    ensures S("name") in data.items && S("dictionaries") !in data.items ==>
      CompoundDictionaryBuild(db, data) == Err(InvalidArgument("Missing key " + Quote("dictionaries")))
  {
    assert ["name", "dictionaries"][1..] == ["dictionaries"];
  }

  /** The batch job builder reports the first missing key of name, jobs. */
  lemma BatchRequiredKeys(db: DefinitionBuilder, data: PArray)
    ensures S("name") !in data.items ==> BatchJobBuild(db, data) == Err(InvalidArgument("Missing key " + Quote("name")))
    ensures S("name") in data.items && S("jobs") !in data.items ==>
      BatchJobBuild(db, data) == Err(InvalidArgument("Missing key " + Quote("jobs")))
  {
    assert ["name", "jobs"][1..] == ["jobs"];
  }

  // ----- CopyJobDefinitionBuilder -----

  /**
   * The dictionary a copy job gets for one side: a name becomes an extended
   * dictionary carrying the language overrides; an inline array with a
   * name becomes an extended dictionary of that name whose data is the
   * overrides merged with the array (the array winning), without `name`;
   * an inline array without a name is rejected with its path.
   */
  lemma MakeDictionaryMeaning(dictionary: Value, overrides: PArray, path: string)
    requires overrides.Valid()
    requires dictionary.Arr? ==> dictionary.a.Valid()
    ensures dictionary.Str? ==> MakeDictionary(dictionary, overrides, path) == Ok(ExtendedDictionary(dictionary.s, overrides))
    ensures dictionary.Arr? && !IsSet(dictionary.a, S("name")) ==>
      MakeDictionary(dictionary, overrides, path) ==
        Err(InvalidArgument("Dictionary " + Quote(path) + " information is missing key \"name\"."))
    ensures dictionary.Arr? && IsSet(dictionary.a, S("name")) && dictionary.a.items[S("name")].Str? ==>
      var r := MakeDictionary(dictionary, overrides, path);
      && r.Ok? && r.value.name == dictionary.a.items[S("name")].s
      && r.value.data.Valid()
      && (forall s :: StrKey(s) in r.value.data.items <==>
            s != "name" && (StrKey(s) in overrides.items || StrKey(s) in dictionary.a.items))
      && (forall s :: StrKey(s) in r.value.data.items ==>
            r.value.data.items[StrKey(s)] ==
              if StrKey(s) in dictionary.a.items then dictionary.a.items[StrKey(s)] else overrides.items[StrKey(s)])
    ensures !dictionary.Str? && !dictionary.Arr? ==> MakeDictionary(dictionary, overrides, path).Err?
  {
  }

  /** The copy job builder, step by step, once the required keys are there and the name is a string. */
  lemma CopyJobBuildSteps(data: PArray, name: string)
    requires S("name") in data.items && data.items[S("name")] == Str(name)
    requires S("source") in data.items && S("target") in data.items
    ensures var (overrides, rest) := DictionaryOverrides(data);
      var source := MakeDictionary(data.items[S("source")], overrides, name + ".source");
      var target := MakeDictionary(data.items[S("target")], overrides, name + ".target");
      CopyJobBuild(data) ==
        if source.Err? then Err(source.error)
        else if target.Err? then Err(target.error)
        else Ok(CopyJob(name, source.value, target.value, rest.Remove(S("name")).Remove(S("source")).Remove(S("target"))))
  {
    assert RequireKeys(data, ["name", "source", "target"]).Ok? by {
      assert forall k :: k in ["name", "source", "target"] ==> k == "name" || k == "source" || k == "target";
    }
    var (overrides, rest) := DictionaryOverrides(data);
    assert rest.items[S("name")] == Str(name);
    assert rest.items[S("source")] == data.items[S("source")];
    assert rest.items[S("target")] == data.items[S("target")];
  }

  /** The source dictionary is judged before the target: a bad source is the error reported. */
  lemma CopyJobSourceFirst(data: PArray, name: string)
    requires S("name") in data.items && data.items[S("name")] == Str(name)
    requires S("source") in data.items && S("target") in data.items
    ensures var overrides := DictionaryOverrides(data).0;
      var source := MakeDictionary(data.items[S("source")], overrides, name + ".source");
      var target := MakeDictionary(data.items[S("target")], overrides, name + ".target");
      && (source.Err? ==> CopyJobBuild(data) == Err(source.error))
      && (source.Ok? && target.Err? ==> CopyJobBuild(data) == Err(target.error))
  {
    CopyJobBuildSteps(data, name);
  }

  /**
   * A copy job built from data with a string name: it has that name, its
   * source and target are the dictionaries MakeDictionary makes of the two
   * entries with the language overrides, and its data is the input without name, source,
   * target and the two language keys.
   */
  lemma CopyJobBuildMeaning(data: PArray, name: string)
    requires S("name") in data.items && data.items[S("name")] == Str(name)
    requires S("source") in data.items && S("target") in data.items
    ensures var overrides := DictionaryOverrides(data).0;
      var source := MakeDictionary(data.items[S("source")], overrides, name + ".source");
      var target := MakeDictionary(data.items[S("target")], overrides, name + ".target");
      var r := CopyJobBuild(data);
      source.Ok? && target.Ok? ==>
        && r.Ok? && r.value.name == name
        && r.value.source == source.value && r.value.target == target.value
        && r.value.data.items ==
             data.items - {S("name"), S("source"), S("target"), S("source_language"), S("target_language")}
        && (data.Valid() ==> r.value.data.Valid())
  {
    CopyJobBuildSteps(data, name);
    var (overrides, rest) := DictionaryOverrides(data);
    var source := MakeDictionary(data.items[S("source")], overrides, name + ".source");
    var target := MakeDictionary(data.items[S("target")], overrides, name + ".target");
    if source.Ok? && target.Ok? {
      var out := rest.Remove(S("name")).Remove(S("source")).Remove(S("target"));
      assert CopyJobBuild(data) == Ok(CopyJob(name, source.value, target.value, out));
      var languages := {S("source_language"), S("target_language")};
      MinusMinus(data.items, languages, {S("name")});
      MinusMinus(data.items, languages + {S("name")}, {S("source")});
      MinusMinus(data.items, languages + {S("name")} + {S("source")}, {S("target")});
      assert languages + {S("name")} + {S("source")} + {S("target")} ==
        {S("name"), S("source"), S("target"), S("source_language"), S("target_language")};
    }
  }

  lemma MinusMinus<K, V>(m: map<K, V>, a: set<K>, b: set<K>)
    ensures (m - a) - b == m - (a + b)
  {
  }

  // ----- children, in input order -----

  /**
   * The loop both child builders run, over the results of building each
   * child in turn: the first failure ends it, otherwise each result is
   * appended to `acc`.
   */
  function Collect<T>(rs: seq<Result<T>>, acc: seq<T>): Result<seq<T>>
    decreases |rs|
  {
    if rs == [] then Ok(acc)
    else if rs[0].Err? then Err(rs[0].error)
    else Collect(rs[1..], acc + [rs[0].value])
  }

  /** Collect succeeds exactly when every result does, keeping their order, and otherwise reports the first failure. */
  lemma {:induction false} CollectMeaning<T>(rs: seq<Result<T>>, acc: seq<T>)
    ensures var r := Collect(rs, acc);
      && (r.Ok? <==> forall i :: 0 <= i < |rs| ==> rs[i].Ok?)
      && (r.Ok? ==>
            && |r.value| == |acc| + |rs| && r.value[..|acc|] == acc
            && forall i :: 0 <= i < |rs| ==> rs[i] == Ok(r.value[|acc| + i]))
      && (r.Err? ==>
            exists i ::
              && 0 <= i < |rs| && rs[i] == Err(r.error)
              && forall j :: 0 <= j < i ==> rs[j].Ok?)
    decreases |rs|
  {
    if rs != [] && rs[0].Ok? {
      CollectMeaning(rs[1..], acc + [rs[0].value]);
      var r := Collect(rs, acc);
      if r.Ok? {
        forall i | 0 <= i < |rs| ensures rs[i] == Ok(r.value[|acc| + i]) {
          if i > 0 { assert rs[i] == rs[1..][i - 1]; }
        }
      } else {
        var i :| 0 <= i < |rs[1..]| && rs[1..][i] == Err(r.error) && forall j :: 0 <= j < i ==> rs[1..][j].Ok?;
        assert rs[i + 1] == Err(r.error);
        forall j | 0 <= j < i + 1 ensures rs[j].Ok? {
          if j > 0 { assert rs[j] == rs[1..][j - 1]; }
        }
      }
    }
  }

  /** The results of building the compound children listed in `ks`, one by one. */
  ghost function CompoundResults(db: DefinitionBuilder, list: PArray, ks: seq<Key>): (r: seq<Result<Definition>>)
    requires forall i :: 0 <= i < |ks| ==> ks[i] in list.items
    ensures |r| == |ks| && forall i :: 0 <= i < |ks| ==> r[i] == CompoundChild(db, list, ks[i])
  {
    seq(|ks|, i requires 0 <= i < |ks| && ks[i] in list.items => CompoundChild(db, list, ks[i]))
  }

  /** The compound builder's children loop is Collect over the children built one by one. */
  lemma {:induction false} CompoundChildrenCollect(db: DefinitionBuilder, list: PArray, ks: seq<Key>, acc: seq<Definition>)
    requires forall i :: 0 <= i < |ks| ==> ks[i] in list.items
    ensures CompoundChildren(db, list, ks, acc) == Collect(CompoundResults(db, list, ks), acc)
    decreases |ks|
  {
    if ks != [] {
      var rs := CompoundResults(db, list, ks);
      assert rs[1..] == CompoundResults(db, list, ks[1..]);
      if rs[0].Ok? {
        CompoundChildrenCollect(db, list, ks[1..], acc + [rs[0].value]);
      }
    }
  }

  /**
   * One child of a compound dictionary: a string entry is the registered
   * dictionary of that name with its key as `prefix`; an inline array goes
   * to buildDictionary() with `name` and `prefix` defaulted to the key.
   */
  lemma CompoundChildMeaning(db: DefinitionBuilder, list: PArray, k: Key)
    requires k in list.items
    ensures list.items[k].Str? ==>
      CompoundChild(db, list, k) ==
        Ok(ExtendedDictionary(list.items[k].s, Empty<Key, Value>().Put(S("prefix"), Str(KeyToString(k)))))
    ensures list.items[k].Arr? ==>
      var a := list.items[k].a;
      var patched := Default(Default(a, "name", KeyToString(k)), "prefix", KeyToString(k));
      && CompoundChild(db, list, k) == BuildDictionary(db, patched)
      && patched.items[S("name")] == (if IsSet(a, S("name")) then a.items[S("name")] else Str(KeyToString(k)))
      && patched.items[S("prefix")] == (if IsSet(a, S("prefix")) then a.items[S("prefix")] else Str(KeyToString(k)))
    ensures list.items[k].Int? ==> CompoundChild(db, list, k).Err?
  {
  }

  /**
   * A compound dictionary definition is named after the string `name`
   * entry, has `type` forced to "compound", and keeps every entry other
   * than `name`, `type` and `dictionaries`.
   */
  lemma CompoundDictionaryBuildMeaning(db: DefinitionBuilder, data: PArray)
    requires S("name") in data.items && data.items[S("name")].Str?
    requires S("dictionaries") in data.items && data.items[S("dictionaries")].Arr?
    requires data.items[S("dictionaries")].a.Valid()
    ensures var r := CompoundDictionaryBuild(db, data);
      r.Ok? ==>
        && r.value.name == data.items[S("name")].s
        && S("type") in r.value.data.items && r.value.data.items[S("type")] == Str("compound")
        && (forall k :: k != S("name") && k != S("type") && k != S("dictionaries") ==>
              (k in r.value.data.items <==> k in data.items) &&
              (k in data.items ==> r.value.data.items[k] == data.items[k]))
  {
    CompoundChildrenFacts(db, data);
    var list := data.items[S("dictionaries")].a;
    var children := Collect(CompoundResults(db, list, list.keys), []);
    if children.Ok? {
      CompoundResultMeaning(data, children.value);
    }
  }

  /**
   * The `dictionaries` entry of a compound dictionary definition is the
   * list of the children built from the input entries, in their order.
   */
  lemma CompoundDictionaryChildrenInOrder(db: DefinitionBuilder, data: PArray)
    requires S("name") in data.items && data.items[S("name")].Str?
    requires S("dictionaries") in data.items && data.items[S("dictionaries")].Arr?
    requires data.items[S("dictionaries")].a.Valid()
    ensures var list := data.items[S("dictionaries")].a;
      var r := CompoundDictionaryBuild(db, data);
      r.Ok? ==>
        && S("dictionaries") in r.value.data.items && r.value.data.items[S("dictionaries")].Arr?
        && var built := r.value.data.items[S("dictionaries")].a;
        && built.keys == seq(|list.keys|, i => IntKey(i))
        && (forall i :: 0 <= i < |list.keys| ==>
              IntKey(i) in built.items && built.items[IntKey(i)].Def? &&
              CompoundChild(db, list, list.keys[i]) == Ok(built.items[IntKey(i)].d))
  {
    CompoundChildrenFacts(db, data);
    var list := data.items[S("dictionaries")].a;
    var children := Collect(CompoundResults(db, list, list.keys), []);
    CollectMeaning(CompoundResults(db, list, list.keys), []);
    if children.Ok? {
      CompoundResultMeaning(data, children.value);
    }
  }

  /** The compound builder succeeds exactly when every child is built. */
  lemma CompoundDictionaryBuildSucceeds(db: DefinitionBuilder, data: PArray)
    requires S("name") in data.items && data.items[S("name")].Str?
    requires S("dictionaries") in data.items && data.items[S("dictionaries")].Arr?
    requires data.items[S("dictionaries")].a.Valid()
    ensures var list := data.items[S("dictionaries")].a;
      CompoundDictionaryBuild(db, data).Ok? <==>
        forall i :: 0 <= i < |list.keys| ==> CompoundChild(db, list, list.keys[i]).Ok?
  {
    CompoundChildrenFacts(db, data);
    var list := data.items[S("dictionaries")].a;
    var children := Collect(CompoundResults(db, list, list.keys), []);
    CollectMeaning(CompoundResults(db, list, list.keys), []);
    if children.Ok? {
      CompoundResultMeaning(data, children.value);
    }
  }

  /** A failing compound build reports the error of the first child that fails. */
  lemma CompoundDictionaryBuildFirstError(db: DefinitionBuilder, data: PArray)
    requires S("name") in data.items && data.items[S("name")].Str?
    requires S("dictionaries") in data.items && data.items[S("dictionaries")].Arr?
    requires data.items[S("dictionaries")].a.Valid()
    ensures var list := data.items[S("dictionaries")].a;
      var r := CompoundDictionaryBuild(db, data);
      r.Err? ==>
        exists i ::
          && 0 <= i < |list.keys| && CompoundChild(db, list, list.keys[i]) == Err(r.error)
          && forall j :: 0 <= j < i ==> CompoundChild(db, list, list.keys[j]).Ok?
  {
    CompoundChildrenFacts(db, data);
    var list := data.items[S("dictionaries")].a;
    CollectMeaning(CompoundResults(db, list, list.keys), []);
  }

  /** The facts the three lemmas above draw on, with the loop's children named. */
  lemma CompoundChildrenFacts(db: DefinitionBuilder, data: PArray)
    requires S("name") in data.items && data.items[S("name")].Str?
    requires S("dictionaries") in data.items && data.items[S("dictionaries")].Arr?
    requires data.items[S("dictionaries")].a.Valid()
    ensures var list := data.items[S("dictionaries")].a;
      && (forall i :: 0 <= i < |list.keys| ==> list.keys[i] in list.items)
      && CompoundDictionaryBuild(db, data) ==
           (var children := Collect(CompoundResults(db, list, list.keys), []);
            if children.Ok? then CompoundResult(data, children.value) else Err(children.error))
  {
    var list := data.items[S("dictionaries")].a;
    assert forall i :: 0 <= i < |list.keys| ==> list.keys[i] in list.items;
    CompoundChildrenCollect(db, list, list.keys, []);
    CompoundBuildSteps(db, data);
  }

  /** The compound builder is the children loop followed by CompoundResult. */
  lemma CompoundBuildSteps(db: DefinitionBuilder, data: PArray)
    requires S("name") in data.items
    requires S("dictionaries") in data.items && data.items[S("dictionaries")].Arr?
    ensures var children := CompoundChildren(db, data.items[S("dictionaries")].a, data.items[S("dictionaries")].a.keys, []);
      CompoundDictionaryBuild(db, data) == if children.Ok? then CompoundResult(data, children.value) else Err(children.error)
  {
    assert RequireKeys(data, ["name", "dictionaries"]).Ok? by {
      assert forall k :: k in ["name", "dictionaries"] ==> k == "name" || k == "dictionaries";
    }
  }

  /** The definition CompoundResult makes of the built children. */
  lemma CompoundResultMeaning(data: PArray, children: seq<Definition>)
    requires S("name") in data.items && data.items[S("name")].Str?
    ensures var r := CompoundResult(data, children);
      && r.Ok?
      && r.value.name == data.items[S("name")].s
      && S("type") in r.value.data.items && r.value.data.items[S("type")] == Str("compound")
      && S("dictionaries") in r.value.data.items && r.value.data.items[S("dictionaries")].Arr?
      && var built := r.value.data.items[S("dictionaries")].a;
      && built.keys == seq(|children|, i => IntKey(i))
      && (forall i :: 0 <= i < |children| ==> IntKey(i) in built.items && built.items[IntKey(i)] == Def(children[i]))
      && (forall k :: k != S("name") && k != S("type") && k != S("dictionaries") ==>
            (k in r.value.data.items <==> k in data.items) &&
            (k in data.items ==> r.value.data.items[k] == data.items[k]))
  {
    var defs := seq(|children|, i requires 0 <= i < |children| => Def(children[i]));
    var built := List(defs);
    var out := CompoundData(data, built);
    assert CompoundResult(data, children) == Ok(Dictionary(data.items[S("name")].s, out));
    CompoundDataItems(data, built);
    forall i | 0 <= i < |children| ensures IntKey(i) in built.items && built.items[IntKey(i)] == Def(children[i]) {
      assert defs[i] == Def(children[i]);
    }
  }

  /** The data of a compound definition around the built list of children. */
  ghost function CompoundData(data: PArray, built: PArray): PArray
  {
    data.Remove(S("name")).Remove(S("dictionaries")).Put(S("dictionaries"), Arr(built)).Put(S("type"), Str("compound"))
  }

  lemma CompoundDataItems(data: PArray, built: PArray)
    ensures var out := CompoundData(data, built).items;
      && S("type") in out && out[S("type")] == Str("compound")
      && S("dictionaries") in out && out[S("dictionaries")] == Arr(built)
      && (forall k :: k != S("name") && k != S("type") && k != S("dictionaries") ==>
            (k in out <==> k in data.items) && (k in data.items ==> out[k] == data.items[k]))
  {
  }

  /** The results of building the batch children listed in `ks`, one by one. */
  ghost function BatchResults(db: DefinitionBuilder, name: Value, list: PArray, ks: seq<Key>): (r: seq<Result<Definition>>)
    requires forall i :: 0 <= i < |ks| ==> ks[i] in list.items
    ensures |r| == |ks| && forall i :: 0 <= i < |ks| ==> r[i] == BatchChild(db, name, list, ks[i])
  {
    seq(|ks|, i requires 0 <= i < |ks| && ks[i] in list.items => BatchChild(db, name, list, ks[i]))
  }

  /** The batch builder's children loop is Collect over the children built one by one. */
  lemma {:induction false} BatchChildrenCollect(db: DefinitionBuilder, name: Value, list: PArray, ks: seq<Key>, acc: seq<Definition>)
    requires forall i :: 0 <= i < |ks| ==> ks[i] in list.items
    ensures BatchChildren(db, name, list, ks, acc) == Collect(BatchResults(db, name, list, ks), acc)
    decreases |ks|
  {
    if ks != [] {
      var rs := BatchResults(db, name, list, ks);
      assert rs[1..] == BatchResults(db, name, list, ks[1..]);
      if rs[0].Ok? {
        BatchChildrenCollect(db, name, list, ks[1..], acc + [rs[0].value]);
      }
    }
  }

  /**
   * One child of a batch job: a string entry references the registered job
   * of that name; an inline array without a name is named
   * "<batch>.<index>" and goes to buildJob(); one with a name goes as it is.
   */
  lemma BatchChildMeaning(db: DefinitionBuilder, batch: string, list: PArray, k: Key)
    requires k in list.items
    ensures list.items[k].Str? ==> BatchChild(db, Str(batch), list, k) == Ok(ReferencedJob(list.items[k].s, Empty()))
    ensures list.items[k].Arr? && !IsSet(list.items[k].a, S("name")) ==>
      BatchChild(db, Str(batch), list, k) ==
        BuildJob(db, list.items[k].a.Put(S("name"), Str(batch + "." + KeyToString(k))))
    ensures list.items[k].Arr? && IsSet(list.items[k].a, S("name")) ==>
      BatchChild(db, Str(batch), list, k) == BuildJob(db, list.items[k].a)
  {
  }

  /**
   * A batch job definition: named after the string `name` entry, its jobs
   * the children built from the `jobs` entries in their order, its data
   * the input without `name` and `jobs`.
   */
  lemma BatchJobBuildMeaning(db: DefinitionBuilder, data: PArray)
    requires S("name") in data.items && data.items[S("name")].Str?
    requires S("jobs") in data.items && data.items[S("jobs")].Arr?
    requires data.items[S("jobs")].a.Valid()
    ensures var list := data.items[S("jobs")].a;
      var r := BatchJobBuild(db, data);
      && (r.Ok? <==> forall i :: 0 <= i < |list.keys| ==> BatchChild(db, data.items[S("name")], list, list.keys[i]).Ok?)
      && (r.Ok? ==>
          && r.value == BatchJob(data.items[S("name")].s, r.value.jobs, data.Remove(S("name")).Remove(S("jobs")))
          && |r.value.jobs| == |list.keys|
          && (forall i :: 0 <= i < |list.keys| ==>
                BatchChild(db, data.items[S("name")], list, list.keys[i]) == Ok(r.value.jobs[i])))
  {
    var list := data.items[S("jobs")].a;
    assert forall i :: 0 <= i < |list.keys| ==> list.keys[i] in list.items;
    BatchChildrenCollect(db, data.items[S("name")], list, list.keys, []);
    CollectMeaning(BatchResults(db, data.items[S("name")], list, list.keys), []);
  }
}
