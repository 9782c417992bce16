/**
 * What the definition layer promises: has() and get() agree, getData()'s
 * one-level merge against its pointwise description, has() against the
 * keys of getData(), and set() being read back by get().
 */
module DefinitionProperties {

  import opened Errors
  import opened OrderedMaps
  import opened Values
  import opened Configurations
  import opened Definitions

  /** The own data arrays of a definition and of the definitions it decorates are well formed. */
  ghost predicate WellFormed(d: Definition) {
    d.data.Valid() && (d.Decorated? ==> WellFormed(d.decorated))
  }

  ghost predicate ConfigWellFormed(cfg: Snapshot)
  {
    (forall n :: n in cfg.jobs.items ==> WellFormed(cfg.jobs.items[n])) &&
    (forall n :: n in cfg.dictionaries.items ==> WellFormed(cfg.dictionaries.items[n]))
  }

  /**
   * has() and get() resolve a key along the same path: get() succeeds
   * exactly when has() says true, fails with "Key ... does not exist."
   * exactly when has() says false, and fails like has() otherwise.
   */
  lemma {:induction false} HasAgreesWithGet(cfg: Snapshot, d: Definition, k: string, visited: set<Slot>)
    ensures HasIn(cfg, d, k, visited) == Ok(true) ==> GetIn(cfg, d, k, visited).Ok?
    ensures HasIn(cfg, d, k, visited) == Ok(false) ==> GetIn(cfg, d, k, visited) == Err(MissingKey(k))
    ensures HasIn(cfg, d, k, visited).Err? ==> GetIn(cfg, d, k, visited) == Err(HasIn(cfg, d, k, visited).error)
    decreases Slots(cfg) - visited, d
  {
    if StrKey(k) in d.data.items {
    } else if d.Decorated? {
      HasAgreesWithGet(cfg, d.decorated, k, visited);
    } else if DelegateSlot(d).Some? {
      var slot := DelegateSlot(d).value;
      if LookupSlot(cfg, slot).Ok? && slot !in visited {
        HasAgreesWithGet(cfg, LookupSlot(cfg, slot).value, k, visited + {slot});
      }
    }
  }

  /** set() is read back by get() and has(), whatever kind of definition it is. */
  lemma SetThenGet(cfg: Snapshot, d: Definition, k: string, v: Value)
    ensures Get(cfg, Set(d, k, v), k) == Ok(v)
    ensures Has(cfg, Set(d, k, v), k) == Ok(true)
    ensures forall k2 :: k2 != k && StrKey(k2) in d.data.items ==> Get(cfg, Set(d, k, v), k2) == Get(cfg, d, k2)
  {
    var d2 := Set(d, k, v);
    forall k2 | k2 != k && StrKey(k2) in d.data.items ensures Get(cfg, d2, k2) == Get(cfg, d, k2) {
      assert StrKey(k2) in d2.data.items;
    }
  }

  // ----- the one-level merge of getData() -----

  /** The value the merge gives key `k`, described point by point. */
  function MergedValue(parent: PArray, local: PArray, k: Key): Value
    requires k in local.items
  {
    var v := local.items[k];
    if k in parent.items && v.Arr? && parent.items[k].Arr? then Arr(ArrayMerge(parent.items[k].a, v.a))
    else v
  }

  /** Some own array value meets a parent value that is not an array. */
  ghost predicate Conflict(parent: PArray, local: PArray, ks: seq<Key>) {
    exists k :: k in ks && k in local.items && local.items[k].Arr? && k in parent.items && !parent.items[k].Arr?
  }

  /** The own value of `k` is an array and the parent's value of `k` is not. */
  ghost predicate ConflictAt(parent: PArray, local: PArray, k: Key) {
    k in local.items && local.items[k].Arr? && k in parent.items && !parent.items[k].Arr?
  }

  /** The own keys of `ks` the parent lacks, in the order listed. */
  function AddedKeys(parent: PArray, local: PArray, ks: seq<Key>): seq<Key> {
    if ks == [] then []
    else (if ks[0] in local.items && ks[0] !in parent.items then [ks[0]] else []) + AddedKeys(parent, local, ks[1..])
  }

  /** Which keys are added depends only on which keys the parent has. */
  lemma {:induction false} AddedKeysAlike(a: PArray, b: PArray, local: PArray, ks: seq<Key>)
    requires forall k :: k in ks ==> (k in a.items <==> k in b.items)
    ensures AddedKeys(a, local, ks) == AddedKeys(b, local, ks)
  {
    if ks != [] {
      assert ks[0] in ks;
      AddedKeysAlike(a, b, local, ks[1..]);
    }
  }

  /** A merge that succeeds keeps the parent's key order and appends the added own keys in listed order. */
  lemma {:induction false} MergeLocalOrder(parent: PArray, local: PArray, ks: seq<Key>)
    requires Distinct(ks) && MergeLocal(parent, local, ks).Ok?
    ensures MergeLocal(parent, local, ks).value.keys == parent.keys + AddedKeys(parent, local, ks)
    decreases |ks|
  {
    if ks == [] {
    } else if ks[0] !in local.items {
      DistinctTail(ks);
      MergeLocalOrder(parent, local, ks[1..]);
    } else {
      var k0 := ks[0];
      DistinctTail(ks);
      var next := parent.Put(k0, MergedValue(parent, local, k0));
      assert MergeLocal(parent, local, ks) == MergeLocal(next, local, ks[1..]);
      MergeLocalOrder(next, local, ks[1..]);
      AddedKeysAlike(next, parent, local, ks[1..]);
    }
  }

  /** A merge that fails reports the first listed key with a conflict. */
  lemma {:induction false} MergeLocalFirstConflict(parent: PArray, local: PArray, ks: seq<Key>)
    requires Distinct(ks) && MergeLocal(parent, local, ks).Err?
    ensures exists i ::
      && 0 <= i < |ks| && ConflictAt(parent, local, ks[i])
      && (forall j :: 0 <= j < i ==> !ConflictAt(parent, local, ks[j]))
      && MergeLocal(parent, local, ks).error == CannotMerge(ks[i])
    decreases |ks|
  {
    var k0 := ks[0];
    DistinctTail(ks);
    if k0 in local.items && ConflictAt(parent, local, k0) {
      assert ConflictAt(parent, local, ks[0]);
    } else {
      var next := if k0 in local.items then parent.Put(k0, MergedValue(parent, local, k0)) else parent;
      assert MergeLocal(parent, local, ks) == MergeLocal(next, local, ks[1..]);
      MergeLocalFirstConflict(next, local, ks[1..]);
      var i :| 0 <= i < |ks[1..]| && ConflictAt(next, local, ks[1..][i])
        && (forall j :: 0 <= j < i ==> !ConflictAt(next, local, ks[1..][j]))
        && MergeLocal(next, local, ks[1..]).error == CannotMerge(ks[1..][i]);
      forall j | 0 <= j <= i ensures ConflictAt(next, local, ks[1..][j]) == ConflictAt(parent, local, ks[1..][j]) {
        assert ks[1..][j] in ks[1..];
      }
      assert ConflictAt(parent, local, ks[i + 1]);
      forall j | 0 <= j < i + 1 ensures !ConflictAt(parent, local, ks[j]) {
        if j > 0 { assert ks[j] == ks[1..][j - 1]; }
      }
    }
  }

  /**
   * The merge loop fails exactly on a conflict, with the "Can not merge key"
   * error of a conflicting key; otherwise it keeps every parent key, adds
   * the own ones, and gives each own key its merged value and every other
   * key the parent's value. The parent's keys keep their order and the
   * added own keys follow in listed order; a failure names the first
   * listed key with a conflict.
   */
  lemma {:induction false} MergeLocalMeaning(parent: PArray, local: PArray, ks: seq<Key>)
    requires Distinct(ks)
    ensures MergeLocal(parent, local, ks).Ok? <==> !Conflict(parent, local, ks)
    ensures MergeLocal(parent, local, ks).Ok? ==>
      MergeLocal(parent, local, ks).value.keys == parent.keys + AddedKeys(parent, local, ks)
    ensures MergeLocal(parent, local, ks).Err? ==> exists i ::
      && 0 <= i < |ks| && ConflictAt(parent, local, ks[i])
      && (forall j :: 0 <= j < i ==> !ConflictAt(parent, local, ks[j]))
      && MergeLocal(parent, local, ks).error == CannotMerge(ks[i])
    ensures MergeLocal(parent, local, ks).Err? ==> exists k ::
      k in ks && k in local.items && local.items[k].Arr? && k in parent.items && !parent.items[k].Arr? &&
      MergeLocal(parent, local, ks).error == CannotMerge(k)
    ensures MergeLocal(parent, local, ks).Ok? ==>
      var r := MergeLocal(parent, local, ks).value;
      (parent.Valid() ==> r.Valid()) &&
      (forall k :: k in r.items <==> k in parent.items || (k in ks && k in local.items)) &&
      (forall k :: k in r.items ==>
        r.items[k] == if k in ks && k in local.items then MergedValue(parent, local, k) else parent.items[k])
    decreases |ks|
  {
    if MergeLocal(parent, local, ks).Ok? {
      MergeLocalOrder(parent, local, ks);
    } else {
      MergeLocalFirstConflict(parent, local, ks);
    }
    if ks == [] {
    } else if ks[0] !in local.items {
      DistinctTail(ks);
      MergeLocalMeaning(parent, local, ks[1..]);
      assert forall k :: k in ks <==> k == ks[0] || k in ks[1..];
    } else {
      var k0, v := ks[0], local.items[ks[0]];
      assert forall k :: k in ks <==> k == ks[0] || k in ks[1..];
      DistinctTail(ks);
      if k0 in parent.items && v.Arr? && !parent.items[k0].Arr? {
        assert Conflict(parent, local, ks);
      } else {
        var next := parent.Put(k0, MergedValue(parent, local, k0));
        assert MergeLocal(parent, local, ks) == MergeLocal(next, local, ks[1..]);
        MergeLocalMeaning(next, local, ks[1..]);
        MergeStep(parent, local, ks);
        if MergeLocal(next, local, ks[1..]).Err? {
          var k :| k in ks[1..] && k in local.items && local.items[k].Arr? && k in next.items && !next.items[k].Arr? &&
            MergeLocal(next, local, ks[1..]).error == CannotMerge(k);
          assert k in ks && k in parent.items && next.items[k] == parent.items[k];
        }
      }
    }
  }

  /** One merge step leaves every later key's parent value alone, so a conflict later on is a conflict overall. */
  lemma MergeStep(parent: PArray, local: PArray, ks: seq<Key>)
    requires Distinct(ks) && ks != [] && ks[0] in local.items
    requires !(ks[0] in parent.items && local.items[ks[0]].Arr? && !parent.items[ks[0]].Arr?)
    ensures var next := parent.Put(ks[0], MergedValue(parent, local, ks[0]));
      && (Conflict(next, local, ks[1..]) <==> Conflict(parent, local, ks))
      && forall k :: k in ks[1..] ==>
           k in ks && (k in next.items <==> k in parent.items) && (k in parent.items ==> next.items[k] == parent.items[k])
  {
    var k0 := ks[0];
    var next := parent.Put(k0, MergedValue(parent, local, k0));
    DistinctTail(ks);
    assert forall k :: k in ks <==> k == k0 || k in ks[1..];
    if Conflict(parent, local, ks) {
      var k :| k in ks && k in local.items && local.items[k].Arr? && k in parent.items && !parent.items[k].Arr?;
      assert k in ks[1..];
    }
  }

  /** A well-formed definition's own keys are exactly its key list, each once. */
  lemma OwnKeys(d: Definition)
    requires d.data.Valid()
    ensures Distinct(d.data.keys)
    ensures forall k :: k in d.data.keys && k in d.data.items <==> k in d.data.items
  {
  }

  /**
   * When getData() succeeds, has() answers exactly whether getData()'s
   * array holds the key.
   */
  lemma {:induction false} HasMatchesData(cfg: Snapshot, d: Definition, k: string, visited: set<Slot>)
    requires ConfigWellFormed(cfg) && WellFormed(d)
    requires GetDataIn(cfg, d, visited).Ok?
    ensures HasIn(cfg, d, k, visited) == Ok(StrKey(k) in GetDataIn(cfg, d, visited).value.items)
    decreases Slots(cfg) - visited, d
  {
    if d.Decorated? {
      var parent := GetDataIn(cfg, d.decorated, visited).value;
      OwnKeys(d);
      MergeLocalMeaning(parent, d.data, d.data.keys);
      HasMatchesData(cfg, d.decorated, k, visited);
    } else if DelegateSlot(d).Some? {
      var slot := DelegateSlot(d).value;
      var base := LookupSlot(cfg, slot).value;
      var parent := GetDataIn(cfg, base, visited + {slot}).value;
      OwnKeys(d);
      MergeLocalMeaning(parent, d.data, d.data.keys);
      HasMatchesData(cfg, base, k, visited + {slot});
    }
  }

  // ----- the accessors of dictionary definitions -----

  /**
   * A plain dictionary definition: getType(), getSourceLanguage() and
   * getTargetLanguage() read their entry or fail naming the definition;
   * getProvider() falls back to the type and getDictionary() to the name.
   */
  lemma PlainAccessors(cfg: Snapshot, name: string, data: PArray)
    ensures var d := Dictionary(name, data);
      && GetType(cfg, d) ==
           (if S("type") in data.items then AsString(data.items[S("type")])
            else Err(Runtime("No type set for dictionary " + Quote(name))))
      && GetSourceLanguage(cfg, d) ==
           (if S("source_language") in data.items then AsString(data.items[S("source_language")])
            else Err(Runtime("No source language set for dictionary " + Quote(name))))
      && GetTargetLanguage(cfg, d) ==
           (if S("target_language") in data.items then AsString(data.items[S("target_language")])
            else Err(Runtime("No target language set for dictionary " + Quote(name))))
      && GetProvider(cfg, d) ==
           (if S("provider") in data.items then AsString(data.items[S("provider")]) else GetType(cfg, d))
      && GetDictionaryName(cfg, d) ==
           (if S("dictionary") in data.items then AsString(data.items[S("dictionary")]) else Ok(name))
  {
  }

  /**
   * A decorated definition reads every key it does not override from the
   * definition it decorates, and so does each accessor: with neither
   * defining the type or a language, both fail with the same error, which
   * names the decorated definition.
   */
  lemma DecoratedReadsThrough(cfg: Snapshot, base: Definition, overrides: PArray, k: string)
    requires base.IsDictionaryDefinition()
    ensures StrKey(k) !in overrides.items ==>
      Get(cfg, Decorated(base, overrides), k) == Get(cfg, base, k) &&
      Has(cfg, Decorated(base, overrides), k) == Has(cfg, base, k)
    ensures StrKey(k) in overrides.items ==> Get(cfg, Decorated(base, overrides), k) == Ok(overrides.items[StrKey(k)])
    ensures S("type") !in overrides.items ==> GetType(cfg, Decorated(base, overrides)) == GetType(cfg, base)
    ensures S("source_language") !in overrides.items ==>
      GetSourceLanguage(cfg, Decorated(base, overrides)) == GetSourceLanguage(cfg, base)
    ensures S("target_language") !in overrides.items ==>
      GetTargetLanguage(cfg, Decorated(base, overrides)) == GetTargetLanguage(cfg, base)
  {
  }

  /**
   * An extended dictionary definition reads its own entries first and every
   * other key from the registered dictionary of its name, which is looked
   * up when it is read; an unregistered name fails with "Dictionary not
   * found". (The base here is a plain dictionary definition.)
   */
  lemma ExtendedLocalFirst(cfg: Snapshot, name: string, overrides: PArray, k: string)
    ensures var d := ExtendedDictionary(name, overrides);
      && (StrKey(k) in overrides.items ==> Get(cfg, d, k) == Ok(overrides.items[StrKey(k)]))
      && (StrKey(k) !in overrides.items && !cfg.HasDictionary(name) ==>
            Get(cfg, d, k) == Err(InvalidArgument("Dictionary not found: " + name)) &&
            Has(cfg, d, k) == Err(InvalidArgument("Dictionary not found: " + name)))
      && (StrKey(k) !in overrides.items && cfg.HasDictionary(name) && cfg.dictionaries.items[name].Dictionary? ==>
            Get(cfg, d, k) == Get(cfg, cfg.dictionaries.items[name], k) &&
            Has(cfg, d, k) == Has(cfg, cfg.dictionaries.items[name], k))
  {
    var d, slot := ExtendedDictionary(name, overrides), DictionarySlot(name);
    if StrKey(k) !in overrides.items && cfg.HasDictionary(name) && cfg.dictionaries.items[name].Dictionary? {
      var base := cfg.dictionaries.items[name];
      assert LookupSlot(cfg, slot) == Ok(base);
      var none: set<Slot> := {};
      assert slot !in none && none + {slot} == {slot};
      assert GetIn(cfg, d, k, none) == GetIn(cfg, base, k, none + {slot});
      assert HasIn(cfg, d, k, none) == HasIn(cfg, base, k, none + {slot});
    }
  }

  /**
   * A referenced job definition finds the job registered under its name at
   * the time it is read; an unregistered name fails with "Job not found".
   */
  lemma ReferencedJobLookup(cfg: Snapshot, name: string, local: PArray, k: string)
    ensures var d := ReferencedJob(name, local);
      && Delegated(cfg, d) == cfg.GetJob(name)
      && (StrKey(k) !in local.items && !cfg.HasJob(name) ==>
            Get(cfg, d, k) == Err(InvalidArgument("Job not found: " + name)))
      && (StrKey(k) !in local.items && cfg.HasJob(name) && cfg.jobs.items[name].CopyJob? ==>
            Get(cfg, d, k) == Get(cfg, cfg.jobs.items[name], k))
  {
    var d, slot := ReferencedJob(name, local), JobSlot(name);
    if StrKey(k) !in local.items && cfg.HasJob(name) && cfg.jobs.items[name].CopyJob? {
      var base := cfg.jobs.items[name];
      assert LookupSlot(cfg, slot) == Ok(base);
      var none: set<Slot> := {};
      assert slot !in none && none + {slot} == {slot};
      assert GetIn(cfg, d, k, none) == GetIn(cfg, base, k, none + {slot});
    }
  }

  /** Copy and batch job definitions answer has() and get() from their extra data only. */
  lemma JobDefinitionsReadOwnData(cfg: Snapshot, d: Definition, k: string)
    requires d.CopyJob? || d.BatchJob?
    ensures Has(cfg, d, k) == Ok(StrKey(k) in d.data.items)
    ensures Get(cfg, d, k) == if StrKey(k) in d.data.items then Ok(d.data.items[StrKey(k)]) else Err(MissingKey(k))
    ensures GetData(cfg, d) == Ok(d.data)
  {
  }

  // ----- getData() over an empty delegate -----

  /** The merge loop over entries none of which the combined array has yet appends them in order. */
  lemma {:induction false} MergeFresh(combined: PArray, local: PArray, ks: seq<Key>)
    requires Distinct(ks)
    requires forall k :: k in ks ==> k in local.items && k !in combined.items
    ensures var r := MergeLocal(combined, local, ks);
      && r.Ok? && r.value.keys == combined.keys + ks
      && (forall k :: k in r.value.items <==> k in combined.items || k in ks)
      && (forall k :: k in r.value.items ==>
            r.value.items[k] == if k in combined.items then combined.items[k] else local.items[k])
    decreases |ks|
  {
    if ks != [] {
      var next := combined.Put(ks[0], local.items[ks[0]]);
      DistinctTail(ks);
      assert forall k :: k in ks <==> k == ks[0] || k in ks[1..];
      MergeFresh(next, local, ks[1..]);
      assert next.keys + ks[1..] == combined.keys + ks;
    }
  }

  /** Over a delegate with no data, getData() of a layered definition is its own data. */
  lemma MergeOverEmpty(local: PArray)
    requires local.Valid()
    ensures MergeLocal(Empty(), local, local.keys) == Ok(local)
  {
    var e: PArray := Empty();
    MergeFresh(e, local, local.keys);
    var r := MergeLocal(e, local, local.keys).value;
    assert r.keys == local.keys;
    assert r.items == local.items by {
      forall k ensures k in r.items <==> k in local.items {
      }
      forall k | k in r.items ensures r.items[k] == local.items[k] {
      }
    }
  }

  /**
   * An extended dictionary over a registered dictionary with no data, and a
   * referenced job over a registered job with no data, have exactly their
   * own data.
   */
  lemma LayeredOverEmptyBase(cfg: Snapshot, d: Definition)
    requires d.ExtendedDictionary? || d.ReferencedJob?
    requires d.data.Valid()
    requires Delegated(cfg, d).Ok? && Delegated(cfg, d).value.data == Empty()
    requires Delegated(cfg, d).value.Dictionary? || Delegated(cfg, d).value.CopyJob?
    ensures GetData(cfg, d) == Ok(d.data)
  {
    var slot, base := DelegateSlot(d).value, Delegated(cfg, d).value;
    var none: set<Slot> := {};
    assert slot !in none;
    assert GetDataIn(cfg, base, none + {slot}) == Ok(Empty());
    MergeOverEmpty(d.data);
    assert GetDataIn(cfg, d, none) == MergeLocal(Empty(), d.data, d.data.keys);
  }
}
