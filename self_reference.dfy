/**
 * Definitions that reach themselves through the configuration.
 *
 * An extended dictionary definition looks up the configuration's dictionary
 * of its own name, and a referenced job definition the job of its own name.
 * When that entry is the definition itself (an extended dictionary "x"
 * registered as dictionary "x", a batch "b" listing a reference to "b"),
 * `get()` and `createJob()` call themselves with the same arguments again
 * and again. `GetAsWritten` is `get()` with nothing that stops it but a
 * bound on the number of lookups; `Definitions.GetIn`, which the model
 * uses, reports the repeated lookup as `DefinitionCycle`.
 */
module SelfReference {

  import opened Errors
  import opened OrderedMaps
  import opened Values
  import opened Configurations
  import opened Definitions
  import opened BuildPlans

  /**
   * get($key) as the definitions write it: the own value, otherwise the
   * delegate's `get($key)`, with no record of the entries already looked
   * up. `fuel` bounds the number of registry lookups.
   */
  function GetAsWritten(cfg: Snapshot, d: Definition, k: string, fuel: nat): (r: Result<Value>)
    ensures StrKey(k) in d.data.items ==> r == Ok(d.data.items[StrKey(k)])
    decreases fuel, d
  {
    if StrKey(k) in d.data.items then Ok(d.data.items[StrKey(k)])
    else if d.Decorated? then GetAsWritten(cfg, d.decorated, k, fuel)
    else if DelegateSlot(d).Some? then
      var base :- LookupSlot(cfg, DelegateSlot(d).value);
      if fuel == 0 then Err(DepthExceeded)
      else GetAsWritten(cfg, base, k, fuel - 1)
    else Err(MissingKey(k))
  }

  /** An extended dictionary registered under its own name, asked for a key it does not hold itself. */
  predicate SelfExtended(cfg: Snapshot, d: Definition, k: string) {
    d.ExtendedDictionary? && cfg.GetDictionary(d.name) == Ok(d) && StrKey(k) !in d.data.items
  }

  /** As written, `get()` on such a definition never returns: every bound on the lookups runs out. */
  lemma {:induction false} SelfExtendedRunsOut(cfg: Snapshot, d: Definition, k: string, fuel: nat)
    requires SelfExtended(cfg, d, k)
    ensures GetAsWritten(cfg, d, k, fuel) == Err(DepthExceeded)
  {
    assert LookupSlot(cfg, DelegateSlot(d).value) == Ok(d);
    if fuel > 0 {
      SelfExtendedRunsOut(cfg, d, k, fuel - 1);
    }
  }

  /** `Definitions.Get` stops at the second lookup of the same entry and names the definition. */
  lemma SelfExtendedIsCycle(cfg: Snapshot, d: Definition, k: string)
    requires SelfExtended(cfg, d, k)
    ensures Get(cfg, d, k) == Err(DefinitionCycle(d.name))
    ensures Has(cfg, d, k) == Err(DefinitionCycle(d.name))
  {
    var slot := DictionarySlot(d.name);
    assert DelegateSlot(d) == Some(slot);
    assert LookupSlot(cfg, slot) == Ok(d);
    assert GetIn(cfg, d, k, {slot}) == Err(DefinitionCycle(d.name));
    assert GetIn(cfg, d, k, {}) == GetIn(cfg, d, k, {} + {slot});
    assert HasIn(cfg, d, k, {slot}) == Err(DefinitionCycle(d.name));
    assert HasIn(cfg, d, k, {}) == HasIn(cfg, d, k, {} + {slot});
  }

  /**
   * Wherever `Definitions.GetIn` finds no cycle, `get()` as written gives
   * the same answer once it may make as many lookups as the configuration
   * has entries left to visit: the two differ only on self-reference.
   */
  lemma {:induction false} AsWrittenAgreesWithoutCycle(cfg: Snapshot, d: Definition, k: string, visited: set<Slot>, fuel: nat)
    requires !(GetIn(cfg, d, k, visited).Err? && GetIn(cfg, d, k, visited).error.DefinitionCycle?)
    requires fuel >= |Slots(cfg) - visited|
    ensures GetAsWritten(cfg, d, k, fuel) == GetIn(cfg, d, k, visited)
    decreases Slots(cfg) - visited, d
  {
    if StrKey(k) in d.data.items {
    } else if d.Decorated? {
      AsWrittenAgreesWithoutCycle(cfg, d.decorated, k, visited, fuel);
    } else if DelegateSlot(d).Some? {
      var slot := DelegateSlot(d).value;
      var base := LookupSlot(cfg, slot);
      if base.Ok? {
        assert slot !in visited;
        assert GetIn(cfg, d, k, visited) == GetIn(cfg, base.value, k, visited + {slot});
        FewerLeft(Slots(cfg), visited, slot);
        assert GetAsWritten(cfg, d, k, fuel) == GetAsWritten(cfg, base.value, k, fuel - 1);
        AsWrittenAgreesWithoutCycle(cfg, base.value, k, visited + {slot}, fuel - 1);
      }
    }
  }

  /** Visiting one more entry leaves one fewer to visit. */
  lemma FewerLeft<T>(all: set<T>, visited: set<T>, x: T)
    requires x in all && x !in visited
    ensures |all - (visited + {x})| + 1 == |all - visited|
  {
    assert all - visited == (all - (visited + {x})) + {x};
  }

  /** The batch "b" that lists one job: a reference to "b" itself. */
  function SelfBatch(name: string, data: PArray): Definition {
    BatchJob(name, [ReferencedJob(name, Empty())], data)
  }

  /** A configuration and services under which the batch of `SelfBatch` is registered and built as a batch. */
  predicate SelfBatchWired(cfg: Snapshot, services: Services, name: string, data: PArray) {
    && "batch" in services.jobBuilders && services.jobBuilders["batch"] == BatchJobBuilder
    && StrKey(TypeKey) in data.items && data.items[StrKey(TypeKey)] == Str("batch")
    && cfg.GetJob(name) == Ok(SelfBatch(name, data))
  }

  /** The reference inside the batch reads its type from the batch it names. */
  lemma SelfReferenceType(cfg: Snapshot, services: Services, name: string, data: PArray)
    requires SelfBatchWired(cfg, services, name, data)
    ensures JobType(cfg, ReferencedJob(name, Empty())) == Ok("batch")
    ensures Unwrapped(cfg, ReferencedJob(name, Empty())) == Ok(SelfBatch(name, data))
  {
    var slot := JobSlot(name);
    assert LookupSlot(cfg, slot) == Ok(SelfBatch(name, data));
    assert GetIn(cfg, SelfBatch(name, data), TypeKey, {slot}) == Ok(Str("batch"));
  }

  /**
   * `createJob()` of the reference: each round builds the batch, whose one
   * job is the reference again, so every bound on the nesting runs out.
   */
  lemma {:induction false} SelfReferenceRunsOut(cfg: Snapshot, services: Services, name: string, data: PArray,
                                                fuel: nat, shapes: Shapes)
    requires SelfBatchWired(cfg, services, name, data)
    ensures JobPlan(cfg, services, ReferencedJob(name, Empty()), fuel, shapes).result == Err(DepthExceeded)
  {
    if fuel > 0 {
      var ref := ReferencedJob(name, Empty());
      SelfReferenceType(cfg, services, name, data);
      SelfReferenceRunsOut(cfg, services, name, data, fuel - 1, shapes);
      assert BatchChildren(cfg, services, [ref], fuel - 1, 0, Empty(), shapes).result == Err(DepthExceeded);
      assert JobPlan(cfg, services, ref, fuel, shapes) == BatchPlan(cfg, services, ref, fuel - 1, shapes);
    }
  }

  /** The batch itself: building it builds the reference, so it never completes either. */
  lemma SelfBatchRunsOut(cfg: Snapshot, services: Services, name: string, data: PArray, fuel: nat, shapes: Shapes)
    requires SelfBatchWired(cfg, services, name, data)
    ensures JobPlan(cfg, services, SelfBatch(name, data), fuel, shapes).result == Err(DepthExceeded)
    ensures JobByNamePlan(cfg, services, name, fuel, shapes).result == Err(DepthExceeded)
  {
    var b := SelfBatch(name, data);
    if fuel > 0 {
      assert JobType(cfg, b) == Ok("batch") by {
        assert Get(cfg, b, TypeKey) == Ok(Str("batch"));
      }
      SelfReferenceRunsOut(cfg, services, name, data, fuel - 1, shapes);
      assert BatchChildren(cfg, services, b.jobs, fuel - 1, 0, Empty(), shapes).result == Err(DepthExceeded);
    }
  }
}
