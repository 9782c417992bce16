/**
 * JobFactory and the builders it hands definitions to: CopyJobBuilder,
 * BatchJobBuilder, CompoundDictionaryBuilder and DefaultDictionaryBuilder.
 *
 * Each method is proved against its plan in BuildPlans: it succeeds
 * exactly when the plan does, fails with the plan's error, leaves every
 * provider with the dictionaries the plan's shapes say, and builds objects
 * laid out as the plan's request describes.
 */
module JobFactories {

  import opened Errors
  import opened OrderedMaps
  import opened Values
  import opened Configurations
  import opened Definitions
  import opened CopySpec
  import opened Memory
  import Compound
  import opened Dictionaries
  import CopyJob
  import Batches
  import opened MemoryProviders
  import opened BuildPlans
  import opened BuildPlanProperties

  /** The dictionary object is laid out as the request describes. */
  ghost predicate DictRealizes(d: Dict, req: DictRequest, writable: bool)
    reads if d.CompoundDict? then {d.compound} else {}
  {
    match req
    case Single(l) =>
      && d.MemoryDict?
      && d.memory.sourceLanguage == l.sourceLanguage && d.memory.targetLanguage == l.targetLanguage
    case CompoundOf(sourceLanguage, targetLanguage, children) =>
      && d.CompoundDict?
      && d.compound.sourceLanguage == sourceLanguage && d.compound.targetLanguage == targetLanguage
      && d.compound.writable == writable
      && d.compound.prefixes == Prefixes(children)
      && d.compound.children.Keys == Taken(children)
  }

  function DictCompounds(d: Dict): set<Compound.CompoundDictionary> {
    if d.CompoundDict? then {d.compound} else {}
  }

  /**
   * The objects `Realizes` reads: the copy jobs the request describes,
   * found in the job, and their compound dictionaries.
   */
  function Parts(job: Batches.Job, req: JobRequest): set<object>
    decreases req, 1
  {
    match req
    case CopyRequest(_, _, _) =>
      if job.Copy? then {job.copy} + DictCompounds(job.copy.source) + DictCompounds(job.copy.target) else {}
    case BatchRequest(jobs) =>
      if job.Batch? then Gathered(job.batch.jobs, jobs) else {}
  }

  /** The objects the jobs stored under the planned names are made of. */
  function Gathered(jobs: OrderedMap<string, Batches.Job>, planned: OrderedMap<string, JobRequest>): set<object>
    decreases planned, 0
  {
    set k, o | k in planned.items && k in jobs.items && o in Parts(jobs.items[k], planned.items[k]) :: o
  }

  /**
   * The job is laid out as the request describes: a copy job with these
   * settings over a readable source and a writable target; a batch whose
   * jobs are keyed as the request's, each laid out as the request's job
   * under that name.
   */
  ghost predicate Realizes(job: Batches.Job, req: JobRequest)
    reads Parts(job, req)
    decreases req
  {
    match req
    case CopyRequest(source, target, settings) =>
      && job.Copy?
      && job.copy.Settings() == settings
      && DictRealizes(job.copy.source, source, false)
      && DictRealizes(job.copy.target, target, true)
    case BatchRequest(jobs) =>
      && job.Batch?
      && job.batch.Shaped()
      && job.batch.jobs.keys == jobs.keys
      && forall k :: k in jobs.items ==>
           && k in job.batch.jobs.items
           && (GatheredHas(job.batch.jobs, jobs, k); Realizes(job.batch.jobs.items[k], jobs.items[k]))
  }

  /** The objects of one stored job are among those gathered. */
  lemma GatheredHas(jobs: OrderedMap<string, Batches.Job>, planned: OrderedMap<string, JobRequest>, k: string)
    requires k in planned.items && k in jobs.items
    ensures Parts(jobs.items[k], planned.items[k]) <= Gathered(jobs, planned)
  {
  }

  /** A copy job with the request's settings over dictionaries laid out as its two requests realizes it. */
  lemma CopyRealizes(c: CopyJob.CopyDictionaryJob, req: JobRequest)
    requires req.CopyRequest? && c.Settings() == req.settings
    requires DictRealizes(c.source, req.source, false) && DictRealizes(c.target, req.target, true)
    ensures Realizes(Batches.Copy(c), req)
    ensures Parts(Batches.Copy(c), req) == {c} + DictCompounds(c.source) + DictCompounds(c.target)
  {
  }

  /** The jobs collected so far are keyed as the planned ones, each laid out as planned. */
  ghost predicate Collected(jobs: OrderedMap<string, Batches.Job>, planned: OrderedMap<string, JobRequest>)
    reads Gathered(jobs, planned)
  {
    && jobs.Valid() && planned.Valid() && jobs.keys == planned.keys
    && forall k :: k in planned.items ==> k in jobs.items && Realizes(jobs.items[k], planned.items[k])
  }

  /** Storing a job laid out as planned under a name keeps the collection as planned. */
  lemma CollectedPut(jobs: OrderedMap<string, Batches.Job>, planned: OrderedMap<string, JobRequest>,
                     name: string, job: Batches.Job, req: JobRequest)
    requires Collected(jobs, planned) && Realizes(job, req)
    ensures Collected(jobs.Put(name, job), planned.Put(name, req))
    ensures Gathered(jobs.Put(name, job), planned.Put(name, req)) <= Gathered(jobs, planned) + Parts(job, req)
  {
  }

  /** The collection stays as planned while none of its objects changes. */
  twostate lemma CollectedKept(t: (OrderedMap<string, Batches.Job>, OrderedMap<string, JobRequest>))
    requires old(Collected(t.0, t.1))
    requires forall o :: o in Gathered(t.0, t.1) ==> old(allocated(o)) && unchanged(o)
    ensures Collected(t.0, t.1)
  {
  }

  /** A batch over the collected jobs realizes the planned batch. */
  lemma BatchRealizes(b: Batches.BatchJob, planned: OrderedMap<string, JobRequest>)
    requires b.Shaped() && Collected(b.jobs, planned)
    ensures Realizes(Batches.Batch(b), BatchRequest(planned))
    ensures Parts(Batches.Batch(b), BatchRequest(planned)) == Gathered(b.jobs, planned)
  {
  }

  lemma ShapeOfPut(dictionaries: Registry, name: string, m: MemoryDictionary)
    ensures ShapeOf(dictionaries.Put(name, m)) == ShapeOf(dictionaries)[name := (m.sourceLanguage, m.targetLanguage)]
  {
  }

  lemma TakenSnoc(done: seq<(string, Lookup)>, child: (string, Lookup))
    ensures Taken(done + [child]) == Taken(done) + {child.0}
  {
    var more := done + [child];
    assert more[|done|].0 == child.0;
    forall x | x in Taken(done) ensures x in Taken(more) {
      var k :| 0 <= k < |done| && done[k].0 == x;
      assert more[k].0 == x;
    }
  }

  /**
   * `JobFactory`: the configuration, the dictionary and job builder
   * services, and the memory providers the default builders use.
   */
  class JobFactory {
    const configuration: Configuration
    const services: Services

    ghost function Providers(): set<MemoryDictionaryProvider> {
      ProviderObjects(services)
    }

    /** The dictionaries the providers have registered. */
    ghost function Registries(): set<MemoryDictionary>
      reads Providers()
    {
      set p, m | p in Providers() && m in p.dictionaries.items.Values :: m
    }

    ghost predicate Valid()
      reads configuration, Providers(), Registries()
    {
      && configuration.Valid()
      && forall p :: p in Providers() ==> p.Valid()
    }

    /** The languages of every name each provider has registered. */
    ghost function Shapes(): Shapes
      reads Providers()
    {
      map p | p in Providers() :: ShapeOf(p.dictionaries)
    }

    /** The provider dictionary of the lookup is `m`, registered there under its name. */
    ghost predicate Supplies(l: Lookup, m: MemoryDictionary)
      reads Providers()
    {
      && l.service.provider in Providers()
      && Registered(l.service.provider.dictionaries, l.name, l.sourceLanguage, l.targetLanguage) == Some(m)
    }

    /** `new JobFactory(...)`. */
    constructor (configuration: Configuration, services: Services)
      ensures this.configuration == configuration && this.services == services
    {
      this.configuration := configuration;
      this.services := services;
    }

    /** `getJobNames()`: the configured job names, each once. */
    method GetJobNames() returns (r: seq<string>)
      requires Valid()
      ensures r == configuration.JobNames()
      ensures Distinct(r)
      ensures forall name :: name in r <==> configuration.HasJob(name)
    {
      r := configuration.JobNames();
    }

    // ----- DefaultDictionaryBuilder -----

    /** DefaultDictionaryBuilder::build(): the provider's registered dictionary. */
    method BuildDefault(cfg: Snapshot, providers: map<string, ProviderService>, d: Definition)
      returns (r: Result<MemoryDictionary>)
      requires Valid() && d.IsDictionaryDefinition()
      requires forall s :: s in providers.Values ==> s.provider in Providers()
      ensures var plan := DefaultPlan(cfg, providers, d, false, Shapes());
        && (r.Ok? <==> plan.result.Ok?)
        && (r.Err? ==> r.error == plan.result.error)
        && (r.Ok? ==> Supplies(plan.result.value, r.value) && r.value.Valid())
    {
      var service := ProviderCheck(cfg, providers, d, false);
      if service.Err? {
        return Err(service.error);
      }
      var found := LookupOf(cfg, service.value, d);
      if found.Err? {
        return Err(found.error);
      }
      r := OpenReadable(found.value);
    }

    /** The provider's dictionary of that name in those languages, if it has one. */
    method OpenReadable(l: Lookup) returns (r: Result<MemoryDictionary>)
      requires Valid() && l.service.provider in Providers()
      ensures var plan := Open(l, false, Shapes());
        && (r.Ok? <==> plan.result.Ok?)
        && (r.Err? ==> r.error == plan.result.error)
        && (r.Ok? ==> Supplies(l, r.value) && r.value.Valid())
    {
      var p := l.service.provider;
      KnowsRegistered(p.dictionaries, l.name, l.sourceLanguage, l.targetLanguage);
      r := p.GetDictionary(l.name, l.sourceLanguage, l.targetLanguage);
    }

    /**
     * The provider's dictionary for write, or a new one it registers when
     * it has none of that name in those languages.
     */
    method OpenWritable(l: Lookup) returns (r: MemoryDictionary)
      requires Valid() && l.service.provider in Providers()
      modifies l.service.provider
      ensures Valid()
      ensures Shapes() == old(Open(l, true, Shapes())).after
      ensures Supplies(l, r) && r.Valid()
    {
      var p := l.service.provider;
      KnowsRegistered(p.dictionaries, l.name, l.sourceLanguage, l.targetLanguage);
      var found := p.GetDictionaryForWrite(l.name, l.sourceLanguage, l.targetLanguage);
      if found.Ok? {
        return found.value;
      }
      ghost var before := p.dictionaries;
      var created := p.CreateDictionary(l.name, l.sourceLanguage, l.targetLanguage);
      r := created.value;
      ShapeOfPut(before, l.name, r);
      forall q | q in Providers() && q != p
        ensures q.dictionaries == old(q.dictionaries) && q.Valid()
      {
      }
      ShapesAfter(p);
    }

    /** Only `p` changed its registrations: only its shape changes. */
    twostate lemma ShapesAfter(p: MemoryDictionaryProvider)
      requires p in Providers()
      requires forall q :: q in Providers() && q != p ==> q.dictionaries == old(q.dictionaries)
      ensures Shapes() == old(Shapes())[p := ShapeOf(p.dictionaries)]
    {
    }

    /** DefaultDictionaryBuilder::buildWritable(). */
    method BuildDefaultWritable(cfg: Snapshot, providers: map<string, ProviderService>, d: Definition)
      returns (r: Result<MemoryDictionary>)
      requires Valid() && d.IsDictionaryDefinition()
      requires forall s :: s in providers.Values ==> s.provider in Providers()
      modifies Providers()
      ensures Valid()
      ensures var plan := old(DefaultPlan(cfg, providers, d, true, Shapes()));
        && (r.Ok? <==> plan.result.Ok?)
        && (r.Err? ==> r.error == plan.result.error)
        && Shapes() == plan.after
        && (r.Ok? ==> Supplies(plan.result.value, r.value) && r.value.Valid())
    {
      var service := ProviderCheck(cfg, providers, d, true);
      if service.Err? {
        return Err(service.error);
      }
      var found := LookupOf(cfg, service.value, d);
      if found.Err? {
        return Err(found.error);
      }
      var m := OpenWritable(found.value);
      r := Ok(m);
    }

    // ----- CompoundDictionaryBuilder -----

    /** The default builder's dictionary, readable or (`writable`) writable. */
    method BuildDefaultEither(cfg: Snapshot, providers: map<string, ProviderService>, d: Definition, writable: bool)
      returns (r: Result<MemoryDictionary>)
      requires Valid() && d.IsDictionaryDefinition()
      requires forall s :: s in providers.Values ==> s.provider in Providers()
      modifies if writable then Providers() else {}
      ensures Valid()
      ensures var plan := old(DefaultPlan(cfg, providers, d, writable, Shapes()));
        && (r.Ok? <==> plan.result.Ok?)
        && (r.Err? ==> r.error == plan.result.error)
        && Shapes() == plan.after
        && (r.Ok? ==> Supplies(plan.result.value, r.value) && r.value.Valid())
    {
      if writable {
        r := BuildDefaultWritable(cfg, providers, d);
      } else {
        r := BuildDefault(cfg, providers, d);
      }
    }

    /**
     * One child of a compound: its prefix value, and the provider dictionary
     * the default builder yields for the child decorated with the
     * compound's languages.
     */
    method CreateChild(cfg: Snapshot, elements: seq<Value>, i: nat, sourceLanguage: string, targetLanguage: string,
                       writable: bool, ghost found: seq<Result<(Value, Lookup)>>, ghost shapes: Shapes)
      returns (r: Result<(Value, MemoryDictionary)>)
      requires Valid() && i < |elements| && shapes == Shapes()
      requires LooksUp(cfg, services, elements, sourceLanguage, targetLanguage, writable, found)
      requires found[i].Ok? ==> Speaks(found[i].value.1, sourceLanguage, targetLanguage)
      modifies if writable then Providers() else {}
      ensures Valid()
      ensures var plan := ChildBuilt(found[i], writable, shapes);
        && Delivers(r, plan) && Shapes() == plan.after
        && (r.Ok? ==> Supplies(plan.result.value.1, r.value.1))
    {
      var child := elements[i];
      assert found[i] == ChildLookup(cfg, services, child, sourceLanguage, targetLanguage, writable);
      var head := ChildHead(cfg, child, sourceLanguage, targetLanguage);
      if head.Err? {
        return Err(head.error);
      }
      var (prefix, decorated) := head.value;
      var builder := ChooseBuilder(cfg, services, decorated);
      if builder.Err? {
        return Err(builder.error);
      }
      var chosen := services.dictionaryBuilders[builder.value];
      if chosen.CompoundDictionaryBuilder? {
        return Err(NestedCompound(decorated.Name()));
      }
      BuilderProviders(services, builder.value);
      var found := BuildDefaultEither(cfg, chosen.providers, decorated, writable);
      if found.Err? {
        return Err(found.error);
      }
      r := Ok((prefix, found.value));
    }

    /**
     * What a child's build delivered is what its plan says: the same error,
     * or the same prefix value with a well-formed dictionary in the
     * lookup's languages.
     */
    ghost predicate Delivers(built: Result<(Value, MemoryDictionary)>, plan: Planned<(Value, Lookup)>)
      reads if built.Ok? then {built.value.1} else {}
    {
      && (built.Ok? <==> plan.result.Ok?)
      && (built.Err? ==> built.error == plan.result.error)
      && (built.Ok? ==> && built.value.0 == plan.result.value.0 && built.value.1.Valid()
                        && built.value.1.sourceLanguage == plan.result.value.1.sourceLanguage
                        && built.value.1.targetLanguage == plan.result.value.1.targetLanguage)
    }

    /** The compound is well formed and shares no object with the providers. */
    ghost predicate Holds(c: Compound.CompoundDictionary)
      reads c, c.Repr
    {
      c.Valid() && forall p :: p in Providers() ==> p !in c.Repr
    }

    /**
     * The rest of the compound builders' loop body: the built child's prefix
     * must be a string, and the child is added under it.
     */
    method AddBuilt(c: Compound.CompoundDictionary, built: Result<(Value, MemoryDictionary)>,
                    ghost plan: Planned<(Value, Lookup)>, ghost done: seq<(string, Lookup)>)
      returns (r: Result<()>)
      requires Holds(c) && c.prefixes == Prefixes(done) && c.children.Keys == Taken(done)
      requires Delivers(built, plan)
      modifies c
      ensures Holds(c)
      ensures var step := StepOf(plan, c.sourceLanguage, c.targetLanguage, done);
        && (r.Ok? <==> step.result.Ok?)
        && (r.Err? ==> r.error == step.result.error)
        && (r.Ok? ==> c.prefixes == Prefixes(done + [step.result.value]) && c.children.Keys == Taken(done + [step.result.value]))
    {
      if built.Err? {
        return Err(built.error);
      }
      var prefix := AsString(built.value.0);
      if prefix.Err? {
        return Err(prefix.error);
      }
      r := c.AddDictionary(prefix.value, built.value.1);
      if r.Ok? {
        TakenSnoc(done, (prefix.value, plan.result.value.1));
      }
    }

    /**
     * CompoundDictionaryBuilder::build() and buildWritable(): a new compound
     * in the definition's languages, then each listed child added under its
     * prefix, in order.
     */
    method BuildCompound(cfg: Snapshot, d: Definition, writable: bool) returns (r: Result<Dict>)
      requires Valid() && d.IsDictionaryDefinition()
      modifies if writable then Providers() else {}
      ensures Valid()
      ensures var plan := old(CompoundPlan(cfg, services, d, writable, Shapes()));
        && (r.Ok? <==> plan.result.Ok?)
        && (r.Err? ==> r.error == plan.result.error)
        && Shapes() == plan.after
        && (r.Ok? ==> && DictRealizes(r.value, plan.result.value, writable)
                      && r.value.CompoundDict? && fresh(r.value.compound) && r.value.compound.Valid())
    {
      var head := CompoundHead(cfg, d);
      if head.Err? {
        return Err(head.error);
      }
      var (sourceLanguage, targetLanguage, elements) := head.value;
      var c := new Compound.CompoundDictionary(sourceLanguage, targetLanguage, writable);
      ghost var found := ChildLookups(cfg, services, elements, sourceLanguage, targetLanguage, writable);
      ghost var plan := ChildrenPlan(found, 0, sourceLanguage, targetLanguage, writable, [], Shapes());
      var added := AddChildren(cfg, c, elements, found);
      if added.Err? {
        return Err(added.error);
      }
      r := Ok(CompoundDict(c));
    }

    /** The compound builders' loop: each listed child built and added under its prefix, in order, until one fails. */
    method AddChildren(cfg: Snapshot, c: Compound.CompoundDictionary, elements: seq<Value>,
                       ghost found: seq<Result<(Value, Lookup)>>)
      returns (r: Result<()>)
      requires Valid() && Holds(c) && c.prefixes == [] && c.children.Keys == {}
      requires LooksUp(cfg, services, elements, c.sourceLanguage, c.targetLanguage, c.writable, found)
      requires AllSpeak(found, c.sourceLanguage, c.targetLanguage)
      modifies c, if c.writable then Providers() else {}
      ensures Valid() && Holds(c)
      ensures var plan := old(ChildrenPlan(found, 0, c.sourceLanguage, c.targetLanguage, c.writable, [], Shapes()));
        && (r.Ok? <==> plan.result.Ok?)
        && (r.Err? ==> r.error == plan.result.error)
        && Shapes() == plan.after
        && (r.Ok? ==> c.prefixes == Prefixes(plan.result.value) && c.children.Keys == Taken(plan.result.value))
    {
      ghost var plan := ChildrenPlan(found, 0, c.sourceLanguage, c.targetLanguage, c.writable, [], Shapes());
      ghost var done: seq<(string, Lookup)> := [];
      r := Ok(());
      var i := 0;
      while i < |elements| && r.Ok?
        invariant i <= |elements| && Valid() && Holds(c)
        invariant r.Err? ==> plan == Planned(Err(r.error), Shapes())
        invariant r.Ok? ==> && plan == ChildrenPlan(found, i, c.sourceLanguage, c.targetLanguage, c.writable, done, Shapes())
                            && c.prefixes == Prefixes(done) && c.children.Keys == Taken(done)
      {
        ghost var more;
        r, more := AddChild(cfg, c, elements, i, found, done, Shapes());
        done, i := more, i + 1;
      }
    }

    /** One pass of the compound builders' loop: it takes the plan from the `i`-th child on to the next. */
    method AddChild(cfg: Snapshot, c: Compound.CompoundDictionary, elements: seq<Value>, i: nat,
                    ghost found: seq<Result<(Value, Lookup)>>, ghost done: seq<(string, Lookup)>, ghost shapes: Shapes)
      returns (r: Result<()>, ghost more: seq<(string, Lookup)>)
      requires Valid() && Holds(c) && c.prefixes == Prefixes(done) && c.children.Keys == Taken(done) && i < |elements|
      requires LooksUp(cfg, services, elements, c.sourceLanguage, c.targetLanguage, c.writable, found)
      requires AllSpeak(found, c.sourceLanguage, c.targetLanguage) && shapes == Shapes()
      modifies c, if c.writable then Providers() else {}
      ensures Valid() && Holds(c)
      ensures var plan := ChildrenPlan(found, i, c.sourceLanguage, c.targetLanguage, c.writable, done, shapes);
        && (r.Err? ==> plan == Planned(Err(r.error), Shapes()))
        && (r.Ok? ==> && plan == ChildrenPlan(found, i + 1, c.sourceLanguage, c.targetLanguage, c.writable, more, Shapes())
                      && c.prefixes == Prefixes(more) && c.children.Keys == Taken(more))
    {
      ghost var plan := ChildBuilt(found[i], c.writable, shapes);
      var built := CreateChild(cfg, elements, i, c.sourceLanguage, c.targetLanguage, c.writable, found, shapes);
      r := AddBuilt(c, built, plan, done);
      ghost var step := ChildStep(found[i], c.sourceLanguage, c.targetLanguage, c.writable, done, shapes);
      more := if r.Ok? then done + [step.result.value] else done;
    }

    // ----- createDictionary() and createWritableDictionary() -----

    /**
     * The dictionary the builder chosen for `d` builds: readable, or
     * (`writable`) writable.
     */
    method BuildDictionary(cfg: Snapshot, d: Definition, writable: bool) returns (r: Result<Dict>)
      requires Valid() && d.IsDictionaryDefinition()
      modifies if writable then Providers() else {}
      ensures Valid()
      ensures var plan := old(DictPlan(cfg, services, d, writable, Shapes()));
        && (r.Ok? <==> plan.result.Ok?)
        && (r.Err? ==> r.error == plan.result.error)
        && Shapes() == plan.after
        && (r.Ok? ==> && DictRealizes(r.value, plan.result.value, writable)
                      && (r.value.MemoryDict? ==> r.value.memory.Valid())
                      && (r.value.CompoundDict? ==> fresh(r.value.compound) && r.value.compound.Valid()))
    {
      var builder := ChooseBuilder(cfg, services, d);
      if builder.Err? {
        return Err(builder.error);
      }
      var chosen := services.dictionaryBuilders[builder.value];
      if chosen.CompoundDictionaryBuilder? {
        r := BuildCompound(cfg, d, writable);
        return;
      }
      BuilderProviders(services, builder.value);
      var m := BuildDefaultEither(cfg, chosen.providers, d, writable);
      if m.Err? {
        return Err(m.error);
      }
      r := Ok(MemoryDict(m.value));
    }

    /** `createDictionary($definition)`: the dictionary the chosen builder's build() yields. */
    method CreateDictionary(d: Definition) returns (r: Result<Dict>)
      requires Valid() && d.IsDictionaryDefinition()
      ensures var plan := DictPlan(configuration.State(), services, d, false, Shapes());
        && plan.after == Shapes()
        && (r.Ok? <==> plan.result.Ok?)
        && (r.Err? ==> r.error == plan.result.error)
        && (r.Ok? ==> && DictRealizes(r.value, plan.result.value, false)
                      && (r.value.MemoryDict? ==> r.value.memory.Valid())
                      && (r.value.CompoundDict? ==> fresh(r.value.compound) && r.value.compound.Valid()))
    {
      r := BuildDictionary(configuration.State(), d, false);
    }

    /** `createWritableDictionary($definition)`: the dictionary the chosen builder's buildWritable() yields. */
    method CreateWritableDictionary(d: Definition) returns (r: Result<Dict>)
      requires Valid() && d.IsDictionaryDefinition()
      modifies Providers()
      ensures Valid()
      ensures var plan := old(DictPlan(configuration.State(), services, d, true, Shapes()));
        && (r.Ok? <==> plan.result.Ok?)
        && (r.Err? ==> r.error == plan.result.error)
        && Shapes() == plan.after
        && (r.Ok? ==> && DictRealizes(r.value, plan.result.value, true)
                      && (r.value.MemoryDict? ==> r.value.memory.Valid())
                      && (r.value.CompoundDict? ==> fresh(r.value.compound) && r.value.compound.Valid()))
    {
      r := BuildDictionary(configuration.State(), d, true);
    }

    // ----- CopyJobBuilder -----

    /**
     * What a job build delivered is what its plan says: the same error, or
     * a job laid out as the plan's request, with the providers left as the
     * plan's shapes say.
     */
    ghost predicate Built(r: Result<Batches.Job>, plan: Planned<JobRequest>)
      reads Providers(), if r.Ok? && plan.result.Ok? then Parts(r.value, plan.result.value) else {}
    {
      && (r.Ok? <==> plan.result.Ok?)
      && (r.Err? ==> r.error == plan.result.error)
      && Shapes() == plan.after
      && (r.Ok? ==> Realizes(r.value, plan.result.value))
    }

    /** CopyJobBuilder::build(): a copy job definition, or the one a reference names. */
    method BuildCopy(cfg: Snapshot, d: Definition) returns (r: Result<Batches.Job>)
      requires Valid()
      modifies Providers()
      ensures Valid()
      ensures var plan := old(CopyPlan(cfg, services, d, Shapes()));
        Built(r, plan) && (r.Ok? ==> forall o :: o in Parts(r.value, plan.result.value) ==> allocated(o) && fresh(o))
    {
      var unwrapped := Unwrapped(cfg, d);
      if unwrapped.Err? {
        return Err(unwrapped.error);
      }
      if !unwrapped.value.CopyJob? {
        return Err(InvalidArgument(InvalidDefinition));
      }
      r := BuildCopyJob(cfg, unwrapped.value, Shapes());
    }

    /** A new copy job over the two dictionaries, with the definition's settings. */
    method BuildCopyJob(cfg: Snapshot, job: Definition, ghost shapes: Shapes) returns (r: Result<Batches.Job>)
      requires Valid() && job.CopyJob? && shapes == Shapes()
      modifies Providers()
      ensures Valid()
      ensures var plan := CopyJobPlan(cfg, services, job, shapes);
        Built(r, plan) && (r.Ok? ==> forall o :: o in Parts(r.value, plan.result.value) ==> allocated(o) && fresh(o))
    {
      var dictionaries := BuildCopyDictionaries(cfg, job);
      if dictionaries.Err? {
        r := Err(dictionaries.error);
      } else {
        ghost var requests := CopyDictionaries(cfg, services, job, shapes).result.value;
        r := NewCopyJob(cfg, job, dictionaries.value.0, dictionaries.value.1, requests.0, requests.1);
      }
    }

    /**
     * `new CopyDictionaryJob($source, $target)` with the definition's
     * settings applied: over dictionaries laid out as the two requests, the
     * job is laid out as the copy request with those settings.
     */
    method NewCopyJob(cfg: Snapshot, job: Definition, source: Dict, target: Dict,
                      ghost sourceRequest: DictRequest, ghost targetRequest: DictRequest)
      returns (r: Result<Batches.Job>)
      requires Valid()
      requires DictRealizes(source, sourceRequest, false) && DictRealizes(target, targetRequest, true)
      ensures Valid() && Shapes() == old(Shapes())
      ensures var settings := CopySettings(cfg, job, services.pcre);
        && (r.Ok? <==> settings.Ok?)
        && (r.Err? ==> r.error == settings.error)
        && (r.Ok? ==> && r.value.Copy? && fresh(r.value.copy)
                      && Realizes(r.value, CopyRequest(sourceRequest, targetRequest, settings.value))
                      && Parts(r.value, CopyRequest(sourceRequest, targetRequest, settings.value))
                         == {r.value.copy} + DictCompounds(source) + DictCompounds(target))
    {
      var copy := new CopyJob.CopyDictionaryJob(source, target, services.pcre);
      var applied := ApplySettings(cfg, job, copy);
      if applied.Err? {
        r := Err(applied.error);
      } else {
        r := Ok(Batches.Copy(copy));
        CopyRealizes(copy, CopyRequest(sourceRequest, targetRequest, copy.Settings()));
      }
    }

    /** The source dictionary, then the writable target. */
    method BuildCopyDictionaries(cfg: Snapshot, job: Definition) returns (r: Result<(Dict, Dict)>)
      requires Valid() && job.CopyJob?
      modifies Providers()
      ensures Valid()
      ensures var plan := old(CopyDictionaries(cfg, services, job, Shapes()));
        && (r.Ok? <==> plan.result.Ok?)
        && (r.Err? ==> r.error == plan.result.error)
        && Shapes() == plan.after
        && (r.Ok? ==> && DictRealizes(r.value.0, plan.result.value.0, false)
                      && DictRealizes(r.value.1, plan.result.value.1, true)
                      && fresh(DictCompounds(r.value.0) + DictCompounds(r.value.1)))
    {
      if !job.source.IsDictionaryDefinition() {
        return Err(TypeError(SourceNotDictionary));
      }
      var source := BuildDictionary(cfg, job.source, false);
      if source.Err? {
        return Err(source.error);
      }
      if !job.target.IsDictionaryDefinition() {
        return Err(TypeError(TargetNotDictionary));
      }
      var target := BuildDictionary(cfg, job.target, true);
      if target.Err? {
        return Err(target.error);
      }
      r := Ok((source.value, target.value));
    }

    /**
     * The settings part of CopyJobBuilder::build(): each entry the
     * definition has is converted and handed to the job's setter, in order.
     */
    static method ApplySettings(cfg: Snapshot, job: Definition, copy: CopyJob.CopyDictionaryJob) returns (r: Result<()>)
      requires copy.Settings() == Config(COPY_IF_EMPTY, COPY_IF_EMPTY, false, false, [])
      modifies copy
      ensures var settings := CopySettings(cfg, job, copy.pcre);
        && (r.Ok? <==> settings.Ok?)
        && (r.Err? ==> r.error == settings.error)
        && (r.Ok? ==> copy.Settings() == settings.value)
    {
      r := ApplyEntries(CopyEntriesOf(cfg, job), copy);
    }

    /** The entries converted in order, each handed to its setter; the first that fails ends the build. */
    static method ApplyEntries(e: CopyEntries, copy: CopyJob.CopyDictionaryJob) returns (r: Result<()>)
      requires copy.Settings() == Config(COPY_IF_EMPTY, COPY_IF_EMPTY, false, false, [])
      modifies copy
      ensures var settings := SettingsFrom(e, copy.pcre);
        && (r.Ok? <==> settings.Ok?)
        && (r.Err? ==> r.error == settings.error)
        && (r.Ok? ==> copy.Settings() == settings.value)
    {
      var source :- e.0;
      if source.Some? {
        var flag :- CopyFlag(source.value);
        copy.SetCopySource(flag);
      }
      var target :- e.1;
      if target.Some? {
        var flag :- CopyFlag(target.value);
        copy.SetCopyTarget(flag);
      }
      var remove :- e.2;
      if remove.Some? {
        var flag :- BoolishFlag(remove.value);
        copy.SetRemoveObsolete(flag);
      }
      var filter :- e.3;
      if filter.Some? {
        r := ApplyFilters(filter.value, copy);
      } else {
        r := Ok(());
      }
    }

    /**
     * `setFilters($value)`: the value must be an array; its elements are
     * added in turn, and the first that is not a string, or whose pattern
     * the engine rejects, ends the list with its error.
     */
    static method ApplyFilters(v: Value, copy: CopyJob.CopyDictionaryJob) returns (r: Result<()>)
      modifies copy
      ensures var filters := Filters(v, copy.pcre);
        && (r.Ok? <==> filters.Ok?)
        && (r.Err? ==> r.error == filters.error)
        && (r.Ok? ==> copy.Settings() == old(copy.Settings()).(filters := filters.value))
    {
      if !v.Arr? {
        return Err(TypeError("The filters must be an array"));
      }
      var elements := Elements(v.a);
      var strings := LeadingStrings(elements);
      FilterListOutcome(elements, copy.pcre);
      var added := copy.SetFilters(strings);
      if added.Err? {
        return added;
      }
      if |strings| < |elements| {
        return Err(TypeError("A filter must be a string"));
      }
      r := Ok(());
    }

    // ----- BatchJobBuilder, createJob() and createJobByName() -----

    /**
     * createJob(): the job builder registered for the definition's type
     * builds the job. `fuel` bounds the nesting of batches.
     */
    method BuildJob(cfg: Snapshot, d: Definition, fuel: nat) returns (r: Result<Batches.Job>)
      requires Valid()
      modifies Providers()
      ensures Valid()
      ensures var plan := old(JobPlan(cfg, services, d, fuel, Shapes()));
        Built(r, plan) && (r.Ok? ==> forall o :: o in Parts(r.value, plan.result.value) ==> allocated(o) && fresh(o))
      decreases fuel, 0
    {
      if fuel == 0 {
        r := Err(DepthExceeded);
      } else {
        var t := JobType(cfg, d);
        if t.Err? {
          r := Err(t.error);
        } else if t.value !in services.jobBuilders {
          r := Err(UnexpectedValue("Unknown job type " + Quote(t.value)));
        } else {
          r := BuildWith(cfg, d, services.jobBuilders[t.value], fuel - 1);
        }
      }
    }

    /** The job builder registered for a definition's type at work on it. */
    method BuildWith(cfg: Snapshot, d: Definition, builder: JobBuilder, fuel: nat) returns (r: Result<Batches.Job>)
      requires Valid()
      modifies Providers()
      ensures Valid()
      ensures var plan := old(if builder.CopyJobBuilder? then CopyPlan(cfg, services, d, Shapes())
                              else BatchPlan(cfg, services, d, fuel, Shapes()));
        Built(r, plan) && (r.Ok? ==> forall o :: o in Parts(r.value, plan.result.value) ==> allocated(o) && fresh(o))
      decreases fuel, 5
    {
      match builder
      case CopyJobBuilder =>
        r := BuildCopy(cfg, d);
      case BatchJobBuilder =>
        r := BuildBatch(cfg, d, fuel);
    }

    /** BatchJobBuilder::build(): a batch job definition, or the one a reference names. */
    method BuildBatch(cfg: Snapshot, d: Definition, fuel: nat) returns (r: Result<Batches.Job>)
      requires Valid()
      modifies Providers()
      ensures Valid()
      ensures var plan := old(BatchPlan(cfg, services, d, fuel, Shapes()));
        Built(r, plan) && (r.Ok? ==> forall o :: o in Parts(r.value, plan.result.value) ==> allocated(o) && fresh(o))
      decreases fuel, 4
    {
      var unwrapped := Unwrapped(cfg, d);
      if unwrapped.Err? {
        return Err(unwrapped.error);
      }
      if !unwrapped.value.BatchJob? {
        return Err(InvalidArgument(InvalidDefinition));
      }
      r := BuildBatchOf(cfg, unwrapped.value.jobs, fuel, Shapes());
    }

    /** BatchJobBuilder::build() once the definition is a batch: its jobs built, then a batch over them. */
    method BuildBatchOf(cfg: Snapshot, list: seq<Definition>, fuel: nat, ghost shapes: Shapes)
      returns (r: Result<Batches.Job>)
      requires Valid() && shapes == Shapes()
      modifies Providers()
      ensures Valid()
      ensures var plan := BatchChildren(cfg, services, list, fuel, 0, Empty(), shapes);
        && (r.Ok? <==> plan.result.Ok?)
        && (r.Err? ==> r.error == plan.result.error)
        && Shapes() == plan.after
        && (r.Ok? ==> && Realizes(r.value, BatchRequest(plan.result.value))
                      && (forall o :: o in Parts(r.value, BatchRequest(plan.result.value)) ==> allocated(o) && fresh(o)))
      decreases fuel, 3
    {
      var jobs;
      ghost var planned;
      jobs, planned := BuildChildren(cfg, list, fuel, shapes);
      if jobs.Err? {
        return Err(jobs.error);
      }
      var batch := new Batches.BatchJob(jobs.value);
      r := Ok(Batches.Batch(batch));
      BatchRealizes(batch, planned);
    }

    /**
     * The loop of BatchJobBuilder::build(): each listed job built in turn
     * and stored under its name, so that a later job replaces an earlier
     * one of the same name.
     */
    method BuildChildren(cfg: Snapshot, list: seq<Definition>, fuel: nat, ghost shapes: Shapes)
      returns (r: Result<OrderedMap<string, Batches.Job>>, ghost planned: OrderedMap<string, JobRequest>)
      requires Valid() && shapes == Shapes()
      modifies Providers()
      ensures Valid()
      ensures var plan := BatchChildren(cfg, services, list, fuel, 0, Empty(), shapes);
        && (r.Ok? <==> plan.result.Ok?)
        && (r.Err? ==> r.error == plan.result.error)
        && Shapes() == plan.after
        && (r.Ok? ==> && planned == plan.result.value && Collected(r.value, planned)
                      && forall o :: o in Gathered(r.value, planned) ==> allocated(o) && fresh(o))
      decreases fuel, 2
    {
      ghost var plan := BatchChildren(cfg, services, list, fuel, 0, Empty(), Shapes());
      r, planned := Ok(Empty()), Empty();
      var i := 0;
      while i < |list| && r.Ok?
        invariant i <= |list| && Valid()
        invariant r.Err? ==> plan == Planned(Err(r.error), Shapes())
        invariant r.Ok? ==> && plan == BatchChildren(cfg, services, list, fuel, i, planned, Shapes())
                            && Collected(r.value, planned)
                            && (forall o :: o in Gathered(r.value, planned) ==> allocated(o) && fresh(o))
      {
        ghost var more;
        r, more := BuildNext(cfg, list, i, fuel, r.value, planned, Shapes());
        planned, i := more, i + 1;
      }
    }

    /**
     * One pass of the loop: the `i`-th listed job built and stored under its
     * name. The batch's plan from `i` on is this job's failure, or the plan
     * from `i + 1` on over the jobs stored so far.
     */
    method BuildNext(cfg: Snapshot, list: seq<Definition>, i: nat, fuel: nat, jobs: OrderedMap<string, Batches.Job>,
                     ghost planned: OrderedMap<string, JobRequest>, ghost shapes: Shapes)
      returns (r: Result<OrderedMap<string, Batches.Job>>, ghost more: OrderedMap<string, JobRequest>)
      requires Valid() && i < |list| && shapes == Shapes() && Collected(jobs, planned)
      requires forall o :: o in Gathered(jobs, planned) ==> allocated(o) && o !in Providers()
      modifies Providers()
      ensures Valid()
      ensures BatchChildren(cfg, services, list, fuel, i, planned, shapes)
        == if r.Err? then Planned(Err(r.error), Shapes()) else BatchChildren(cfg, services, list, fuel, i + 1, more, Shapes())
      ensures r.Ok? ==> && Collected(r.value, more)
                        && forall o :: o in Gathered(r.value, more) ==> o in Gathered(jobs, planned) || (allocated(o) && fresh(o))
      decreases fuel, 1
    {
      ghost var child := JobPlan(cfg, services, list[i], fuel, Shapes());
      var job := BuildJob(cfg, list[i], fuel);
      if job.Err? {
        return Err(job.error), planned;
      }
      CollectedKept((jobs, planned));
      CollectedPut(jobs, planned, list[i].Name(), job.value, child.result.value);
      r, more := Ok(jobs.Put(list[i].Name(), job.value)), planned.Put(list[i].Name(), child.result.value);
    }

    /** `createJob($definition)`: the job the definition's builder builds. */
    method CreateJob(d: Definition, fuel: nat) returns (r: Result<Batches.Job>)
      requires Valid()
      modifies Providers()
      ensures Valid()
      ensures var plan := old(JobPlan(configuration.State(), services, d, fuel, Shapes()));
        Built(r, plan) && (r.Ok? ==> forall o :: o in Parts(r.value, plan.result.value) ==> allocated(o) && fresh(o))
    {
      r := BuildJob(configuration.State(), d, fuel);
    }

    /** `createJobByName($name)`: the configured job of that name, "not found" when there is none. */
    method CreateJobByName(name: string, fuel: nat) returns (r: Result<Batches.Job>)
      requires Valid()
      modifies Providers()
      ensures Valid()
      ensures var plan := old(JobByNamePlan(configuration.State(), services, name, fuel, Shapes()));
        Built(r, plan) && (r.Ok? ==> forall o :: o in Parts(r.value, plan.result.value) ==> allocated(o) && fresh(o))
    {
      if !configuration.HasJob(name) {
        return Err(UnexpectedValue("Job " + Quote(name) + " not found in configuration"));
      }
      var job := configuration.GetJob(name);
      r := BuildJob(configuration.State(), job.value, fuel);
    }
  }
}
