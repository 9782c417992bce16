/**
 * What JobFactory and its builders make of a definition, stated on values.
 *
 * A build reads the configuration, picks a builder by type, checks the
 * provider and asks it for dictionaries; the only state it depends on or
 * changes is which names each memory provider has registered, with which
 * languages (its `Shape`). Each plan below returns what the build yields
 * (a request describing the dictionaries and jobs, or the first error)
 * together with the shapes the providers are left with.
 */
module BuildPlans {

  import opened Errors
  import opened OrderedMaps
  import opened Values
  import opened Configurations
  import opened Definitions
  import opened CopySpec
  import CopyJob
  import Compound
  import opened MemoryProviders

  /** A provider service: a memory provider and which of the two provider interfaces it offers. */
  datatype ProviderService = ProviderService(provider: MemoryDictionaryProvider, readable: bool, writable: bool)

  /** The dictionary builder services. */
  datatype DictionaryBuilder =
    | CompoundDictionaryBuilder
    | DefaultDictionaryBuilder(providers: map<string, ProviderService>)

  /** The job builder services. */
  datatype JobBuilder = CopyJobBuilder | BatchJobBuilder

  /** The service locators a factory is built with, and the regular expression engine of its copy jobs. */
  datatype Services = Services(
    dictionaryBuilders: map<string, DictionaryBuilder>,
    jobBuilders: map<string, JobBuilder>,
    pcre: CopyJob.Pcre)

  /** Every provider any default dictionary builder holds. */
  function ProviderObjects(services: Services): set<MemoryDictionaryProvider> {
    set b, s | b in services.dictionaryBuilders.Values && b.DefaultDictionaryBuilder? && s in b.providers.Values
      :: s.provider
  }

  /** The providers of a default builder are among the factory's providers. */
  lemma BuilderProviders(services: Services, builder: string)
    requires builder in services.dictionaryBuilders && services.dictionaryBuilders[builder].DefaultDictionaryBuilder?
    ensures forall s :: s in services.dictionaryBuilders[builder].providers.Values ==> s.provider in ProviderObjects(services)
  {
    assert services.dictionaryBuilders[builder] in services.dictionaryBuilders.Values;
  }

  // ----- provider shapes -----

  /** The languages of each registered name. */
  type Shape = map<string, (string, string)>

  type Shapes = map<MemoryDictionaryProvider, Shape>

  function ShapeOf(dictionaries: Registry): (r: Shape)
    ensures r.Keys == dictionaries.items.Keys
  {
    map name | name in dictionaries.items
      :: (dictionaries.items[name].sourceLanguage, dictionaries.items[name].targetLanguage)
  }

  function ShapeAt(shapes: Shapes, p: MemoryDictionaryProvider): Shape {
    if p in shapes then shapes[p] else map[]
  }

  /** The shape has `name` registered with these languages. */
  predicate Knows(shape: Shape, name: string, sourceLanguage: string, targetLanguage: string) {
    name in shape && shape[name] == (sourceLanguage, targetLanguage)
  }

  /** A provider lookup succeeds exactly for the names its shape knows with the languages asked for. */
  lemma KnowsRegistered(dictionaries: Registry, name: string, sourceLanguage: string, targetLanguage: string)
    ensures Knows(ShapeOf(dictionaries), name, sourceLanguage, targetLanguage)
        <==> Registered(dictionaries, name, sourceLanguage, targetLanguage).Some?
  {
  }

  /** A build's result and the provider shapes it leaves. */
  datatype Planned<T> = Planned(result: Result<T>, after: Shapes)

  /** The arguments a default builder hands to a provider. */
  datatype Lookup = Lookup(service: ProviderService, name: string, sourceLanguage: string, targetLanguage: string)

  /** The lookup asks for these two languages. */
  predicate Speaks(l: Lookup, sourceLanguage: string, targetLanguage: string) {
    l.sourceLanguage == sourceLanguage && l.targetLanguage == targetLanguage
  }

  /** The lookup's provider has its name registered with its languages. */
  predicate Registers(shapes: Shapes, l: Lookup) {
    Knows(ShapeAt(shapes, l.service.provider), l.name, l.sourceLanguage, l.targetLanguage)
  }

  /** Every registration `before` holds in these languages `after` still holds. */
  predicate KeepsRegistrations(before: Shapes, after: Shapes, sourceLanguage: string, targetLanguage: string) {
    forall p, name | p in before && name in before[p] && before[p][name] == (sourceLanguage, targetLanguage)
      :: Knows(ShapeAt(after, p), name, sourceLanguage, targetLanguage)
  }

  /** A dictionary to build: one provider dictionary, or a compound of prefixed provider dictionaries. */
  datatype DictRequest =
    | Single(lookup: Lookup)
    | CompoundOf(sourceLanguage: string, targetLanguage: string, children: seq<(string, Lookup)>)

  /** A job to build: a copy job with its two dictionaries and settings, or a batch of jobs keyed by name. */
  datatype JobRequest =
    | CopyRequest(source: DictRequest, target: DictRequest, settings: Config)
    | BatchRequest(jobs: OrderedMap<string, JobRequest>)

  // ----- JobFactory::getDictionaryBuilder() -----

  /**
   * The builder registered under the definition's type, otherwise the one
   * registered as "default"; when that is missing too, the locator's get()
   * throws its service-not-found exception.
   */
  function ChooseBuilder(cfg: Snapshot, services: Services, d: Definition): (r: Result<string>)
    requires d.IsDictionaryDefinition()
    ensures r.Ok? ==> r.value in services.dictionaryBuilders
    ensures GetType(cfg, d).Err? ==> r == Err(GetType(cfg, d).error)
    ensures GetType(cfg, d).Ok? && GetType(cfg, d).value in services.dictionaryBuilders ==> r == Ok(GetType(cfg, d).value)
    ensures GetType(cfg, d).Ok? && GetType(cfg, d).value !in services.dictionaryBuilders ==>
      r == (if "default" in services.dictionaryBuilders then Ok("default") else Err(ServiceNotFound("default")))
  {
    var t :- GetType(cfg, d);
    if t in services.dictionaryBuilders then Ok(t)
    else if "default" in services.dictionaryBuilders then Ok("default")
    else Err(ServiceNotFound("default"))
  }

  // ----- DefaultDictionaryBuilder -----

  /** getProvider() and the interface check of build() (`writable` false) or buildWritable(). */
  function ProviderCheck(cfg: Snapshot, providers: map<string, ProviderService>, d: Definition, writable: bool)
    : (r: Result<ProviderService>)
    requires d.IsDictionaryDefinition()
    ensures r.Ok? ==> r.value in providers.Values
  {
    var name :- GetProvider(cfg, d);
    if name !in providers then Err(UnexpectedValue("No provider named " + Quote(name) + " registered."))
    else
      var service := providers[name];
      if !service.readable && !service.writable then Err(UnexpectedValue("Provider named " + Quote(name) + " is invalid."))
      else if writable && !service.writable then
        Err(Runtime("Dictionary provider " + Quote(name) + " can not create writable dictionaries."))
      else if !writable && !service.readable then
        Err(Runtime("Dictionary provider " + Quote(name) + " can not create readable dictionaries."))
      else Ok(service)
  }

  /** The provider's arguments, read in the order the builder reads them; the custom data is read and unused. */
  function LookupOf(cfg: Snapshot, service: ProviderService, d: Definition): (r: Result<Lookup>)
    requires d.IsDictionaryDefinition()
    ensures r.Ok? ==> && r.value.service == service
                      && GetSourceLanguage(cfg, d) == Ok(r.value.sourceLanguage)
                      && GetTargetLanguage(cfg, d) == Ok(r.value.targetLanguage)
  {
    var name :- GetDictionaryName(cfg, d);
    var sourceLanguage :- GetSourceLanguage(cfg, d);
    var targetLanguage :- GetTargetLanguage(cfg, d);
    var data :- GetData(cfg, d);
    Ok(Lookup(service, name, sourceLanguage, targetLanguage))
  }

  /**
   * Asking the provider: a read finds a registered dictionary or fails with
   * "not found"; a write opens a registered one and otherwise creates it,
   * which registers the name with these languages.
   */
  function Open(l: Lookup, writable: bool, shapes: Shapes): (r: Planned<Lookup>)
    ensures !writable ==> r.after == shapes
    ensures r.result.Ok? ==> r.result.value == l && Registers(r.after, l)
    ensures r.result.Err? ==> !writable && r.result.error == DictionaryNotFound(l.name, l.sourceLanguage, l.targetLanguage)
    ensures KeepsRegistrations(shapes, r.after, l.sourceLanguage, l.targetLanguage)
  {
    var shape := ShapeAt(shapes, l.service.provider);
    if Knows(shape, l.name, l.sourceLanguage, l.targetLanguage) then Planned(Ok(l), shapes)
    else if writable then
      Planned(Ok(l), shapes[l.service.provider := shape[l.name := (l.sourceLanguage, l.targetLanguage)]])
    else Planned(Err(DictionaryNotFound(l.name, l.sourceLanguage, l.targetLanguage)), shapes)
  }

  /** What the default builder asks of the configuration before it turns to the provider. */
  function DefaultLookup(cfg: Snapshot, providers: map<string, ProviderService>, d: Definition, writable: bool)
    : (r: Result<Lookup>)
    requires d.IsDictionaryDefinition()
    ensures r.Ok? ==> && r.value.service in providers.Values
                      && GetSourceLanguage(cfg, d) == Ok(r.value.sourceLanguage)
                      && GetTargetLanguage(cfg, d) == Ok(r.value.targetLanguage)
  {
    var service :- ProviderCheck(cfg, providers, d, writable);
    LookupOf(cfg, service, d)
  }

  /** DefaultDictionaryBuilder::build() (`writable` false) and buildWritable(). */
  function DefaultPlan(cfg: Snapshot, providers: map<string, ProviderService>, d: Definition,
                       writable: bool, shapes: Shapes): (r: Planned<Lookup>)
    requires d.IsDictionaryDefinition()
    ensures !writable ==> r.after == shapes
    ensures r.result.Err? ==> r.after == shapes
    ensures r.result.Ok? ==>
      && Registers(r.after, r.result.value)
      && GetSourceLanguage(cfg, d) == Ok(r.result.value.sourceLanguage)
      && GetTargetLanguage(cfg, d) == Ok(r.result.value.targetLanguage)
      && KeepsRegistrations(shapes, r.after, r.result.value.sourceLanguage, r.result.value.targetLanguage)
  {
    var found := DefaultLookup(cfg, providers, d, writable);
    if found.Err? then Planned(Err(found.error), shapes)
    else Open(found.value, writable, shapes)
  }

  // ----- CompoundDictionaryBuilder -----

  /** The entries a compound passes down to each child: its own two languages. */
  function Overrides(sourceLanguage: string, targetLanguage: string): PArray {
    Empty<Key, Value>().Put(S(SourceLanguageKey), Str(sourceLanguage)).Put(S(TargetLanguageKey), Str(targetLanguage))
  }

  /** The values `foreach` visits, in key order. */
  function Elements(a: PArray): (r: seq<Value>)
    ensures |r| == |a.keys|
    ensures a.Valid() ==> r == ValuesOf(a)
  {
    seq(|a.keys|, i requires 0 <= i < |a.keys| => if a.keys[i] in a.items then a.items[a.keys[i]] else Null)
  }

  /** The prefixes added so far. */
  function Prefixes(done: seq<(string, Lookup)>): (r: seq<string>)
    ensures |r| == |done| && forall i :: 0 <= i < |done| ==> r[i] == done[i].0
  {
    seq(|done|, i requires 0 <= i < |done| => done[i].0)
  }

  function Taken(done: seq<(string, Lookup)>): set<string> {
    set i | 0 <= i < |done| :: done[i].0
  }

  const PrefixKey := "prefix"
  const NotAnObject := "Call to a member function get() on a non-object"
  const NotDecoratable := "A decorated dictionary definition needs a dictionary definition"

  /** A decorated child reads the compound's languages from the overrides, whatever its own say. */
  lemma DecoratedLanguages(cfg: Snapshot, child: Definition, sourceLanguage: string, targetLanguage: string)
    requires child.IsDictionaryDefinition()
    ensures GetSourceLanguage(cfg, Decorated(child, Overrides(sourceLanguage, targetLanguage))) == Ok(sourceLanguage)
    ensures GetTargetLanguage(cfg, Decorated(child, Overrides(sourceLanguage, targetLanguage))) == Ok(targetLanguage)
  {
    var o := Overrides(sourceLanguage, targetLanguage);
    assert S(SourceLanguageKey) in o.items && o.items[S(SourceLanguageKey)] == Str(sourceLanguage);
    assert S(TargetLanguageKey) in o.items && o.items[S(TargetLanguageKey)] == Str(targetLanguage);
  }

  /** What the compound builder reads of one child before building it: its prefix, and the child decorated. */
  function ChildHead(cfg: Snapshot, child: Value, sourceLanguage: string, targetLanguage: string)
    : (r: Result<(Value, Definition)>)
    ensures r.Ok? ==> r.value.1.IsDictionaryDefinition()
    ensures r.Ok? ==> && GetSourceLanguage(cfg, r.value.1) == Ok(sourceLanguage)
                      && GetTargetLanguage(cfg, r.value.1) == Ok(targetLanguage)
  {
    if !child.Def? then Err(TypeError(NotAnObject))
    else
      var prefix :- Get(cfg, child.d, PrefixKey);
      if !child.d.IsDictionaryDefinition() then
        Err(TypeError(NotDecoratable))
      else
        DecoratedLanguages(cfg, child.d, sourceLanguage, targetLanguage);
        Ok((prefix, Decorated(child.d, Overrides(sourceLanguage, targetLanguage))))
  }

  /**
   * What the compound builder learns of one child before any provider is
   * asked: its "prefix" entry, unchecked, and the lookup the builder chosen
   * for the decorated child makes, which speaks the compound's languages.
   * None of it depends on what the providers hold.
   */
  function ChildLookup(cfg: Snapshot, services: Services, child: Value, sourceLanguage: string,
                       targetLanguage: string, writable: bool): (r: Result<(Value, Lookup)>)
    ensures r.Ok? ==> Speaks(r.value.1, sourceLanguage, targetLanguage)
  {
    var head :- ChildHead(cfg, child, sourceLanguage, targetLanguage);
    var builder :- ChooseBuilder(cfg, services, head.1);
    match services.dictionaryBuilders[builder]
    case CompoundDictionaryBuilder => Err(NestedCompound(head.1.Name()))
    case DefaultDictionaryBuilder(providers) =>
      var lookup :- DefaultLookup(cfg, providers, head.1, writable);
      Ok((head.0, lookup))
  }

  /**
   * `found` holds the lookup of each listed child. The trigger keeps a
   * lookup unfolded only where a child's lookup is asked for by name.
   */
  ghost predicate LooksUp(cfg: Snapshot, services: Services, elements: seq<Value>, sourceLanguage: string,
                          targetLanguage: string, writable: bool, found: seq<Result<(Value, Lookup)>>)
  {
    && |found| == |elements|
    && forall k {:trigger ChildLookup(cfg, services, elements[k], sourceLanguage, targetLanguage, writable)} ::
         0 <= k < |elements| ==> found[k] == ChildLookup(cfg, services, elements[k], sourceLanguage, targetLanguage, writable)
  }

  /** The lookups of all listed children, child by child. */
  function ChildLookups(cfg: Snapshot, services: Services, elements: seq<Value>, sourceLanguage: string,
                        targetLanguage: string, writable: bool): (r: seq<Result<(Value, Lookup)>>)
    ensures LooksUp(cfg, services, elements, sourceLanguage, targetLanguage, writable, r)
    ensures AllSpeak(r, sourceLanguage, targetLanguage)
  {
    seq(|elements|, k requires 0 <= k < |elements| =>
      ChildLookup(cfg, services, elements[k], sourceLanguage, targetLanguage, writable))
  }

  /** Every successful lookup speaks the compound's languages. */
  predicate AllSpeak(found: seq<Result<(Value, Lookup)>>, sourceLanguage: string, targetLanguage: string) {
    forall k :: 0 <= k < |found| && found[k].Ok? ==> Speaks(found[k].value.1, sourceLanguage, targetLanguage)
  }

  /**
   * One child built: its lookup is opened with the provider, so the prefix
   * comes back with a lookup that is registered.
   */
  function ChildBuilt(found: Result<(Value, Lookup)>, writable: bool, shapes: Shapes): (r: Planned<(Value, Lookup)>)
    ensures !writable ==> r.after == shapes
    ensures r.result.Err? ==> r.after == shapes
    ensures r.result.Ok? ==> found.Ok? && r.result.value == found.value && Registers(r.after, r.result.value.1)
    ensures found.Ok? ==> KeepsRegistrations(shapes, r.after, found.value.1.sourceLanguage, found.value.1.targetLanguage)
  {
    if found.Err? then Planned(Err(found.error), shapes)
    else
      var asked := Open(found.value.1, writable, shapes);
      if asked.result.Err? then Planned(Err(asked.result.error), asked.after)
      else Planned(Ok(found.value), asked.after)
  }

  /** The children added so far have distinct prefixes, speak the compound's languages and are registered. */
  predicate Settled(done: seq<(string, Lookup)>, sourceLanguage: string, targetLanguage: string, shapes: Shapes) {
    && Distinct(Prefixes(done))
    && forall k :: 0 <= k < |done| ==> Speaks(done[k].1, sourceLanguage, targetLanguage) && Registers(shapes, done[k].1)
  }

  /**
   * What follows once the next child is built: its prefix must be a string
   * and not taken yet, and its languages those of the compound.
   */
  function StepOf(built: Planned<(Value, Lookup)>, sourceLanguage: string, targetLanguage: string,
                  done: seq<(string, Lookup)>): (r: Planned<(string, Lookup)>)
    ensures r.after == built.after
    ensures r.result.Ok? ==> && built.result.Ok? && r.result.value.1 == built.result.value.1
                             && built.result.value.0 == Str(r.result.value.0)
                             && r.result.value.0 !in Taken(done)
                             && Speaks(r.result.value.1, sourceLanguage, targetLanguage)
  {
    if built.result.Err? then Planned(Err(built.result.error), built.after)
    else
      var lookup := built.result.value.1;
      var prefix := AsString(built.result.value.0);
      if prefix.Err? then Planned(Err(prefix.error), built.after)
      else
        var added := Compound.AddDictionaryCheck(Taken(done), prefix.value, (sourceLanguage, targetLanguage),
                                                 (lookup.sourceLanguage, lookup.targetLanguage));
        if added.Err? then Planned(Err(added.error), built.after)
        else Planned(Ok((prefix.value, lookup)), built.after)
  }

  /** The next child after `done`: it is built, then checked. */
  function ChildStep(found: Result<(Value, Lookup)>, sourceLanguage: string, targetLanguage: string,
                     writable: bool, done: seq<(string, Lookup)>, shapes: Shapes)
    : (r: Planned<(string, Lookup)>)
    ensures !writable ==> r.after == shapes
  {
    StepOf(ChildBuilt(found, writable, shapes), sourceLanguage, targetLanguage, done)
  }

  /** A step keeps what was registered and adds its child, registered, to the settled ones. */
  lemma ChildStepSettles(found: Result<(Value, Lookup)>, sourceLanguage: string, targetLanguage: string,
                         writable: bool, done: seq<(string, Lookup)>, shapes: Shapes)
    requires found.Ok? ==> Speaks(found.value.1, sourceLanguage, targetLanguage)
    ensures var r := ChildStep(found, sourceLanguage, targetLanguage, writable, done, shapes);
      && KeepsRegistrations(shapes, r.after, sourceLanguage, targetLanguage)
      && (Settled(done, sourceLanguage, targetLanguage, shapes) && r.result.Ok? ==>
            Settled(done + [r.result.value], sourceLanguage, targetLanguage, r.after))
  {
    var built := ChildBuilt(found, writable, shapes);
    var r := StepOf(built, sourceLanguage, targetLanguage, done);
    if r.result.Ok? {
      SettledSnoc(done, r.result.value.0, r.result.value.1, sourceLanguage, targetLanguage, shapes, built.after);
    }
  }

  /** The children from position `i` on, added after `done`, one step each. */
  function ChildrenPlan(found: seq<Result<(Value, Lookup)>>, i: nat, sourceLanguage: string, targetLanguage: string,
                        writable: bool, done: seq<(string, Lookup)>, shapes: Shapes): (r: Planned<seq<(string, Lookup)>>)
    requires i <= |found|
    ensures !writable ==> r.after == shapes
    ensures r.result.Ok? ==> |done| <= |r.result.value| && r.result.value[..|done|] == done
    decreases |found| - i
  {
    if i == |found| then Planned(Ok(done), shapes)
    else
      var step := ChildStep(found[i], sourceLanguage, targetLanguage, writable, done, shapes);
      if step.result.Err? then Planned(Err(step.result.error), step.after)
      else
        var more := done + [step.result.value];
        var r := ChildrenPlan(found, i + 1, sourceLanguage, targetLanguage, writable, more, step.after);
        assert r.result.Ok? ==> r.result.value[..|done|] == more[..|done|];
        r
  }

  /** The children added keep every registration and end up settled, when the ones before them were. */
  lemma {:induction false} ChildrenPlanSettles(found: seq<Result<(Value, Lookup)>>, i: nat, sourceLanguage: string,
                                               targetLanguage: string, writable: bool, done: seq<(string, Lookup)>,
                                               shapes: Shapes)
    requires AllSpeak(found, sourceLanguage, targetLanguage) && i <= |found|
    ensures var r := ChildrenPlan(found, i, sourceLanguage, targetLanguage, writable, done, shapes);
      && KeepsRegistrations(shapes, r.after, sourceLanguage, targetLanguage)
      && (Settled(done, sourceLanguage, targetLanguage, shapes) && r.result.Ok? ==>
            Settled(r.result.value, sourceLanguage, targetLanguage, r.after))
    decreases |found| - i
  {
    if i < |found| {
      var step := ChildStep(found[i], sourceLanguage, targetLanguage, writable, done, shapes);
      ChildStepSettles(found[i], sourceLanguage, targetLanguage, writable, done, shapes);
      if step.result.Ok? {
        var more := done + [step.result.value];
        var r := ChildrenPlan(found, i + 1, sourceLanguage, targetLanguage, writable, more, step.after);
        ChildrenPlanSettles(found, i + 1, sourceLanguage, targetLanguage, writable, more, step.after);
        KeepsTransitive(shapes, step.after, r.after, sourceLanguage, targetLanguage);
      }
    }
  }

  /** Adding a child of a new prefix, in the compound's languages and registered, keeps the children settled. */
  lemma SettledSnoc(done: seq<(string, Lookup)>, prefix: string, lookup: Lookup, sourceLanguage: string,
                    targetLanguage: string, before: Shapes, after: Shapes)
    requires prefix !in Taken(done)
    requires Speaks(lookup, sourceLanguage, targetLanguage) && Registers(after, lookup)
    requires KeepsRegistrations(before, after, sourceLanguage, targetLanguage)
    ensures Settled(done, sourceLanguage, targetLanguage, before) ==>
      Settled(done + [(prefix, lookup)], sourceLanguage, targetLanguage, after)
  {
    if !Settled(done, sourceLanguage, targetLanguage, before) {
      return;
    }
    var more := done + [(prefix, lookup)];
    forall k | 0 <= k < |done| ensures Registers(after, done[k].1) {
      var m := done[k].1;
      assert Registers(before, m);
      assert m.service.provider in before;
    }
    assert Prefixes(more) == Prefixes(done) + [prefix];
    assert prefix !in Prefixes(done) by {
      forall k | 0 <= k < |done| ensures Prefixes(done)[k] != prefix {
        assert done[k].0 in Taken(done);
      }
    }
    DistinctSnoc(Prefixes(done), prefix);
  }

  lemma KeepsTransitive(a: Shapes, b: Shapes, c: Shapes, sourceLanguage: string, targetLanguage: string)
    requires KeepsRegistrations(a, b, sourceLanguage, targetLanguage)
    requires KeepsRegistrations(b, c, sourceLanguage, targetLanguage)
    ensures KeepsRegistrations(a, c, sourceLanguage, targetLanguage)
  {
    forall p, name | p in a && name in a[p] && a[p][name] == (sourceLanguage, targetLanguage)
      ensures Knows(ShapeAt(c, p), name, sourceLanguage, targetLanguage)
    {
      assert Knows(ShapeAt(b, p), name, sourceLanguage, targetLanguage);
      assert p in b;
    }
  }

  /** What the compound builder reads before its children: the two languages and the listed children. */
  function CompoundHead(cfg: Snapshot, d: Definition): Result<(string, string, seq<Value>)>
    requires d.IsDictionaryDefinition()
  {
    var sourceLanguage :- GetSourceLanguage(cfg, d);
    var targetLanguage :- GetTargetLanguage(cfg, d);
    var listed :- Get(cfg, d, "dictionaries");
    Ok((sourceLanguage, targetLanguage, if listed.Arr? then Elements(listed.a) else []))
  }

  /** The provider lookups a dictionary request makes. */
  function Lookups(req: DictRequest): (r: seq<Lookup>)
    ensures req.Single? ==> r == [req.lookup]
    ensures req.CompoundOf? ==> |r| == |req.children| && forall k :: 0 <= k < |r| ==> r[k] == req.children[k].1
  {
    match req
    case Single(l) => [l]
    case CompoundOf(_, _, children) => seq(|children|, k requires 0 <= k < |children| => children[k].1)
  }

  /**
   * CompoundDictionaryBuilder::build() (`writable` false) and
   * buildWritable(): the children have distinct prefixes, speak the
   * compound's languages and are registered with their providers.
   */
  function CompoundPlan(cfg: Snapshot, services: Services, d: Definition, writable: bool, shapes: Shapes)
    : (r: Planned<DictRequest>)
    requires d.IsDictionaryDefinition()
    ensures !writable ==> r.after == shapes
    ensures r.result.Ok? ==> && r.result.value.CompoundOf?
                             && Settled(r.result.value.children, r.result.value.sourceLanguage, r.result.value.targetLanguage, r.after)
  {
    var head := CompoundHead(cfg, d);
    if head.Err? then Planned(Err(head.error), shapes)
    else
      var (sourceLanguage, targetLanguage, elements) := head.value;
      assert Settled([], sourceLanguage, targetLanguage, shapes);
      var found := ChildLookups(cfg, services, elements, sourceLanguage, targetLanguage, writable);
      var children := ChildrenPlan(found, 0, sourceLanguage, targetLanguage, writable, [], shapes);
      ChildrenPlanSettles(found, 0, sourceLanguage, targetLanguage, writable, [], shapes);
      if children.result.Err? then Planned(Err(children.result.error), children.after)
      else Planned(Ok(CompoundOf(sourceLanguage, targetLanguage, children.result.value)), children.after)
  }

  // ----- JobFactory::createDictionary() and createWritableDictionary() -----

  /**
   * The dictionary the factory builds from `d`, readable or (`writable`)
   * writable. Once it is built, every provider dictionary it is made of is
   * registered: a read found it there, a write found it or created it.
   */
  function DictPlan(cfg: Snapshot, services: Services, d: Definition, writable: bool, shapes: Shapes)
    : (r: Planned<DictRequest>)
    requires d.IsDictionaryDefinition()
    ensures !writable ==> r.after == shapes
    ensures r.result.Ok? ==> forall l :: l in Lookups(r.result.value) ==> Registers(r.after, l)
    ensures r.result.Ok? && r.result.value.CompoundOf? ==>
      Settled(r.result.value.children, r.result.value.sourceLanguage, r.result.value.targetLanguage, r.after)
  {
    var builder := ChooseBuilder(cfg, services, d);
    if builder.Err? then Planned(Err(builder.error), shapes)
    else match services.dictionaryBuilders[builder.value]
      case CompoundDictionaryBuilder => CompoundPlan(cfg, services, d, writable, shapes)
      case DefaultDictionaryBuilder(providers) =>
        var found := DefaultPlan(cfg, providers, d, writable, shapes);
        if found.result.Err? then Planned(Err(found.result.error), found.after)
        else Planned(Ok(Single(found.result.value)), found.after)
  }

  // ----- CopyJobBuilder -----

  /** copyStringToFlag(). */
  function CopyFlag(v: Value): Result<int> {
    if (v.Str? && v.s == "true") || v == Bool(true) || (v.Str? && v.s == "yes") then Ok(COPY)
    else if (v.Str? && v.s == "no") || (v.Str? && v.s == "false") || v == Bool(false) then Ok(DO_NOT_COPY)
    else if v.Str? && v.s == "if-empty" then Ok(COPY_IF_EMPTY)
    else Err(InvalidArgument("Invalid value for copy flag."))
  }

  /** boolishToFlag(). */
  function BoolishFlag(v: Value): Result<bool> {
    if (v.Str? && v.s == "true") || v == Bool(true) || (v.Str? && v.s == "yes") then Ok(true)
    else if (v.Str? && v.s == "no") || (v.Str? && v.s == "false") || v == Bool(false) then Ok(false)
    else Err(InvalidArgument("Invalid value for remove-obsolete flag."))
  }

  /** addFilter() on each element in turn: a non-string is a type error, a rejected pattern the engine's error. */
  function FilterList(vs: seq<Value>, pcre: CopyJob.Pcre): Result<seq<string>> {
    if vs == [] then Ok([])
    else if !vs[0].Str? then Err(TypeError("A filter must be a string"))
    else
      var pattern := CopyJob.Delimited(vs[0].s);
      if pattern in pcre.rejected then Err(CopyJob.FilterError(pattern, pcre.rejected[pattern]))
      else
        var rest :- FilterList(vs[1..], pcre);
        Ok([pattern] + rest)
  }

  /** The strings before the first element that is not one. */
  function LeadingStrings(vs: seq<Value>): (r: seq<string>)
    ensures |r| <= |vs|
    ensures forall j :: 0 <= j < |r| ==> vs[j] == Str(r[j])
    ensures |r| < |vs| ==> !vs[|r|].Str?
  {
    if vs == [] || !vs[0].Str? then [] else [vs[0].s] + LeadingStrings(vs[1..])
  }

  /** The position of the first expression whose pattern the engine rejects, if there is one. */
  function FirstRejected(expressions: seq<string>, pcre: CopyJob.Pcre): (r: Option<nat>)
    ensures r.Some? ==> && r.value < |expressions|
                        && CopyJob.Delimited(expressions[r.value]) in pcre.rejected
                        && forall j :: 0 <= j < r.value ==> CopyJob.Delimited(expressions[j]) !in pcre.rejected
    ensures r.None? ==> forall j :: 0 <= j < |expressions| ==> CopyJob.Delimited(expressions[j]) !in pcre.rejected
  {
    if expressions == [] then None
    else if CopyJob.Delimited(expressions[0]) in pcre.rejected then Some(0)
    else
      var rest := FirstRejected(expressions[1..], pcre);
      if rest.None? then None else Some(rest.value + 1)
  }

  /**
   * The outcome of the filter list, stated at once: the first rejected
   * pattern among the leading strings fails the list; else the first
   * element that is not a string; else every expression is kept, delimited.
   */
  function FilterOutcome(vs: seq<Value>, pcre: CopyJob.Pcre): Result<seq<string>> {
    var strings := LeadingStrings(vs);
    var first := FirstRejected(strings, pcre);
    if first.Some? then
      Err(CopyJob.FilterError(CopyJob.Delimited(strings[first.value]), pcre.rejected[CopyJob.Delimited(strings[first.value])]))
    else if |strings| < |vs| then Err(TypeError("A filter must be a string"))
    else Ok(CopyJob.DelimitAll(strings))
  }

  /** setFilters(): its argument must be an array. */
  function Filters(v: Value, pcre: CopyJob.Pcre): Result<seq<string>> {
    if !v.Arr? then Err(TypeError("The filters must be an array"))
    else FilterList(Elements(v.a), pcre)
  }

  /** The value of an entry the definition has, `None` when it has none: `has($key)`, then `get($key)`. */
  function EntryValue(cfg: Snapshot, d: Definition, key: string): Result<Option<Value>>
  {
    var has :- Has(cfg, d, key);
    if has then (var v :- Get(cfg, d, key); Ok(Some(v))) else Ok(None)
  }

  /** A copy policy entry: converted by copyStringToFlag() when present, COPY_IF_EMPTY otherwise. */
  function PolicyFrom(e: Result<Option<Value>>): Result<int> {
    var v :- e;
    if v.Some? then CopyFlag(v.value) else Ok(COPY_IF_EMPTY)
  }

  /** The "remove-obsolete" entry: converted by boolishToFlag() when present, false otherwise. */
  function RemoveFrom(e: Result<Option<Value>>): Result<bool> {
    var v :- e;
    if v.Some? then BoolishFlag(v.value) else Ok(false)
  }

  /** The "filter" entry: the delimited patterns setFilters() keeps when present, none otherwise. */
  function FiltersFrom(e: Result<Option<Value>>, pcre: CopyJob.Pcre): Result<seq<string>> {
    var v :- e;
    if v.Some? then Filters(v.value, pcre) else Ok([])
  }

  /** The four entries the copy job builder reads. */
  type CopyEntries = (Result<Option<Value>>, Result<Option<Value>>, Result<Option<Value>>, Result<Option<Value>>)

  /** "copy-source", "copy-target", "remove-obsolete" and "filter", as the definition has them. */
  function CopyEntriesOf(cfg: Snapshot, job: Definition): CopyEntries {
    (EntryValue(cfg, job, "copy-source"), EntryValue(cfg, job, "copy-target"),
     EntryValue(cfg, job, "remove-obsolete"), EntryValue(cfg, job, "filter"))
  }

  /**
   * The settings the entries give, converted in the builder's order: the
   * first entry that cannot be read or converted is the error. Reading an
   * entry changes nothing, so reading all four first gives the same error.
   */
  function SettingsFrom(e: CopyEntries, pcre: CopyJob.Pcre): Result<Config> {
    var copySource :- PolicyFrom(e.0);
    var copyTarget :- PolicyFrom(e.1);
    var removeObsolete :- RemoveFrom(e.2);
    var filters :- FiltersFrom(e.3, pcre);
    Ok(Config(copySource, copyTarget, removeObsolete, false, filters))
  }

  /** The settings the copy job builder applies to a new job, entry by entry, in its order. */
  function CopySettings(cfg: Snapshot, job: Definition, pcre: CopyJob.Pcre): Result<Config>
  {
    SettingsFrom(CopyEntriesOf(cfg, job), pcre)
  }

  const InvalidDefinition := "Invalid definition passed."
  const SourceNotDictionary := "The source of a copy job must be a dictionary definition"
  const TargetNotDictionary := "The target of a copy job must be a dictionary definition"

  /** A referenced job is replaced by the configured job of its name. */
  function Unwrapped(cfg: Snapshot, d: Definition): (r: Result<Definition>)
    ensures !d.ReferencedJob? ==> r == Ok(d)
  {
    if d.ReferencedJob? then Delegated(cfg, d) else Ok(d)
  }

  /** CopyJobBuilder::build(): a copy job definition, or the one a reference names. */
  function CopyPlan(cfg: Snapshot, services: Services, d: Definition, shapes: Shapes): Planned<JobRequest>
  {
    var unwrapped := Unwrapped(cfg, d);
    if unwrapped.Err? then Planned(Err(unwrapped.error), shapes)
    else if !unwrapped.value.CopyJob? then Planned(Err(InvalidArgument(InvalidDefinition)), shapes)
    else CopyJobPlan(cfg, services, unwrapped.value, shapes)
  }

  /** A copy job definition built: its two dictionaries, then the settings. */
  function CopyJobPlan(cfg: Snapshot, services: Services, job: Definition, shapes: Shapes): Planned<JobRequest>
    requires job.CopyJob?
  {
    var dictionaries := CopyDictionaries(cfg, services, job, shapes);
    if dictionaries.result.Err? then Planned(Err(dictionaries.result.error), dictionaries.after)
    else
      var settings := CopySettings(cfg, job, services.pcre);
      if settings.Err? then Planned(Err(settings.error), dictionaries.after)
      else
        var (source, target) := dictionaries.result.value;
        Planned(Ok(CopyRequest(source, target, settings.value)), dictionaries.after)
  }

  /** The source dictionary, then the writable target. */
  function CopyDictionaries(cfg: Snapshot, services: Services, job: Definition, shapes: Shapes)
    : Planned<(DictRequest, DictRequest)>
    requires job.CopyJob?
  {
    if !job.source.IsDictionaryDefinition() then Planned(Err(TypeError(SourceNotDictionary)), shapes)
    else
      var source := DictPlan(cfg, services, job.source, false, shapes);
      if source.result.Err? then Planned(Err(source.result.error), shapes)
      else if !job.target.IsDictionaryDefinition() then Planned(Err(TypeError(TargetNotDictionary)), shapes)
      else
        var target := DictPlan(cfg, services, job.target, true, shapes);
        if target.result.Err? then Planned(Err(target.result.error), target.after)
        else Planned(Ok((source.result.value, target.result.value)), target.after)
  }

  // ----- JobFactory::createJob() and BatchJobBuilder -----

  /** The "type" entry of a job definition, which must be a string. */
  function JobType(cfg: Snapshot, d: Definition): Result<string>
  {
    var t :- Get(cfg, d, TypeKey);
    AsString(t)
  }

  /**
   * createJob(): the job builder registered for the type builds the job.
   * `fuel` bounds the nesting of batches, which the configuration does not.
   */
  function JobPlan(cfg: Snapshot, services: Services, d: Definition, fuel: nat, shapes: Shapes)
    : Planned<JobRequest>
    decreases fuel, 0, 0
  {
    if fuel == 0 then Planned(Err(DepthExceeded), shapes)
    else
      var t := JobType(cfg, d);
      if t.Err? then Planned(Err(t.error), shapes)
      else if t.value !in services.jobBuilders then Planned(Err(UnexpectedValue("Unknown job type " + Quote(t.value))), shapes)
      else match services.jobBuilders[t.value]
        case CopyJobBuilder => CopyPlan(cfg, services, d, shapes)
        case BatchJobBuilder => BatchPlan(cfg, services, d, fuel - 1, shapes)
  }

  /**
   * BatchJobBuilder::build(): every listed job in order, each stored under
   * its name, so a later job replaces an earlier one of the same name.
   */
  function BatchPlan(cfg: Snapshot, services: Services, d: Definition, fuel: nat, shapes: Shapes)
    : Planned<JobRequest>
    decreases fuel, 2, 0
  {
    var unwrapped := Unwrapped(cfg, d);
    if unwrapped.Err? then Planned(Err(unwrapped.error), shapes)
    else if !unwrapped.value.BatchJob? then Planned(Err(InvalidArgument(InvalidDefinition)), shapes)
    else
      var children := BatchChildren(cfg, services, unwrapped.value.jobs, fuel, 0, Empty(), shapes);
      if children.result.Err? then Planned(Err(children.result.error), children.after)
      else Planned(Ok(BatchRequest(children.result.value)), children.after)
  }

  /** The listed jobs from position `i` on, stored by name over the jobs built so far. */
  function BatchChildren(cfg: Snapshot, services: Services, jobs: seq<Definition>, fuel: nat, i: nat,
                         built: OrderedMap<string, JobRequest>, shapes: Shapes)
    : Planned<OrderedMap<string, JobRequest>>
    requires i <= |jobs|
    decreases fuel, 1, |jobs| - i
  {
    if i == |jobs| then Planned(Ok(built), shapes)
    else
      var child := JobPlan(cfg, services, jobs[i], fuel, shapes);
      if child.result.Err? then Planned(Err(child.result.error), child.after)
      else BatchChildren(cfg, services, jobs, fuel, i + 1, built.Put(jobs[i].Name(), child.result.value), child.after)
  }

  /** createJobByName(): the configured job of that name. */
  function JobByNamePlan(cfg: Snapshot, services: Services, name: string, fuel: nat, shapes: Shapes)
    : Planned<JobRequest>
  {
    if !cfg.HasJob(name) then Planned(Err(UnexpectedValue("Job " + Quote(name) + " not found in configuration")), shapes)
    else JobPlan(cfg, services, cfg.GetJob(name).value, fuel, shapes)
  }

  // ----- the keys of a batch -----

  /** The names of the listed jobs, in order. */
  function NamesOf(jobs: seq<Definition>): (r: seq<string>)
    ensures |r| == |jobs| && forall k :: 0 <= k < |jobs| ==> r[k] == jobs[k].Name()
  {
    seq(|jobs|, k requires 0 <= k < |jobs| => jobs[k].Name())
  }

  /** The keys `$jobs[$name] = ...` leaves, in order: each name where it first occurs. */
  function KeysOf(names: seq<string>): (r: seq<string>)
    ensures Distinct(r) && |r| <= |names|
    ensures forall n :: n in r <==> n in names
  {
    if names == [] then []
    else
      var front := KeysOf(names[..|names| - 1]);
      var last := names[|names| - 1];
      assert names == names[..|names| - 1] + [last];
      if last in front then front
      else
        DistinctSnoc(front, last);
        front + [last]
  }
}
