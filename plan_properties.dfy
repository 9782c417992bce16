/**
 * Properties of the build plans: the copy flags, the languages and
 * prefixes of a compound's children, what the providers have registered
 * once a dictionary is built, the names of a batch's jobs, and that the
 * nesting bound only ever cuts a build short.
 */
module BuildPlanProperties {

  import opened Errors
  import opened OrderedMaps
  import opened Values
  import opened Configurations
  import opened Definitions
  import opened CopySpec
  import opened BuildPlans

  // ----- copy flags -----

  /** The word the copy flag parser reads as each policy. */
  function FlagWord(policy: int): string
    requires policy in {DO_NOT_COPY, COPY, COPY_IF_EMPTY}
  {
    if policy == DO_NOT_COPY then "false" else if policy == COPY then "true" else "if-empty"
  }

  /** The copy flag accepts exactly seven values, each read as one of the three policies. */
  lemma CopyFlagAccepts(v: Value)
    ensures CopyFlag(v).Ok? <==> v.Bool? || (v.Str? && v.s in ["true", "yes", "no", "false", "if-empty"])
    ensures CopyFlag(v).Ok? ==> CopyFlag(v).value in {DO_NOT_COPY, COPY, COPY_IF_EMPTY}
    ensures CopyFlag(v).Err? ==> CopyFlag(v) == Err(InvalidArgument("Invalid value for copy flag."))
  {
  }

  /** Each policy's word reads back as that policy. */
  lemma CopyFlagRoundTrip(policy: int)
    requires policy in {DO_NOT_COPY, COPY, COPY_IF_EMPTY}
    ensures CopyFlag(Str(FlagWord(policy))) == Ok(policy)
  {
  }

  /**
   * The remove-obsolete flag accepts what the copy flag accepts except
   * "if-empty", and reads as true exactly where the copy flag reads COPY.
   */
  lemma BoolishAgreesWithCopyFlag(v: Value)
    ensures BoolishFlag(v).Ok? <==> CopyFlag(v).Ok? && CopyFlag(v).value != COPY_IF_EMPTY
    ensures BoolishFlag(v).Ok? ==> (BoolishFlag(v).value <==> CopyFlag(v).value == COPY)
  {
  }

  // ----- filters -----

  /** Adding the filters one by one fails where the outcome stated at once says, and keeps the same list. */
  lemma {:induction false} FilterListOutcome(vs: seq<Value>, pcre: CopyJob.Pcre)
    ensures FilterList(vs, pcre) == FilterOutcome(vs, pcre)
  {
    if vs != [] && vs[0].Str? {
      var rest := LeadingStrings(vs[1..]);
      assert LeadingStrings(vs) == [vs[0].s] + rest;
      FirstRejectedCons(vs[0].s, rest, pcre);
      if CopyJob.Delimited(vs[0].s) !in pcre.rejected {
        FilterListOutcome(vs[1..], pcre);
        DelimitAllCons(vs[0].s, rest);
      }
    }
  }

  lemma FirstRejectedCons(expression: string, rest: seq<string>, pcre: CopyJob.Pcre)
    ensures var first := FirstRejected(rest, pcre);
      FirstRejected([expression] + rest, pcre)
        == if CopyJob.Delimited(expression) in pcre.rejected then Some(0)
           else if first.None? then None else Some(first.value + 1)
  {
    assert ([expression] + rest)[1..] == rest;
  }

  lemma DelimitAllCons(expression: string, rest: seq<string>)
    ensures CopyJob.DelimitAll([expression] + rest) == [CopyJob.Delimited(expression)] + CopyJob.DelimitAll(rest)
  {
  }

  // ----- batches -----

  /**
   * Each job built is stored under its name: the batch's keys are the
   * listed names where each first occurs.
   */
  lemma {:induction false} BatchChildrenKeys(cfg: Snapshot, services: Services, jobs: seq<Definition>,
                                             fuel: nat, i: nat, built: OrderedMap<string, JobRequest>, shapes: Shapes)
    requires i <= |jobs|
    requires built.Valid() && built.keys == KeysOf(NamesOf(jobs)[..i])
    ensures var r := BatchChildren(cfg, services, jobs, fuel, i, built, shapes);
      r.result.Ok? ==> r.result.value.Valid() && r.result.value.keys == KeysOf(NamesOf(jobs))
    decreases |jobs| - i
  {
    var names := NamesOf(jobs);
    if i == |jobs| {
      assert names[..i] == names;
    } else {
      var child := JobPlan(cfg, services, jobs[i], fuel, shapes);
      if child.result.Ok? {
        var front := names[..i + 1];
        assert front[..|front| - 1] == names[..i] && front[|front| - 1] == jobs[i].Name();
        BatchChildrenKeys(cfg, services, jobs, fuel, i + 1, built.Put(jobs[i].Name(), child.result.value), child.after);
      }
    }
  }

  /** Two listed jobs of the same name leave fewer keys than jobs. */
  lemma {:induction false} KeysOfRepeat(names: seq<string>, a: nat, b: nat)
    requires a < b < |names| && names[a] == names[b]
    ensures |KeysOf(names)| < |names|
  {
    var front := names[..|names| - 1];
    if b == |names| - 1 {
      assert names[a] == front[a];
    } else {
      KeysOfRepeat(front, a, b);
    }
  }

  /**
   * A built batch holds one job per distinct listed name, keyed by the
   * names in order of first mention; two listed jobs of the same name give
   * fewer jobs than listed.
   */
  lemma BatchKeys(cfg: Snapshot, services: Services, d: Definition, fuel: nat, shapes: Shapes)
    ensures var r := BatchPlan(cfg, services, d, fuel, shapes);
      r.result.Ok? ==>
        && Unwrapped(cfg, d).Ok? && Unwrapped(cfg, d).value.BatchJob?
        && var jobs := Unwrapped(cfg, d).value.jobs;
        && r.result.value.BatchRequest? && r.result.value.jobs.Valid()
        && r.result.value.jobs.keys == KeysOf(NamesOf(jobs))
        && (forall a, b :: 0 <= a < b < |jobs| && jobs[a].Name() == jobs[b].Name() ==>
              |r.result.value.jobs.keys| < |jobs|)
  {
    var u := Unwrapped(cfg, d);
    if u.Ok? && u.value.BatchJob? {
      var jobs := u.value.jobs;
      assert NamesOf(jobs)[..0] == [];
      BatchChildrenKeys(cfg, services, jobs, fuel, 0, Empty(), shapes);
      forall a, b | 0 <= a < b < |jobs| && jobs[a].Name() == jobs[b].Name()
        ensures |KeysOf(NamesOf(jobs))| < |jobs|
      {
        KeysOfRepeat(NamesOf(jobs), a, b);
      }
    }
  }

  // ----- referenced jobs -----

  /**
   * A copy or batch builder handed a reference builds the configured job
   * of that name: the reference's own entries play no part.
   */
  lemma ReferenceIgnoresOwnEntries(cfg: Snapshot, services: Services, name: string, data: PArray,
                                   fuel: nat, shapes: Shapes)
    requires cfg.GetJob(name).Ok? && !cfg.GetJob(name).value.ReferencedJob?
    ensures CopyPlan(cfg, services, ReferencedJob(name, data), shapes) == CopyPlan(cfg, services, cfg.GetJob(name).value, shapes)
    ensures BatchPlan(cfg, services, ReferencedJob(name, data), fuel, shapes) == BatchPlan(cfg, services, cfg.GetJob(name).value, fuel, shapes)
  {
  }

  // ----- the nesting bound -----

  /** More fuel changes nothing about a build that did not run out of it. */
  lemma {:induction false} JobFuel(cfg: Snapshot, services: Services, d: Definition, fuel: nat, shapes: Shapes)
    requires JobPlan(cfg, services, d, fuel, shapes).result != Err(DepthExceeded)
    ensures JobPlan(cfg, services, d, fuel + 1, shapes) == JobPlan(cfg, services, d, fuel, shapes)
    decreases fuel, 0, 0
  {
    if fuel > 0 {
      var t := JobType(cfg, d);
      if t.Ok? && t.value in services.jobBuilders && services.jobBuilders[t.value].BatchJobBuilder? {
        BatchFuel(cfg, services, d, fuel - 1, shapes);
      }
    }
  }

  lemma {:induction false} BatchFuel(cfg: Snapshot, services: Services, d: Definition, fuel: nat, shapes: Shapes)
    requires BatchPlan(cfg, services, d, fuel, shapes).result != Err(DepthExceeded)
    ensures BatchPlan(cfg, services, d, fuel + 1, shapes) == BatchPlan(cfg, services, d, fuel, shapes)
    decreases fuel, 2, 0
  {
    var u := Unwrapped(cfg, d);
    if u.Ok? && u.value.BatchJob? {
      BatchChildrenFuel(cfg, services, u.value.jobs, fuel, 0, Empty(), shapes);
    }
  }

  lemma {:induction false} BatchChildrenFuel(cfg: Snapshot, services: Services, jobs: seq<Definition>,
                                             fuel: nat, i: nat, built: OrderedMap<string, JobRequest>, shapes: Shapes)
    requires i <= |jobs|
    requires BatchChildren(cfg, services, jobs, fuel, i, built, shapes).result != Err(DepthExceeded)
    ensures BatchChildren(cfg, services, jobs, fuel + 1, i, built, shapes)
         == BatchChildren(cfg, services, jobs, fuel, i, built, shapes)
    decreases fuel, 1, |jobs| - i
  {
    if i < |jobs| {
      var child := JobPlan(cfg, services, jobs[i], fuel, shapes);
      JobFuel(cfg, services, jobs[i], fuel, shapes);
      if child.result.Ok? {
        BatchChildrenFuel(cfg, services, jobs, fuel, i + 1, built.Put(jobs[i].Name(), child.result.value), child.after);
      }
    }
  }

  // ----- services and jobs that are not registered -----

  /**
   * Without a "default" dictionary builder, a dictionary builds only when
   * its type names a registered builder; any other type ends the build with
   * the locator's not-found exception for "default", before a provider is
   * asked.
   */
  lemma NoDefaultBuilder(cfg: Snapshot, services: Services, d: Definition, writable: bool, shapes: Shapes)
    requires d.IsDictionaryDefinition() && "default" !in services.dictionaryBuilders
    ensures DictPlan(cfg, services, d, writable, shapes).result.Ok? ==>
      GetType(cfg, d).Ok? && GetType(cfg, d).value in services.dictionaryBuilders
    ensures GetType(cfg, d).Ok? && GetType(cfg, d).value !in services.dictionaryBuilders ==>
      DictPlan(cfg, services, d, writable, shapes) == Planned(Err(ServiceNotFound("default")), shapes)
  {
  }

  /** createJob() builds only a job whose type names a registered job builder, and names an unknown type. */
  lemma UnknownJobType(cfg: Snapshot, services: Services, d: Definition, fuel: nat, shapes: Shapes)
    requires fuel > 0
    ensures JobPlan(cfg, services, d, fuel, shapes).result.Ok? ==>
      JobType(cfg, d).Ok? && JobType(cfg, d).value in services.jobBuilders
    ensures JobType(cfg, d).Ok? && JobType(cfg, d).value !in services.jobBuilders ==>
      JobPlan(cfg, services, d, fuel, shapes)
        == Planned(Err(UnexpectedValue("Unknown job type " + Quote(JobType(cfg, d).value))), shapes)
  {
  }

  /** createJobByName() builds only a configured job, and names a missing one. */
  lemma JobNotConfigured(cfg: Snapshot, services: Services, name: string, fuel: nat, shapes: Shapes)
    ensures JobByNamePlan(cfg, services, name, fuel, shapes).result.Ok? ==> cfg.HasJob(name)
    ensures !cfg.HasJob(name) ==>
      JobByNamePlan(cfg, services, name, fuel, shapes)
        == Planned(Err(UnexpectedValue("Job " + Quote(name) + " not found in configuration")), shapes)
  {
  }

  /** No builders of either kind and no jobs: asking for "job" fails as not configured. */
  lemma EmptyFactoryHasNoJob(pcre: CopyJob.Pcre, fuel: nat, shapes: Shapes)
    ensures JobByNamePlan(Snapshot(Empty(), Empty()), Services(map[], map[], pcre), "job", fuel, shapes).result
      == Err(UnexpectedValue("Job \"job\" not found in configuration"))
  {
    var cfg: Snapshot := Snapshot(Empty(), Empty());
    assert !cfg.HasJob("job");
    JobNotConfigured(cfg, Services(map[], map[], pcre), "job", fuel, shapes);
    assert Quote("job") == "\"job\"";
    assert "Job " + "\"job\"" == "Job \"job\"";
    assert "Job \"job\"" + " not found in configuration" == "Job \"job\" not found in configuration";
  }

  /** No builders of either kind, and "job" of type "test" configured: the type is unknown. */
  lemma EmptyFactoryUnknownType(pcre: CopyJob.Pcre, fuel: nat, shapes: Shapes)
    requires fuel > 0
    ensures var cfg := Snapshot(Empty<string, Definition>().Put("job", Plain("job", Empty<Key, Value>().Put(S(TypeKey), Str("test")))), Empty());
      JobByNamePlan(cfg, Services(map[], map[], pcre), "job", fuel, shapes).result
        == Err(UnexpectedValue("Unknown job type \"test\""))
  {
    var job := Plain("job", Empty<Key, Value>().Put(S(TypeKey), Str("test")));
    var cfg := Snapshot(Empty<string, Definition>().Put("job", job), Empty());
    assert cfg.GetJob("job") == Ok(job);
    assert JobType(cfg, job) == Ok("test") by {
      assert Get(cfg, job, TypeKey) == Ok(Str("test"));
    }
    UnknownJobType(cfg, Services(map[], map[], pcre), job, fuel, shapes);
    assert "Unknown job type " + Quote("test") == "Unknown job type \"test\"";
  }
}
