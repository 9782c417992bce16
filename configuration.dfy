/**
 * Configuration: the registry of named job and dictionary definitions that
 * the definition builders fill and the job factory reads.
 */
module Configurations {

  import opened Errors
  import opened OrderedMaps
  import opened Values

  /**
   * What a configuration has registered at one moment. Building jobs and
   * dictionaries reads the configuration and never changes it, so the
   * definitions and the factory's plans read this value.
   */
  datatype Snapshot = Snapshot(jobs: OrderedMap<string, Definition>, dictionaries: OrderedMap<string, Definition>)
  {
    predicate HasJob(name: string) {
      name in jobs.items
    }

    /** getJob(): the registered job, or "Job not found: <name>". */
    function GetJob(name: string): (r: Result<Definition>)
      ensures r.Ok? <==> HasJob(name)
      ensures r.Ok? ==> r.value == jobs.items[name]
      ensures r.Err? ==> r.error == InvalidArgument("Job not found: " + name)
    {
      if name in jobs.items then Ok(jobs.items[name])
      else Err(InvalidArgument("Job not found: " + name))
    }

    predicate HasDictionary(name: string) {
      name in dictionaries.items
    }

    /** getDictionary(): the registered dictionary, or "Dictionary not found: <name>". */
    function GetDictionary(name: string): (r: Result<Definition>)
      ensures r.Ok? <==> HasDictionary(name)
      ensures r.Ok? ==> r.value == dictionaries.items[name]
      ensures r.Err? ==> r.error == InvalidArgument("Dictionary not found: " + name)
    {
      if name in dictionaries.items then Ok(dictionaries.items[name])
      else Err(InvalidArgument("Dictionary not found: " + name))
    }
  }

  class Configuration {
    /** Job definitions by name, in registration order. */
    var jobs: OrderedMap<string, Definition>
    /** Dictionary definitions by name, in registration order. */
    var dictionaries: OrderedMap<string, Definition>

    ghost predicate Valid()
      reads this
    {
      jobs.Valid() && dictionaries.Valid()
    }

    constructor ()
      ensures Valid()
      ensures jobs.keys == [] && dictionaries.keys == []
    {
      jobs := Empty();
      dictionaries := Empty();
    }

    function State(): Snapshot
      reads this
    {
      Snapshot(jobs, dictionaries)
    }

    predicate HasJob(name: string)
      reads this
    {
      State().HasJob(name)
    }

    function GetJob(name: string): Result<Definition>
      reads this
    {
      State().GetJob(name)
    }

    /** setJob(): registers the job under its own name, replacing one of the same name in place. */
    method SetJob(job: Definition)
      requires Valid()
      modifies this
      ensures Valid()
      ensures GetJob(job.Name()) == Ok(job)
      ensures forall n :: n != job.Name() ==> GetJob(n) == old(GetJob(n))
      ensures JobNames() == if old(HasJob(job.Name())) then old(JobNames()) else old(JobNames()) + [job.Name()]
      ensures dictionaries == old(dictionaries)
    {
      jobs := jobs.Put(job.Name(), job);
    }

    /** getJobNames(): the registered names, in registration order. */
    function JobNames(): (r: seq<string>)
      reads this
      requires Valid()
      ensures Distinct(r)
      ensures forall n :: n in r <==> HasJob(n)
    {
      jobs.keys
    }

    predicate HasDictionary(name: string)
      reads this
    {
      State().HasDictionary(name)
    }

    function GetDictionary(name: string): Result<Definition>
      reads this
    {
      State().GetDictionary(name)
    }

    /** setDictionary(): registers the dictionary under its own name, replacing one of the same name in place. */
    method SetDictionary(dictionary: Definition)
      requires Valid()
      modifies this
      ensures Valid()
      ensures GetDictionary(dictionary.Name()) == Ok(dictionary)
      ensures forall n :: n != dictionary.Name() ==> GetDictionary(n) == old(GetDictionary(n))
      ensures DictionaryNames() ==
        if old(HasDictionary(dictionary.Name())) then old(DictionaryNames())
        else old(DictionaryNames()) + [dictionary.Name()]
      ensures jobs == old(jobs)
    {
      dictionaries := dictionaries.Put(dictionary.Name(), dictionary);
    }

    /** getDictionaryNames(): the registered names, in registration order. */
    function DictionaryNames(): (r: seq<string>)
      reads this
      requires Valid()
      ensures Distinct(r)
      ensures forall n :: n in r <==> HasDictionary(n)
    {
      dictionaries.keys
    }
  }
}
