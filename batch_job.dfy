/**
 * BatchJob: runs its child jobs one after the other, in order, with the
 * same dry-run argument; the first child that throws ends the run.
 *
 * A child is a copy job or another batch. The copy jobs a batch reaches,
 * depth first, are its `copies`, and a nested batch runs its own copy jobs
 * in turn, so a run runs `copies` in order. It is stated as `Sequence`:
 * each copy job does what `CopySpec.Run` says on the views its two
 * dictionaries have by then, so one job's target may be a later job's
 * source or target.
 */
module Batches {

  import opened Errors
  import opened OrderedMaps
  import opened Views
  import opened Dictionaries
  import CopySpec
  import opened CopyJob

  /** TranslationJobInterface: the two job classes. */
  datatype Job = Copy(copy: CopyDictionaryJob) | Batch(batch: BatchJob)

  /** The copy jobs a child reaches, depth first. */
  function Reached(job: Job): seq<CopyDictionaryJob> {
    match job
    case Copy(c) => [c]
    case Batch(b) => b.copies
  }

  /** The copy jobs the children reach, child after child. */
  function ReachedAll(jobs: seq<Job>): seq<CopyDictionaryJob> {
    if jobs == [] then [] else ReachedAll(jobs[..|jobs| - 1]) + Reached(jobs[|jobs| - 1])
  }

  /** The children of an ordered map of jobs, in order. */
  function Children(jobs: OrderedMap<string, Job>): (r: seq<Job>)
    requires jobs.Valid()
    ensures |r| == |jobs.keys| && forall i :: 0 <= i < |r| ==> r[i] == jobs.items[jobs.keys[i]]
  {
    seq(|jobs.keys|, i requires 0 <= i < |jobs.keys| => jobs.items[jobs.keys[i]])
  }

  /** What a list of children reaches splits where the list does. */
  lemma {:induction false} ReachedAppend(a: seq<Job>, b: seq<Job>)
    ensures ReachedAll(a + b) == ReachedAll(a) + ReachedAll(b)
  {
    if b != [] {
      assert (a + b)[..|a + b| - 1] == a + b[..|b| - 1];
      ReachedAppend(a, b[..|b| - 1]);
    } else {
      assert a + b == a;
    }
  }

  // ----- a run as values -----

  /** What one copy job's run depends on: its settings, its pattern matcher and its two dictionaries. */
  datatype Task = Task(settings: CopySpec.Config, matches: CopySpec.Matches, source: Dict, target: Dict)

  /** The contents of the dictionaries the copy jobs use, as values. */
  type Contents = map<Dict, DictView>

  /** Every task's two dictionaries have a well-formed view in the world. */
  ghost predicate Covers(tasks: seq<Task>, world: Contents) {
    && (forall i :: 0 <= i < |tasks| ==> tasks[i].source in world && tasks[i].target in world)
    && forall d :: d in world ==> world[d].Valid()
  }

  /**
   * The tasks run one after the other, with the same argument: each runs as
   * `CopySpec.Run` on the views its dictionaries have by then and leaves its
   * target as that run does; the first one that fails ends the run with its
   * error.
   */
  function Sequence(tasks: seq<Task>, argument: Option<bool>, world: Contents): (r: (Contents, Result<()>))
    requires Covers(tasks, world)
    ensures r.0.Keys == world.Keys && forall d :: d in r.0 ==> r.0[d].Valid()
    decreases |tasks|
  {
    if tasks == [] then (world, Ok(()))
    else
      var t := tasks[0];
      var out := CopySpec.Run(t.settings, t.matches, argument, world[t.source], world[t.target]);
      CopySpec.RunValid(t.settings, t.matches, argument, world[t.source], world[t.target]);
      var next := world[t.target := out.view];
      if out.error.Some? then (next, Err(out.error.value))
      else Sequence(tasks[1..], argument, next)
  }

  /** One step of a sequence: the next task's run, then the rest from where it left the dictionaries. */
  lemma SequenceStep(tasks: seq<Task>, argument: Option<bool>, w: Contents, at: nat)
    requires at < |tasks| && Covers(tasks[at..], w)
    ensures var t := tasks[at];
      var out := CopySpec.Run(t.settings, t.matches, argument, w[t.source], w[t.target]);
      && Covers(tasks[at + 1..], w[t.target := out.view])
      && Sequence(tasks[at..], argument, w) ==
           if out.error.Some? then (w[t.target := out.view], Err(out.error.value))
           else Sequence(tasks[at + 1..], argument, w[t.target := out.view])
  {
    var t := tasks[at];
    assert tasks[at..][0] == t && tasks[at..][1..] == tasks[at + 1..];
    CopySpec.RunValid(t.settings, t.matches, argument, w[t.source], w[t.target]);
  }

  /** A dictionary no task writes to keeps its contents. */
  lemma {:induction false} SequenceUntouched(tasks: seq<Task>, argument: Option<bool>, world: Contents, d: Dict)
    requires Covers(tasks, world) && d in world
    requires forall i :: 0 <= i < |tasks| ==> tasks[i].target != d
    ensures Sequence(tasks, argument, world).0[d] == world[d]
    decreases |tasks|
  {
    if tasks != [] {
      var t := tasks[0];
      var out := CopySpec.Run(t.settings, t.matches, argument, world[t.source], world[t.target]);
      CopySpec.RunValid(t.settings, t.matches, argument, world[t.source], world[t.target]);
      var next := world[t.target := out.view];
      if out.error.None? {
        SequenceUntouched(tasks[1..], argument, next, d);
      }
    }
  }

  /** A run asked to be dry leaves every dictionary as it was. */
  lemma {:induction false} SequenceDry(tasks: seq<Task>, world: Contents)
    requires Covers(tasks, world)
    ensures Sequence(tasks, Some(true), world).0 == world
    decreases |tasks|
  {
    if tasks != [] {
      var t := tasks[0];
      CopySpec.DryRunChangesNothing(t.settings, t.matches, Some(true), world[t.source], world[t.target]);
      assert world[t.target := world[t.target]] == world;
      SequenceDry(tasks[1..], world);
    }
  }

  /**
   * Running `a` and then, if it did not fail, `b` is running `a + b`: a
   * nested batch's run composes with the runs of its siblings.
   */
  lemma {:induction false} SequenceConcat(a: seq<Task>, b: seq<Task>, argument: Option<bool>, world: Contents)
    requires Covers(a + b, world)
    ensures Covers(a, world)
    ensures var first := Sequence(a, argument, world);
      && Covers(b, first.0)
      && Sequence(a + b, argument, world) == if first.1.Ok? then Sequence(b, argument, first.0) else first
    decreases |a|
  {
    assert forall i :: 0 <= i < |a| ==> a[i] == (a + b)[i];
    assert forall i :: 0 <= i < |b| ==> b[i] == (a + b)[|a| + i];
    if a == [] {
      assert a + b == b;
    } else {
      var t := a[0];
      assert (a + b)[0] == t && (a + b)[1..] == a[1..] + b;
      var out := CopySpec.Run(t.settings, t.matches, argument, world[t.source], world[t.target]);
      CopySpec.RunValid(t.settings, t.matches, argument, world[t.source], world[t.target]);
      var next := world[t.target := out.view];
      if out.error.None? {
        SequenceConcat(a[1..], b, argument, next);
      }
    }
  }

  // ----- the copy jobs and their dictionaries -----

  /** The task a copy job runs. */
  function TaskOf(c: CopyDictionaryJob): Task
    reads c
  {
    Task(c.Settings(), c.pcre.matches, c.source, c.target)
  }

  /** The tasks the copy jobs run, in order. */
  function Tasks(cs: seq<CopyDictionaryJob>): (r: seq<Task>)
    reads set c | c in cs
    ensures |r| == |cs| && forall i :: 0 <= i < |cs| ==> r[i] == TaskOf(cs[i])
  {
    if cs == [] then [] else [TaskOf(cs[0])] + Tasks(cs[1..])
  }

  /** The dictionaries the copy jobs read from and write to. */
  function DictsOf(cs: seq<CopyDictionaryJob>): (r: set<Dict>)
    ensures forall i :: 0 <= i < |cs| ==> cs[i].source in r && cs[i].target in r
  {
    (set i | 0 <= i < |cs| :: cs[i].source) + (set i | 0 <= i < |cs| :: cs[i].target)
  }

  /** The dictionary objects. */
  function Tops(ds: set<Dict>): set<object> {
    set d | d in ds :: d.Top()
  }

  /** Every object the dictionaries consist of. */
  ghost function Objects(ds: set<Dict>): set<object>
    reads Tops(ds)
  {
    set d, o | d in ds && o in Footprint(d) :: o
  }

  /** Every object the copy jobs' targets consist of: what a run may change. */
  ghost function Targets(cs: seq<CopyDictionaryJob>): set<object>
    reads Tops(DictsOf(cs))
  {
    set i, o | 0 <= i < |cs| && o in Footprint(cs[i].target) :: o
  }

  /** Every dictionary is well formed. */
  ghost predicate DictsValid(ds: set<Dict>)
    reads Tops(ds), Objects(ds)
  {
    forall d :: d in ds ==> Dictionaries.Valid(d)
  }

  /** Two different dictionaries share no object. */
  ghost predicate Disjoint(ds: set<Dict>)
    reads Tops(ds)
  {
    forall d, e :: d in ds && e in ds && d != e ==> Footprint(d) !! Footprint(e)
  }

  /**
   * The copy jobs can run one after the other: each can run on its own, two
   * different dictionaries share no object, and no dictionary holds a copy
   * job. Two jobs may share a dictionary.
   */
  ghost predicate Runnable(cs: seq<CopyDictionaryJob>)
    reads Tops(DictsOf(cs)), Objects(DictsOf(cs))
  {
    && (forall i :: 0 <= i < |cs| ==> cs[i].Valid())
    && Disjoint(DictsOf(cs))
    && Outside(cs, DictsOf(cs))
  }

  /** No dictionary holds a copy job. */
  ghost predicate Outside(cs: seq<CopyDictionaryJob>, ds: set<Dict>)
    reads Tops(ds)
  {
    forall i, d :: 0 <= i < |cs| && d in ds ==> cs[i] !in Footprint(d)
  }

  /** The dictionaries of copy jobs that can run are well formed. */
  lemma RunnableDicts(cs: seq<CopyDictionaryJob>)
    requires Runnable(cs)
    ensures DictsValid(DictsOf(cs))
  {
    forall d | d in DictsOf(cs) ensures Dictionaries.Valid(d) {
      var i :| 0 <= i < |cs| && (d == cs[i].source || d == cs[i].target);
    }
  }

  /** The contents of the dictionaries, as values. */
  ghost function ContentsOf(ds: set<Dict>): (w: Contents)
    requires DictsValid(ds)
    reads Tops(ds), Objects(ds)
    ensures w.Keys == ds && forall d :: d in w ==> w[d] == View(d) && w[d].Valid()
  {
    assert forall d :: d in ds ==> View(d).Valid() by {
      forall d | d in ds ensures View(d).Valid() { ViewValid(d); }
    }
    map d | d in ds :: View(d)
  }

  /** `tasks` are the tasks the copy jobs run. */
  ghost predicate Describes(tasks: seq<Task>, cs: seq<CopyDictionaryJob>)
    reads set c | c in cs
  {
    |tasks| == |cs| && forall k :: 0 <= k < |cs| ==> tasks[k] == TaskOf(cs[k])
  }

  /** `w` holds the contents of the dictionaries, which are well formed. */
  ghost predicate Shows(w: Contents, ds: set<Dict>)
    reads Tops(ds), Objects(ds)
  {
    w.Keys == ds && forall d :: d in ds ==> Dictionaries.Valid(d) && w[d] == View(d)
  }

  /** Contents that show the copy jobs' dictionaries cover the tasks they run. */
  lemma ShowsCovers(cs: seq<CopyDictionaryJob>, tasks: seq<Task>, w: Contents, i: nat)
    requires |tasks| == |cs| && i <= |cs| && Shows(w, DictsOf(cs))
    requires forall k :: 0 <= k < |cs| ==> tasks[k].source == cs[k].source && tasks[k].target == cs[k].target
    ensures Covers(tasks[i..], w)
  {
    forall d | d in w ensures w[d].Valid() {
      ViewValid(d);
    }
  }

  /** The copy jobs can run, run the tasks `tasks`, and `w` holds their dictionaries' contents. */
  ghost predicate Holds(cs: seq<CopyDictionaryJob>, tasks: seq<Task>, w: Contents)
    reads Tops(DictsOf(cs)), Objects(DictsOf(cs)), set c | c in cs
  {
    Runnable(cs) && Describes(tasks, cs) && Shows(w, DictsOf(cs))
  }

  /** Before a run: the copy jobs hold with their tasks and their dictionaries' contents. */
  lemma Start(cs: seq<CopyDictionaryJob>)
    requires Runnable(cs)
    ensures DictsValid(DictsOf(cs))
    ensures Holds(cs, Tasks(cs), ContentsOf(DictsOf(cs))) && Covers(Tasks(cs), ContentsOf(DictsOf(cs)))
  {
    RunnableDicts(cs);
    ShowsCovers(cs, Tasks(cs), ContentsOf(DictsOf(cs)), 0);
  }

  /** After a run: the contents held are the dictionaries' contents, and the jobs run the same tasks. */
  lemma Finish(cs: seq<CopyDictionaryJob>, tasks: seq<Task>, w: Contents)
    requires Holds(cs, tasks, w)
    ensures DictsValid(DictsOf(cs)) && ContentsOf(DictsOf(cs)) == w && Tasks(cs) == tasks
  {
  }

  class BatchJob {
    /** `$jobs`: the children by name, in the order they run. */
    const jobs: OrderedMap<string, Job>
    /** The copy jobs the children reach, depth first: what a run runs, in order. */
    const copies: seq<CopyDictionaryJob>

    /** `copies` lists what the children reach. */
    ghost predicate Shaped() {
      jobs.Valid() && copies == ReachedAll(Children(jobs))
    }

    /** Shaped, and its copy jobs can run one after the other. */
    ghost predicate Ready()
      reads Tops(DictsOf(copies)), Objects(DictsOf(copies))
    {
      Shaped() && Runnable(copies)
    }

    /** `new BatchJob($jobs)`. */
    constructor (jobs: OrderedMap<string, Job>)
      requires jobs.Valid()
      ensures Shaped() && this.jobs == jobs
    {
      this.jobs := jobs;
      this.copies := ReachedAll(Children(jobs));
    }

    /**
     * `run($dryRun)`: each child in turn with the same argument, until one
     * fails; the batch fails with that failure. The dictionaries end as
     * `Sequence` says the copy jobs leave them, and the jobs keep their
     * settings.
     */
    method Run(argument: Option<bool>) returns (r: Result<()>)
      requires Ready()
      modifies Targets(copies)
      ensures Ready() && Tasks(copies) == old(Tasks(copies))
      ensures DictsValid(DictsOf(copies)) && old(DictsValid(DictsOf(copies)))
      ensures old(Covers(Tasks(copies), ContentsOf(DictsOf(copies))))
      ensures (ContentsOf(DictsOf(copies)), r) == Sequence(old(Tasks(copies)), argument, old(ContentsOf(DictsOf(copies))))
    {
      ghost var tasks := Tasks(copies);
      Start(copies);
      ghost var final;
      r, final := RunAll(copies, argument, tasks, ContentsOf(DictsOf(copies)));
      Finish(copies, tasks, final);
    }
  }

  // ----- running the copy jobs -----

  /** The copy jobs run one after the other, from contents `w`, as `Sequence` says. */
  method RunAll(cs: seq<CopyDictionaryJob>, argument: Option<bool>, ghost tasks: seq<Task>, ghost w: Contents)
    returns (r: Result<()>, ghost final: Contents)
    requires Holds(cs, tasks, w) && Covers(tasks, w)
    modifies Targets(cs)
    ensures Holds(cs, tasks, final) && Grown(DictsOf(cs))
    ensures (final, r) == Sequence(tasks, argument, w)
  {
    ghost var ds := DictsOf(cs);
    final := w;
    var i := 0;
    while i < |cs|
      invariant i <= |cs|
      invariant Holds(cs, tasks, final) && Covers(tasks[i..], final)
      invariant Grown(ds)
      invariant Sequence(tasks, argument, w) == Sequence(tasks[i..], argument, final)
    {
      r, final := RunOne(cs, i, argument, tasks, final);
      if r.Err? {
        return;
      }
      i := i + 1;
    }
    r := Ok(());
  }

  /**
   * The run of the copy job at `at`: its target ends as `CopySpec.Run` says,
   * which is the first step of the remaining tasks' `Sequence`, and every
   * other dictionary and every copy job is as it was.
   */
  method RunOne(cs: seq<CopyDictionaryJob>, at: nat, argument: Option<bool>, ghost tasks: seq<Task>, ghost w: Contents)
    returns (r: Result<()>, ghost next: Contents)
    requires at < |cs| && Holds(cs, tasks, w)
    modifies Footprint(cs[at].target)
    ensures Holds(cs, tasks, next) && Grown(DictsOf(cs))
    ensures Covers(tasks[at..], w) && Covers(tasks[at + 1..], next)
    ensures Sequence(tasks[at..], argument, w) == if r.Ok? then Sequence(tasks[at + 1..], argument, next) else (next, r)
  {
    var c := cs[at];
    ShowsCovers(cs, tasks, w, at);
    label L:
    r := c.Run(argument);
    next := w[c.target := View(c.target)];
    JobsAfter@L((cs, tasks, c.target));
    DictsAfter@L((cs, w, c.target));
    ShowsCovers(cs, tasks, next, at + 1);
    SequenceStep(tasks, argument, w, at);
  }

  // ----- what one copy job's run leaves unchanged -----

  /** Every object of the dictionaries was one of theirs before, or is new. */
  twostate predicate Grown(ds: set<Dict>)
    reads Tops(ds), Objects(ds)
  {
    forall d, o :: d in ds && o in Footprint(d) ==> o in old(Footprint(d)) || fresh(o)
  }

  /** The dictionaries other than `t` kept their objects, and `t` gained only new ones. */
  twostate predicate Changed(ds: set<Dict>, t: Dict)
    reads Tops(ds), Objects(ds)
  {
    && t in ds && Dictionaries.Valid(t) && (forall o :: o in Footprint(t) ==> o in old(Footprint(t)) || fresh(o))
    && forall d :: d in ds && d != t ==> Dictionaries.Valid(d) && Footprint(d) == old(Footprint(d))
  }

  /** After a run that changed only the objects of `t`, which holds no copy job, the jobs are as they were. */
  twostate lemma JobsAfter(x: (seq<CopyDictionaryJob>, seq<Task>, Dict))
    requires old(Runnable(x.0)) && old(Describes(x.1, x.0)) && x.2 in DictsOf(x.0)
    requires forall o: object :: old(allocated(o)) && o !in old(Footprint(x.2)) ==> unchanged(o)
    ensures Describes(x.1, x.0) && forall k :: 0 <= k < |x.0| ==> unchanged(x.0[k])
  {
    JobsKept((x.0, x.2));
    DescribesAfter((x.0, x.1));
  }

  /** A run that changed only the objects of `t`, which holds no copy job, left every copy job as it was. */
  twostate lemma JobsKept(x: (seq<CopyDictionaryJob>, Dict))
    requires forall k :: 0 <= k < |x.0| ==> x.0[k] !in old(Footprint(x.1))
    requires forall o: object :: old(allocated(o)) && o !in old(Footprint(x.1)) ==> unchanged(o)
    ensures forall k :: 0 <= k < |x.0| ==> unchanged(x.0[k])
  {
  }

  /** Copy jobs left as they were run the same tasks. */
  twostate lemma DescribesAfter(x: (seq<CopyDictionaryJob>, seq<Task>))
    requires old(Describes(x.1, x.0)) && forall k :: 0 <= k < |x.0| ==> unchanged(x.0[k])
    ensures Describes(x.1, x.0)
  {
  }

  /** After a run that changed only the objects of `t` and left it well formed, the dictionaries hold with its new contents. */
  twostate lemma DictsAfter(x: (seq<CopyDictionaryJob>, Contents, Dict))
    requires old(Runnable(x.0)) && old(Shows(x.1, DictsOf(x.0))) && x.2 in DictsOf(x.0)
    requires forall k :: 0 <= k < |x.0| ==> unchanged(x.0[k])
    requires Dictionaries.Valid(x.2) && forall o :: o in Footprint(x.2) ==> o in old(Footprint(x.2)) || fresh(o)
    requires forall o: object :: old(allocated(o)) && o !in old(Footprint(x.2)) ==> unchanged(o)
    ensures Shows(x.1[x.2 := View(x.2)], DictsOf(x.0)) && Runnable(x.0) && Grown(DictsOf(x.0))
  {
    ShowsAfter((DictsOf(x.0), x.1, x.2));
    StillRunnable((x.0, x.2));
  }

  /** After a run that changed only the objects of `t`, `w` with `t`'s new contents shows the dictionaries. */
  twostate lemma ShowsAfter(x: (set<Dict>, Contents, Dict))
    requires old(Shows(x.1, x.0)) && old(Disjoint(x.0)) && x.2 in x.0 && Dictionaries.Valid(x.2)
    requires forall o :: o in Footprint(x.2) ==> o in old(Footprint(x.2)) || fresh(o)
    requires forall o: object :: old(allocated(o)) && o !in old(Footprint(x.2)) ==> unchanged(o)
    ensures Shows(x.1[x.2 := View(x.2)], x.0) && Changed(x.0, x.2)
  {
    OthersKept((x.0, x.2));
  }

  /** A run that changed only the objects of `t` left every other dictionary as it was. */
  twostate lemma OthersKept(x: (set<Dict>, Dict))
    requires old(DictsValid(x.0)) && old(Disjoint(x.0)) && x.1 in x.0
    requires forall o: object :: old(allocated(o)) && o !in old(Footprint(x.1)) ==> unchanged(o)
    ensures forall d :: d in x.0 && d != x.1 ==>
      Dictionaries.Valid(d) && Footprint(d) == old(Footprint(d)) && View(d) == old(View(d))
  {
    forall d | d in x.0 && d != x.1
      ensures Dictionaries.Valid(d) && Footprint(d) == old(Footprint(d)) && View(d) == old(View(d))
    {
      assert old(Footprint(d)) !! old(Footprint(x.1));
      Kept(d);
    }
  }

  /**
   * After one copy job's run, which changed only its target and added only
   * new objects to it, the copy jobs can still run one after the other.
   */
  twostate lemma StillRunnable(x: (seq<CopyDictionaryJob>, Dict))
    requires old(Runnable(x.0)) && Changed(DictsOf(x.0), x.1)
    requires forall k :: 0 <= k < |x.0| ==> unchanged(x.0[k])
    ensures Runnable(x.0) && Grown(DictsOf(x.0))
  {
    var (cs, t) := x;
    var ds := DictsOf(cs);
    DisjointAfter((ds, t));
    OutsideAfter((cs, ds, t));
    JobsValidAfter((cs, ds));
  }

  /** A run that kept the other dictionaries' objects and gave its target only new ones keeps the dictionaries apart. */
  twostate lemma DisjointAfter(x: (set<Dict>, Dict))
    requires old(Disjoint(x.0)) && Changed(x.0, x.1)
    ensures Disjoint(x.0) && Grown(x.0)
  {
    var (ds, t) := x;
    forall d, e | d in ds && e in ds && d != e ensures Footprint(d) !! Footprint(e) {
      assert old(Footprint(d)) !! old(Footprint(e));
    }
  }

  /** A run that kept the other dictionaries' objects and gave its target only new ones keeps the copy jobs out of them. */
  twostate lemma OutsideAfter(x: (seq<CopyDictionaryJob>, set<Dict>, Dict))
    requires old(Outside(x.0, x.1)) && Changed(x.1, x.2)
    ensures Outside(x.0, x.1)
  {
  }

  /** Copy jobs left as they were, over dictionaries that are well formed and apart, can each still run. */
  twostate lemma JobsValidAfter(x: (seq<CopyDictionaryJob>, set<Dict>))
    requires x.1 == DictsOf(x.0) && forall k :: 0 <= k < |x.0| ==> unchanged(x.0[k])
    requires old(forall i :: 0 <= i < |x.0| ==> x.0[i].Valid())
    requires Disjoint(x.1) && Outside(x.0, x.1) && forall d :: d in x.1 ==> Dictionaries.Valid(d)
    ensures forall i :: 0 <= i < |x.0| ==> x.0[i].Valid()
  {
    var (cs, ds) := x;
    forall i | 0 <= i < |cs| ensures cs[i].Valid() {
      assert old(cs[i].Valid());
    }
  }
}
