/**
 * What one run of `CopyDictionaryJob` does to the target dictionary, stated
 * on dictionary views.
 *
 * For every key of the source that no filter matches, the job makes sure the
 * target holds the key and copies the source and target texts according to
 * the two copy policies; with `removeObsolete` it then drops every target key
 * the source lacks or holds with an empty source text. A dry run decides the
 * same things and writes nothing. The first exception ends the run; the
 * writes made before it stay.
 */
module CopySpec {

  import opened Errors
  import opened OrderedMaps
  import opened Views

  /** The copy policies of `copySource` and `copyTarget`. */
  const DO_NOT_COPY: int := 0
  const COPY: int := 1
  const COPY_IF_EMPTY: int := 2

  /** What the job does to one text of the target value. */
  datatype Write = Keep | SetTo(value: string) | Clear

  function Apply(w: Write, current: Option<string>): Option<string> {
    match w
    case Keep => current
    case SetTo(v) => Some(v)
    case Clear => None
  }

  /** Two texts count as the same when they are equal or both empty. */
  predicate SameText(a: Option<string>, b: Option<string>) {
    a == b || (IsEmptyText(a) && IsEmptyText(b))
  }

  /** The policies and the dry-run flag in force while one key is copied. */
  datatype Settings = Settings(copySource: int, copyTarget: int, dryRun: bool)

  /** `copySource()`: the write to the target's source text (never a clear: the copied text is not empty). */
  function SourceWrite(policy: int, dry: bool, from: Text, to: Text): (w: Write)
    requires from.source.Some?
    ensures w != Clear
    ensures w.SetTo? ==> Some(w.value) == from.source && to.source != from.source
  {
    if policy == DO_NOT_COPY then Keep
    else if to.source == from.source then Keep
    else if policy == COPY_IF_EMPTY && !IsEmptyText(to.source) then Keep
    else if dry then Keep
    else SetTo(from.source.value)
  }

  /** `copyTarget()`: the write to the target's target text. */
  function TargetWrite(policy: int, dry: bool, from: Text, to: Text): (w: Write)
    ensures w.SetTo? ==> Some(w.value) == from.target && !SameText(to.target, from.target)
    ensures w.Clear? ==> from.target.None? && !SameText(to.target, from.target)
  {
    if policy == DO_NOT_COPY then Keep
    else if to.target == from.target || (IsEmptyText(to.target) && IsEmptyText(from.target)) then Keep
    else if policy == COPY_IF_EMPTY && !IsEmptyText(to.target) then Keep
    else if dry then Keep
    else if from.target.None? then Clear
    else SetTo(from.target.value)
  }

  /**
   * The target value's texts after `copySource` and `copyTarget`, for a
   * source value `from` with a non-empty source text.
   */
  function Reconcile(s: Settings, from: Text, to: Text): (r: Text)
    requires from.source.Some?
    // A dry run writes nothing.
    ensures s.dryRun ==> r == to
    // Each text ends as it was or as the source value has it.
    ensures r.source == to.source || r.source == from.source
    ensures r.target == to.target || r.target == from.target
    // DO_NOT_COPY leaves the text alone.
    ensures s.copySource == DO_NOT_COPY ==> r.source == to.source
    ensures s.copyTarget == DO_NOT_COPY ==> r.target == to.target
    // COPY_IF_EMPTY leaves a text that is not empty alone.
    ensures s.copySource == COPY_IF_EMPTY && !IsEmptyText(to.source) ==> r.source == to.source
    ensures s.copyTarget == COPY_IF_EMPTY && !IsEmptyText(to.target) ==> r.target == to.target
    // Otherwise (COPY, any other value, or COPY_IF_EMPTY on an empty text) the text is copied.
    ensures !s.dryRun && s.copySource != DO_NOT_COPY && (s.copySource == COPY_IF_EMPTY ==> IsEmptyText(to.source))
      ==> r.source == from.source
    ensures !s.dryRun && s.copyTarget != DO_NOT_COPY && (s.copyTarget == COPY_IF_EMPTY ==> IsEmptyText(to.target))
      ==> SameText(r.target, from.target)
  {
    Text(Apply(SourceWrite(s.copySource, s.dryRun, from, to), to.source),
         Apply(TargetWrite(s.copyTarget, s.dryRun, from, to), to.target))
  }

  /** Copying onto an already reconciled value changes nothing. */
  lemma ReconcileIdempotent(s: Settings, from: Text, to: Text)
    requires from.source.Some?
    ensures Reconcile(s, from, Reconcile(s, from, to)) == Reconcile(s, from, to)
  {
    var once := Reconcile(s, from, to);
    if !s.dryRun && s.copyTarget != DO_NOT_COPY && once.target != to.target {
      assert once.target == from.target;
    }
  }

  /**
   * `copyKey($key)`: skip a key whose source text is empty; a missing key is
   * added (nothing happens on a dry run); then both texts are reconciled.
   */
  function CopyKey(s: Settings, source: DictView, target: DictView, key: string): (r: Result<DictView>)
  {
    var from :- Get(source, key);
    if IsEmptyText(from.source) then Ok(target) else CopyInto(s, from, target, key)
  }

  /** The part of `copyKey` after the source check: add the key if missing, then reconcile its texts with `from`. */
  function CopyInto(s: Settings, from: Text, target: DictView, key: string): (r: Result<DictView>)
    requires from.source.Some?
  {
    var present :- Has(target, key);
    if present then ReconcileAt(s, from, target, key)
    else if s.dryRun then Ok(target)
    else AddThenReconcile(s, from, target, key)
  }

  /** The branch of `copyKey` for a key the target lacks, outside a dry run: add it, then reconcile it. */
  function AddThenReconcile(s: Settings, from: Text, target: DictView, key: string): (r: Result<DictView>)
    requires from.source.Some?
  {
    var added :- Add(target, key);
    ReconcileAt(s, from, added, key)
  }

  /** The end of `copyKey`: fetch the target value and reconcile its texts with `from`. */
  function ReconcileAt(s: Settings, from: Text, target: DictView, key: string): (r: Result<DictView>)
    requires from.source.Some?
  {
    var current :- Get(target, key);
    Ok(Update(target, key, Reconcile(s, from, current)))
  }

  /** What `preg_match` reports: the (pattern, subject) pairs it finds a match for. */
  type Matches = iset<(string, string)>

  /** `isFiltered($key)`: some filter expression matches the key. */
  predicate Filtered(filters: seq<string>, matches: Matches, key: string)
    decreases |filters|
  {
    |filters| > 0 && ((filters[0], key) in matches || Filtered(filters[1..], matches, key))
  }

  /** Where a phase of the run ended: the target reached and the exception that stopped it, if any. */
  datatype Outcome = Outcome(view: DictView, error: Option<Error>)

  /** The first loop of `run()`: `copyKey` for each unfiltered key, until one throws. */
  function CopyKeys(s: Settings, filters: seq<string>, matches: Matches,
                    source: DictView, target: DictView, keys: seq<string>): (r: Outcome)
    decreases |keys|
  {
    if keys == [] then Outcome(target, None)
    else if Filtered(filters, matches, keys[0]) then CopyKeys(s, filters, matches, source, target, keys[1..])
    else
      match CopyKey(s, source, target, keys[0])
      case Err(e) => Outcome(target, Some(e))
      case Ok(next) => CopyKeys(s, filters, matches, source, next, keys[1..])
  }

  /** The test of `cleanTarget()`: the source lacks the key or holds it with an empty source text. */
  function Obsolete(source: DictView, key: string): (r: Result<bool>)
    ensures r == Ok(false) <==> Get(source, key).Ok? && !IsEmptyText(Get(source, key).value.source)
  {
    var present :- Has(source, key);
    if !present then Ok(true)
    else
      var from :- Get(source, key);
      Ok(IsEmptyText(from.source))
  }

  /** The body of `cleanTarget()`'s loop over listed `keys`: remove each obsolete one (none on a dry run), until one throws. */
  function Clean(dry: bool, source: DictView, target: DictView, keys: seq<string>): (r: Outcome)
    ensures target.Valid() ==> r.view.Valid() && SameShape(target, r.view)
    decreases |keys|
  {
    if keys == [] then Outcome(target, None)
    else
      match Obsolete(source, keys[0])
      case Err(e) => Outcome(target, Some(e))
      case Ok(obsolete) =>
        if !obsolete || dry then Clean(dry, source, target, keys[1..])
        else
          match Remove(target, keys[0])
          case Err(e) => Outcome(target, Some(e))
          case Ok(next) =>
            assert target.Valid() ==> next.Valid() && SameShape(target, next) by {
              if target.Valid() {
                RemoveThenGet(target, keys[0], keys[0]);
              }
            }
            Clean(dry, source, next, keys[1..])
  }

  /**
   * `cleanTarget()`: the loop runs over the keys as the target's `keys()`
   * yields them. A memory dictionary lists its keys once, when the loop
   * starts. A compound's generator reads each child's keys only when it
   * reaches that child, so it sees what the removals made for earlier keys
   * left in that child.
   */
  function CleanTarget(dry: bool, source: DictView, target: DictView): (r: Outcome)
    requires target.Valid()
    ensures r.view.Valid() && SameShape(target, r.view)
  {
    match target
    case MemoryView(m) => Clean(dry, source, target, m.keys)
    case CompoundView(prefixes, _) => CleanChildren(dry, source, target, prefixes)
  }

  /** The compound's children named in `todo`, in order, each child's keys read when its turn comes. */
  function CleanChildren(dry: bool, source: DictView, target: DictView, todo: seq<string>): (r: Outcome)
    requires target.Valid() && target.CompoundView? && forall p :: p in todo ==> p in target.children
    ensures r.view.Valid() && SameShape(target, r.view)
    decreases |todo|
  {
    if todo == [] then Outcome(target, None)
    else
      var p := todo[0];
      var cleaned := Clean(dry, source, target, Prefixed(p, target.children[p].keys));
      if cleaned.error.Some? then cleaned
      else
        var rest := CleanChildren(dry, source, cleaned.view, todo[1..]);
        rest
  }

  /** The job's configuration: the fields its setters write. */
  datatype Config = Config(copySource: int, copyTarget: int, removeObsolete: bool, dryRun: bool, filters: seq<string>)

  /** `run($dryRun)`: an explicit argument overrides the configured flag for this run. */
  function Effective(configured: bool, argument: Option<bool>): bool {
    if argument.Some? then argument.value else configured
  }

  /** `run()`: the copy loop over the source's keys, then (with `removeObsolete`) the clean loop over the target's. */
  function Run(c: Config, matches: Matches, argument: Option<bool>,
               source: DictView, target: DictView): (r: Outcome)
    requires source.Valid() && target.Valid()
  {
    var dry := Effective(c.dryRun, argument);
    var copied := CopyKeys(Settings(c.copySource, c.copyTarget, dry), c.filters, matches, source, target, Keys(source));
    if copied.error.Some? || !c.removeObsolete then copied
    else
      CopyKeysValid(Settings(c.copySource, c.copyTarget, dry), c.filters, matches, source, target, Keys(source));
      CleanTarget(dry, source, copied.view)
  }

  // ---------------------------------------------------------------------
  // One key
  // ---------------------------------------------------------------------

  /**
   * The effect of one `copyKey`: a source key with a non-empty source text
   * ends in the target with its reconciled texts (blank ones reconciled
   * when it was missing); every other key reads as before.
   */
  lemma CopyKeyEffect(s: Settings, source: DictView, target: DictView, key: string, other: string)
    requires target.Valid() && CopyKey(s, source, target, key).Ok? && !s.dryRun
    requires Get(source, key).Ok? && !IsEmptyText(Get(source, key).value.source)
    ensures var after := CopyKey(s, source, target, key).value;
      && after.Valid() && SameShape(target, after)
      && Get(after, key) == Ok(Reconcile(s, Get(source, key).value,
                                          if Get(target, key).Ok? then Get(target, key).value else Blank))
      && (other != key ==> Get(after, other) == Get(target, other) && Has(after, other) == Has(target, other))
  {
    HasAgreesWithGet(target, key);
    var from := Get(source, key).value;
    if Has(target, key) == Ok(true) {
      UpdateThenGet(target, key, Reconcile(s, from, Get(target, key).value), other);
    } else {
      AddThenGet(target, key, other);
      var added := Add(target, key).value;
      UpdateThenGet(added, key, Reconcile(s, from, Blank), other);
    }
  }

  /** A failing `copyKey` has written nothing: every exception comes before the first write. */
  lemma CopyKeyFailsCleanly(s: Settings, source: DictView, target: DictView, key: string)
    requires target.Valid() && CopyKey(s, source, target, key).Err?
    ensures Get(source, key).Err? || Has(target, key).Err? || (Has(target, key) == Ok(false) && Add(target, key).Err?)
  {
    var from := Get(source, key);
    if from.Ok? && !IsEmptyText(from.value.source) && Has(target, key).Ok? {
      if Has(target, key) == Ok(true) {
        HasAgreesWithGet(target, key);
      } else if Add(target, key).Ok? {
        AddThenGet(target, key, key);
      }
    }
  }

  /** A key `copyKey` leaves as it is. */
  predicate Settled(s: Settings, source: DictView, target: DictView, key: string) {
    CopyKey(s, source, target, key) == Ok(target)
  }

  /** On a dry run `copyKey` never changes the target. */
  lemma CopyKeyDry(s: Settings, source: DictView, target: DictView, key: string)
    requires s.dryRun && CopyKey(s, source, target, key).Ok?
    ensures Settled(s, source, target, key)
  {
    var from := Get(source, key).value;
    if !IsEmptyText(from.source) && Has(target, key) == Ok(true) {
      HasAgreesWithGet(target, key);
      UpdateSame(target, key);
    }
  }

  /** A settled key is one whose source is empty, or that the target holds with reconciled texts (or lacks, on a dry run). */
  lemma SettledMeans(s: Settings, source: DictView, target: DictView, key: string)
    requires target.Valid()
    ensures Settled(s, source, target, key) <==>
      && Get(source, key).Ok?
      && (|| IsEmptyText(Get(source, key).value.source)
          || (s.dryRun && Has(target, key) == Ok(false))
          || (Get(target, key).Ok? && Reconcile(s, Get(source, key).value, Get(target, key).value) == Get(target, key).value))
  {
    HasAgreesWithGet(target, key);
    if Get(source, key).Ok? && !IsEmptyText(Get(source, key).value.source) {
      var from := Get(source, key).value;
      if Get(target, key).Ok? {
        var current := Get(target, key).value;
        if Settled(s, source, target, key) {
          UpdateThenGet(target, key, Reconcile(s, from, current), key);
        } else if Reconcile(s, from, current) == current {
          UpdateSame(target, key);
        }
      } else if Has(target, key) == Ok(false) && !s.dryRun && Add(target, key).Ok? {
        AddThenGet(target, key, key);
        var added := Add(target, key).value;
        UpdateThenGet(added, key, Reconcile(s, from, Blank), key);
        assert Has(CopyKey(s, source, target, key).value, key) == Ok(true);
      }
    }
  }

  /** After `copyKey` the key is settled: copying it again changes nothing. */
  lemma CopyKeySettles(s: Settings, source: DictView, target: DictView, key: string)
    requires target.Valid() && CopyKey(s, source, target, key).Ok?
    ensures Settled(s, source, CopyKey(s, source, target, key).value, key)
  {
    var after := CopyKey(s, source, target, key).value;
    if s.dryRun {
      CopyKeyDry(s, source, target, key);
    } else {
      var from := Get(source, key).value;
      if !IsEmptyText(from.source) {
        CopyKeyEffect(s, source, target, key, key);
        var current := if Get(target, key).Ok? then Get(target, key).value else Blank;
        ReconcileIdempotent(s, from, current);
        SettledMeans(s, source, after, key);
      }
    }
  }

  /** `copyKey` of one key leaves another key settled. */
  lemma CopyKeyKeepsSettled(s: Settings, source: DictView, target: DictView, key: string, other: string)
    requires target.Valid() && CopyKey(s, source, target, key).Ok? && other != key
    requires Settled(s, source, target, other)
    ensures Settled(s, source, CopyKey(s, source, target, key).value, other)
  {
    var after := CopyKey(s, source, target, key).value;
    if s.dryRun {
      CopyKeyDry(s, source, target, key);
    } else if IsEmptyText(Get(source, key).value.source) {
    } else {
      CopyKeyEffect(s, source, target, key, other);
      SettledMeans(s, source, target, other);
      SettledMeans(s, source, after, other);
    }
  }

  /** `remove` of an obsolete key leaves every other key settled, and the removed one too. */
  lemma RemoveKeepsSettled(s: Settings, source: DictView, target: DictView, key: string, other: string)
    requires target.Valid() && Remove(target, key).Ok? && Obsolete(source, key) == Ok(true)
    requires Settled(s, source, target, other)
    ensures Settled(s, source, Remove(target, key).value, other)
  {
    var after := Remove(target, key).value;
    RemoveThenGet(target, key, other);
    SettledMeans(s, source, target, other);
    SettledMeans(s, source, after, other);
    if other == key {
      assert IsEmptyText(Get(source, key).value.source);
    }
  }

  // ---------------------------------------------------------------------
  // The copy loop
  // ---------------------------------------------------------------------

  /** The copy loop keeps the target well formed and its registered children. */
  lemma {:induction false} CopyKeysValid(s: Settings, filters: seq<string>, matches: Matches,
                                         source: DictView, target: DictView, keys: seq<string>)
    requires target.Valid()
    ensures var r := CopyKeys(s, filters, matches, source, target, keys); r.view.Valid() && SameShape(target, r.view)
    decreases |keys|
  {
    if keys != [] && !Filtered(filters, matches, keys[0]) {
      var step := CopyKey(s, source, target, keys[0]);
      if step.Ok? {
        CopyKeyShape(s, source, target, keys[0]);
        CopyKeysValid(s, filters, matches, source, step.value, keys[1..]);
        SameShapeTrans(target, step.value, CopyKeys(s, filters, matches, source, step.value, keys[1..]).view);
      }
    } else if keys != [] {
      CopyKeysValid(s, filters, matches, source, target, keys[1..]);
    }
  }

  lemma CopyKeyShape(s: Settings, source: DictView, target: DictView, key: string)
    requires target.Valid() && CopyKey(s, source, target, key).Ok?
    ensures CopyKey(s, source, target, key).value.Valid() && SameShape(target, CopyKey(s, source, target, key).value)
  {
    if s.dryRun {
      CopyKeyDry(s, source, target, key);
    } else if !IsEmptyText(Get(source, key).value.source) {
      CopyKeyEffect(s, source, target, key, key);
    }
  }

  lemma SameShapeTrans(a: DictView, b: DictView, c: DictView)
    requires SameShape(a, b) && SameShape(b, c)
    ensures SameShape(a, c)
  {
  }

  /** A dry copy loop leaves the target as it was. */
  lemma {:induction false} CopyKeysDry(s: Settings, filters: seq<string>, matches: Matches,
                                       source: DictView, target: DictView, keys: seq<string>)
    requires s.dryRun
    ensures CopyKeys(s, filters, matches, source, target, keys).view == target
    decreases |keys|
  {
    if keys != [] {
      if !Filtered(filters, matches, keys[0]) && CopyKey(s, source, target, keys[0]).Ok? {
        CopyKeyDry(s, source, target, keys[0]);
      }
      CopyKeysDry(s, filters, matches, source, target, keys[1..]);
    }
  }

  /** Every key of `keys` that no filter matches and the loop got past without an exception is settled. */
  predicate AllSettled(s: Settings, filters: seq<string>, matches: Matches,
                       source: DictView, target: DictView, keys: seq<string>)
  {
    forall k :: k in keys && !Filtered(filters, matches, k) ==> Settled(s, source, target, k)
  }

  /** A copy loop that ends without an exception leaves every unfiltered key it visited settled, and keeps the settled ones. */
  lemma {:induction false} CopyKeysSettles(s: Settings, filters: seq<string>, matches: Matches,
                                           source: DictView, target: DictView, keys: seq<string>, done: seq<string>)
    requires target.Valid()
    requires AllSettled(s, filters, matches, source, target, done)
    requires CopyKeys(s, filters, matches, source, target, keys).error.None?
    ensures AllSettled(s, filters, matches, source, CopyKeys(s, filters, matches, source, target, keys).view, done + keys)
    decreases |keys|
  {
    if keys == [] {
      assert done + keys == done;
    } else {
      var k := keys[0];
      assert done + keys == (done + [k]) + keys[1..];
      if Filtered(filters, matches, k) {
        CopyKeysSettles(s, filters, matches, source, target, keys[1..], done + [k]);
      } else {
        var next := CopyKey(s, source, target, k).value;
        forall d | d in done + [k] && !Filtered(filters, matches, d)
          ensures Settled(s, source, next, d)
        {
          if d == k {
            CopyKeySettles(s, source, target, k);
          } else {
            CopyKeyKeepsSettled(s, source, target, k, d);
          }
        }
        CopyKeyShape(s, source, target, k);
        CopyKeysSettles(s, filters, matches, source, next, keys[1..], done + [k]);
      }
    }
  }

  /** A copy loop over settled keys changes nothing and throws nothing. */
  lemma {:induction false} CopyKeysSettledIsNoop(s: Settings, filters: seq<string>, matches: Matches,
                                                 source: DictView, target: DictView, keys: seq<string>)
    requires AllSettled(s, filters, matches, source, target, keys)
    ensures CopyKeys(s, filters, matches, source, target, keys) == Outcome(target, None)
    decreases |keys|
  {
    if keys != [] {
      assert keys[0] in keys;
      CopyKeysSettledIsNoop(s, filters, matches, source, target, keys[1..]);
    }
  }

  /**
   * The copy loop is idempotent: running it again over the same keys on its
   * result changes nothing and throws nothing.
   */
  lemma CopyKeysIdempotent(s: Settings, filters: seq<string>, matches: Matches,
                           source: DictView, target: DictView, keys: seq<string>)
    requires target.Valid()
    requires CopyKeys(s, filters, matches, source, target, keys).error.None?
    ensures var once := CopyKeys(s, filters, matches, source, target, keys).view;
      CopyKeys(s, filters, matches, source, once, keys) == Outcome(once, None)
  {
    assert [] + keys == keys;
    CopyKeysSettles(s, filters, matches, source, target, keys, []);
    CopyKeysSettledIsNoop(s, filters, matches, source, CopyKeys(s, filters, matches, source, target, keys).view, keys);
  }

  /** A key a filter matches reads in the target after the copy loop as it did before. */
  lemma {:induction false} FilteredKeyUntouched(s: Settings, filters: seq<string>, matches: Matches,
                                                source: DictView, target: DictView, keys: seq<string>, key: string)
    requires target.Valid() && Filtered(filters, matches, key)
    ensures var r := CopyKeys(s, filters, matches, source, target, keys).view;
      Get(r, key) == Get(target, key) && Has(r, key) == Has(target, key)
    decreases |keys|
  {
    if keys != [] {
      var k := keys[0];
      if !Filtered(filters, matches, k) && CopyKey(s, source, target, k).Ok? {
        var next := CopyKey(s, source, target, k).value;
        if s.dryRun {
          CopyKeyDry(s, source, target, k);
        } else if !IsEmptyText(Get(source, k).value.source) {
          CopyKeyEffect(s, source, target, k, key);
        }
        CopyKeyShape(s, source, target, k);
        FilteredKeyUntouched(s, filters, matches, source, next, keys[1..], key);
      } else {
        FilteredKeyUntouched(s, filters, matches, source, target, keys[1..], key);
      }
    }
  }

  // ---------------------------------------------------------------------
  // The clean loop
  // ---------------------------------------------------------------------

  /** A dry clean loop leaves the target as it was. */
  lemma {:induction false} CleanDry(source: DictView, target: DictView, keys: seq<string>)
    ensures Clean(true, source, target, keys).view == target
    decreases |keys|
  {
    if keys != [] {
      CleanDry(source, target, keys[1..]);
    }
  }

  /** The clean loop keeps the target well formed and every settled key settled. */
  lemma {:induction false} CleanKeepsSettled(s: Settings, filters: seq<string>, matches: Matches,
                                             source: DictView, target: DictView, keys: seq<string>, settled: seq<string>)
    requires target.Valid() && AllSettled(s, filters, matches, source, target, settled)
    ensures var r := Clean(false, source, target, keys).view;
      r.Valid() && SameShape(target, r) && AllSettled(s, filters, matches, source, r, settled)
    decreases |keys|
  {
    if keys != [] {
      var k := keys[0];
      if Obsolete(source, k) == Ok(true) && Remove(target, k).Ok? {
        var next := Remove(target, k).value;
        RemoveThenGet(target, k, k);
        forall d | d in settled && !Filtered(filters, matches, d)
          ensures Settled(s, source, next, d)
        {
          RemoveKeepsSettled(s, source, target, k, d);
        }
        CleanKeepsSettled(s, filters, matches, source, next, keys[1..], settled);
      } else {
        CleanKeepsSettled(s, filters, matches, source, target, keys[1..], settled);
      }
    }
  }

  /** A dry `cleanTarget()` leaves the target as it was, however it lists the keys. */
  lemma CleanTargetDry(source: DictView, target: DictView)
    requires target.Valid()
    ensures CleanTarget(true, source, target).view == target
  {
    if target.MemoryView? {
      CleanDry(source, target, target.m.keys);
    } else {
      CleanChildrenDry(source, target, target.prefixes);
    }
  }

  lemma {:induction false} CleanChildrenDry(source: DictView, target: DictView, todo: seq<string>)
    requires target.Valid() && target.CompoundView? && forall p :: p in todo ==> p in target.children
    ensures CleanChildren(true, source, target, todo).view == target
    decreases |todo|
  {
    if todo != [] {
      var p := todo[0];
      CleanDry(source, target, Prefixed(p, target.children[p].keys));
      CleanChildrenDry(source, target, todo[1..]);
    }
  }

  /** Cleaning `a + b` cleans `a`, then, when nothing threw, `b` on what that left. */
  lemma {:induction false} CleanConcat(dry: bool, source: DictView, target: DictView, a: seq<string>, b: seq<string>)
    ensures Clean(dry, source, target, a + b)
         == (var first := Clean(dry, source, target, a);
             if first.error.Some? then first else Clean(dry, source, first.view, b))
    decreases |a|
  {
    if a != [] {
      assert (a + b)[0] == a[0] && (a + b)[1..] == a[1..] + b;
      match Obsolete(source, a[0])
      case Err(_) =>
      case Ok(obsolete) =>
        if !obsolete || dry {
          CleanConcat(dry, source, target, a[1..], b);
        } else if Remove(target, a[0]).Ok? {
          var next := Remove(target, a[0]).value;
          CleanConcat(dry, source, next, a[1..], b);
        }
    } else {
      assert a + b == b;
    }
  }

  /** Cleaning one child's prefixed keys leaves the other children, when the prefix holds no '.'. */
  lemma {:induction false} CleanPrefixedStays(dry: bool, source: DictView, target: DictView, p: string, ks: seq<string>)
    requires target.CompoundView? && p in target.children && '.' !in p
    ensures var r := Clean(dry, source, target, Prefixed(p, ks)).view;
      && r.CompoundView? && r.prefixes == target.prefixes
      && forall q :: q in target.children && q != p ==> q in r.children && r.children[q] == target.children[q]
    decreases |ks|
  {
    if ks != [] {
      var keys := Prefixed(p, ks);
      assert keys[0] == Join(p, ks[0]) && keys[1..] == Prefixed(p, ks[1..]);
      match Obsolete(source, keys[0])
      case Err(_) =>
      case Ok(obsolete) =>
        if !obsolete || dry {
          CleanPrefixedStays(dry, source, target, p, ks[1..]);
        } else {
          RouteJoin(target.children, p, ks[0]);
          RemoveRouted(target, keys[0], p, ks[0]);
          if Remove(target, keys[0]).Ok? {
            var next := Remove(target, keys[0]).value;
            assert next.CompoundView? && next.prefixes == target.prefixes && p in next.children;
            CleanPrefixedStays(dry, source, next, p, ks[1..]);
          }
        }
    }
  }

  /** Children that agree on every prefix of `todo` list the same keys. */
  lemma {:induction false} CompoundKeysAgree(todo: seq<string>, a: map<string, MemView>, b: map<string, MemView>)
    requires forall q :: q in todo ==> q in a && q in b && a[q] == b[q]
    ensures CompoundKeys(todo, a) == CompoundKeys(todo, b)
    decreases |todo|
  {
    if todo != [] {
      CompoundKeysAgree(todo[1..], a, b);
    }
  }

  /** Over distinct prefixes without a '.', reading the children one by one cleans the keys one listing gives. */
  lemma {:induction false} CleanChildrenListsOnce(dry: bool, source: DictView, target: DictView, todo: seq<string>)
    requires target.Valid() && target.CompoundView? && Distinct(todo)
    requires forall p :: p in todo ==> p in target.children && '.' !in p
    ensures CleanChildren(dry, source, target, todo) == Clean(dry, source, target, CompoundKeys(todo, target.children))
    decreases |todo|
  {
    if todo != [] {
      var p := todo[0];
      var first := Prefixed(p, target.children[p].keys);
      CleanConcat(dry, source, target, first, CompoundKeys(todo[1..], target.children));
      var cleaned := Clean(dry, source, target, first);
      if cleaned.error.None? {
        DistinctTail(todo);
        CleanPrefixedStays(dry, source, target, p, target.children[p].keys);
        CompoundKeysAgree(todo[1..], cleaned.view.children, target.children);
        CleanChildrenListsOnce(dry, source, cleaned.view, todo[1..]);
      }
    }
  }

  /**
   * When no prefix holds a '.', removing a listed key only touches the
   * child being read, so reading the children one by one gives the keys a
   * single listing at the start gives: `cleanTarget()` is the clean loop
   * over `keys()`.
   */
  lemma CleanTargetListsOnce(dry: bool, source: DictView, target: DictView)
    requires target.Valid() && Routable(target)
    ensures CleanTarget(dry, source, target) == Clean(dry, source, target, Keys(target))
  {
    if target.CompoundView? {
      CleanChildrenListsOnce(dry, source, target, target.prefixes);
    }
  }

  /** A compound with prefixes "x.y" and "x": child "x.y" holds "k", child "x" holds "y.k" (or nothing, `emptied`). */
  function DottedTarget(emptied: bool): DictView {
    CompoundView(["x.y", "x"], map["x.y" := MemView(["k"], map["k" := Blank]),
                                   "x" := if emptied then MemView([], map[]) else MemView(["y.k"], map["y.k" := Blank])])
  }

  /** "x.y.k" routes to child "x" under the key "y.k", whatever the children hold. */
  lemma DottedRoute(children: map<string, MemView>)
    requires "x" in children
    ensures Route(children, "x.y.k") == Ok(("x", "y.k"))
  {
    var key := "x.y.k";
    assert FirstDot(key) == Some(1) by {
      assert key[1] == '.' && key[..1] == "x";
    }
    assert key[..1] == "x" && key[2..] == "y.k";
  }

  /** Removing "x.y.k" empties child "x"; once it is empty, the same remove throws. */
  lemma DottedRemoves()
    ensures Remove(DottedTarget(false), "x.y.k") == Ok(DottedTarget(true))
    ensures Remove(DottedTarget(true), "x.y.k") == Err(TranslationNotFound("y.k"))
  {
    DottedRoute(DottedTarget(false).children);
    DottedRoute(DottedTarget(true).children);
    assert Without(["y.k"], "y.k") == [];
    assert map["y.k" := Blank] - {"y.k"} == map[];
    assert DottedTarget(false).children["x" := MemView([], map[])] == DottedTarget(true).children;
  }

  /** Over an empty source, cleaning "x.y.k" once empties child "x"; cleaning it twice throws. */
  lemma DottedCleans(source: DictView)
    requires source == MemoryView(MemView([], map[]))
    ensures Clean(false, source, DottedTarget(false), ["x.y.k"]) == Outcome(DottedTarget(true), None)
    ensures Clean(false, source, DottedTarget(false), ["x.y.k", "x.y.k"])
         == Outcome(DottedTarget(true), Some(TranslationNotFound("y.k")))
  {
    DottedRemoves();
    assert Obsolete(source, "x.y.k") == Ok(true);
    assert ["x.y.k", "x.y.k"][1..] == ["x.y.k"];
  }

  /** The compound with prefixes "x.y" and "x" is well formed and lists "x.y.k" twice; emptied, once. */
  lemma DottedTargetListing()
    ensures DottedTarget(false).Valid()
    ensures Keys(DottedTarget(false)) == ["x.y.k", "x.y.k"]
    ensures Keys(DottedTarget(true)) == ["x.y.k"]
  {
    var target := DottedTarget(false);
    assert DistinctAt(target.prefixes, 0, 1);
    assert Prefixed("x", []) == [];
    assert Join("x.y", "k") == "x.y.k" && Join("x", "y.k") == "x.y.k";
    assert Prefixed("x.y", ["k"]) == ["x.y.k"];
    assert Prefixed("x", ["y.k"]) == ["x.y.k"];
  }

  /**
   * With a '.' in a prefix the two readings differ. Under prefixes "x.y"
   * and "x", the first child's key "k" is listed as "x.y.k", which routes
   * to child "x" and removes its "y.k". Read child by child, "x" then lists
   * nothing and `cleanTarget()` ends without an exception, with the
   * obsolete "x.y.k" still listed; a listing taken at the start would hold
   * "x.y.k" twice, and its second remove would throw.
   */
  lemma DottedPrefixReadLazily(source: DictView)
    requires source == MemoryView(MemView([], map[]))
    ensures DottedTarget(false).Valid()
    ensures CleanTarget(false, source, DottedTarget(false)) == Outcome(DottedTarget(true), None)
    ensures Keys(DottedTarget(true)) == ["x.y.k"] && Obsolete(source, "x.y.k") == Ok(true)
    ensures Clean(false, source, DottedTarget(false), Keys(DottedTarget(false))).error == Some(TranslationNotFound("y.k"))
  {
    var target, emptied := DottedTarget(false), DottedTarget(true);
    DottedTargetListing();
    DottedCleans(source);
    assert Prefixed("x.y", ["k"]) == ["x.y.k"] by {
      assert Join("x.y", "k") == "x.y.k";
    }
    var first := CleanChildren(false, source, target, ["x.y", "x"]);
    assert first == CleanChildren(false, source, emptied, ["x"]);
    assert CleanChildren(false, source, emptied, ["x"]) == Outcome(emptied, None);
  }

  /** A clean loop over keys none of which is obsolete changes nothing and throws nothing. */
  lemma {:induction false} CleanNothingObsolete(source: DictView, target: DictView, keys: seq<string>)
    requires forall k :: k in keys ==> Obsolete(source, k) == Ok(false)
    ensures Clean(false, source, target, keys) == Outcome(target, None)
    decreases |keys|
  {
    if keys != [] {
      assert keys[0] in keys;
      CleanNothingObsolete(source, target, keys[1..]);
    }
  }

  // ---------------------------------------------------------------------
  // The run
  // ---------------------------------------------------------------------

  /** A run keeps the target well formed and its registered children. */
  lemma RunValid(c: Config, matches: Matches, argument: Option<bool>, source: DictView, target: DictView)
    requires source.Valid() && target.Valid()
    ensures var r := Run(c, matches, argument, source, target).view; r.Valid() && SameShape(target, r)
  {
    var s := Settings(c.copySource, c.copyTarget, Effective(c.dryRun, argument));
    var copied := CopyKeys(s, c.filters, matches, source, target, Keys(source));
    CopyKeysValid(s, c.filters, matches, source, target, Keys(source));
    if copied.error.None? && c.removeObsolete {
      SameShapeTrans(target, copied.view, CleanTarget(s.dryRun, source, copied.view).view);
    }
  }

  /** A dry run (configured, or asked for by the argument) leaves the target as it was. */
  lemma DryRunChangesNothing(c: Config, matches: Matches, argument: Option<bool>,
                             source: DictView, target: DictView)
    requires source.Valid() && target.Valid() && Effective(c.dryRun, argument)
    ensures Run(c, matches, argument, source, target).view == target
  {
    var s := Settings(c.copySource, c.copyTarget, true);
    CopyKeysDry(s, c.filters, matches, source, target, Keys(source));
    CopyKeysValid(s, c.filters, matches, source, target, Keys(source));
    CleanTargetDry(source, target);
  }

  /** The keys of `ks` a clean loop over `keys` leaves in place: all but the visited obsolete ones. */
  function Retained(source: DictView, keys: seq<string>, ks: seq<string>): seq<string>
  {
    if ks == [] then []
    else (if ks[0] in keys && Obsolete(source, ks[0]) == Ok(true) then [] else [ks[0]]) + Retained(source, keys, ks[1..])
  }

  /** The keys of `ks` the source does not make obsolete, in order. */
  function NotObsolete(source: DictView, ks: seq<string>): (r: seq<string>)
    ensures forall k :: k in r <==> k in ks && Obsolete(source, k) == Ok(false)
  {
    if ks == [] then []
    else (if Obsolete(source, ks[0]) == Ok(false) then [ks[0]] else []) + NotObsolete(source, ks[1..])
  }

  /** Removing the first visited key, found obsolete, and visiting the rest leaves what visiting all does. */
  lemma {:induction false} RetainedAfterRemove(source: DictView, keys: seq<string>, ks: seq<string>)
    requires keys != [] && Obsolete(source, keys[0]) == Ok(true)
    ensures Retained(source, keys[1..], Without(ks, keys[0])) == Retained(source, keys, ks)
  {
    if ks != [] {
      var k, rest := ks[0], ks[1..];
      RetainedAfterRemove(source, keys, rest);
      assert ks == [k] + rest;
      RetainedCons(source, keys, k, rest);
      var w := Without(rest, keys[0]);
      if k == keys[0] {
        assert Without(ks, keys[0]) == w;
      } else {
        assert Without(ks, keys[0]) == [k] + w;
        RetainedCons(source, keys[1..], k, w);
        assert k in keys[1..] <==> k in keys by { assert keys == [keys[0]] + keys[1..]; }
      }
    }
  }

  lemma RetainedCons(source: DictView, keys: seq<string>, k: string, rest: seq<string>)
    ensures Retained(source, keys, [k] + rest)
      == (if k in keys && Obsolete(source, k) == Ok(true) then [] else [k]) + Retained(source, keys, rest)
  {
    assert ([k] + rest)[1..] == rest;
  }

  /** Skipping the first visited key, found not obsolete, leaves what visiting all does. */
  lemma {:induction false} RetainedAfterKeep(source: DictView, keys: seq<string>, ks: seq<string>)
    requires keys != [] && Obsolete(source, keys[0]) == Ok(false)
    ensures Retained(source, keys[1..], ks) == Retained(source, keys, ks)
  {
    if ks != [] {
      RetainedAfterKeep(source, keys, ks[1..]);
      assert ks[0] != keys[0] ==> (ks[0] in keys[1..] <==> ks[0] in keys) by { assert keys == [keys[0]] + keys[1..]; }
    }
  }

  /**
   * A clean loop that throws nothing found every visited key obsolete or
   * not, removed the obsolete ones from `keys()` and kept the order of the
   * rest.
   */
  lemma {:induction false} CleanKeys(source: DictView, target: DictView, keys: seq<string>)
    requires target.Valid() && Routable(target)
    requires Clean(false, source, target, keys).error.None?
    ensures var r := Clean(false, source, target, keys).view;
      && r.Valid() && Routable(r)
      && Keys(r) == Retained(source, keys, Keys(target))
      && forall k :: k in keys ==> Obsolete(source, k).Ok?
    decreases |keys|
  {
    if keys == [] {
      RetainedNone(source, Keys(target));
    } else {
      var k0 := keys[0];
      assert keys == [k0] + keys[1..];
      if Obsolete(source, k0) == Ok(true) {
        var next := Remove(target, k0).value;
        KeysAfterRemove(target, k0);
        CleanKeys(source, next, keys[1..]);
        RetainedAfterRemove(source, keys, Keys(target));
      } else {
        CleanKeys(source, target, keys[1..]);
        RetainedAfterKeep(source, keys, Keys(target));
      }
    }
  }

  /** A loop that visits nothing keeps every key. */
  lemma {:induction false} RetainedNone(source: DictView, ks: seq<string>)
    ensures Retained(source, [], ks) == ks
  {
    if ks != [] {
      RetainedNone(source, ks[1..]);
    }
  }

  /** Over keys it visits and finds obsolete or not, the loop keeps exactly the ones not obsolete. */
  lemma {:induction false} RetainedVisited(source: DictView, keys: seq<string>, ks: seq<string>)
    requires forall k :: k in ks ==> k in keys && Obsolete(source, k).Ok?
    ensures Retained(source, keys, ks) == NotObsolete(source, ks)
  {
    if ks != [] {
      assert ks[0] in ks;
      RetainedVisited(source, keys, ks[1..]);
    }
  }

  /**
   * `cleanTarget()` over the target's own keys, when it throws nothing,
   * leaves exactly the keys the source does not make obsolete, in the
   * target's order.
   */
  lemma CleanLeavesNotObsolete(source: DictView, target: DictView)
    requires target.Valid() && Routable(target)
    requires CleanTarget(false, source, target).error.None?
    ensures var r := CleanTarget(false, source, target).view;
      r.Valid() && Keys(r) == NotObsolete(source, Keys(target))
  {
    CleanTargetListsOnce(false, source, target);
    CleanKeys(source, target, Keys(target));
    RetainedVisited(source, Keys(target), Keys(target));
  }

  /**
   * A run that throws nothing is idempotent: a second run with the same
   * configuration and argument changes nothing and throws nothing. With
   * `removeObsolete` this is stated for targets whose keys route back.
   */
  lemma RunIdempotent(c: Config, matches: Matches, argument: Option<bool>,
                      source: DictView, target: DictView)
    requires source.Valid() && target.Valid()
    requires c.removeObsolete ==> Routable(target)
    requires Run(c, matches, argument, source, target).error.None?
    ensures var once := Run(c, matches, argument, source, target).view;
      once.Valid() && Run(c, matches, argument, source, once) == Outcome(once, None)
  {
    var dry := Effective(c.dryRun, argument);
    var s := Settings(c.copySource, c.copyTarget, dry);
    var keys := Keys(source);
    if dry {
      DryRunChangesNothing(c, matches, argument, source, target);
    } else {
      var copied := CopyKeys(s, c.filters, matches, source, target, keys);
      CopyKeysValid(s, c.filters, matches, source, target, keys);
      assert [] + keys == keys;
      CopyKeysSettles(s, c.filters, matches, source, target, keys, []);
      if !c.removeObsolete {
        CopyKeysSettledIsNoop(s, c.filters, matches, source, copied.view, keys);
      } else {
        CleanTargetListsOnce(false, source, copied.view);
        var cleaned := CleanTarget(false, source, copied.view);
        CleanKeepsSettled(s, c.filters, matches, source, copied.view, Keys(copied.view), keys);
        CopyKeysSettledIsNoop(s, c.filters, matches, source, cleaned.view, keys);
        CleanLeavesNotObsolete(source, copied.view);
        CleanTargetListsOnce(false, source, cleaned.view);
        CleanNothingObsolete(source, cleaned.view, Keys(cleaned.view));
      }
    }
  }
}
