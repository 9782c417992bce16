/**
 * `CopyDictionaryJob`: the job object, its settings and its run, over the
 * heap dictionaries. Each step is proved against the view-level description
 * in `CopySpec`.
 */
module CopyJob {

  import opened Errors
  import OrderedMaps
  import opened Views
  import opened Memory
  import opened Compound
  import opened Dictionaries
  import opened CopySpec

  /**
   * The regular-expression engine as the job uses it: `rejected` maps each
   * pattern `preg_match` raises an error for to that error's message,
   * `matches` holds the (pattern, key) pairs it finds a match for.
   */
  datatype Pcre = Pcre(rejected: imap<string, string>, matches: Matches)

  /** The first byte of character `c` in UTF-8. */
  function Utf8Lead(c: char): (b: int)
    ensures c as int < 0x80 ==> b == c as int
    ensures c as int >= 0x80 ==> 0xC0 <= b < 0x100
  {
    var n := c as int;
    if n < 0x80 then n
    else if n < 0x800 then 0xC0 + n / 0x40
    else if n < 0x1_0000 then 0xE0 + n / 0x1000
    else 0xF0 + n / 0x4_0000
  }

  /** The last byte of character `c` in UTF-8. */
  function Utf8Final(c: char): (b: int)
    ensures c as int < 0x80 ==> b == c as int
    ensures c as int >= 0x80 ==> 0x80 <= b < 0xC0
  {
    var n := c as int;
    if n < 0x80 then n else 0x80 + n % 0x40
  }

  /**
   * The pattern `addFilter` stores: an expression whose first and last
   * bytes differ is wrapped in '/' delimiters. The bytes are those of the
   * expression's UTF-8 encoding, so it is kept as written only when it
   * starts and ends with the same ASCII character.
   */
  function Delimited(expression: string): (r: string)
    ensures r == expression || r == "/" + expression + "/"
    ensures r == expression <==>
      |expression| == 0 || (expression[0] == expression[|expression| - 1] && expression[0] as int < 0x80)
  {
    if |expression| > 0 && Utf8Lead(expression[0]) != Utf8Final(expression[|expression| - 1])
    then "/" + expression + "/"
    else expression
  }

  /** A stored pattern starts and ends with the same ASCII character, and delimiting it again changes nothing. */
  lemma DelimitedIsStable(expression: string)
    ensures var r := Delimited(expression); |r| == 0 || (r[0] == r[|r| - 1] && r[0] as int < 0x80)
    ensures Delimited(Delimited(expression)) == Delimited(expression)
  {
    var r := Delimited(expression);
    if r != expression {
      assert r[0] == '/' && r[|r| - 1] == '/';
    }
  }

  /** A one-character expression outside ASCII has different first and last bytes, so it is wrapped. */
  lemma DelimitedWrapsNonAscii()
    ensures Delimited("\U{e4}") == "/\U{e4}/"
    ensures Delimited("a") == "a"
  {
  }

  /** The exception `addFilter` throws for a pattern the engine rejects. */
  function FilterError(pattern: string, message: string): Error {
    InvalidArgument("Filter " + Quote(pattern) + " is not a valid regular expression - Error: " + message)
  }

  /** The patterns `setFilters` stores for a list of expressions. */
  function DelimitAll(expressions: seq<string>): (r: seq<string>)
    ensures |r| == |expressions| && forall j :: 0 <= j < |r| ==> r[j] == Delimited(expressions[j])
  {
    seq(|expressions|, j requires 0 <= j < |expressions| => Delimited(expressions[j]))
  }

  // ---------------------------------------------------------------------
  // The job's private steps. They take the settings and the two
  // dictionaries the job object holds as parameters.
  // ---------------------------------------------------------------------

  /** `isFiltered($key)`: the filters are tried in order until one matches. */
  method IsFiltered(filters: seq<string>, matches: Matches, key: string) returns (r: bool)
    ensures r == Filtered(filters, matches, key)
  {
    var i := 0;
    while i < |filters|
      invariant 0 <= i <= |filters|
      invariant Filtered(filters, matches, key) == Filtered(filters[i..], matches, key)
    {
      assert filters[i..][1..] == filters[i + 1..];
      if (filters[i], key) in matches {
        return true;
      }
      i := i + 1;
    }
    r := false;
  }

  /** `copySource($source, $target)`: write the source text as `SourceWrite` decides. */
  method CopySource(s: Settings, from: Text, w: WritableValue)
    requires from.source.Some?
    modifies Cell(w)
    ensures Cell(w).Texts() ==
      Text(Apply(SourceWrite(s.copySource, s.dryRun, from, old(Cell(w).Texts())), old(Cell(w).source)), old(Cell(w).target))
  {
    if s.copySource == DO_NOT_COPY {
      return;
    }
    var cell := Cell(w);
    if cell.source == from.source {
      return;
    }
    if s.copySource == COPY_IF_EMPTY && !cell.IsSourceEmpty() {
      return;
    }
    if s.dryRun {
      return;
    }
    SetSource(w, from.source.value);
  }

  /** `copyTarget($source, $target)`: write the target text as `TargetWrite` decides. */
  method CopyTarget(s: Settings, from: Text, w: WritableValue)
    modifies Cell(w)
    ensures Cell(w).Texts() ==
      Text(old(Cell(w).source), Apply(TargetWrite(s.copyTarget, s.dryRun, from, old(Cell(w).Texts())), old(Cell(w).target)))
  {
    if s.copyTarget == DO_NOT_COPY {
      return;
    }
    var cell := Cell(w);
    if cell.target == from.target || (cell.IsTargetEmpty() && IsEmptyText(from.target)) {
      return;
    }
    if s.copyTarget == COPY_IF_EMPTY && !cell.IsTargetEmpty() {
      return;
    }
    if s.dryRun {
      return;
    }
    if from.target.None? {
      ClearTarget(w);
      return;
    }
    SetTarget(w, from.target.value);
  }

  /**
   * A write through the value stored under a key of a dictionary shows in
   * the dictionary under that key and nowhere else (`at` is the dictionary
   * and the key).
   */
  twostate lemma Written(at: (Dict, string))
    requires old(Dictionaries.Valid(at.0)) && old(Views.Get(View(at.0), at.1).Ok?)
    requires forall o :: o in old(Footprint(at.0)) && o != old(CellOf(at.0, at.1)) ==> unchanged(o)
    ensures Dictionaries.Valid(at.0) && Footprint(at.0) == old(Footprint(at.0))
    ensures View(at.0) == Update(old(View(at.0)), at.1, old(CellOf(at.0, at.1)).Texts())
  {
    var (d, key) := at;
    match d
    case MemoryDict(m) =>
      var cell := old(CellOf(d, key));
      assert m in old(Footprint(d)) && m as object != cell;
      forall k | k in m.buffer && k != key
        ensures unchanged(m.buffer[k])
      {
        assert m.buffer[k] in old(Footprint(d)) && m.buffer[k].key != cell.key;
      }
      m.WrittenThrough(key);
    case CompoundDict(c) =>
      assert c in old(Footprint(d));
      c.WrittenThrough(key);
  }

  /** A dictionary none of whose objects changed reads as before. */
  twostate lemma Kept(d: Dict)
    requires old(Dictionaries.Valid(d))
    requires unchanged(d.Top()) && forall o :: o in old(Footprint(d)) ==> unchanged(o)
    ensures Dictionaries.Valid(d) && Footprint(d) == old(Footprint(d)) && View(d) == old(View(d))
  {
  }

  /** The two writes of `copyKey($key)` through `w`, the handle on the target's value for the key. */
  method WriteTexts(s: Settings, target: Dict, key: string, from: Text, w: WritableValue, ghost cur: DictView)
    returns (ghost next: DictView)
    requires Dictionaries.Valid(target) && View(target) == cur && from.source.Some?
    requires Views.Get(cur, key).Ok? && Cell(w) == CellOf(target, key)
    modifies Cell(w)
    ensures Dictionaries.Valid(target) && Footprint(target) == old(Footprint(target)) && View(target) == next
    ensures next == Update(cur, key, Reconcile(s, from, Views.Get(cur, key).value))
  {
    CellInFootprint(target, key);
    label before:
    CopySource(s, from, w);
    CopyTarget(s, from, w);
    Written@before((target, key));
    next := View(target);
  }

  /**
   * The end of `copyKey($key)`: fetch the target value for writing and
   * apply `copySource` and `copyTarget` to it.
   */
  method ReconcileKey(s: Settings, target: Dict, key: string, from: Text, ghost cur: DictView)
    returns (r: Result<()>, ghost next: DictView)
    requires Dictionaries.Valid(target) && Writable(target) && View(target) == cur && from.source.Some?
    modifies Footprint(target)
    ensures Dictionaries.Valid(target) && Footprint(target) == old(Footprint(target)) && View(target) == next
    ensures var spec := ReconcileAt(s, from, cur, key);
      && (r.Ok? <==> spec.Ok?)
      && (r.Err? ==> r.error == spec.error && next == cur)
      && (r.Ok? ==> next == spec.value)
  {
    var w := GetWritable(target, key, cur);
    if w.Err? {
      return Err(w.error), cur;
    }
    next := WriteTexts(s, target, key, from, w.value, cur);
    r := Ok(());
  }

  /** The branch of `copyKey($key)` that adds a key missing from the target before reconciling it. */
  method AddMissing(s: Settings, target: Dict, key: string, from: Text, ghost cur: DictView)
    returns (r: Result<()>, ghost next: DictView)
    requires Dictionaries.Valid(target) && Writable(target) && View(target) == cur && from.source.Some?
    modifies Footprint(target)
    ensures Dictionaries.Valid(target) && View(target) == next
    ensures forall o :: o in Footprint(target) ==> o in old(Footprint(target)) || fresh(o)
    ensures var spec := AddThenReconcile(s, from, cur, key);
      && (r.Ok? <==> spec.Ok?)
      && (r.Err? ==> r.error == spec.error && next == cur)
      && (r.Ok? ==> next == spec.value)
  {
    var added := Dictionaries.Add(target, key, cur);
    if added.Err? {
      return Err(added.error), cur;
    }
    AddThenGet(cur, key, key);
    r, next := ReconcileKey(s, target, key, from, View(target));
  }

  /** `copyKey($key)` once the source value is known to have a source text. */
  method CopyInto(s: Settings, target: Dict, key: string, from: Text, ghost cur: DictView)
    returns (r: Result<()>, ghost next: DictView)
    requires Dictionaries.Valid(target) && Writable(target) && View(target) == cur && from.source.Some?
    modifies Footprint(target)
    ensures Dictionaries.Valid(target) && View(target) == next
    ensures forall o :: o in Footprint(target) ==> o in old(Footprint(target)) || fresh(o)
    ensures var spec := CopySpec.CopyInto(s, from, cur, key);
      && (r.Ok? <==> spec.Ok?)
      && (r.Err? ==> r.error == spec.error && next == cur)
      && (r.Ok? ==> next == spec.value)
  {
    var present := Dictionaries.Has(target, key, cur);
    if present.Err? {
      return Err(present.error), cur;
    }
    if present.value {
      r, next := ReconcileKey(s, target, key, from, cur);
    } else if s.dryRun {
      r, next := Ok(()), cur;
    } else {
      r, next := AddMissing(s, target, key, from, cur);
    }
  }

  /** `$this->sourceDictionary->get($key)`, beside the target. */
  method SourceGet(source: Dict, target: Dict, key: string, ghost src: DictView, ghost cur: DictView) returns (r: Result<Text>)
    requires Tracks(source, target, src, cur)
    ensures Tracks(source, target, src, cur)
    ensures Footprint(source) == old(Footprint(source)) && Footprint(target) == old(Footprint(target))
    ensures r == Views.Get(src, key)
  {
    r := Dictionaries.Get(source, key, src);
    Kept(target);
  }

  /** `copyKey($key)`: one step of the copy loop, as `CopySpec.CopyKey` describes it; the source stays as it was. */
  method CopyKey(s: Settings, source: Dict, target: Dict, key: string, ghost src: DictView, ghost cur: DictView)
    returns (r: Result<()>, ghost next: DictView)
    requires Tracks(source, target, src, cur)
    modifies Footprint(target)
    ensures Tracks(source, target, src, next) && Footprint(source) == old(Footprint(source))
    ensures forall o :: o in Footprint(target) ==> o in old(Footprint(target)) || fresh(o)
    ensures var spec := CopySpec.CopyKey(s, src, cur, key);
      && (r.Ok? <==> spec.Ok?)
      && (r.Err? ==> r.error == spec.error && next == cur)
      && (r.Ok? ==> next == spec.value)
  {
    var from := SourceGet(source, target, key, src, cur);
    if from.Ok? && !IsEmptyText(from.value.source) {
      r, next := CopyFrom(s, source, target, key, from.value, src, cur);
    } else {
      r, next := if from.Err? then Err(from.error) else Ok(()), cur;
    }
  }

  /** `CopyInto` with the source beside it: the source stays as it was. */
  method CopyFrom(s: Settings, source: Dict, target: Dict, key: string, from: Text, ghost src: DictView, ghost cur: DictView)
    returns (r: Result<()>, ghost next: DictView)
    requires Tracks(source, target, src, cur) && from.source.Some?
    modifies Footprint(target)
    ensures Tracks(source, target, src, next) && Footprint(source) == old(Footprint(source))
    ensures forall o :: o in Footprint(target) ==> o in old(Footprint(target)) || fresh(o)
    ensures var spec := CopySpec.CopyInto(s, from, cur, key);
      && (r.Ok? <==> spec.Ok?)
      && (r.Err? ==> r.error == spec.error && next == cur)
      && (r.Ok? ==> next == spec.value)
  {
    r, next := CopyInto(s, target, key, from, cur);
    Kept(source);
  }

  /** The two dictionaries of a job: well formed, the target writable, no object shared. */
  ghost predicate Apart(source: Dict, target: Dict)
    reads source.Top(), target.Top(), Footprint(source), Footprint(target)
  {
    && Dictionaries.Valid(source) && Dictionaries.Valid(target) && Writable(target)
    && Footprint(source) !! Footprint(target)
  }

  /** The job's two dictionaries are apart and read as `src` and `cur`. */
  ghost predicate Tracks(source: Dict, target: Dict, src: DictView, cur: DictView)
    reads source.Top(), target.Top(), Footprint(source), Footprint(target)
  {
    Apart(source, target) && View(source) == src && View(target) == cur
  }

  /**
   * One pass of the copy loop over the remaining keys `keys`: the first is
   * skipped when a filter matches it and copied otherwise; an exception
   * ends the loop.
   */
  method CopyStep(s: Settings, filters: seq<string>, matches: Matches, source: Dict, target: Dict, keys: seq<string>,
                  ghost src: DictView, ghost cur: DictView)
    returns (r: Option<Error>, ghost next: DictView)
    requires Tracks(source, target, src, cur) && keys != []
    modifies Footprint(target)
    ensures Tracks(source, target, src, next) && Footprint(source) == old(Footprint(source))
    ensures forall o :: o in Footprint(target) ==> o in old(Footprint(target)) || fresh(o)
    ensures r.Some? ==> CopyKeys(s, filters, matches, src, cur, keys) == Outcome(next, r)
    ensures r.None? ==> CopyKeys(s, filters, matches, src, cur, keys) == CopyKeys(s, filters, matches, src, next, keys[1..])
  {
    var filtered := IsFiltered(filters, matches, keys[0]);
    if filtered {
      return None, cur;
    }
    var copied;
    copied, next := CopyKey(s, source, target, keys[0], src, cur);
    r := if copied.Err? then Some(copied.error) else None;
  }

  /** `$this->sourceDictionary->keys()`, taken before the copy loop starts. */
  method SourceKeys(source: Dict, target: Dict, ghost src: DictView, ghost cur: DictView) returns (keys: seq<string>)
    requires Tracks(source, target, src, cur)
    ensures Tracks(source, target, src, cur)
    ensures Footprint(source) == old(Footprint(source)) && Footprint(target) == old(Footprint(target))
    ensures src.Valid() && keys == Views.Keys(src)
  {
    keys := Dictionaries.Keys(source, src);
    Kept(target);
  }

  /** The first loop of `run()`: `copyKey` for every source key no filter matches, until one throws. */
  method CopyAll(s: Settings, filters: seq<string>, matches: Matches, source: Dict, target: Dict,
                 keys: seq<string>, ghost src: DictView, ghost t0: DictView)
    returns (r: Option<Error>, ghost next: DictView)
    requires Tracks(source, target, src, t0)
    modifies Footprint(target)
    ensures Tracks(source, target, src, next) && Footprint(source) == old(Footprint(source))
    ensures forall o :: o in Footprint(target) ==> o in old(Footprint(target)) || fresh(o)
    ensures CopyKeys(s, filters, matches, src, t0, keys) == Outcome(next, r)
  {
    next := t0;
    var i := 0;
    while i < |keys|
      invariant 0 <= i <= |keys|
      invariant Tracks(source, target, src, next) && Footprint(source) == old(Footprint(source))
      invariant forall o :: o in Footprint(target) ==> o in old(Footprint(target)) || fresh(o)
      invariant CopyKeys(s, filters, matches, src, t0, keys) == CopyKeys(s, filters, matches, src, next, keys[i..])
    {
      OrderedMaps.DropOne(keys, i);
      r, next := CopyStep(s, filters, matches, source, target, keys[i..], src, next);
      if r.Some? {
        return;
      }
      i := i + 1;
    }
    r := None;
  }

  /** The test of `cleanTarget()`: `!has($key) || get($key)->isSourceEmpty()`. */
  method IsObsolete(source: Dict, key: string, ghost src: DictView) returns (r: Result<bool>)
    requires Dictionaries.Valid(source) && View(source) == src
    ensures Dictionaries.Valid(source) && View(source) == src && Footprint(source) == old(Footprint(source))
    ensures r == Obsolete(src, key)
  {
    var present := Dictionaries.Has(source, key, src);
    if present.Err? {
      return Err(present.error);
    }
    if !present.value {
      return Ok(true);
    }
    HasAgreesWithGet(src, key);
    var from := Dictionaries.Get(source, key, src);
    match from
    case Ok(value) => r := Ok(IsEmptyText(value.source));
    case Err(_) => assert false;
  }

  /** One pass of the clean loop over the remaining keys `keys`: remove the first when it is obsolete and the run is not dry. */
  method CleanStep(dry: bool, source: Dict, target: Dict, keys: seq<string>, ghost src: DictView, ghost cur: DictView)
    returns (r: Option<Error>, ghost next: DictView)
    requires Tracks(source, target, src, cur) && keys != []
    modifies Footprint(target)
    ensures Tracks(source, target, src, next) && Footprint(source) == old(Footprint(source))
    ensures Footprint(target) <= old(Footprint(target))
    ensures r.Some? ==> Clean(dry, src, cur, keys) == Outcome(next, r)
    ensures r.None? ==> Clean(dry, src, cur, keys) == Clean(dry, src, next, keys[1..])
  {
    var obsolete := IsObsolete(source, keys[0], src);
    if obsolete.Err? {
      return Some(obsolete.error), cur;
    }
    if !obsolete.value || dry {
      return None, cur;
    }
    var removed := Dictionaries.Remove(target, keys[0], cur);
    Kept(source);
    r := if removed.Err? then Some(removed.error) else None;
    next := View(target);
  }

  /** The loop of `cleanTarget()` over listed `keys`: remove every obsolete one (none on a dry run), until one throws. */
  method CleanListed(dry: bool, source: Dict, target: Dict, keys: seq<string>, ghost src: DictView, ghost t0: DictView)
    returns (r: Option<Error>, ghost next: DictView)
    requires Tracks(source, target, src, t0)
    modifies Footprint(target)
    ensures Tracks(source, target, src, next) && Footprint(source) == old(Footprint(source))
    ensures Footprint(target) <= old(Footprint(target))
    ensures Clean(dry, src, t0, keys) == Outcome(next, r)
  {
    next := t0;
    var i := 0;
    while i < |keys|
      invariant 0 <= i <= |keys|
      invariant Tracks(source, target, src, next) && Footprint(source) == old(Footprint(source))
      invariant Footprint(target) <= old(Footprint(target))
      invariant Clean(dry, src, t0, keys) == Clean(dry, src, next, keys[i..])
    {
      OrderedMaps.DropOne(keys, i);
      r, next := CleanStep(dry, source, target, keys[i..], src, next);
      if r.Some? {
        return;
      }
      i := i + 1;
    }
    r := None;
  }

  /**
   * One turn of the compound's key generator: child `p` is asked for its
   * keys now, and each of them, behind `p`, goes through the clean loop.
   */
  method CleanChild(dry: bool, source: Dict, target: Dict, c: CompoundDictionary, p: string,
                    ghost src: DictView, ghost cur: DictView)
    returns (r: Option<Error>, ghost next: DictView)
    requires target == CompoundDict(c) && Tracks(source, target, src, cur) && p in cur.prefixes
    modifies Footprint(target)
    ensures Tracks(source, target, src, next) && Footprint(source) == old(Footprint(source))
    ensures Footprint(target) <= old(Footprint(target))
    ensures cur.CompoundView? && p in cur.children
    ensures Clean(dry, src, cur, Prefixed(p, cur.children[p].keys)) == Outcome(next, r)
  {
    c.ViewFacts();
    var keys := c.children[p].Keys();
    r, next := CleanListed(dry, source, target, Prefixed(p, keys), src, cur);
  }

  /** The compound branch of `cleanTarget()`: the children's turns in prefix order, until a removal throws. */
  method CleanChildrenOf(dry: bool, source: Dict, target: Dict, c: CompoundDictionary,
                         ghost src: DictView, ghost t0: DictView)
    returns (r: Option<Error>, ghost next: DictView)
    requires target == CompoundDict(c) && Tracks(source, target, src, t0)
    modifies Footprint(target)
    ensures Tracks(source, target, src, next) && Footprint(source) == old(Footprint(source))
    ensures Footprint(target) <= old(Footprint(target))
    ensures t0.Valid() && t0.CompoundView?
    ensures CleanChildren(dry, src, t0, t0.prefixes) == Outcome(next, r)
  {
    c.ViewFacts();
    var prefixes := c.prefixes;
    next := t0;
    var i := 0;
    while i < |prefixes|
      invariant 0 <= i <= |prefixes|
      invariant Tracks(source, target, src, next) && Footprint(source) == old(Footprint(source))
      invariant Footprint(target) <= old(Footprint(target))
      invariant next.Valid() && SameShape(t0, next)
      invariant CleanChildren(dry, src, t0, prefixes) == CleanChildren(dry, src, next, prefixes[i..])
    {
      ghost var cur := next;
      OrderedMaps.DropOne(prefixes, i);
      r, next := CleanChild(dry, source, target, c, prefixes[i], src, cur);
      if r.Some? {
        return;
      }
      i := i + 1;
    }
    r := None;
  }

  /**
   * `cleanTarget()`: the loop over `$this->targetDictionary->keys()`. A
   * memory target lists its keys when the loop starts. A compound's
   * generator walks the children in order and asks each child for its keys
   * only when it reaches it, so a child sees the removals made while
   * earlier children were listed.
   */
  method CleanTarget(dry: bool, source: Dict, target: Dict, ghost src: DictView, ghost t0: DictView)
    returns (r: Option<Error>, ghost next: DictView)
    requires Tracks(source, target, src, t0)
    modifies Footprint(target)
    ensures Tracks(source, target, src, next) && Footprint(source) == old(Footprint(source))
    ensures Footprint(target) <= old(Footprint(target))
    ensures t0.Valid() && CopySpec.CleanTarget(dry, src, t0) == Outcome(next, r)
  {
    match target
    case MemoryDict(m) =>
      var keys := m.Keys();
      r, next := CleanListed(dry, source, target, keys, src, t0);
    case CompoundDict(c) =>
      r, next := CleanChildrenOf(dry, source, target, c, src, t0);
  }

  /**
   * The body of `run()` with the job's settings `c`: the effective dry-run
   * flag, the copy loop over the source's keys, then (with
   * `removeObsolete`) the clean loop over the target's keys.
   */
  method Sync(c: Config, argument: Option<bool>, matches: Matches, source: Dict, target: Dict,
              ghost src: DictView, ghost t0: DictView)
    returns (r: Option<Error>, ghost next: DictView)
    requires Tracks(source, target, src, t0)
    modifies Footprint(target)
    ensures Tracks(source, target, src, next) && Footprint(source) == old(Footprint(source))
    ensures forall o :: o in Footprint(target) ==> o in old(Footprint(target)) || fresh(o)
    ensures src.Valid() && t0.Valid() && CopySpec.Run(c, matches, argument, src, t0) == Outcome(next, r)
  {
    ViewValid(target);
    var dry := Effective(c.dryRun, argument);
    var settings := CopySpec.Settings(c.copySource, c.copyTarget, dry);
    var keys := SourceKeys(source, target, src, t0);
    r, next := CopyAll(settings, c.filters, matches, source, target, keys, src, t0);
    if r.None? && c.removeObsolete {
      CopyKeysValid(settings, c.filters, matches, src, t0, keys);
      r, next := CleanTarget(dry, source, target, src, next);
    }
  }

  class CopyDictionaryJob {
    const source: Dict
    const target: Dict
    const pcre: Pcre
    var copySource: int
    var copyTarget: int
    var removeObsolete: bool
    var dryRun: bool
    var filters: seq<string>

    /** Both dictionaries are well formed, the target writable, and no object is shared by the job and its dictionaries. */
    ghost predicate Valid()
      reads source.Top(), target.Top(), Footprint(source), Footprint(target)
    {
      && Apart(source, target)
      && this !in Footprint(source) && this !in Footprint(target)
    }

    /** The settings as a value. */
    function Settings(): Config
      reads this
    {
      Config(copySource, copyTarget, removeObsolete, dryRun, filters)
    }

    /** `new CopyDictionaryJob($source, $target)`: both policies COPY_IF_EMPTY, no removal, no dry run, no filters. */
    constructor (source: Dict, target: Dict, pcre: Pcre)
      ensures Apart(source, target) ==> Valid()
      ensures this.source == source && this.target == target && this.pcre == pcre
      ensures Settings() == Config(COPY_IF_EMPTY, COPY_IF_EMPTY, false, false, [])
    {
      this.source := source;
      this.target := target;
      this.pcre := pcre;
      copySource := COPY_IF_EMPTY;
      copyTarget := COPY_IF_EMPTY;
      removeObsolete := false;
      dryRun := false;
      filters := [];
    }

    /** `setCopySource($copySource = COPY)`. */
    method SetCopySource(copySource: int := COPY)
      modifies this
      ensures old(Valid()) ==> Valid()
      ensures Settings() == old(Settings()).(copySource := copySource)
    {
      this.copySource := copySource;
    }

    /** `getCopySource()`. */
    method GetCopySource() returns (r: int)
      ensures r == Settings().copySource
    {
      r := copySource;
    }

    /** `setCopyTarget($copyTarget = COPY)`. */
    method SetCopyTarget(copyTarget: int := COPY)
      modifies this
      ensures old(Valid()) ==> Valid()
      ensures Settings() == old(Settings()).(copyTarget := copyTarget)
    {
      this.copyTarget := copyTarget;
    }

    /** `getCopyTarget()`. */
    method GetCopyTarget() returns (r: int)
      ensures r == Settings().copyTarget
    {
      r := copyTarget;
    }

    /** `setRemoveObsolete($removeObsolete = true)`. */
    method SetRemoveObsolete(removeObsolete: bool := true)
      modifies this
      ensures old(Valid()) ==> Valid()
      ensures Settings() == old(Settings()).(removeObsolete := removeObsolete)
    {
      this.removeObsolete := removeObsolete;
    }

    /** `hasRemoveObsolete()`. */
    method HasRemoveObsolete() returns (r: bool)
      ensures r == Settings().removeObsolete
    {
      r := removeObsolete;
    }

    /** `setDryRun($dryRun = true)`. */
    method SetDryRun(dryRun: bool := true)
      modifies this
      ensures old(Valid()) ==> Valid()
      ensures Settings() == old(Settings()).(dryRun := dryRun)
    {
      this.dryRun := dryRun;
    }

    /** `isDryRun()`. */
    method IsDryRun() returns (r: bool)
      ensures r == Settings().dryRun
    {
      r := dryRun;
    }

    /**
     * `addFilter($expression)`: delimit the expression, test it with the
     * engine and append it; a rejected pattern throws and is not kept.
     */
    method AddFilter(expression: string) returns (r: Result<()>)
      modifies this
      ensures old(Valid()) ==> Valid()
      ensures var pattern := Delimited(expression);
        && (r.Ok? <==> pattern !in pcre.rejected)
        && (r.Ok? ==> Settings() == old(Settings()).(filters := old(filters) + [pattern]))
        && (r.Err? ==> r.error == FilterError(pattern, pcre.rejected[pattern]) && Settings() == old(Settings()))
    {
      var pattern := Delimited(expression);
      if pattern in pcre.rejected {
        return Err(FilterError(pattern, pcre.rejected[pattern]));
      }
      filters := filters + [pattern];
      r := Ok(());
    }

    /**
     * `setFilters($expressions)`: start from no filters and add each
     * expression in turn; the first rejected one throws, and the patterns
     * added before it stay.
     */
    method SetFilters(expressions: seq<string>) returns (r: Result<()>)
      modifies this
      ensures old(Valid()) ==> Valid()
      ensures Settings().(filters := []) == old(Settings()).(filters := [])
      ensures r.Ok? <==> forall j :: 0 <= j < |expressions| ==> Delimited(expressions[j]) !in pcre.rejected
      ensures r.Ok? ==> filters == DelimitAll(expressions)
      ensures r.Err? ==> exists n :: (
        && 0 <= n < |expressions|
        && (forall j :: 0 <= j < n ==> Delimited(expressions[j]) !in pcre.rejected)
        && Delimited(expressions[n]) in pcre.rejected
        && r.error == FilterError(Delimited(expressions[n]), pcre.rejected[Delimited(expressions[n])])
        && filters == DelimitAll(expressions[..n]))
    {
      filters := [];
      var i := 0;
      while i < |expressions|
        invariant 0 <= i <= |expressions|
        invariant Settings().(filters := []) == old(Settings()).(filters := [])
        invariant old(Valid()) ==> Valid()
        invariant forall j :: 0 <= j < i ==> Delimited(expressions[j]) !in pcre.rejected
        invariant filters == DelimitAll(expressions[..i])
      {
        var added := AddFilter(expressions[i]);
        if added.Err? {
          return added;
        }
        assert DelimitAll(expressions[..i + 1]) == DelimitAll(expressions[..i]) + [Delimited(expressions[i])];
        i := i + 1;
      }
      assert expressions[..i] == expressions;
      r := Ok(());
    }

    /** `getFilters()`. */
    method GetFilters() returns (r: seq<string>)
      ensures r == Settings().filters
    {
      r := filters;
    }

    /**
     * `run($dryRun)`: the copy loop, then (with `removeObsolete`) the clean
     * loop, as `CopySpec.Run` describes them. An explicit argument overrides
     * the dry-run flag for this run only: the settings are as before
     * afterwards, whether the run ends normally or with an exception.
     */
    method Run(argument: Option<bool>) returns (r: Result<()>)
      requires Valid()
      modifies Footprint(target)
      ensures Valid() && Settings() == old(Settings())
      ensures View(source) == old(View(source)) && Footprint(source) == old(Footprint(source))
      ensures forall o :: o in Footprint(target) ==> o in old(Footprint(target)) || fresh(o)
      ensures old(View(source)).Valid() && old(View(target)).Valid()
      ensures var out := CopySpec.Run(old(Settings()), pcre.matches, argument, old(View(source)), old(View(target)));
        && View(target) == out.view
        && (r.Ok? <==> out.error.None?)
        && (r.Err? ==> r.error == out.error.value)
    {
      ghost var src, t0 := View(source), View(target);
      var failure;
      ghost var after;
      failure, after := Sync(Settings(), argument, pcre.matches, source, target, src, t0);
      r := if failure.Some? then Err(failure.value) else Ok(());
    }
  }
}
