# cyberspectrum-i18n: translation dictionaries and the jobs that synchronise them

The i18n library keeps translations in dictionaries. A dictionary maps a string
key to a translation value that holds a source text and a target text, in one
source language and one target language. The model covers:

- **Memory dictionaries** keep their values in an ordered buffer. A
  **memory dictionary provider** registers them by name and languages.
- A **compound dictionary** joins several child dictionaries under prefixes
  (`prefix.key`) and routes every read and write to the child a key names.
- A **copy dictionary job** synchronises a source dictionary into a writable
  target:
  - the source text is copied by the COPY / COPY_IF_EMPTY / DO_NOT_COPY policy;
  - so is the target text;
  - keys matching a filter are skipped;
  - obsolete target keys are optionally removed;
  - a dry run leaves the target as it was.
- A **batch job** runs its jobs in order.
- **Jobs are described in a configuration** of named definitions:
  - plain, dictionary, decorated, extended dictionary, referenced job, copy
    job and batch job definitions;
  - the **definition builders** turn raw configuration arrays into these
    definitions;
  - the **job factory**, with its copy and batch job builders and its default
    and compound dictionary builders, turns definitions into dictionaries and
    jobs.

## How the model is laid out

| module | file | models |
|---|---|---|
| `Errors` | errors.dfy | the exceptions, as an `Error` datatype in a `Result` |
| `OrderedMaps` | ordered_map.dfy | PHP arrays: a key order and a map |
| `Values` | values.dfy | configuration values and definitions as datatypes, `array_merge`, `(string)$int` |
| `Views` | views.dfy | what a dictionary holds, as values; the routing of compound keys |
| `Memory` | memory.dfy | `MemoryDictionary` and `MemoryTranslationValue` |
| `Compound` | compound.dfy | the compound dictionaries and their values |
| `Dictionaries` | dictionaries.dfy | one `Dict` type over the two |
| `DictionaryInformations` | dictionary_information.dfy | `DictionaryInformation` |
| `MemoryProviders` | provider.dfy | `MemoryDictionaryProvider` |
| `CopySpec` | copy_spec.dfy | the copy job's algorithm on values, and its properties |
| `CopyJob` | copy_job.dfy | `CopyDictionaryJob` |
| `Batches` | batch_job.dfy | `BatchJob` |
| `Configurations` | configuration.dfy | `Configuration` |
| `Definitions` | definitions.dfy | reading definitions: `get`, `has`, `getData`, the typed accessors |
| `DefinitionProperties` | definition_properties.dfy | properties of the definitions |
| `DefinitionBuilders` | definition_builders.dfy | `DefinitionBuilder` and the four definition builders |
| `DefinitionBuilderProperties` | definition_builder_properties.dfy | their properties |
| `BuildPlans` | plans.dfy | what the job factory builds from a definition, as values |
| `BuildPlanProperties` | plan_properties.dfy | properties of those plans |
| `JobFactories` | factory.dfy | `JobFactory` and the job and dictionary builders |
| `SelfReference` | self_reference.dfy | definitions that reach themselves (see Findings) |

The layers fit together as follows:

- **Objects the PHP code updates in place are classes.** These are the
  dictionaries, translation values, provider, copy job, batch job,
  configuration and job factory.
- **Each class is proved against a value description.**
  - A `MemView` or `DictView` says what a dictionary holds.
  - `CopySpec.Run` says what a copy run does.
  - `Batches.Sequence` says what a batch run does.
  - The `BuildPlans` functions say what the factory builds.
- **Those descriptions carry the lemmas that state the library's promises.**
  Examples: a copied key is settled, a run is idempotent, a dry run changes
  nothing, and the clean loop removes exactly the obsolete keys when no
  compound prefix holds a dot.
- **Definition builders are pure code** in the source, and definitions are
  read-only apart from `Definition::set()` and `setData()`, which change the
  data array in place. All of them are functions over datatypes here; the
  two setters return the updated definition (see "## Left out").

Outside effects become parameters:

- **The regular expression engine** behind `preg_match` is the `CopyJob.Pcre`
  parameter. It says which patterns are rejected and which keys a pattern
  matches.
- **Service locators** are maps from service id to a builder datatype.

## Model

| member | source | states |
|---|---|---|
| `OrderedMaps.OrderedMap.Put` | src/Memory/MemoryDictionary.php:177 | an assignment `$a[$k] = $v` keeps the position of an existing key and appends a new one; the map gains exactly that entry |
| `OrderedMaps.OrderedMap.Remove` | src/Memory/MemoryDictionary.php:144 | `unset` drops the key from the map and from the key list, and a well-formed array stays well formed |
| `OrderedMaps.OrderedMap.Lookup` | src/Configuration/Configuration.php:118-125 | a lookup yields a value exactly for the keys present, and it is the stored one |
| `OrderedMaps.Without` | src/Memory/MemoryDictionary.php:144 | the key list after `unset` holds every other key and not that one, each at most once when they were distinct |
| `Values.AsString` | src/Configuration/Definition/DictionaryDefinition.php:36-42 | a value passed to a `string` parameter under strict types: exactly a string passes, as itself |
| `Values.Renumbered` | src/Configuration/Definition/ExtendedDefinitionTrait.php:48 | the keys `array_merge` takes from one array, in its order, integer ones renumbered: its string keys are exactly the array's listed string keys |
| `Values.Appended` | src/Configuration/Definition/ExtendedDefinitionTrait.php:48 | the key order after assigning keys in turn: the old order first, then each new key where it first occurs, and no other key |
| `Values.AppendedConcat` | src/Configuration/Definition/ExtendedDefinitionTrait.php:48 | assigning two runs of keys one after the other orders the keys as assigning both at once |
| `Values.MergeInto` | src/Configuration/Definition/ExtendedDefinitionTrait.php:48 | the entries `array_merge` appends: string keys assigned in place, integer keys renumbered after those already present; the key order is the old order followed by the new keys as `Values.Renumbered` lists them |
| `Values.MergeIntoNumbers` | src/Configuration/Definition/ExtendedDefinitionTrait.php:48 | the integer-keyed values of the merge are the first array's followed by the second's, numbered from 0 with no gap |
| `Values.IntKeyCountValues` | src/Configuration/Definition/ExtendedDefinitionTrait.php:48 | the number of integer keys of an array is the number of its integer-keyed values |
| `Values.ArrayMerge` | src/Configuration/Definition/ExtendedDefinitionTrait.php:48 | `array_merge($a, $b)`: later string keys win, integer keys are renumbered from 0 with `$a`'s values first, the key order is `$a`'s keys then `$b`'s new ones (integer keys renumbered in place), and the result is a well-formed array |
| `Values.ListShape` | src/Configuration/Definition/ExtendedDefinitionTrait.php:48 | a PHP list literal has the keys 0, 1, ... in order, holding its elements |
| `Values.MergeLists` | src/Configuration/Definition/ExtendedDefinitionTrait.php:48 | `array_merge` of two lists is a list: keys 0, ..., n-1 in order, the first list's elements followed by the second's |
| `Views.MemGet` | src/Memory/MemoryDictionary.php:91-94 | reading a memory dictionary: the texts of a present key, TranslationNotFound otherwise |
| `Views.MemAdd` | src/Memory/MemoryDictionary.php:125-132 | adding a key appends a blank value; a present key is TranslationAlreadyContained |
| `Views.MemRemove` | src/Memory/MemoryDictionary.php:139-146 | removing drops the key and keeps the order; a missing key is TranslationNotFound |
| `Views.MemAddRemove` | src/Memory/MemoryDictionary.php:125-146 | adding a key and then removing it gives back the dictionary it was |
| `Views.FirstDot` | src/Compound/CompoundDictionary.php:187 | `strpos($key, '.')`: the index of the first dot, none when there is none |
| `Views.Route` | src/Compound/CompoundDictionary.php:185-197 | a key routes to the child named before its first dot, with the rest as the child's key; a key without a dot or with an unknown prefix fails |
| `Views.RouteJoin` | src/Compound/CompoundDictionary.php:185-197 | splitting `prefix.key` for a dot-free prefix gives back the prefix and the key |
| `Views.RouteInjective` | src/Compound/CompoundDictionary.php:185-197 | two keys routing to the same child and child key are the same key |
| `Views.RouteReplaced` | src/Compound/CompoundDictionary.php:185-197 | replacing a child's contents does not change how any key routes |
| `Views.CompoundKeysMembership` | src/Compound/CompoundDictionary.php:70-77 | a key is listed by a compound exactly when it is `prefix.k` for a child that lists `k` |
| `Views.HasAgreesWithGet` | src/Compound/CompoundDictionary.php:82-99 | `has` is true exactly when `get` succeeds, for memory and compound dictionaries alike, and both fail alike on an unroutable key |
| `Views.AddThenGet` | src/Compound/WritableCompoundDictionary.php:36-42 | after `add`, the key reads as blank and every other key reads as before |
| `Views.AddFailsWhenPresent` | src/Memory/MemoryDictionary.php:125-132 | `add` fails exactly when `has` fails or finds the key |
| `Views.RemoveThenGet` | src/Compound/WritableCompoundDictionary.php:47-53 | after `remove`, the key is gone and every other key reads as before |
| `Views.UpdateThenGet` | src/Memory/MemoryTranslationValue.php:113-148 | a write through a writable value changes that key's texts only |
| `Views.UpdateSame` | src/Memory/MemoryTranslationValue.php:113-128 | writing back the texts a key already has changes nothing |
| `Views.ListedKeysArePresent` | src/Compound/CompoundDictionary.php:70-99 | every key a compound lists can be read back when no prefix holds a dot |
| `Views.AddRouted` | src/Compound/WritableCompoundDictionary.php:36-42 | proof step: unfolds `Views.Add` for a routed key into the child's `add`, for the compound class's method proof; the promises about `add` are `Views.AddThenGet` and `Views.AddFailsWhenPresent` |
| `Views.RemoveRouted` | src/Compound/WritableCompoundDictionary.php:47-53 | proof step: unfolds `Views.Remove` for a routed key into the child's `remove`, for the compound class's method proof; the promises about `remove` are `Views.RemoveThenGet` and `Views.KeysAfterRemove` |
| `Views.JoinCancel` | src/Compound/CompoundDictionary.php:70-77 | two keys behind the same prefix are equal exactly when their child keys are |
| `Views.JoinApart` | src/Compound/CompoundDictionary.php:70-77 | keys behind two different dot-free prefixes differ |
| `Views.CompoundKeysWithout` | src/Compound/WritableCompoundDictionary.php:47-53 | removing a child key removes exactly the joined key from the compound's key list |
| `Views.KeysAfterRemove` | src/Compound/WritableCompoundDictionary.php:47-53 | `remove` drops the key from `keys()` and keeps the order of the others |
| `Memory.MemoryTranslationValue.constructor` | src/Memory/MemoryTranslationValue.php:59-64 | a value holds its key and the two texts it was given |
| `Memory.MemoryTranslationValue.SetSource` | src/Memory/MemoryTranslationValue.php:113-118 | the source text becomes the given one; key and target stay |
| `Memory.MemoryTranslationValue.SetTarget` | src/Memory/MemoryTranslationValue.php:123-128 | the target text becomes the given one; key and source stay |
| `Memory.MemoryTranslationValue.ClearSource` | src/Memory/MemoryTranslationValue.php:133-138 | the source text becomes null; key and target stay |
| `Memory.MemoryTranslationValue.ClearTarget` | src/Memory/MemoryTranslationValue.php:143-148 | the target text becomes null; key and source stay |
| `Memory.NewValueIsEmpty` | src/Memory/MemoryTranslationValue.php:95-108 | a value made from a key alone has neither text, and both are empty |
| `Memory.MemoryDictionary.constructor` | src/Memory/MemoryDictionary.php:71-74 | a new dictionary has its two languages and holds nothing |
| `Memory.MemoryDictionary.Create` | src/Memory/MemoryDictionary.php:71-78 | the construction succeeds exactly when every buffer entry has a source and a target; the dictionary then holds exactly the buffer's texts in its order |
| `Memory.MemoryDictionary.AddItems` | src/Memory/MemoryDictionary.php:75-77 | the constructor's loop adds every entry in order and fails exactly when some entry is malformed |
| `Memory.MemoryDictionary.LoadEntry` | src/Memory/MemoryDictionary.php:75-77 | one round of that loop stores the next entry's texts after those already loaded |
| `Memory.MemoryDictionary.AddItem` | src/Memory/MemoryDictionary.php:172-179 | `addItem` stores a value with the entry's two texts, or fails, leaving the dictionary as it was, when either is missing |
| `Memory.LoadedView` | src/Memory/MemoryDictionary.php:71-78 | after the loop the dictionary holds exactly the entries' texts, in the buffer's order |
| `Memory.MemoryDictionary.Keys` | src/Memory/MemoryDictionary.php:83-86 | `keys()` lists the held keys in insertion order |
| `Memory.MemoryDictionary.Has` | src/Memory/MemoryDictionary.php:99-102 | `has` is true exactly for the held keys |
| `Memory.MemoryDictionary.GetWritable` | src/Memory/MemoryDictionary.php:153-160 | `getWritable` returns the stored value object itself, with the held texts, or TranslationNotFound |
| `Memory.MemoryDictionary.Get` | src/Memory/MemoryDictionary.php:91-94 | `get` returns the same stored object, or TranslationNotFound |
| `Memory.MemoryDictionary.Add` | src/Memory/MemoryDictionary.php:125-132 | `add` appends a new blank value and returns it, exactly as `Views.MemAdd` says; a present key fails and leaves the dictionary as it was |
| `Memory.MemoryDictionary.Remove` | src/Memory/MemoryDictionary.php:139-146 | `remove` deletes the key as `Views.MemRemove` says; a missing key fails and leaves the dictionary as it was |
| `Memory.MemoryDictionary.Replaced` | src/Memory/MemoryDictionary.php:125-132 | storing a value under its key changes the dictionary's contents under that key only |
| `Memory.MemoryDictionary.Dropped` | src/Memory/MemoryDictionary.php:139-146 | dropping a key from the buffer drops it from the contents and nothing else |
| `Memory.MemoryDictionary.WrittenThrough` | src/Memory/MemoryDictionary.php:153-160 | a write through the object `getWritable` returned shows in the dictionary under that key and nowhere else |
| `Compound.TranslationValue.constructor` | src/Compound/TranslationValue.php:51-55 | a compound value holds the child's prefix and the child value it reads through |
| `Compound.WritableTranslationValue.constructor` | src/Compound/TranslationValue.php:51-55 | a writable compound value holds the child's prefix and the child value it writes through |
| `Compound.WritableTranslationValue.SetSource` | src/Compound/WritableTranslationValue.php:36-41 | the wrapped value's source text becomes the given one |
| `Compound.WritableTranslationValue.SetTarget` | src/Compound/WritableTranslationValue.php:46-51 | the wrapped value's target text becomes the given one |
| `Compound.WritableTranslationValue.ClearSource` | src/Compound/WritableTranslationValue.php:56-61 | the wrapped value's source text becomes null |
| `Compound.WritableTranslationValue.ClearTarget` | src/Compound/WritableTranslationValue.php:66-71 | the wrapped value's target text becomes null |
| `Compound.CompoundDictionary.ViewFacts` | src/Compound/CompoundDictionary.php:128-153 | a compound's contents list its registered prefixes and each child's own contents |
| `Compound.CompoundDictionary.constructor` | src/Compound/CompoundDictionary.php:61-65 | a new compound has its two languages and no children |
| `Compound.CompoundDictionary.AddDictionary` | src/Compound/CompoundDictionary.php:128-153 | a taken prefix fails first, then a different source language, then a different target language, each leaving the compound as it was; otherwise the child is registered under the prefix, after the others |
| `Compound.AddDictionaryCheck` | src/Compound/CompoundDictionary.php:130-150 | the check passes exactly for a free prefix and equal languages; a taken prefix fails first with its message, then a source or target language mismatch as NotSupported |
| `Compound.CompoundDictionary.Split` | src/Compound/CompoundDictionary.php:165-170 | a key's child and child key are the ones `Views.Route` gives |
| `Compound.CompoundDictionary.Keys` | src/Compound/CompoundDictionary.php:70-77 | `keys()` lists each child's keys behind its prefix, children in registration order |
| `Compound.ListKeys` | src/Compound/CompoundDictionary.php:72-76 | the two loops of `keys()` produce the joined keys of every child in order |
| `Compound.CompoundDictionary.Has` | src/Compound/CompoundDictionary.php:93-99 | `has` asks the routed child; a key that cannot be routed fails |
| `Compound.CompoundDictionary.Get` | src/Compound/CompoundDictionary.php:82-88 | `get` returns a value with the full key and the routed child's texts, or the routing or child's error |
| `Compound.CompoundDictionary.GetWritable` | src/Compound/WritableCompoundDictionary.php:58-64 | `getWritable` wraps the child's stored value under the full key |
| `Compound.CompoundDictionary.Add` | src/Compound/WritableCompoundDictionary.php:36-42 | `add` changes the compound as `Views.Add` says: the routed child adds the child key, and the result is wrapped under the full key |
| `Compound.CompoundDictionary.AddToChild` | src/Compound/WritableCompoundDictionary.php:38-41 | the routed child adds the key, and the compound's contents change in that child only |
| `Compound.CompoundDictionary.ChildGrew` | src/Compound/WritableCompoundDictionary.php:36-42 | a child that only gained values keeps the compound well formed |
| `Compound.CompoundDictionary.Remove` | src/Compound/WritableCompoundDictionary.php:47-53 | `remove` changes the compound as `Views.Remove` says: the routed child removes the child key |
| `Compound.CompoundDictionary.ChildChanged` | src/Compound/WritableCompoundDictionary.php:47-53 | when one child changed, the compound's contents are the old ones with that child's contents replaced |
| `Compound.CompoundDictionary.WrittenThrough` | src/Compound/WritableCompoundDictionary.php:58-64 | a write through the value `getWritable` wrapped shows in the compound under that key and nowhere else |
| `Compound.CompoundDictionary.Kept` | src/Compound/CompoundDictionary.php:70-99 | a compound none of whose objects changed reads as before |
| `Compound.CompoundDictionary.OtherChildUnchanged` | src/Compound/WritableCompoundDictionary.php:36-53 | a write to one child leaves every other child's contents as they were |
| `Dictionaries.ViewValid` | src/Dictionary/DictionaryInterface.php:30-74 | a well-formed dictionary, memory or compound, has well-formed contents |
| `Dictionaries.Keys` | src/Compound/CompoundDictionary.php:70-77 | `keys()` of either kind is the key list of its contents |
| `Dictionaries.Has` | src/Compound/CompoundDictionary.php:93-99 | `has` of either kind answers as `Views.Has` does on its contents |
| `Dictionaries.Get` | src/Compound/CompoundDictionary.php:82-88 | `get` of either kind yields the texts `Views.Get` gives, or its error |
| `Dictionaries.GetWritable` | src/Compound/WritableCompoundDictionary.php:58-64 | `getWritable` of either kind yields a handle on the texts `Views.Get` gives |
| `Dictionaries.Add` | src/Compound/WritableCompoundDictionary.php:36-42 | `add` of either kind changes the contents as `Views.Add` says |
| `Dictionaries.Remove` | src/Compound/WritableCompoundDictionary.php:47-53 | `remove` of either kind changes the contents as `Views.Remove` says |
| `Dictionaries.SetSource` | src/Compound/WritableTranslationValue.php:36-41 | setting the source through a handle changes that key's source text only |
| `Dictionaries.SetTarget` | src/Compound/WritableTranslationValue.php:46-51 | setting the target through a handle changes that key's target text only |
| `Dictionaries.ClearTarget` | src/Compound/WritableTranslationValue.php:66-71 | clearing the target through a handle changes that key's target text only |
| `DictionaryInformations.FirstSpace` | src/Dictionary/DictionaryInformation.php:97-100 | the index of the first space of a string, or none when it has none |
| `DictionaryInformations.LanguagesBack` | src/Dictionary/DictionaryInformation.php:97-100 | the languages part of the string form reads back as the two languages |
| `DictionaryInformations.ParseToString` | src/Dictionary/DictionaryInformation.php:57-100 | `"<name> <source> => <target>"` keeps all three parts: with no space in the name or the source language, it parses back to the information |
| `MemoryProviders.RegisterThenFind` | src/Memory/MemoryDictionaryProvider.php:135-153 | registering a dictionary under its name makes it the one found for that name and its languages, and leaves every other name's lookup as it was |
| `MemoryProviders.RegisterListing` | src/Memory/MemoryDictionaryProvider.php:64-153 | a new name is listed last; a name registered again keeps its place with the new languages |
| `MemoryProviders.MemoryDictionaryProvider.constructor` | src/Memory/MemoryDictionaryProvider.php:54-57 | a new provider has nothing registered |
| `MemoryProviders.MemoryDictionaryProvider.AvailableDictionaries` | src/Memory/MemoryDictionaryProvider.php:64-69 | `getAvailableDictionaries()` yields `Listing` of the registrations |
| `MemoryProviders.MemoryDictionaryProvider.AvailableWritableDictionaries` | src/Memory/MemoryDictionaryProvider.php:98-103 | `getAvailableWritableDictionaries()` yields the same listing |
| `MemoryProviders.MemoryDictionaryProvider.Find` | src/Memory/MemoryDictionaryProvider.php:83-90 | the search loop finds a dictionary exactly when one is registered under that name with those languages |
| `MemoryProviders.MemoryDictionaryProvider.GetDictionary` | src/Memory/MemoryDictionaryProvider.php:76-93 | the registered instance itself when name and both languages match, DictionaryNotFound otherwise |
| `MemoryProviders.MemoryDictionaryProvider.GetDictionaryForWrite` | src/Memory/MemoryDictionaryProvider.php:110-128 | the same lookup as `getDictionary`, with the same failure |
| `MemoryProviders.MemoryDictionaryProvider.CreateDictionary` | src/Memory/MemoryDictionaryProvider.php:135-153 | "already exists" when that name and those languages are registered; otherwise a new empty dictionary is registered under the name, taking the place of one of the same name |
| `CopyJob.Utf8Lead` | src/Job/CopyDictionaryJob.php:257 | the first byte of a character's UTF-8 encoding, what `$expression[0]` reads: the character itself below 128, a lead byte from 0xC0 otherwise |
| `CopyJob.Utf8Final` | src/Job/CopyDictionaryJob.php:257 | the last byte of a character's UTF-8 encoding, what `substr($expression, -1)` reads: the character itself below 128, a continuation byte 0x80-0xBF otherwise |
| `CopyJob.Delimited` | src/Job/CopyDictionaryJob.php:256-259 | the first and last bytes are compared, so an expression is kept as written exactly when it is empty or starts and ends with the same ASCII character; every other one gets `/` delimiters |
| `CopyJob.DelimitedIsStable` | src/Job/CopyDictionaryJob.php:256-259 | a stored pattern starts and ends with the same ASCII character, and delimiting it again changes nothing |
| `CopyJob.DelimitedWrapsNonAscii` | src/Job/CopyDictionaryJob.php:256-259 | "ä" (two bytes that differ) becomes "/ä/", while "a" is kept |
| `CopyJob.IsFiltered` | src/Job/CopyDictionaryJob.php:488-498 | a key is filtered exactly when some stored pattern matches it |
| `CopySpec.SourceWrite` | src/Job/CopyDictionaryJob.php:372-408 | `copySource` never clears the source text; when it writes, it writes the source value's text over a different one |
| `CopySpec.TargetWrite` | src/Job/CopyDictionaryJob.php:418-460 | `copyTarget` writes the source value's target text over a different one, or clears the target only when the source value has none |
| `CopySpec.Reconcile` | src/Job/CopyDictionaryJob.php:358-361 | a dry run changes nothing; DO_NOT_COPY, and COPY_IF_EMPTY over a non-empty text, keep a text; otherwise each text becomes the source value's |
| `CopySpec.ReconcileIdempotent` | src/Job/CopyDictionaryJob.php:358-361 | reconciling an already reconciled value changes nothing |
| `CopySpec.Obsolete` | src/Job/CopyDictionaryJob.php:470 | a key is not obsolete exactly when the source reads it with a non-empty source text |
| `CopySpec.CopyKeyEffect` | src/Job/CopyDictionaryJob.php:339-362 | one `copyKey`: a source key with a source text ends in the target with reconciled texts, added blank first when missing (not on a dry run); every other key reads as before |
| `CopySpec.CopyKeyFailsCleanly` | src/Job/CopyDictionaryJob.php:339-362 | `copyKey` fails only when reading the source key fails, `has` on the target fails, or adding the missing key fails |
| `CopySpec.CopyKeyDry` | src/Job/CopyDictionaryJob.php:339-460 | on a dry run a `copyKey` that throws nothing leaves the key settled |
| `CopySpec.SettledMeans` | src/Job/CopyDictionaryJob.php:339-362 | a settled key has an empty source, or the target holds it with reconciled texts, or lacks it on a dry run |
| `CopySpec.CopyKeySettles` | src/Job/CopyDictionaryJob.php:339-362 | after `copyKey` the key is settled: copying it again changes nothing |
| `CopySpec.CopyKeyKeepsSettled` | src/Job/CopyDictionaryJob.php:339-362 | `copyKey` of one key leaves every other key settled |
| `CopySpec.RemoveKeepsSettled` | src/Job/CopyDictionaryJob.php:476 | removing an obsolete key leaves every key settled that was |
| `CopySpec.CopyKeysValid` | src/Job/CopyDictionaryJob.php:317-322 | the copy loop keeps the target well formed, with the same children |
| `CopySpec.CopyKeysDry` | src/Job/CopyDictionaryJob.php:317-322 | a dry copy loop leaves the target as it was |
| `CopySpec.CopyKeysSettles` | src/Job/CopyDictionaryJob.php:317-322 | a copy loop that throws nothing leaves every unfiltered key it visited settled, and keeps settled keys settled |
| `CopySpec.CopyKeysSettledIsNoop` | src/Job/CopyDictionaryJob.php:317-322 | a copy loop over settled keys changes nothing and throws nothing |
| `CopySpec.CopyKeysIdempotent` | src/Job/CopyDictionaryJob.php:317-322 | running the copy loop again on its own result changes nothing and throws nothing |
| `CopySpec.FilteredKeyUntouched` | src/Job/CopyDictionaryJob.php:318-320 | a key a filter matches reads the same in the target after the copy loop |
| `CopySpec.CleanDry` | src/Job/CopyDictionaryJob.php:472-474 | a dry clean loop leaves the target as it was |
| `CopySpec.CleanKeepsSettled` | src/Job/CopyDictionaryJob.php:467-479 | the clean loop keeps the target well formed and every settled key settled |
| `CopySpec.CleanNothingObsolete` | src/Job/CopyDictionaryJob.php:467-479 | a clean loop over keys none of which is obsolete changes nothing and throws nothing |
| `CopySpec.CleanKeys` | src/Job/CopyDictionaryJob.php:467-479 | a clean loop that throws nothing removes the obsolete visited keys from `keys()` and keeps the order of the rest |
| `CopySpec.NotObsolete` | src/Job/CopyDictionaryJob.php:470 | the keys the source does not make obsolete, in the given order |
| `CopySpec.RetainedAfterRemove` | src/Job/CopyDictionaryJob.php:469-477 | removing an obsolete first key and visiting the rest keeps what visiting all keeps |
| `CopySpec.RetainedAfterKeep` | src/Job/CopyDictionaryJob.php:469-477 | skipping a first key that is not obsolete keeps what visiting all keeps |
| `CopySpec.RetainedNone` | src/Job/CopyDictionaryJob.php:469-477 | a loop that visits no key keeps every key |
| `CopySpec.RetainedVisited` | src/Job/CopyDictionaryJob.php:469-477 | over keys it visits, the loop keeps exactly those not obsolete |
| `CopySpec.CleanTarget` | src/Job/CopyDictionaryJob.php:467-479 | `cleanTarget()`: a memory target's keys are listed once; a compound's are read child by child as its `keys()` generator reaches each child, after the removals made so far. The target stays well formed with the same children |
| `CopySpec.CleanChildren` | src/Compound/CompoundDictionary.php:70-77 | the clean loop over a compound's children from a given prefix on, each child's keys read on its turn; the target stays well formed with the same children |
| `CopySpec.CleanTargetDry` | src/Job/CopyDictionaryJob.php:472-474 | a dry `cleanTarget()` leaves the target as it was |
| `CopySpec.CleanConcat` | src/Job/CopyDictionaryJob.php:469-477 | cleaning two runs of keys is cleaning the first, then the second unless the first threw |
| `CopySpec.CleanPrefixedStays` | src/Compound/CompoundDictionary.php:70-77 | with a dot-free prefix, cleaning that child's keys leaves every other child and the prefixes as they were |
| `CopySpec.CleanChildrenListsOnce` | src/Compound/CompoundDictionary.php:70-77 | with dot-free prefixes, reading the children one by one cleans the same keys as a single listing of the remaining children taken at the start |
| `CopySpec.CleanTargetListsOnce` | src/Job/CopyDictionaryJob.php:467-479 | with dot-free prefixes, `cleanTarget()` is the clean loop over the `keys()` of the target as it was when the loop started |
| `CopySpec.DottedPrefixReadLazily` | src/Compound/CompoundDictionary.php:70-77 | with prefixes "x.y" and "x", the first child's "x.y.k" removes the second child's "y.k". Read child by child, `cleanTarget()` then throws nothing and leaves the obsolete "x.y.k" listed, while a listing taken at the start would make the second remove throw |
| `CopySpec.CleanLeavesNotObsolete` | src/Job/CopyDictionaryJob.php:467-479 | `cleanTarget()` that throws nothing leaves exactly the target keys the source does not make obsolete, in the target's order (both directions) |
| `CopySpec.RunValid` | src/Job/CopyDictionaryJob.php:307-330 | a run keeps the target well formed, with the same children |
| `CopySpec.DryRunChangesNothing` | src/Job/CopyDictionaryJob.php:309-313 | a dry run, configured or asked for by the argument, leaves the target as it was |
| `CopySpec.RunIdempotent` | src/Job/CopyDictionaryJob.php:307-330 | after a run that throws nothing, a second run with the same settings and argument changes nothing and throws nothing |
| `CopyJob.CopySource` | src/Job/CopyDictionaryJob.php:372-408 | `copySource` writes what `CopySpec.SourceWrite` decides and nothing else |
| `CopyJob.CopyTarget` | src/Job/CopyDictionaryJob.php:418-460 | `copyTarget` writes what `CopySpec.TargetWrite` decides and nothing else |
| `CopyJob.Written` | src/Job/CopyDictionaryJob.php:358-361 | a write through the handle on a target key shows under that key only |
| `CopyJob.Kept` | src/Job/CopyDictionaryJob.php:341 | a dictionary none of whose objects changed reads as before |
| `CopyJob.WriteTexts` | src/Job/CopyDictionaryJob.php:360-361 | the two writes of `copyKey` leave the key with `CopySpec.Reconcile`'s texts |
| `CopyJob.ReconcileKey` | src/Job/CopyDictionaryJob.php:358-361 | fetching the target value and reconciling it leaves the target as `CopySpec.CopyKey` says |
| `CopyJob.AddMissing` | src/Job/CopyDictionaryJob.php:350-357 | a key missing from the target is added (or, on a dry run, skipped) before reconciling |
| `CopyJob.CopyInto` | src/Job/CopyDictionaryJob.php:350-361 | `copyKey` for a source value with a source text leaves the target as `CopySpec.CopyKey` says |
| `CopyJob.SourceGet` | src/Job/CopyDictionaryJob.php:341 | reading the source key yields the texts `Views.Get` gives, and changes nothing |
| `CopyJob.CopyKey` | src/Job/CopyDictionaryJob.php:339-362 | `copyKey` leaves the target and its error as `CopySpec.CopyKey` says, and the source as it was |
| `CopyJob.CopyFrom` | src/Job/CopyDictionaryJob.php:342-361 | the copy of one key with the source kept as it was |
| `CopyJob.CopyStep` | src/Job/CopyDictionaryJob.php:317-322 | one pass of the copy loop: skip a filtered key, copy it otherwise, as `CopySpec.CopyKeys` takes one step |
| `CopyJob.SourceKeys` | src/Job/CopyDictionaryJob.php:317 | the source's keys, taken before the loop |
| `CopyJob.CopyAll` | src/Job/CopyDictionaryJob.php:317-322 | the copy loop leaves the target as `CopySpec.CopyKeys` says, until the first exception |
| `CopyJob.IsObsolete` | src/Job/CopyDictionaryJob.php:470 | the obsolescence test answers as `CopySpec.Obsolete` |
| `CopyJob.CleanStep` | src/Job/CopyDictionaryJob.php:469-477 | one pass of the clean loop removes the key when it is obsolete and the run is not dry |
| `CopyJob.CleanListed` | src/Job/CopyDictionaryJob.php:469-477 | the clean loop over listed keys leaves the target and error as `CopySpec.Clean` says |
| `CopyJob.CleanChild` | src/Compound/CompoundDictionary.php:72-76 | one turn of the compound's key generator: the child's keys are read now and cleaned behind its prefix, as `CopySpec.Clean` says |
| `CopyJob.CleanChildrenOf` | src/Compound/CompoundDictionary.php:70-77 | the compound branch of `cleanTarget()` leaves the target and error as `CopySpec.CleanChildren` says over all its prefixes |
| `CopyJob.CleanTarget` | src/Job/CopyDictionaryJob.php:467-479 | `cleanTarget()` leaves the target and error as `CopySpec.CleanTarget` says: memory keys listed once, compound keys read child by child |
| `CopyJob.Sync` | src/Job/CopyDictionaryJob.php:309-326 | the body of `run()` leaves the target and error as `CopySpec.Run` says for the job's settings |
| `CopyJob.CopyDictionaryJob.constructor` | src/Job/CopyDictionaryJob.php:75-125 | a new job has both policies COPY_IF_EMPTY, no removal, no dry run and no filters |
| `CopyJob.CopyDictionaryJob.SetCopySource` | src/Job/CopyDictionaryJob.php:156-161 | sets the source policy only |
| `CopyJob.CopyDictionaryJob.GetCopySource` | src/Job/CopyDictionaryJob.php:168-171 | reads the source policy |
| `CopyJob.CopyDictionaryJob.SetCopyTarget` | src/Job/CopyDictionaryJob.php:180-185 | sets the target policy only |
| `CopyJob.CopyDictionaryJob.GetCopyTarget` | src/Job/CopyDictionaryJob.php:192-195 | reads the target policy |
| `CopyJob.CopyDictionaryJob.SetRemoveObsolete` | src/Job/CopyDictionaryJob.php:204-209 | sets the removal flag only |
| `CopyJob.CopyDictionaryJob.HasRemoveObsolete` | src/Job/CopyDictionaryJob.php:216-219 | reads the removal flag |
| `CopyJob.CopyDictionaryJob.SetDryRun` | src/Job/CopyDictionaryJob.php:228-233 | sets the dry-run flag only |
| `CopyJob.CopyDictionaryJob.IsDryRun` | src/Job/CopyDictionaryJob.php:240-243 | reads the dry-run flag |
| `CopyJob.CopyDictionaryJob.AddFilter` | src/Job/CopyDictionaryJob.php:254-275 | the delimited pattern is appended when the engine accepts it; a rejected one throws InvalidArgument with the pattern and is not kept |
| `CopyJob.CopyDictionaryJob.SetFilters` | src/Job/CopyDictionaryJob.php:284-292 | the filters start empty and each expression is added in turn; the first rejected one throws, and the patterns before it stay |
| `CopyJob.CopyDictionaryJob.GetFilters` | src/Job/CopyDictionaryJob.php:299-302 | reads the stored patterns |
| `CopyJob.CopyDictionaryJob.Run` | src/Job/CopyDictionaryJob.php:307-330 | the target ends as `CopySpec.Run` says, the source is unchanged, and the settings are as before whether the run threw or not |
| `Batches.ReachedAppend` | src/Job/BatchJob.php:58-60 | the copy jobs a list of children reaches split where the list does |
| `Batches.Sequence` | src/Job/BatchJob.php:56-62 | running the jobs in turn keeps the same dictionaries, each well formed; `Batches.SequenceStep` gives its steps |
| `Batches.SequenceStep` | src/Job/BatchJob.php:58-60 | a sequence is the first job's run followed by the rest from where it left the dictionaries |
| `Batches.SequenceUntouched` | src/Job/BatchJob.php:56-62 | a dictionary no job writes keeps its contents |
| `Batches.SequenceDry` | src/Job/BatchJob.php:56-62 | a dry batch run leaves every dictionary as it was |
| `Batches.SequenceConcat` | src/Job/BatchJob.php:56-62 | running one list and then another is running them joined: a nested batch composes with its siblings |
| `Batches.DictsOf` | src/Job/BatchJob.php:58-60 | the dictionaries the copy jobs read and write |
| `Batches.RunnableDicts` | src/Job/BatchJob.php:56-62 | the dictionaries of runnable copy jobs are well formed |
| `Batches.ContentsOf` | src/Job/BatchJob.php:56-62 | the contents of a set of dictionaries, as values |
| `Batches.ShowsCovers` | src/Job/BatchJob.php:56-62 | contents that show the jobs' dictionaries cover every run's source and target |
| `Batches.Start` | src/Job/BatchJob.php:56-62 | before a run the jobs match their runs and the dictionaries' contents |
| `Batches.Finish` | src/Job/BatchJob.php:56-62 | after a run the contents held are the dictionaries' contents and the jobs make the same runs |
| `Batches.BatchJob.constructor` | src/Job/BatchJob.php:47-51 | a batch holds its jobs in order |
| `Batches.BatchJob.Run` | src/Job/BatchJob.php:56-62 | each child runs in turn with the same argument until one fails, which fails the batch; the dictionaries end as `Batches.Sequence` says, and the jobs keep their settings |
| `Batches.RunAll` | src/Job/BatchJob.php:58-60 | the loop over the copy jobs leaves the dictionaries as `Batches.Sequence` says |
| `Batches.RunOne` | src/Job/BatchJob.php:59 | one copy job's run changes its target as `CopySpec.Run` says and nothing else |
| `Batches.JobsAfter` | src/Job/BatchJob.php:58-60 | a run that changed only its target's objects leaves the jobs as they were |
| `Batches.JobsKept` | src/Job/BatchJob.php:58-60 | a run that changed only its target's objects leaves every copy job as it was |
| `Batches.DescribesAfter` | src/Job/BatchJob.php:58-60 | unchanged copy jobs make the same runs |
| `Batches.DictsAfter` | src/Job/BatchJob.php:58-60 | after one run the dictionaries hold with the target's new contents |
| `Batches.ShowsAfter` | src/Job/BatchJob.php:58-60 | after one run the contents with the target's new contents show the dictionaries |
| `Batches.OthersKept` | src/Job/BatchJob.php:58-60 | one job's run leaves every other dictionary as it was |
| `Batches.StillRunnable` | src/Job/BatchJob.php:58-60 | after one job's run the jobs can still run one after the other |
| `Batches.DisjointAfter` | src/Job/BatchJob.php:58-60 | one job's run keeps the dictionaries apart |
| `Batches.OutsideAfter` | src/Job/BatchJob.php:58-60 | one job's run keeps the copy jobs out of the dictionaries |
| `Batches.JobsValidAfter` | src/Job/BatchJob.php:58-60 | unchanged copy jobs over well-formed, separate dictionaries can each still run |
| `Configurations.Snapshot.GetJob` | src/Configuration/Configuration.php:66-73 | the registered job, or "Job not found: <name>" exactly when there is none |
| `Configurations.Snapshot.GetDictionary` | src/Configuration/Configuration.php:118-125 | the registered dictionary, or "Dictionary not found: <name>" exactly when there is none |
| `Configurations.Configuration.constructor` | src/Configuration/Configuration.php:34-44 | a new configuration has no jobs and no dictionaries |
| `Configurations.Configuration.SetJob` | src/Configuration/Configuration.php:82-85 | registers the job under its own name, in place of one of the same name; the dictionaries stay |
| `Configurations.Configuration.JobNames` | src/Configuration/Configuration.php:92-95 | each registered job name exactly once; `SetJob` states the order |
| `Configurations.Configuration.SetDictionary` | src/Configuration/Configuration.php:134-137 | registers the dictionary under its own name, in place of one of the same name; the jobs stay |
| `Configurations.Configuration.DictionaryNames` | src/Configuration/Configuration.php:144-147 | each registered dictionary name exactly once; `SetDictionary` states the order |
| `Definitions.LookupSlot` | src/Configuration/Definition/ExtendedDictionaryDefinition.php:36-39 | a registry lookup succeeds exactly for registered entries |
| `Definitions.Delegated` | src/Configuration/Definition/ReferencedJobDefinition.php:58-61 | `getDelegated()`: the configuration's dictionary (extended) or job (referenced) of the definition's name, looked up when read |
| `Definitions.GetIn` | src/Configuration/Definition/ExtendedDefinitionTrait.php:69-75 | `get()`: an own value wins over anything a delegate holds |
| `Definitions.HasIn` | src/Configuration/Definition/ExtendedDefinitionTrait.php:61-64 | `has()`: an own key is always there |
| `Definitions.Entries` | src/Configuration/Definition/Definition.php:145-148 | `getIterator()` yields the entries of `getData()`, one per key, and fails exactly when it fails |
| `Definitions.SetData` | src/Configuration/Definition/Definition.php:87-92 | `setData()` replaces the own data and keeps the kind and name |
| `Definitions.Set` | src/Configuration/Definition/Definition.php:116-121 | `set()` assigns one own entry and keeps the rest |
| `DefinitionProperties.HasAgreesWithGet` | src/Configuration/Definition/Definition.php:101-138 | `get()` succeeds exactly when `has()` is true, fails with "Key ... does not exist." exactly when it is false, and otherwise fails like it |
| `DefinitionProperties.SetThenGet` | src/Configuration/Definition/Definition.php:116-138 | what `set()` stored is read back by `get()` and `has()`, for every kind of definition |
| `DefinitionProperties.AddedKeysAlike` | src/Configuration/Definition/ExtendedDefinitionTrait.php:37-41 | which own keys the merge adds depends only on which keys the parent has |
| `DefinitionProperties.MergeLocalOrder` | src/Configuration/Definition/ExtendedDefinitionTrait.php:36-55 | `getData()` keeps the parent's key order and appends the own keys the parent lacks, in own order |
| `DefinitionProperties.MergeLocalFirstConflict` | src/Configuration/Definition/ExtendedDefinitionTrait.php:42-45 | a failing merge reports the first own key, in own order, whose array value meets a non-array parent value |
| `DefinitionProperties.MergeLocalMeaning` | src/Configuration/Definition/ExtendedDefinitionTrait.php:36-55 | the merge fails exactly on a conflict; otherwise every parent key stays, own keys are added, arrays are `array_merge`d and other own values replace the parent's |
| `DefinitionProperties.MergeStep` | src/Configuration/Definition/ExtendedDefinitionTrait.php:37-53 | one merge step leaves later keys' parent values alone |
| `DefinitionProperties.OwnKeys` | src/Configuration/Definition/Definition.php:73-76 | a definition's own keys are its key list, each once |
| `DefinitionProperties.HasMatchesData` | src/Configuration/Definition/ExtendedDefinitionTrait.php:34-64 | when `getData()` succeeds, `has()` answers exactly whether its array holds the key |
| `DefinitionProperties.PlainAccessors` | src/Configuration/Definition/DictionaryDefinition.php:36-96 | `getType()` and the language accessors read their entry or fail naming the definition; `getProvider()` falls back to the type and `getDictionary()` to the name |
| `DefinitionProperties.DecoratedReadsThrough` | src/Configuration/Definition/DecoratedDictionaryDefinition.php:44-56 | a decorated definition reads every key it does not override from the one it decorates, accessors included |
| `DefinitionProperties.ExtendedLocalFirst` | src/Configuration/Definition/ExtendedDictionaryDefinition.php:29-39 | an extended dictionary reads its own entries first and the rest from the registered dictionary of its name; an unregistered name fails with "Dictionary not found" |
| `DefinitionProperties.ReferencedJobLookup` | src/Configuration/Definition/ReferencedJobDefinition.php:47-61 | a referenced job reads through to the job registered under its name; an unregistered name fails with "Job not found" |
| `DefinitionProperties.JobDefinitionsReadOwnData` | src/Configuration/Definition/CopyJobDefinition.php:51-60 | copy and batch job definitions answer `has()` and `get()` from their own data |
| `DefinitionProperties.MergeFresh` | src/Configuration/Definition/ExtendedDefinitionTrait.php:38-41 | own entries the parent lacks are appended in order |
| `DefinitionProperties.MergeOverEmpty` | src/Configuration/Definition/ExtendedDefinitionTrait.php:34-56 | over a delegate with no data, `getData()` is the own data |
| `DefinitionProperties.LayeredOverEmptyBase` | src/Configuration/Definition/ExtendedDefinitionTrait.php:34-56 | an extended dictionary or referenced job over a registered entry with no data has exactly its own data |
| `DefinitionBuilders.RequireKeys` | src/Configuration/DefinitionBuilder/CopyJobDefinitionBuilder.php:46-50 | the required-keys check passes exactly when every key is present, and otherwise reports the first missing one |
| `DefinitionBuilders.Default` | src/Configuration/DefinitionBuilder/CompoundDictionaryDefinitionBuilder.php:75-80 | `if (!isset($a[k])) $a[k] = default`: the entry is set, kept if it was, and nothing else changes |
| `DefinitionBuilders.TypeId` | src/Configuration/DefinitionBuilder.php:72-73 | the service id for a string `type` entry is that string |
| `DefinitionBuilders.BuildDictionary` | src/Configuration/DefinitionBuilder.php:70-79 | `buildDictionary()` yields a dictionary definition or an error |
| `DefinitionBuilders.MemoryDictionaryBuild` | src/Configuration/DefinitionBuilder/MemoryDictionaryDefinitionBuilder.php:41-48 | the memory builder yields a dictionary definition or an error |
| `DefinitionBuilders.CompoundDictionaryBuild` | src/Configuration/DefinitionBuilder/CompoundDictionaryDefinitionBuilder.php:62-94 | the compound builder yields a dictionary definition or an error |
| `DefinitionBuilders.CompoundChildren` | src/Configuration/DefinitionBuilder/CompoundDictionaryDefinitionBuilder.php:70-87 | the children loop only appends to what it was given |
| `DefinitionBuilders.BuildJob` | src/Configuration/DefinitionBuilder.php:91-100 | `buildJob()` yields a copy or batch job definition or an error |
| `DefinitionBuilders.BatchJobBuild` | src/Configuration/DefinitionBuilder/BatchJobDefinitionBuilder.php:62-88 | the batch builder yields a batch job definition or an error |
| `DefinitionBuilders.BatchChildren` | src/Configuration/DefinitionBuilder/BatchJobDefinitionBuilder.php:69-83 | the children loop only appends to what it was given |
| `DefinitionBuilders.DictionaryOverrides` | src/Configuration/DefinitionBuilder/CopyJobDefinitionBuilder.php:67-78 | the two language entries move from the job data to the overrides; nothing else moves |
| `DefinitionBuilders.MoveKey` | src/Configuration/DefinitionBuilder/CopyJobDefinitionBuilder.php:70-75 | one key moves from the data to the overrides, when present |
| `DefinitionBuilders.MakeDictionary` | src/Configuration/DefinitionBuilder/CopyJobDefinitionBuilder.php:92-109 | `makeDictionary()` yields an extended dictionary definition or an error |
| `DefinitionBuilders.CopyJobBuild` | src/Configuration/DefinitionBuilder/CopyJobDefinitionBuilder.php:44-58 | the copy job builder yields a copy job definition or an error |
| `DefinitionBuilders.CompoundDictionaryDefinitionBuilder.Build` | src/Configuration/DefinitionBuilder/CompoundDictionaryDefinitionBuilder.php:62-94 | the loop over `dictionaries` gives what `CompoundDictionaryBuild` specifies |
| `DefinitionBuilders.BatchJobDefinitionBuilder.Build` | src/Configuration/DefinitionBuilder/BatchJobDefinitionBuilder.php:62-88 | the loop over `jobs` gives what `BatchJobBuild` specifies |
| `DefinitionBuilderProperties.DispatchByType` | src/Configuration/DefinitionBuilder.php:70-100 | each kind is built by the builder registered for the type in its own registry; a type missing there is "Unknown dictionary type" or "Unknown job type", even when the other registry knows it |
| `DefinitionBuilderProperties.MissingTypeIsEmptyId` | src/Configuration/DefinitionBuilder.php:70-100 | data without a type looks up the empty service id |
| `DefinitionBuilderProperties.MemoryDictionaryBuildMeaning` | src/Configuration/DefinitionBuilder/MemoryDictionaryDefinitionBuilder.php:41-48 | succeeds exactly for a string name; the definition has that name, `type` "memory", and every other entry |
| `DefinitionBuilderProperties.CopyJobRequiredKeys` | src/Configuration/DefinitionBuilder/CopyJobDefinitionBuilder.php:46-50 | the first missing key of name, source, target is reported |
| `DefinitionBuilderProperties.CompoundRequiredKeys` | src/Configuration/DefinitionBuilder/CompoundDictionaryDefinitionBuilder.php:64-68 | the first missing key of name, dictionaries is reported |
| `DefinitionBuilderProperties.BatchRequiredKeys` | src/Configuration/DefinitionBuilder/BatchJobDefinitionBuilder.php:64-68 | the first missing key of name, jobs is reported |
| `DefinitionBuilderProperties.MakeDictionaryMeaning` | src/Configuration/DefinitionBuilder/CopyJobDefinitionBuilder.php:92-109 | a name becomes an extended dictionary with the overrides; an inline array with a name becomes one whose data is the overrides merged with the array, without `name`; without a name it fails with its path |
| `DefinitionBuilderProperties.CopyJobBuildSteps` | src/Configuration/DefinitionBuilder/CopyJobDefinitionBuilder.php:44-58 | the copy builder is the overrides, then the source, then the target, then the definition |
| `DefinitionBuilderProperties.CopyJobSourceFirst` | src/Configuration/DefinitionBuilder/CopyJobDefinitionBuilder.php:52-56 | a bad source is reported before the target is looked at |
| `DefinitionBuilderProperties.CopyJobBuildMeaning` | src/Configuration/DefinitionBuilder/CopyJobDefinitionBuilder.php:44-58 | a built copy job has the name, the two dictionaries `makeDictionary` makes, and the input data without the five consumed keys |
| `DefinitionBuilderProperties.CollectMeaning` | src/Configuration/DefinitionBuilder/BatchJobDefinitionBuilder.php:69-83 | the loop succeeds exactly when every child does, keeping their order, and otherwise reports the first failure |
| `DefinitionBuilderProperties.CompoundChildrenCollect` | src/Configuration/DefinitionBuilder/CompoundDictionaryDefinitionBuilder.php:70-87 | the compound children loop is that loop over the children built one by one |
| `DefinitionBuilderProperties.CompoundChildMeaning` | src/Configuration/DefinitionBuilder/CompoundDictionaryDefinitionBuilder.php:71-86 | a string child is the registered dictionary of that name with its key as prefix; an array child goes to `buildDictionary()` with name and prefix defaulted to its key |
| `DefinitionBuilderProperties.CompoundDictionaryBuildMeaning` | src/Configuration/DefinitionBuilder/CompoundDictionaryDefinitionBuilder.php:62-94 | the compound has the string name, `type` "compound" and every entry but name, type and dictionaries |
| `DefinitionBuilderProperties.CompoundDictionaryChildrenInOrder` | src/Configuration/DefinitionBuilder/CompoundDictionaryDefinitionBuilder.php:70-91 | its `dictionaries` entry lists the children built from the input entries, in their order |
| `DefinitionBuilderProperties.CompoundDictionaryBuildSucceeds` | src/Configuration/DefinitionBuilder/CompoundDictionaryDefinitionBuilder.php:70-87 | the compound builder succeeds exactly when every child is built |
| `DefinitionBuilderProperties.CompoundDictionaryBuildFirstError` | src/Configuration/DefinitionBuilder/CompoundDictionaryDefinitionBuilder.php:70-87 | a failing compound build reports the first failing child's error |
| `DefinitionBuilderProperties.CompoundResultMeaning` | src/Configuration/DefinitionBuilder/CompoundDictionaryDefinitionBuilder.php:88-93 | the compound definition holds the built children as a list, numbered from 0 |
| `DefinitionBuilderProperties.BatchChildrenCollect` | src/Configuration/DefinitionBuilder/BatchJobDefinitionBuilder.php:69-83 | the batch children loop is that loop over the children built one by one |
| `DefinitionBuilderProperties.BatchChildMeaning` | src/Configuration/DefinitionBuilder/BatchJobDefinitionBuilder.php:70-82 | a string child references the job of that name; an array child without a name is named `<batch>.<index>`; one with a name goes as it is |
| `DefinitionBuilderProperties.BatchJobBuildMeaning` | src/Configuration/DefinitionBuilder/BatchJobDefinitionBuilder.php:62-88 | the batch has the string name, the children built from `jobs` in order, and the data without name and jobs |
| `BuildPlans.KnowsRegistered` | src/Memory/MemoryDictionaryProvider.php:76-93 | a provider lookup succeeds exactly for a registered name with the languages asked for |
| `BuildPlans.ChooseBuilder` | src/Job/JobFactory.php:178-185 | always names a registered builder: the type's own one when registered, otherwise "default"; with neither registered it fails with the locator's service-not-found error for "default", and an unreadable type fails with the type's error |
| `BuildPlans.ProviderCheck` | src/DictionaryBuilder/DefaultDictionaryBuilder.php:105-120 | a provider check that passes yields one of the registered providers |
| `BuildPlans.LookupOf` | src/DictionaryBuilder/DefaultDictionaryBuilder.php:54-58 | the provider's arguments, read in the builder's order |
| `BuildPlans.Open` | src/DictionaryBuilder/DefaultDictionaryBuilder.php:79-93 | a read finds a registered dictionary or fails; a write opens one and otherwise creates it, which registers the name with these languages |
| `BuildPlans.DefaultLookup` | src/DictionaryBuilder/DefaultDictionaryBuilder.php:44-60 | what the default builder reads from the definition before the provider |
| `BuildPlans.DefaultPlan` | src/DictionaryBuilder/DefaultDictionaryBuilder.php:44-94 | the default builder's result and the provider registrations after it |
| `BuildPlans.DecoratedLanguages` | src/DictionaryBuilder/CompoundDictionaryBuilder.php:48-56 | a decorated child reads the compound's languages, whatever its own say |
| `BuildPlans.ChildHead` | src/DictionaryBuilder/CompoundDictionaryBuilder.php:52-56 | a child's prefix and the child decorated with the compound's languages |
| `BuildPlans.ChildLookup` | src/DictionaryBuilder/CompoundDictionaryBuilder.php:52-57 | what the compound builder learns of a child before asking a provider; the lookup speaks the compound's languages |
| `BuildPlans.ChildLookups` | src/DictionaryBuilder/CompoundDictionaryBuilder.php:52-58 | the lookups of all children, one each |
| `BuildPlans.ChildBuilt` | src/DictionaryBuilder/CompoundDictionaryBuilder.php:56 | a built child's lookup is registered with its provider |
| `BuildPlans.StepOf` | src/Compound/CompoundDictionary.php:130-150 | a built child is added only with a string prefix not yet taken and the compound's languages |
| `BuildPlans.ChildStep` | src/DictionaryBuilder/CompoundDictionaryBuilder.php:54-57 | a readable build registers nothing with any provider |
| `BuildPlans.ChildStepSettles` | src/DictionaryBuilder/CompoundDictionaryBuilder.php:54-57 | a step keeps every registration and adds its registered child |
| `BuildPlans.ChildrenPlan` | src/DictionaryBuilder/CompoundDictionaryBuilder.php:52-58 | a readable build registers nothing, and the children added extend those already added |
| `BuildPlans.ChildrenPlanSettles` | src/DictionaryBuilder/CompoundDictionaryBuilder.php:52-58 | the children added keep every registration and are all registered |
| `BuildPlans.SettledSnoc` | src/Compound/CompoundDictionary.php:128-153 | adding a registered child of a new prefix in the compound's languages keeps the children settled |
| `BuildPlans.CompoundPlan` | src/DictionaryBuilder/CompoundDictionaryBuilder.php:45-91 | the built compound's children have distinct prefixes, the compound's languages, and registered dictionaries |
| `BuildPlans.DictPlan` | src/Job/JobFactory.php:148-169 | every provider dictionary a built dictionary is made of is registered afterwards |
| `BuildPlans.LeadingStrings` | src/Job/CopyDictionaryJob.php:284-292 | the strings before the first non-string filter value |
| `BuildPlans.FirstRejected` | src/Job/CopyDictionaryJob.php:262-270 | the first expression whose pattern the engine rejects, if any |
| `BuildPlans.Unwrapped` | src/JobBuilder/CopyJobBuilder.php:48-50 | anything but a reference is kept as it is |
| `BuildPlans.KeysOf` | src/JobBuilder/BatchJobBuilder.php:57-59 | the keys `$jobs[$name] = ...` leaves: every listed name, each once, never more than were listed |
| `BuildPlanProperties.CopyFlagAccepts` | src/JobBuilder/CopyJobBuilder.php:89-105 | the copy flag accepts exactly seven values, each read as one of the three policies |
| `BuildPlanProperties.CopyFlagRoundTrip` | src/JobBuilder/CopyJobBuilder.php:89-105 | each policy's word reads back as that policy |
| `BuildPlanProperties.BoolishAgreesWithCopyFlag` | src/JobBuilder/CopyJobBuilder.php:116-130 | the remove-obsolete flag accepts what the copy flag accepts but "if-empty", and is true exactly where the copy flag reads COPY |
| `BuildPlanProperties.FilterListOutcome` | src/Job/CopyDictionaryJob.php:284-292 | adding the filters one by one fails at the first non-string or rejected expression and keeps the patterns before it |
| `BuildPlanProperties.BatchChildrenKeys` | src/JobBuilder/BatchJobBuilder.php:57-59 | each built job is stored under its name: the keys are the listed names where each first occurs |
| `BuildPlanProperties.KeysOfRepeat` | src/JobBuilder/BatchJobBuilder.php:57-59 | two listed jobs of the same name leave fewer keys than jobs |
| `BuildPlanProperties.BatchKeys` | src/JobBuilder/BatchJobBuilder.php:56-61 | a built batch holds one job per distinct listed name, in order of first mention; a repeated name gives fewer jobs than listed |
| `BuildPlanProperties.ReferenceIgnoresOwnEntries` | src/JobBuilder/CopyJobBuilder.php:48-50 | a builder handed a reference builds the configured job of that name; the reference's own entries play no part |
| `BuildPlanProperties.JobFuel` | src/Job/JobFactory.php:125-139 | more nesting depth changes nothing about a build that did not run out of it |
| `BuildPlanProperties.BatchFuel` | src/JobBuilder/BatchJobBuilder.php:46-62 | the same for a batch build |
| `BuildPlanProperties.BatchChildrenFuel` | src/JobBuilder/BatchJobBuilder.php:57-59 | the same for the batch's loop |
| `BuildPlanProperties.NoDefaultBuilder` | src/Job/JobFactory.php:178-185 | without a "default" dictionary builder, a dictionary builds only when its type names a registered builder; any other type ends with the service-not-found error for "default" and no provider changed |
| `BuildPlanProperties.UnknownJobType` | src/Job/JobFactory.php:125-129 | `createJob()` builds only a job whose type names a registered job builder; an unregistered type fails with `Unknown job type "<type>"` and no provider changed |
| `BuildPlanProperties.JobNotConfigured` | src/Job/JobFactory.php:107-111 | `createJobByName()` builds only a configured job; a missing one fails with `Job "<name>" not found in configuration` |
| `BuildPlanProperties.EmptyFactoryHasNoJob` | tests/Job/JobFactoryTest.php:67-80 | with empty locators and no jobs, `createJobByName('job')` fails with `Job "job" not found in configuration` |
| `BuildPlanProperties.EmptyFactoryUnknownType` | tests/Job/JobFactoryTest.php:87-103 | with empty locators and job "job" of type "test", `createJobByName('job')` fails with `Unknown job type "test"` |
| `JobFactories.CopyRealizes` | src/JobBuilder/CopyJobBuilder.php:56-77 | a copy job with the planned settings over dictionaries laid out as planned realizes the plan |
| `JobFactories.CollectedPut` | src/JobBuilder/BatchJobBuilder.php:58 | storing a built job under its name keeps the collected jobs as planned |
| `JobFactories.CollectedKept` | src/JobBuilder/BatchJobBuilder.php:57-59 | the collected jobs stay as planned while none of their objects changes |
| `JobFactories.BatchRealizes` | src/JobBuilder/BatchJobBuilder.php:61 | a batch over the collected jobs realizes the planned batch |
| `JobFactories.JobFactory.constructor` | src/Job/JobFactory.php:76-86 | a factory holds its builders, configuration and services |
| `JobFactories.JobFactory.GetJobNames` | src/Job/JobFactory.php:93-96 | the configuration's job names, in their order |
| `JobFactories.JobFactory.BuildDefault` | src/DictionaryBuilder/DefaultDictionaryBuilder.php:44-60 | the default builder's readable dictionary is the one `BuildPlans.DefaultPlan` plans, and no provider changes |
| `JobFactories.JobFactory.OpenReadable` | src/Memory/MemoryDictionaryProvider.php:76-93 | the provider's registered dictionary of that name and languages, if it has one |
| `JobFactories.JobFactory.OpenWritable` | src/DictionaryBuilder/DefaultDictionaryBuilder.php:79-93 | the provider's dictionary for write, or a new one it registers |
| `JobFactories.JobFactory.ShapesAfter` | src/DictionaryBuilder/DefaultDictionaryBuilder.php:86-92 | only the provider that created a dictionary changes its registrations |
| `JobFactories.JobFactory.BuildDefaultWritable` | src/DictionaryBuilder/DefaultDictionaryBuilder.php:70-94 | the default builder's writable dictionary and the providers' registrations afterwards are as planned |
| `JobFactories.JobFactory.BuildDefaultEither` | src/DictionaryBuilder/DefaultDictionaryBuilder.php:44-94 | the readable or writable default build, as planned |
| `JobFactories.JobFactory.CreateChild` | src/DictionaryBuilder/CompoundDictionaryBuilder.php:54-57 | a child's prefix and the dictionary built for it, as planned |
| `JobFactories.JobFactory.AddBuilt` | src/DictionaryBuilder/CompoundDictionaryBuilder.php:54-57 | the built child is added under its prefix, as planned |
| `JobFactories.JobFactory.BuildCompound` | src/DictionaryBuilder/CompoundDictionaryBuilder.php:45-91 | a new compound in the definition's languages with each listed child added under its prefix, in order, as `BuildPlans.CompoundPlan` plans |
| `JobFactories.JobFactory.AddChildren` | src/DictionaryBuilder/CompoundDictionaryBuilder.php:52-58 | the `foreach` adds the listed children in order and stops at the first failure, with the result, error, prefixes and provider state `BuildPlans.ChildrenPlan` gives |
| `JobFactories.JobFactory.AddChild` | src/DictionaryBuilder/CompoundDictionaryBuilder.php:53-57 | one pass of the loop advances the plan by one child |
| `JobFactories.JobFactory.BuildDictionary` | src/Job/JobFactory.php:148-169 | the dictionary the chosen builder builds, as `BuildPlans.DictPlan` plans |
| `JobFactories.JobFactory.CreateDictionary` | src/Job/JobFactory.php:148-154 | `createDictionary()`: the readable dictionary as planned |
| `JobFactories.JobFactory.CreateWritableDictionary` | src/Job/JobFactory.php:163-169 | `createWritableDictionary()`: the writable dictionary as planned |
| `JobFactories.JobFactory.BuildCopy` | src/JobBuilder/CopyJobBuilder.php:46-78 | the copy job builder's job, or its error, as `BuildPlans.CopyPlan` plans |
| `JobFactories.JobFactory.BuildCopyJob` | src/JobBuilder/CopyJobBuilder.php:56-77 | a new copy job over the two dictionaries with the definition's settings |
| `JobFactories.JobFactory.NewCopyJob` | src/JobBuilder/CopyJobBuilder.php:56-77 | the new job is laid out as the copy plan with the planned settings |
| `JobFactories.JobFactory.BuildCopyDictionaries` | src/JobBuilder/CopyJobBuilder.php:56-59 | the source dictionary, then the writable target, as planned |
| `JobFactories.JobFactory.ApplySettings` | src/JobBuilder/CopyJobBuilder.php:61-75 | each setting the definition has is converted and applied in order, and absent ones keep their defaults |
| `JobFactories.JobFactory.ApplyEntries` | src/JobBuilder/CopyJobBuilder.php:61-75 | the entries applied in order; the first that fails ends the build |
| `JobFactories.JobFactory.ApplyFilters` | src/JobBuilder/CopyJobBuilder.php:73-75 | the filter value must be an array; its elements are added in turn and the first bad one ends it |
| `JobFactories.JobFactory.BuildJob` | src/Job/JobFactory.php:125-139 | `createJob()`: the registered builder's job, or "Unknown job type", as `BuildPlans.JobPlan` plans |
| `JobFactories.JobFactory.BuildWith` | src/Job/JobFactory.php:131-133 | the registered job builder at work on the definition |
| `JobFactories.JobFactory.BuildBatch` | src/JobBuilder/BatchJobBuilder.php:46-62 | the batch job builder's job, or its error, as `BuildPlans.BatchPlan` plans |
| `JobFactories.JobFactory.BuildBatchOf` | src/JobBuilder/BatchJobBuilder.php:56-61 | the batch's jobs built, then a batch over them |
| `JobFactories.JobFactory.BuildChildren` | src/JobBuilder/BatchJobBuilder.php:57-59 | each listed job built in turn and stored under its name, a later one replacing an earlier one of the same name |
| `JobFactories.JobFactory.BuildNext` | src/JobBuilder/BatchJobBuilder.php:58 | one pass of the loop advances the batch plan by one job |
| `JobFactories.JobFactory.CreateJob` | src/Job/JobFactory.php:125-139 | the job the definition's builder builds, as planned |
| `JobFactories.JobFactory.CreateJobByName` | src/Job/JobFactory.php:107-114 | the configured job of that name, "not found in configuration" when there is none |
| `SelfReference.GetAsWritten` | src/Configuration/Definition/ExtendedDefinitionTrait.php:69-75 | `get()` as written: an own value wins, otherwise the delegate's `get()`, with no check for a repeated lookup |
| `SelfReference.SelfExtendedRunsOut` | src/Configuration/Definition/ExtendedDictionaryDefinition.php:36-39 | as written, `get()` on an extended dictionary registered as itself exhausts every bound on the lookups |
| `SelfReference.SelfExtendedIsCycle` | src/Configuration/Definition/ExtendedDefinitionTrait.php:61-75 | the model's `get()` and `has()` report the same definition as DefinitionCycle |
| `SelfReference.AsWrittenAgreesWithoutCycle` | src/Configuration/Definition/ExtendedDefinitionTrait.php:69-75 | wherever the model finds no cycle, `get()` as written gives the same answer |
| `SelfReference.SelfReferenceType` | src/Configuration/Definition/ReferencedJobDefinition.php:58-61 | a reference to a batch reads its type from that batch |
| `SelfReference.SelfReferenceRunsOut` | src/JobBuilder/BatchJobBuilder.php:48-59 | building a reference to a batch that lists that reference exhausts every nesting bound |
| `SelfReference.SelfBatchRunsOut` | src/Job/JobFactory.php:107-139 | `createJobByName()` of such a batch exhausts every nesting bound too |

## Left out

- Logging is left out. This covers the logger, the log levels of a run, `setLogger` and the factory handing its logger to each job (src/Job/JobFactory.php:134-136).
- `preg_match` is the `CopyJob.Pcre` parameter. It says which patterns it rejects (with the message) and which keys a pattern matches; PCRE itself is not modelled.
- BuildPlans.ProviderCheck: a provider's capability is only the two flags of `BuildPlans.ProviderService`, for readable and writable dictionaries. Only memory providers are modelled, so a provider is a `MemoryDictionaryProvider` with those flags.
- The dependency injection wiring that builds the factory and its service locators is not part of this model (src/Job/JobFactoryFactory.php). The locators are maps from service id to a builder datatype. Any locator, including an empty one, is accepted. The locator's service-not-found exception is `Errors.ServiceNotFound` with the missing id. Its message text belongs to the container library and is not modelled.
- BuildPlans.LookupOf: the custom data (`getData()`) passed to the provider is read, so its errors count, but the memory provider ignores it.
- Memory.MemoryDictionary.Create: the "Invalid translation array: " message leaves out the `var_export` of the offending entry (src/Memory/MemoryDictionary.php:174), since PHP's export format is not modelled.
- Definitions.GetIn: a chain of registry lookups that returns to an entry it already went through is reported as `DefinitionCycle`. PHP recurses without end there (see Findings). The same holds for `Definitions.HasIn` and `Definitions.GetDataIn`.
- BuildPlans.JobPlan: the nesting of batches is bounded by a `fuel` parameter and reported as `DepthExceeded` when it runs out. A configuration whose batches refer to themselves makes PHP recurse without end; `BuildPlanProperties.JobFuel` shows that more fuel never changes a build that did not run out.
- JobFactories.JobFactory.BuildCompound: a compound's children are memory dictionaries only. A child whose builder is the compound builder fails with `NestedCompound`, where PHP builds the nested compound and adds it.
- Compound.CompoundDictionary.AddDictionary: takes only memory dictionaries as children, for the same reason.
- Memory.MemoryDictionary.AddItem: PHP turns a decimal-integer string key such as "12" into an integer key. Under strict types that makes `addItem`, `copyKey` and the provider's name comparison fail. The model keeps "12" a string key, so those TypeErrors and the failed lookup are not modelled. This applies to `CopyJob.CopyKey` and `MemoryProviders.MemoryDictionaryProvider.GetDictionary` as well.
- Compound.CompoundDictionary.Add: requires that no child instance is registered under two prefixes. PHP allows that, and a write would then show under both prefixes.
- Compound.CompoundDictionary.Remove: requires the same, for the same reason.
- CopyJob.CopyDictionaryJob.Run: requires the source and target to share no object. `run()` also accepts a source that is the target, or that shares a child with it; those runs are not modelled.
- Batches.BatchJob.Run: requires each copy job to be runnable on its own, different dictionaries to share no object, and no dictionary to hold a job. Jobs may share whole dictionaries, so chained jobs and a shared target are covered. A compound used by one job and one of its own children used by another is not.
- Batches.BatchJob.Run: a batch is flattened into its copy jobs, depth first, when it is built. A nested batch runs as its copy jobs in place; `Batches.SequenceConcat` shows that this composes like the nested run.
- CopyJob.CopyDictionaryJob.Run: the dry-run override of the argument is a local value, not an assignment restored in `finally`. The observable result is the same: the settings afterwards are the ones before, whether the run threw or not.
- Definitions.Set: `set()` and `setData()` are functions that return the updated definition value. A definition shared by the configuration and a decorated or child definition therefore does not see a later `set()` made through the other holder.
- Definitions.SetData: modelled as a function for the same reason, so the same aliasing is lost.
- CopyJob.Delimited: strings are sequences of Unicode characters, and PHP compares the bytes of their UTF-8 encoding. The model reads the end bytes off the end characters (`CopyJob.Utf8Lead`, `CopyJob.Utf8Final`), so a byte string that is not valid UTF-8 is not modelled. An empty expression is kept as written: PHP reads `$expression[0]` out of range there, with a warning, and gets "", which equals `substr("", -1)`.
- CopySpec.CleanLeavesNotObsolete: stated for targets whose compound prefixes hold no dot. With a dotted prefix, a key listed from one child can route to another child's entry, so `remove` deletes that entry and an obsolete key can stay listed. `CopySpec.DottedPrefixReadLazily` shows such a run; it throws nothing, as in PHP.
- CopySpec.RunIdempotent: stated under the same condition when obsolete keys are removed, for the same reason.
- The exception classes are one `Error` datatype. The messages keep the text they are built from; exception codes and chained previous exceptions are left out.
- Configuration loading from files is not part of this model (src/Configuration/AbstractConfigurationLoader.php).

## Findings

| source | as written | input that shows it | evidently intended | confidence | as-written member | corrected member |
|---|---|---|---|---|---|---|
| src/Configuration/Definition/ExtendedDefinitionTrait.php:69-75 | `get()` falls back to `getDelegated()->get($key)`, and `getDelegated()` looks up the configuration's dictionary of the definition's own name, with no check for an entry already visited | an extended dictionary definition "x" registered as dictionary "x", asked for a key it does not hold: `get()` calls itself with the same arguments until the stack is exhausted | a lookup that comes back to an entry it already visited fails with an error naming the definition | medium, not executed | `SelfReference.GetAsWritten`, `SelfReference.SelfExtendedRunsOut` | `Definitions.GetIn`, `SelfReference.SelfExtendedIsCycle`, `SelfReference.AsWrittenAgreesWithoutCycle` |
