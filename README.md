# SqlDatabaseDump, modelled in Dafny

SqlDatabaseDump is a command-line tool that scripts every object of one SQL
Server database into its own text file in an output directory. The model
covers the tool's bookkeeping around the database calls:

- **Descriptors and file names** (`ScriptableObjects`, `LegacyObjects`). Each
  object to dump is described by a descriptor, and the descriptor's `FullName`
  is its file name. The name is the override if there is one; otherwise it is
  `schema.name.ext`, or `name.ext` when there is no schema. A backslash in a
  name becomes a dash. The repository has two variants of the descriptor:
  - `ScriptableObject`, whose settings file is `-Settings.TXT`;
  - the older `DbObjectWrapper`, whose settings file is `-settings.TXT`.

  Each variant is its own module.
- **Category enumerators** (`Categories`, `LegacyObjects.DbObjectList`,
  `ObjectList.DbObjectList`).
  - Filtering: each category filters its collection. It drops system objects,
    drops fixed roles, or keeps everything.
  - Descriptors: it builds one descriptor per kept object, in collection order,
    with the category's extension.
  - Counters: it raises the queue and max counters by one per appended item.
  - Cancellation: it checks the flag before every object.
  - Triggers: the newer list files each table's triggers right after the table.
- **Counters and options** (`Counter`, `SharedState`).
  - `SafeCounter` is a 32-bit counter with wrap-around. Its operations model
    `Interlocked` and return the values the source promises.
  - `Shared` holds the three scripting profiles, as sets of option flags, and
    two toggles that change them in place.
- **One category's dump** (`Dumping`).
  - `DumpDb.Run` looks the database up, enumerates the category, and writes
    each item with `WriteObject`.
  - `WriteObject` checks cancellation first. It refuses an existing file when
    replacement is off, and then also requests cancellation. An empty script
    writes nothing. A script is written as three `WriteLine` calls per
    fragment ("fragment", "GO", ""), and the written counter then goes up.
  - The queue is decremented once for every call that passes the cancellation
    check.
  - An object SMO fails to script gets a placeholder file, and the loop goes on.
  - The whole effect is specified by the functions `WriteStep`, `ItemStep`,
    `DumpItems` and `RunSpec` over a `DumpState`: files, the cancellation
    flag, and the three counter totals. The class's methods are proved to have
    exactly that effect.
- **The program** (`Program`).
  - `BuildConfig` validates the configuration, and `ParseOrDefault` reads the
    parallelism.
  - The dump runs one category after another, or in parallel.
  - When a parallel run fails, the catch block shows the other significant
    exceptions and rethrows the first one.
  - `WriteAnyErrors` writes the sorted error report.

The SMO object model is the datatypes in `Smo`. A catalog object is a record
of flags, a database is a record of collections, and a server is a map from
database names to databases. Scripting an object is a parameter: a function
from the object and the option set to `Lines(fragments)`, `FailedOp` or
`OtherError`. The file system maps each path to the strings written to it,
one per `WriteLine` call. The cancellation
token is a set-once flag. Exceptions are values returned in `thrown`.

The code also fixes these behaviours, and the model has them:

- An empty script writes no file.
- The placeholder is written whether or not errors are skipped.
- Nothing in the code adds names to `Shared.ErrorObjects`.
- Categories run in the enum's declaration order.

## Model

| member | source | states |
|---|---|---|
| Int32.Wrap | SafeCounter.cs:20 | the result is a 32-bit value congruent to the input modulo 2^32; a value already in range is unchanged |
| Int32.WrapAdd | SafeCounter.cs:20-38 | wrapping an intermediate result does not change the wrapped sum, so successive Interlocked updates agree with one update by the total |
| Int32.IncrementDecrementRestores | SafeCounter.cs:20-26 | an increment followed by a decrement restores every 32-bit value, including at MaxValue |
| Int32.TryParse | Program.cs:177 | a successful parse always yields a 32-bit value |
| Int32.TryParseToDecimal | Program.cs:177 | TryParse reads back every 32-bit value written in decimal |
| Int32.TryParseRejects | Program.cs:177 | the empty string and a single non-digit, non-space character are not numbers |
| Int32.TryParseAcceptsPaddedPlus | Program.cs:177 | surrounding white space and a leading plus sign are accepted |
| Text.Replace | ScriptableObject.cs:63 | same length; each character equal to the old one becomes the new one, every other character is kept |
| Text.ReplaceRemoves | ScriptableObject.cs:63 | after the replacement no backslash remains in the name |
| Text.ReplaceIdempotent | ScriptableObject.cs:63 | replacing a second time changes nothing |
| Text.ReplaceAppend | DbObjectList.cs:50 | replacing in a concatenation replaces in each part, so the "table-trigger" name is cleaned part by part |
| Text.LessOrEqualTotal | Program.cs:162 | any two names are ordered one way or the other |
| Text.LessOrEqualTransitive | Program.cs:162 | the order on names is transitive |
| Text.LessOrEqualAntisymmetric | Program.cs:162 | two names ordered both ways are equal |
| Text.Insert | Program.cs:162 | inserting into an ascending list keeps it ascending and adds exactly that name |
| Text.Sort | Program.cs:162 | the sorted names are ascending and a permutation of the input |
| Categories.DeclarationOrderIsComplete | ScriptableObject.cs:8-22 | the declaration order lists every one of the twelve categories exactly once |
| Categories.Retained | DbObjectList.cs:56-143 | the retained objects are all kept by the filter and drawn from the collection |
| Categories.RetainedExactly | DbObjectWrapper.cs:112-212 | an object is retained exactly when it is in the collection and the filter keeps it (both directions) |
| Categories.RetainedAppend | DbObjectWrapper.cs:112-212 | filtering a concatenation filters each part, so survivors keep their collection order |
| Categories.RetainedKeepAll | DbObjectWrapper.cs:177-258 | the unfiltered categories keep every object, in order |
| Counter.SafeCounter.constructor | SafeCounter.cs:9 | a new counter holds its start value, 0 by default |
| Counter.SafeCounter.Value | SafeCounter.cs:14 | Value reads the 32-bit counter without changing it |
| Counter.SafeCounter.Increment | SafeCounter.cs:20 | the counter becomes the wrapped old value plus one, and that new value is returned |
| Counter.SafeCounter.Decrement | SafeCounter.cs:26 | the counter becomes the wrapped old value minus one, and that new value is returned |
| Counter.SafeCounter.Reset | SafeCounter.cs:32 | the counter becomes the new value (0 by default) and the replaced value is returned |
| Counter.SafeCounter.Add | SafeCounter.cs:38 | the counter becomes the wrapped old value plus the argument, and that new value is returned |
| Counter.IncrementThenDecrement | SafeCounter.cs:20-26 | Increment then Decrement leaves the counter as it was |
| ScriptableObjects.General | ScriptableObject.cs:59-65 | the general constructor keeps script, schema and extension, leaves no override, and stores the name with every backslash turned into a dash |
| ScriptableObjects.DatabaseSettings | ScriptableObject.cs:70-77 | the settings descriptor's file name is databaseName + "-Settings.TXT", with no schema and the fixed name "database settings" |
| ScriptableObjects.FullNameRoundTrip | ScriptableObject.cs:40-54 | without an override, and with dot-free schema, name and extension, the file name splits at its dots back into exactly that schema (or none), name and extension |
| ScriptableObjects.OverrideIgnoresFields | ScriptableObject.cs:44-45 | an override decides the file name whatever the schema, name and extension hold |
| ScriptableObjects.GeneralEndsWithExtension | ScriptableObject.cs:40-65 | a general object's file name always ends with "." and its extension |
| ScriptableObjects.GeneralHasNoBackslash | ScriptableObject.cs:40-65 | with a schema and extension free of backslashes, a general file name has none |
| ScriptableObjects.GeneralFullNameInjective | ScriptableObject.cs:40-65 | within one category, dot-free schemas make distinct (schema, cleaned name) pairs give distinct file names |
| ScriptableObjects.SettingsNameIsDistinct | ScriptableObject.cs:40-77 | the settings file never collides with an object file whose extension is not TXT, has at least three characters and no dot |
| LegacyObjects.General | DbObjectWrapper.cs:64-70 | the older constructor keeps script, schema and extension, leaves no override, and replaces backslashes in the name by dashes |
| LegacyObjects.DatabaseSettings | DbObjectWrapper.cs:75-82 | the older settings descriptor's file name is databaseName + "-settings.TXT" |
| LegacyObjects.FullNameRoundTrip | DbObjectWrapper.cs:45-59 | the older FullName follows the same rule, so it too splits back into schema, name and extension |
| LegacyObjects.SettingsNamesDiffer | DbObjectWrapper.cs:78 | the two variants name the settings file differently (lower-case versus upper-case s) |
| LegacyObjects.Descriptors | DbObjectWrapper.cs:112-258 | a category yields one descriptor per retained object |
| LegacyObjects.DescriptorsStep | DbObjectWrapper.cs:112-258 | one more object appends its descriptor exactly when the category keeps it |
| LegacyObjects.DescriptorsOfRetained | DbObjectWrapper.cs:112-258 | the i-th descriptor is that of the i-th retained object: source order is kept |
| LegacyObjects.DescriptorsShape | DbObjectWrapper.cs:120-256 | every descriptor carries its category's extension, no override, and a schema exactly unless the category is roles, database triggers or schemas |
| LegacyObjects.DbObjectList.constructor | DbObjectWrapper.cs:89-93 | a new list is empty and uses the counters and token handed to it |
| LegacyObjects.DbObjectList.UpdateCounters | DbObjectWrapper.cs:100-104 | both the queue and the max counter rise by one |
| LegacyObjects.DbObjectList.AddDatabase | DbObjectWrapper.cs:106-110 | appends the settings descriptor and raises both counters by one |
| LegacyObjects.DbObjectList.Enumerate | DbObjectWrapper.cs:112-123 | the enumerator loop: throws only if cancellation was requested and the collection is non-empty; otherwise appends exactly the category's descriptors; both counters rise by the number appended |
| LegacyObjects.DbObjectList.AddTables | DbObjectWrapper.cs:112-123 | appends the descriptors of the non-system tables (TAB), counters rise by the number appended |
| LegacyObjects.DbObjectList.AddViews | DbObjectWrapper.cs:125-136 | appends the descriptors of the non-system views (VIW) |
| LegacyObjects.DbObjectList.AddStoredProcedures | DbObjectWrapper.cs:138-149 | appends the descriptors of the non-system procedures (PRC) |
| LegacyObjects.DbObjectList.AddUserDefinedFunctions | DbObjectWrapper.cs:151-162 | appends the descriptors of the non-system functions (UDF) |
| LegacyObjects.DbObjectList.AddRoles | DbObjectWrapper.cs:164-175 | appends the descriptors of the roles that are not fixed roles (ROLE, no schema) |
| LegacyObjects.DbObjectList.AddRules | DbObjectWrapper.cs:177-186 | appends a descriptor for every rule (RULE) |
| LegacyObjects.DbObjectList.AddDatabaseTriggers | DbObjectWrapper.cs:188-199 | appends the descriptors of the non-system database triggers (TRIG, no schema) |
| LegacyObjects.DbObjectList.AddSchemas | DbObjectWrapper.cs:201-212 | appends the descriptors of the non-system schemas (SCH, no schema) |
| LegacyObjects.DbObjectList.AddUserDefinedDataTypes | DbObjectWrapper.cs:214-224 | appends a descriptor for every user-defined data type (UDDT) |
| LegacyObjects.DbObjectList.AddUserDefinedTypes | DbObjectWrapper.cs:226-236 | appends a descriptor for every user-defined type (TYPE) |
| LegacyObjects.DbObjectList.AddSequences | DbObjectWrapper.cs:238-247 | appends a descriptor for every sequence (SEQ) |
| LegacyObjects.DbObjectList.AddSynonyms | DbObjectWrapper.cs:249-258 | appends a descriptor for every synonym (SYNO) |
| ObjectList.Descriptors | DbObjectList.cs:56-189 | a category yields one descriptor per retained object |
| ObjectList.DescriptorsStep | DbObjectList.cs:56-189 | one more object appends its descriptor exactly when the category keeps it |
| ObjectList.DescriptorsOfRetained | DbObjectList.cs:56-189 | the i-th descriptor is that of the i-th retained object |
| ObjectList.TriggerDescriptors | DbObjectList.cs:43-51 | a table yields one trigger descriptor per trigger |
| ObjectList.TriggerDescriptorsAt | DbObjectList.cs:43-51 | the j-th trigger descriptor is that of the j-th trigger, with the table's schema, "table-trigger" as name and TRIG |
| ObjectList.TableDescriptorsAppend | DbObjectList.cs:34-53 | the tables' descriptors concatenate table by table in collection order |
| ObjectList.TableDescriptorsStep | DbObjectList.cs:34-53 | one more table appends exactly that table's entry |
| ObjectList.TriggerDescriptorsStep | DbObjectList.cs:43-51 | one more trigger appends exactly that trigger's descriptor |
| ObjectList.TableInContext | DbObjectList.cs:37-51 | wherever a table stands, its TAB descriptor is immediately followed by its triggers' descriptors in trigger order, and a system table contributes nothing |
| ObjectList.SystemTablesYieldNothing | DbObjectList.cs:37 | triggers of system tables are never enumerated |
| ObjectList.TriggerFileName | DbObjectList.cs:40-50 | a trigger is filed as schema.table-trigger.TRIG beside its table's schema.table.TAB |
| ObjectList.DbObjectList.constructor | DbObjectList.cs:9-13 | a new list is empty and uses the shared queue and max counters |
| ObjectList.DbObjectList.UpdateCounters | DbObjectList.cs:20-24 | both shared counters rise by one |
| ObjectList.DbObjectList.AddDatabase | DbObjectList.cs:26-30 | appends the settings descriptor and raises both counters by one |
| ObjectList.DbObjectList.AddTables | DbObjectList.cs:32-54 | throws only if cancellation was requested and there are tables; otherwise appends each non-system table followed by its triggers; counters rise by the number appended |
| ObjectList.DbObjectList.AddTable | DbObjectList.cs:37-52 | one table's entry is appended, trigger loop included, with one counter bump per item |
| ObjectList.DbObjectList.Enumerate | DbObjectList.cs:56-189 | the loop of every other enumerator: exactly the category's descriptors, in order, or an abort before anything is appended |
| ObjectList.DbObjectList.AddViews | DbObjectList.cs:56-67 | appends the descriptors of the non-system views (VIW) |
| ObjectList.DbObjectList.AddStoredProcedures | DbObjectList.cs:69-80 | appends the descriptors of the non-system procedures (PRC) |
| ObjectList.DbObjectList.AddUserDefinedFunctions | DbObjectList.cs:82-93 | appends the descriptors of the non-system functions (UDF) |
| ObjectList.DbObjectList.AddRoles | DbObjectList.cs:95-106 | appends the descriptors of the roles that are not fixed roles (ROLE, no schema) |
| ObjectList.DbObjectList.AddRules | DbObjectList.cs:108-117 | appends a descriptor for every rule (RULE) |
| ObjectList.DbObjectList.AddDatabaseTriggers | DbObjectList.cs:119-130 | appends the descriptors of the non-system database triggers (TRIG, no schema) |
| ObjectList.DbObjectList.AddSchemas | DbObjectList.cs:132-143 | appends the descriptors of the non-system schemas (SCH, no schema) |
| ObjectList.DbObjectList.AddUserDefinedDataTypes | DbObjectList.cs:145-155 | appends a descriptor for every user-defined data type (UDDT) |
| ObjectList.DbObjectList.AddUserDefinedTypes | DbObjectList.cs:157-167 | appends a descriptor for every user-defined type (TYPE) |
| ObjectList.DbObjectList.AddSequences | DbObjectList.cs:169-178 | appends a descriptor for every sequence (SEQ) |
| ObjectList.DbObjectList.AddSynonyms | DbObjectList.cs:180-189 | appends a descriptor for every synonym (SYNO) |
| SharedState.Shared.constructor | Shared.cs:8-72 | Full starts with its twenty flags, Normal and Minimal with DriAll, ScriptBatchTerminator and Triggers; the three counters start at 0 and the error bag empty |
| SharedState.Shared.WithExtendedProperties | Shared.cs:37-42 | ExtendedProperties is added to all three profiles and no other flag changes |
| SharedState.Shared.WithDependencies | Shared.cs:44-52 | WithDependencies and ContinueScriptingOnError are added to Full and Normal; Minimal is unchanged |
| SharedState.DefaultProfiles | Shared.cs:8-35 | Normal and Minimal hold exactly three flags, all also in Full; Full starts without WithDependencies, ExtendedProperties and ContinueScriptingOnError |
| SharedState.ExtendedPropertiesOn | Shared.cs:37-42 | ExtendedProperties is on in all three profiles afterwards and every other flag is as it was |
| SharedState.DependenciesOn | Shared.cs:44-52 | WithDependencies and ContinueScriptingOnError are on in Full and Normal afterwards, their other flags are as they were, and Minimal is unchanged |
| SharedState.TogglesAreIdempotent | Shared.cs:37-52 | applying either toggle a second time gives the same profiles as applying it once, and the two toggles commute |
| Dumping.ScriptLines | DumpDb.cs:126-130 | a script of n fragments is written with 3n WriteLine calls, in fragment order |
| Dumping.FragmentsOfScriptLines | DumpDb.cs:126-130 | the strings passed to WriteLine for a script give back exactly the fragments they were written from |
| Dumping.ScriptLinesAt | DumpDb.cs:126-130 | WriteLine call 3k writes fragment k, and calls 3k+1 and 3k+2 write "GO" and an empty string |
| Dumping.PlaceMarker | DumpDb.cs:141-145 | a placeholder file is one line that starts with the given content |
| Dumping.WriteStepEffects | DumpDb.cs:103-139 | a canceled item changes nothing and throws; otherwise the queue drops by exactly one whatever happens; the flag is set only by an existing file; written rises by at most one, and only by writing the script's lines to the object's path |
| Dumping.ExistingFileCancels | DumpDb.cs:112-116 | with replacement off, an existing file throws, requests cancellation, writes nothing and still dequeues |
| Dumping.EmptyScriptWritesNothing | DumpDb.cs:120-122 | an empty script writes no file and does not count a write |
| Dumping.FailedObjectGetsPlaceholder | DumpDb.cs:91-100 | a FailedOperationException writes the placeholder at the object's path and the loop continues |
| Dumping.DumpItemsSticks | DumpDb.cs:91-100 | once an item throws, the later items are not looked at |
| Dumping.DumpItemsStep | DumpDb.cs:91-100 | one more item runs WriteObject with its placeholder handling, unless an earlier item threw |
| Dumping.DumpItemsCompleted | DumpDb.cs:91-139 | a loop that completes dequeues every item, leaves max and the flag alone, writes at most one file per item and removes none |
| Dumping.DumpItemsCanceled | DumpDb.cs:103-105 | from a canceled state the first item throws at once and nothing changes |
| Dumping.DumpItemsKeepsFiles | DumpDb.cs:91-145 | no item removes a file |
| Dumping.TablesStartWithSettings | DumpDb.cs:48-51 | the Tables category enumerates the settings item before the tables |
| Dumping.RunCompleted | DumpDb.cs:39-101 | a run that completes found the database, leaves the queue where it was, raises max by the number of items and writes at most one file per item |
| Dumping.RunCanceled | DumpDb.cs:39-139 | a run that starts canceled writes nothing and counts no write |
| Dumping.RunKeepsFiles | DumpDb.cs:39-101 | no run removes a file |
| Dumping.WithTrailingBackslash | DumpDb.cs:152-154 | the path gets a trailing backslash unless it already has one, and nothing else changes |
| Dumping.WithTrailingBackslashIdempotent | DumpDb.cs:152-154 | adding the trailing backslash twice is the same as once |
| Dumping.EnsurePathExists | DumpDb.cs:150-161 | the result always ends with a backslash; it fails with InvalidOperation exactly when the directory name cannot be determined |
| Dumping.DumpDb.constructor | DumpDb.cs:13-19 | a dumper holds its configuration, category, token and the counters it shares with every other dumper |
| Dumping.DumpDb.Run | DumpDb.cs:39-101 | the new files, flag and counter totals, and the exception thrown, are exactly those RunSpec gives for the old state |
| Dumping.DumpDb.Enumerate | DumpDb.cs:45-87 | the category switch appends exactly what RunSpec enumerates, settings first for Tables, and bumps the counters by that many |
| Dumping.DumpDb.WriteItems | DumpDb.cs:91-100 | the item loop has exactly DumpItems' effect |
| Dumping.DumpDb.WriteObject | DumpDb.cs:103-139 | one call has exactly WriteStep's effect |
| Dumping.DumpDb.WritePlaceMarker | DumpDb.cs:141-145 | the object's file is overwritten with the placeholder line and nothing else changes |
| Program.ParseOrDefault | Program.cs:177 | when TryParse succeeds the result is the parsed value, and when it fails the result is the default |
| Program.ParseOrDefaultReadsNumbers | Program.cs:177 | a number written in decimal is read back; a missing value gives the default |
| Program.ParseOrDefaultRejectsText | Program.cs:177 | text that is not a number gives the default |
| Program.BuildConfig | Program.cs:117-153 | a produced config has a non-blank instance and database, 1 to 16 tasks and an output directory ending in a backslash; --all forces both extras on, otherwise each follows its own switch; the other switches are copied |
| Program.BuildConfigSucceeds | Program.cs:122-149 | a config is produced exactly when help was not asked for, instance, database and directory are non-blank, parallelism is within 1..16, and the directory resolves |
| Program.BuildConfigDefaults | Program.cs:10-131 | in a produced config, instance, database and directory each come from the option when given and from DB_INSTANCE, DB_DATABASE or DB_DIR otherwise; parallelism is the parsed -p value, 8 without it |
| Program.SignificantExactly | Program.cs:84-89 | an inner exception is displayed exactly when it is not the first and not a cancellation |
| Program.SequentialCompleted | Program.cs:61-68 | a sequential dump that completes leaves the queue unchanged, writes at most one file per enumerated item and removes none |
| Program.SequentialKeepsFiles | Program.cs:61-68 | the sequential dump never removes a file |
| Program.SequentialSticks | Program.cs:61-68 | once a category throws, the later categories do not run |
| Program.ParallelRethrowsFirst | Program.cs:70-98 | when categories fail in the parallel branch, the exception that surfaces is the first one collected |
| Program.ErrorReport | Program.cs:161-172 | the report is a header naming the database and time, a blank line, then exactly the error names in ascending order |
| Program.SequentialProcess | Program.cs:61-68 | one dumper per category, in declaration order, with exactly SequentialSpec's effect |
| Program.ParallelForEach | Program.cs:72-80 | the categories start in order, one at a time; none starts once cancellation is requested or a category has thrown; the effect is exactly ParallelSchedule's and the exceptions thrown are collected |
| Program.ParallelMatchesSequential | Program.cs:40-98 | from a state not yet canceled, the parallel branch leaves the same files, flag and counters as the sequential one, and collects exactly the one exception the sequential dump throws, or none |
| Program.ParallelProcess | Program.cs:70-98 | the schedule, then the catch block: the significant inner exceptions are displayed and the first is rethrown |
| Program.DisplayInnerErrors | Program.cs:84-89 | the loop displays exactly the significant inner exceptions, in order |
| Program.WriteAnyErrors | Program.cs:155-175 | no file when there are no error names; otherwise OutputDirectory + DatabaseName + "-Errors.TXT" holds the report |
| Program.Process | Program.cs:39-48 | sequential exactly when single-thread is set or parallelism is 1, from a fresh token, with the chosen branch's effect |
| Program.Execute | Program.cs:19-52 | the toggles follow the config, the dump has ProcessSpec's effect, and the error report is written only when the dump did not throw, errors are not skipped and the bag is non-empty |

## Left out

- SMO itself (connecting, `Databases[...]`, `SetDefaultInitFields`, `Script`): the server is a map from names to `Database` records and scripting is a function parameter.
- The real file system: `File.Exists`, `StreamWriter` and `File.WriteAllText` are a map from path to the strings written in `Runtime.FileSystem`; `Directory.CreateDirectory` is not modelled and `Path.GetDirectoryName` is a function parameter of `EnsurePathExists`.
- Path comparison: the model compares file paths as exact strings, while the Windows file system the tool runs on ignores case. Two objects whose file names differ only in case (`dbo.Orders.TAB` and `dbo.ORDERS.TAB` under a case-sensitive collation) are two files in the model; the real program, with replace off, throws on the second and cancels the dump, and with replace on overwrites the first.
- Concurrency: `Parallel.ForEach` is modelled by `ParallelSchedule`, which runs categories one at a time in declaration order; other interleavings, `MaxDegreeOfParallelism` and the atomicity of `Interlocked` are not modelled.
- Program.ParallelForEach: runs the categories one at a time and stops starting new ones after the first exception or cancellation, so it collects at most one exception. With MaxParallel above 1, the real `Parallel.ForEach` keeps up to MaxParallel categories in flight. Those categories interleave their writes, and each one that throws adds its own inner exception. When cancellation is requested and nothing else failed, the loop ends with OperationCanceledException, as in the model.
- Program.SignificantExactly: identifies the first inner exception by position rather than by reference, so an equal exception value later in the list is displayed in the model.
- Console output, `ThreadsafeWrite`, the version banner, the stopwatch and `DateTime.Now`: the time is an opaque `now` string.
- PicoArgs: the parsed switches and option values are the `Arguments` record; `pico.Finished()` (rejecting unknown arguments) is not modelled.
- `Environment.Exit`, the usage text and the unhandled-exception handler: `BuildConfig` returns `HelpShown`, `UsageShown` or the thrown exception instead.
- Int32.TryParse: the culture-specific parts of `NumberStyles.Integer` (culture signs, full-width digits) are not modelled; ASCII digits, an optional sign and ASCII white space are.
- Text.Sort: `Order()` compares with the current culture; the model orders by character code.
- Singletons.cs, FileExistsException.cs and ThreadsafeWrite.cs have no behaviour the model needs.
- Default values of the SMO `ScriptingOptions` properties that the source leaves unset are not modelled; a profile is the set of flags the source sets to true.
- `Shared.ErrorObjects`: nothing in the code adds to it, so `Execute` takes it as it finds it; the report is proved for any contents.
- Dumping.DumpDb.Run uses its own three static counters and the option set {DriAll}, not `Shared`'s; `Execute` passes the counters in, so the totals it reports are those of the counters given.
- Dumping.DumpDb.Enumerate: the older list, as the code does, adds no triggers under tables; the newer list's nested triggers are in `ObjectList`.
- Dumping.WriteStep and Dumping.DumpDb.WritePlaceMarker: writing a file never fails in the model. In the program, `StreamWriter` and `File.WriteAllText` can throw, for example on a name holding `/ : * ? " < > |`, since only `\` is replaced. From WriteObject, after the queue has been decremented, such an exception ends the category. From WritePlaceMarker it escapes from the catch block. This error path is not modelled.
- Runtime.FileSystem: a file is the sequence of strings passed to `WriteLine` (or the one string passed to `File.WriteAllText`), not the lines of the text on disk. Line breaks inside a fragment, the trailing newline `WriteLine` adds (and its absence after the placeholder) and the encoding are not modelled. So Dumping.ScriptLines and Dumping.FragmentsOfScriptLines speak of WriteLine calls, not of lines in the file.
- SafeCounter.Increment, Decrement and Add: their contracts are stated for one caller at a time.
