/**
 * DumpDb (the variant that goes with DbObjectWrapper): enumerates one
 * category of one database and writes one script file per object.
 *
 * The effect of a run is described by functions over a DumpState (the files,
 * the cancellation flag and the unwrapped totals of the three counters); the
 * DumpDb class's methods are proved to have exactly that effect.
 */
module Dumping {
  import opened Wrappers
  import opened Smo
  import opened Text
  import opened Categories
  import opened Runtime
  import opened Configuration
  import opened LegacyObjects
  import Counter

  /** Everything a run can change. Counters are the unwrapped totals of SafeCounter. */
  datatype DumpState = DumpState(
    files: map<string, seq<string>>,
    canceled: bool,
    queue: int,
    max: int,
    written: int)

  /** The outcome of a step: the new state and the exception it throws, if any. */
  datatype Outcome = Outcome(state: DumpState, thrown: Option<Exception>)

  /** The scripting options every DumpDb uses: DriAll only. */
  const Options: set<OptionFlag> := {DriAll}

  /** The placeholder text written for an object SMO could not script. */
  const FailedPlaceholder: string := "-- Failed to script object"

  /** The file an object is written to. */
  function PathOf(config: Config, o: DbObjectWrapper): string {
    config.outputDirectory + o.FullName()
  }

  // ---------------------------------------------------------------------
  // File contents.

  /** The strings passed to WriteLine for a script: each fragment, then "GO", then an empty string. */
  function ScriptLines(fragments: seq<string>): (lines: seq<string>)
    ensures |lines| == 3 * |fragments|
  {
    if fragments == [] then []
    else ScriptLines(fragments[..|fragments| - 1]) + [fragments[|fragments| - 1], "GO", ""]
  }

  /** Reads the WriteLine strings of a script back: the first of every triplet. */
  function Fragments(lines: seq<string>): seq<string> {
    if |lines| < 3 then []
    else Fragments(lines[..|lines| - 3]) + [lines[|lines| - 3]]
  }

  /** A written script file reads back as the fragments it was written from. */
  lemma {:induction false} FragmentsOfScriptLines(fragments: seq<string>)
    ensures Fragments(ScriptLines(fragments)) == fragments
  {
    if fragments != [] {
      var init := fragments[..|fragments| - 1];
      var lines := ScriptLines(fragments);
      assert lines[..|lines| - 3] == ScriptLines(init);
      FragmentsOfScriptLines(init);
      assert fragments == init + [fragments[|fragments| - 1]];
    }
  }

  /** WriteLine call 3k writes fragment k, followed by "GO" and an empty string. */
  lemma {:induction false} ScriptLinesAt(fragments: seq<string>, k: nat)
    requires k < |fragments|
    ensures ScriptLines(fragments)[3 * k] == fragments[k]
    ensures ScriptLines(fragments)[3 * k + 1] == "GO"
    ensures ScriptLines(fragments)[3 * k + 2] == ""
  {
    var init := fragments[..|fragments| - 1];
    if k < |init| {
      ScriptLinesAt(init, k);
    }
  }

  /** The one string of a placeholder file: the content and the time it was written. */
  function PlaceMarker(content: string, now: string): (lines: seq<string>)
    ensures |lines| == 1 && HasPrefix(lines[0], content)
  {
    [content + " " + now]
  }

  predicate HasPrefix(s: string, prefix: string) {
    |prefix| <= |s| && s[..|prefix|] == prefix
  }

  // ---------------------------------------------------------------------
  // One object.

  /**
   * WriteObject: the cancellation check; then, with the queue decremented
   * whatever happens, the existing-file check (which also requests
   * cancellation), the script, and the file.
   */
  function WriteStep(config: Config, script: Scripter, s: DumpState, o: DbObjectWrapper): Outcome {
    if s.canceled then Outcome(s, Some(OperationCanceled))
    else
      var path := PathOf(config, o);
      var dequeued := s.(queue := s.queue - 1);
      if !config.replaceExistingFiles && path in s.files then
        Outcome(dequeued.(canceled := true), Some(FileAlreadyExists(path)))
      else
        match script(o.scriptable, Options)
        case FailedOp => Outcome(dequeued, Some(FailedOperation))
        case OtherError => Outcome(dequeued, Some(ScriptingFailure))
        case Lines(fragments) =>
          if fragments == [] then Outcome(dequeued, None)
          else Outcome(dequeued.(files := s.files[path := ScriptLines(fragments)], written := s.written + 1), None)
  }

  /** The body of Run's loop: WriteObject, and a placeholder file when SMO fails to script the object. */
  function ItemStep(config: Config, script: Scripter, now: string, s: DumpState, o: DbObjectWrapper): Outcome {
    var r := WriteStep(config, script, s, o);
    if r.thrown == Some(FailedOperation) then
      Outcome(r.state.(files := r.state.files[PathOf(config, o) := PlaceMarker(FailedPlaceholder, now)]), None)
    else r
  }

  /** Run's loop over the enumerated items: it stops at the first exception that escapes an item. */
  function DumpItems(config: Config, script: Scripter, now: string, s: DumpState, items: seq<DbObjectWrapper>): Outcome {
    if items == [] then Outcome(s, None)
    else
      var r := DumpItems(config, script, now, s, items[..|items| - 1]);
      if r.thrown.Some? then r else ItemStep(config, script, now, r.state, items[|items| - 1])
  }

  // ---------------------------------------------------------------------
  // One category.

  /**
   * What the list holds after the category switch: everything enumerated, or,
   * when the enumerator threw, only the settings item Tables adds first.
   */
  function ListedItems(c: Scriptable, db: Database, databaseName: string, thrown: Option<Exception>): seq<DbObjectWrapper> {
    if thrown.None? then Enumerated(c, db, databaseName)
    else if c == Tables then [DatabaseSettings(db.handle, databaseName)]
    else []
  }

  /** What the category's enumerator keeps of the database, settings item first for Tables. */
  function Enumerated(c: Scriptable, db: Database, databaseName: string): seq<DbObjectWrapper> {
    (if c == Tables then [DatabaseSettings(db.handle, databaseName)] else []) + Descriptors(c, Objects(db, c))
  }

  /**
   * Run: look the database up (an unknown name is a null reference, which
   * Tables dereferences only after adding the settings item), enumerate the
   * category, then dump each item.
   */
  function RunSpec(config: Config, c: Scriptable, server: Server, script: Scripter, now: string, s: DumpState): Outcome {
    if config.databaseName !in server then
      if c == Tables then Outcome(s.(queue := s.queue + 1, max := s.max + 1), Some(NullReference))
      else Outcome(s, Some(NullReference))
    else RunOn(config, c, server[config.databaseName], script, now, s)
  }

  /** Run once the database is found: enumerate the category, then dump each item unless the enumerator threw. */
  function RunOn(config: Config, c: Scriptable, db: Database, script: Scripter, now: string, s: DumpState): Outcome {
    var thrown := Checked(s.canceled, Objects(db, c));
    var items := ListedItems(c, db, config.databaseName, thrown);
    var enumerated := s.(queue := s.queue + |items|, max := s.max + |items|);
    if thrown.Some? then Outcome(enumerated, thrown)
    else DumpItems(config, script, now, enumerated, items)
  }

  // ---------------------------------------------------------------------
  // What the protocol guarantees.

  /** The effect of one WriteObject call on the counters, the flag and the files. */
  lemma WriteStepEffects(config: Config, script: Scripter, s: DumpState, o: DbObjectWrapper)
    ensures var r := WriteStep(config, script, s, o);
      && r.state.max == s.max
      && (s.canceled ==> r.state == s && r.thrown == Some(OperationCanceled))
      && (!s.canceled ==> r.state.queue == s.queue - 1)
      && (r.state.canceled <==> s.canceled || r.thrown == Some(FileAlreadyExists(PathOf(config, o))))
      && (r.state.written == s.written ==> r.state.files == s.files)
      && (r.state.written == s.written || r.state.written == s.written + 1)
      && (r.state.written == s.written + 1 ==>
            r.thrown.None? && script(o.scriptable, Options).Lines?
            && r.state.files == s.files[PathOf(config, o) := ScriptLines(script(o.scriptable, Options).fragments)])
  {
  }

  /** With replace off, an existing file stops the item: nothing is written and the whole run is asked to cancel. */
  lemma ExistingFileCancels(config: Config, script: Scripter, s: DumpState, o: DbObjectWrapper)
    requires !s.canceled && !config.replaceExistingFiles && PathOf(config, o) in s.files
    ensures WriteStep(config, script, s, o)
         == Outcome(s.(queue := s.queue - 1, canceled := true), Some(FileAlreadyExists(PathOf(config, o))))
  {
  }

  /** An empty script writes no file and counts nothing as written. */
  lemma EmptyScriptWritesNothing(config: Config, script: Scripter, s: DumpState, o: DbObjectWrapper)
    requires !s.canceled && (config.replaceExistingFiles || PathOf(config, o) !in s.files)
    requires script(o.scriptable, Options) == Lines([])
    ensures WriteStep(config, script, s, o) == Outcome(s.(queue := s.queue - 1), None)
  {
  }

  /** A failure to script one object leaves a placeholder in its file and lets the loop go on. */
  lemma FailedObjectGetsPlaceholder(config: Config, script: Scripter, now: string, s: DumpState, o: DbObjectWrapper)
    requires !s.canceled && (config.replaceExistingFiles || PathOf(config, o) !in s.files)
    requires script(o.scriptable, Options) == FailedOp
    ensures ItemStep(config, script, now, s, o).thrown.None?
    ensures ItemStep(config, script, now, s, o).state.files[PathOf(config, o)] == PlaceMarker(FailedPlaceholder, now)
    ensures ItemStep(config, script, now, s, o).state.written == s.written
  {
  }

  /** Once an item throws, the rest of the items are not looked at. */
  lemma {:induction false} DumpItemsSticks(
    config: Config, script: Scripter, now: string, s: DumpState, items: seq<DbObjectWrapper>, k: nat)
    requires k <= |items|
    requires DumpItems(config, script, now, s, items[..k]).thrown.Some?
    ensures DumpItems(config, script, now, s, items) == DumpItems(config, script, now, s, items[..k])
  {
    if k < |items| {
      var init := items[..|items| - 1];
      assert init[..k] == items[..k];
      DumpItemsSticks(config, script, now, s, init, k);
    } else {
      assert items[..k] == items;
    }
  }

  /** One more item runs ItemStep, unless an earlier item threw. */
  lemma DumpItemsStep(config: Config, script: Scripter, now: string, s: DumpState, items: seq<DbObjectWrapper>, i: nat)
    requires i < |items|
    ensures var r := DumpItems(config, script, now, s, items[..i]);
      DumpItems(config, script, now, s, items[..i + 1])
      == if r.thrown.Some? then r else ItemStep(config, script, now, r.state, items[i])
  {
    assert items[..i + 1][..i] == items[..i];
  }

  /**
   * A loop that runs to the end takes every item off the queue, leaves the
   * flag and the max counter alone, counts at most one write per item, and
   * never removes a file.
   */
  lemma {:induction false} DumpItemsCompleted(
    config: Config, script: Scripter, now: string, s: DumpState, items: seq<DbObjectWrapper>)
    requires DumpItems(config, script, now, s, items).thrown.None?
    ensures var t := DumpItems(config, script, now, s, items).state;
      && t.queue == s.queue - |items|
      && t.max == s.max
      && t.canceled == s.canceled
      && (items != [] ==> !s.canceled)
      && s.written <= t.written <= s.written + |items|
      && s.files.Keys <= t.files.Keys
  {
    if items != [] {
      var init := items[..|items| - 1];
      var r := DumpItems(config, script, now, s, init);
      DumpItemsCompleted(config, script, now, s, init);
      WriteStepEffects(config, script, r.state, items[|items| - 1]);
    }
  }

  /** From a canceled state every item throws at once: nothing is written or counted. */
  lemma {:induction false} DumpItemsCanceled(
    config: Config, script: Scripter, now: string, s: DumpState, items: seq<DbObjectWrapper>)
    requires s.canceled
    ensures DumpItems(config, script, now, s, items)
         == Outcome(s, if items == [] then None else Some(OperationCanceled))
  {
    if items != [] {
      DumpItemsCanceled(config, script, now, s, items[..|items| - 1]);
    }
  }

  /** Whatever happens, a file that existed before an item still exists after it. */
  lemma {:induction false} DumpItemsKeepsFiles(
    config: Config, script: Scripter, now: string, s: DumpState, items: seq<DbObjectWrapper>)
    ensures s.files.Keys <= DumpItems(config, script, now, s, items).state.files.Keys
  {
    if items != [] {
      var r := DumpItems(config, script, now, s, items[..|items| - 1]);
      DumpItemsKeepsFiles(config, script, now, s, items[..|items| - 1]);
      WriteStepEffects(config, script, r.state, items[|items| - 1]);
    }
  }

  /** The Tables category dumps the database-settings item before any table. */
  lemma TablesStartWithSettings(db: Database, databaseName: string)
    ensures Enumerated(Tables, db, databaseName)[0] == DatabaseSettings(db.handle, databaseName)
    ensures Enumerated(Tables, db, databaseName)[1..] == Descriptors(Tables, db.tables)
  {
  }

  /**
   * A run that completes leaves the queue where it found it, raises the max
   * counter by the number of items, and writes at most one file per item.
   */
  lemma RunCompleted(config: Config, c: Scriptable, server: Server, script: Scripter, now: string, s: DumpState)
    requires RunSpec(config, c, server, script, now, s).thrown.None?
    ensures config.databaseName in server
    ensures var n := |Enumerated(c, server[config.databaseName], config.databaseName)|;
      var t := RunSpec(config, c, server, script, now, s).state;
      && t.queue == s.queue
      && t.max == s.max + n
      && t.canceled == s.canceled
      && s.written <= t.written <= s.written + n
      && s.files.Keys <= t.files.Keys
  {
    RunSpecCompleted(config, c, server, script, now, s);
    var items := Enumerated(c, server[config.databaseName], config.databaseName);
    ItemsAfterEnumeration(config, script, now, s, items);
  }

  /** The item loop, run after the enumerator has queued the items, completes as RunCompleted says. */
  lemma ItemsAfterEnumeration(config: Config, script: Scripter, now: string, s: DumpState, items: seq<DbObjectWrapper>)
    requires DumpItems(config, script, now, s.(queue := s.queue + |items|, max := s.max + |items|), items).thrown.None?
    ensures var t := DumpItems(config, script, now, s.(queue := s.queue + |items|, max := s.max + |items|), items).state;
      && t.queue == s.queue
      && t.max == s.max + |items|
      && t.canceled == s.canceled
      && s.written <= t.written <= s.written + |items|
      && s.files.Keys <= t.files.Keys
  {
    DumpItemsCompleted(config, script, now, s.(queue := s.queue + |items|, max := s.max + |items|), items);
  }

  /** A run that throws nothing found the database and ran the item loop over what it enumerated. */
  lemma RunSpecCompleted(config: Config, c: Scriptable, server: Server, script: Scripter, now: string, s: DumpState)
    requires RunSpec(config, c, server, script, now, s).thrown.None?
    ensures config.databaseName in server
    ensures var items := Enumerated(c, server[config.databaseName], config.databaseName);
      RunSpec(config, c, server, script, now, s)
      == DumpItems(config, script, now, s.(queue := s.queue + |items|, max := s.max + |items|), items)
  {
    if config.databaseName in server {
      var db := server[config.databaseName];
      assert Checked(s.canceled, Objects(db, c)).None?;
    }
  }

  /** A run that starts canceled writes nothing and counts nothing as written. */
  lemma RunCanceled(config: Config, c: Scriptable, server: Server, script: Scripter, now: string, s: DumpState)
    requires s.canceled
    ensures var t := RunSpec(config, c, server, script, now, s).state;
      t.files == s.files && t.written == s.written && t.canceled
  {
    if config.databaseName in server {
      var db := server[config.databaseName];
      var thrown := Checked(s.canceled, Objects(db, c));
      if thrown.None? {
        var items := Enumerated(c, db, config.databaseName);
        DumpItemsCanceled(config, script, now, s.(queue := s.queue + |items|, max := s.max + |items|), items);
      }
    }
  }

  /** No run removes a file. */
  lemma RunKeepsFiles(config: Config, c: Scriptable, server: Server, script: Scripter, now: string, s: DumpState)
    ensures s.files.Keys <= RunSpec(config, c, server, script, now, s).state.files.Keys
  {
    if config.databaseName in server {
      var db := server[config.databaseName];
      var items := Enumerated(c, db, config.databaseName);
      DumpItemsKeepsFiles(config, script, now, s.(queue := s.queue + |items|, max := s.max + |items|), items);
    }
  }

  // ---------------------------------------------------------------------
  // The output directory.

  /** The path handed to Path.GetDirectoryName: the given path with a trailing backslash. */
  function WithTrailingBackslash(path: string): (p: string)
    ensures EndsWith(p, '\\')
    ensures EndsWith(path, '\\') ==> p == path
    ensures |path| <= |p| <= |path| + 1 && p[..|path|] == path
  {
    if EndsWith(path, '\\') then path else path + "\\"
  }

  /**
   * EnsurePathExists without the directory creation: the directory part of
   * the path, with a trailing backslash, or InvalidOperation when
   * Path.GetDirectoryName (a parameter here) yields null.
   */
  function EnsurePathExists(path: string, getDirectoryName: string -> Option<string>): (r: Result<string, Exception>)
    ensures r.Ok? ==> EndsWith(r.value, '\\')
    ensures r.Ok? <==> getDirectoryName(WithTrailingBackslash(path)).Some?
    ensures r.Err? ==> r.error == InvalidOperation
  {
    match getDirectoryName(WithTrailingBackslash(path))
    case None => Err(InvalidOperation)
    case Some(directoryPath) => Ok(directoryPath + "\\")
  }

  /** Adding the backslash twice adds it once. */
  lemma WithTrailingBackslashIdempotent(path: string)
    ensures WithTrailingBackslash(WithTrailingBackslash(path)) == WithTrailingBackslash(path)
  {
  }

  // ---------------------------------------------------------------------
  // The class.

  /** The state a run can change, read from the objects that hold it. */
  ghost function StateOf(
    fs: FileSystem, token: CancellationTokenSource,
    queueCounter: Counter.SafeCounter, maxCounter: Counter.SafeCounter, writtenCounter: Counter.SafeCounter): DumpState
    reads fs, token, queueCounter, maxCounter, writtenCounter
  {
    DumpState(fs.files, token.isCancellationRequested, queueCounter.total, maxCounter.total, writtenCounter.total)
  }

  /**
   * Dumps one category. The three counters are DumpDb's static counters,
   * shared by every instance; the file system stands for the output drive.
   */
  class DumpDb {
    const config: Config
    const scriptType: Scriptable
    const cancellationToken: CancellationTokenSource
    const queueCounter: Counter.SafeCounter
    const maxCounter: Counter.SafeCounter
    const writtenCounter: Counter.SafeCounter
    const fs: FileSystem

    ghost predicate Valid()
      reads this, queueCounter, maxCounter, writtenCounter
    {
      && queueCounter != maxCounter && queueCounter != writtenCounter && maxCounter != writtenCounter
      && queueCounter.Valid() && maxCounter.Valid() && writtenCounter.Valid()
    }

    ghost function State(): DumpState
      reads this, fs, cancellationToken, queueCounter, maxCounter, writtenCounter
    {
      StateOf(fs, cancellationToken, queueCounter, maxCounter, writtenCounter)
    }

    constructor (
      config: Config, scriptType: Scriptable, cancellationToken: CancellationTokenSource,
      queueCounter: Counter.SafeCounter, maxCounter: Counter.SafeCounter, writtenCounter: Counter.SafeCounter,
      fs: FileSystem)
      requires queueCounter != maxCounter && queueCounter != writtenCounter && maxCounter != writtenCounter
      requires queueCounter.Valid() && maxCounter.Valid() && writtenCounter.Valid()
      ensures Valid()
      ensures this.config == config && this.scriptType == scriptType && this.cancellationToken == cancellationToken
      ensures this.queueCounter == queueCounter && this.maxCounter == maxCounter
      ensures this.writtenCounter == writtenCounter && this.fs == fs
    {
      this.config := config;
      this.scriptType := scriptType;
      this.cancellationToken := cancellationToken;
      this.queueCounter := queueCounter;
      this.maxCounter := maxCounter;
      this.writtenCounter := writtenCounter;
      this.fs := fs;
    }

    /** Enumerates the category, then writes each item, with a placeholder for objects SMO fails to script. */
    method Run(server: Server, script: Scripter, now: string) returns (thrown: Option<Exception>)
      requires Valid()
      modifies fs, cancellationToken, queueCounter, maxCounter, writtenCounter
      ensures Valid()
      ensures Outcome(State(), thrown) == RunSpec(config, scriptType, server, script, now, old(State()))
    {
      ghost var s0 := State();
      var list := new DbObjectList(queueCounter, maxCounter, cancellationToken);
      if config.databaseName !in server {
        if scriptType == Tables {
          list.AddDatabase(Null, config.databaseName);
        }
        return Some(NullReference);
      }
      thrown := RunOnDatabase(list, server[config.databaseName], script, now);
    }

    /** Run's body once the database is found: the category switch, then the item loop. */
    method RunOnDatabase(list: DbObjectList, db: Database, script: Scripter, now: string) returns (thrown: Option<Exception>)
      requires Valid() && list.Valid() && list.items == []
      requires list.queueCounter == queueCounter && list.maxCounter == maxCounter
      requires list.cancellationToken == cancellationToken
      modifies list, fs, cancellationToken, queueCounter, maxCounter, writtenCounter
      ensures Valid()
      ensures Outcome(State(), thrown) == RunOn(config, scriptType, db, script, now, old(State()))
    {
      ghost var s0 := State();
      thrown := Enumerate(list, db);
      ghost var items := ListedItems(scriptType, db, config.databaseName, thrown);
      ghost var e := State();
      assert e == s0.(queue := s0.queue + |items|, max := s0.max + |items|);
      if thrown.Some? {
        assert RunOn(config, scriptType, db, script, now, s0) == Outcome(e, thrown);
        return;
      }
      assert RunOn(config, scriptType, db, script, now, s0) == DumpItems(config, script, now, e, list.items);
      thrown := WriteItems(list.items, script, now);
    }

    /** The category switch of Run: the list fills with the category's items, the settings item first for Tables. */
    method Enumerate(list: DbObjectList, db: Database) returns (thrown: Option<Exception>)
      requires Valid() && list.Valid() && list.items == []
      requires list.queueCounter == queueCounter && list.maxCounter == maxCounter
      requires list.cancellationToken == cancellationToken
      modifies list, queueCounter, maxCounter
      ensures Valid()
      ensures thrown == Checked(cancellationToken.isCancellationRequested, Objects(db, scriptType))
      ensures list.items == ListedItems(scriptType, db, config.databaseName, thrown)
      ensures queueCounter.total == old(queueCounter.total) + |list.items|
      ensures maxCounter.total == old(maxCounter.total) + |list.items|
    {
      match scriptType {
        case Tables =>
          list.AddDatabase(db.handle, config.databaseName);
          thrown := list.AddTables(db.tables);
        case Views => thrown := list.AddViews(db.views);
        case StoredProcedures => thrown := list.AddStoredProcedures(db.storedProcedures);
        case UserDefinedFunctions => thrown := list.AddUserDefinedFunctions(db.userDefinedFunctions);
        case Roles => thrown := list.AddRoles(db.roles);
        case Rules => thrown := list.AddRules(db.rules);
        case DatabaseTriggers => thrown := list.AddDatabaseTriggers(db.triggers);
        case Schemas => thrown := list.AddSchemas(db.schemas);
        case UserDefinedDataTypes => thrown := list.AddUserDefinedDataTypes(db.userDefinedDataTypes);
        case UserDefinedTypes => thrown := list.AddUserDefinedTypes(db.userDefinedTypes);
        case Sequences => thrown := list.AddSequences(db.sequences);
        case Synonyms => thrown := list.AddSynonyms(db.synonyms);
      }
    }

    /** The loop of Run: each item in turn, until one throws anything but FailedOperation. */
    method WriteItems(items: seq<DbObjectWrapper>, script: Scripter, now: string) returns (thrown: Option<Exception>)
      requires Valid()
      modifies fs, cancellationToken, queueCounter, writtenCounter
      ensures Valid()
      ensures Outcome(State(), thrown) == DumpItems(config, script, now, old(State()), items)
    {
      ghost var s0 := State();
      var i := 0;
      while i < |items|
        invariant 0 <= i <= |items|
        invariant Valid()
        invariant Outcome(State(), None) == DumpItems(config, script, now, s0, items[..i])
      {
        DumpItemsStep(config, script, now, s0, items, i);
        var t := WriteItem(items[i], script, now);
        if t.Some? {
          DumpItemsSticks(config, script, now, s0, items, i + 1);
          return t;
        }
        i := i + 1;
      }
      assert items[..i] == items;
      thrown := None;
    }

    /** The loop body: WriteObject, and a placeholder when SMO fails to script the object. */
    method WriteItem(wrappedObject: DbObjectWrapper, script: Scripter, now: string) returns (thrown: Option<Exception>)
      requires Valid()
      modifies fs, cancellationToken, queueCounter, writtenCounter
      ensures Valid()
      ensures Outcome(State(), thrown) == ItemStep(config, script, now, old(State()), wrappedObject)
    {
      thrown := WriteObject(wrappedObject, script);
      if thrown == Some(FailedOperation) {
        WritePlaceMarker(wrappedObject, FailedPlaceholder, now);
        thrown := None;
      }
    }

    /** Writes one item's script file; the queue goes down once the cancellation check has passed. */
    method WriteObject(wrappedObject: DbObjectWrapper, script: Scripter) returns (thrown: Option<Exception>)
      requires Valid()
      modifies fs, cancellationToken, queueCounter, writtenCounter
      ensures Valid()
      ensures Outcome(State(), thrown) == WriteStep(config, script, old(State()), wrappedObject)
    {
      if cancellationToken.isCancellationRequested {
        return Some(OperationCanceled);
      }
      var filename := config.outputDirectory + wrappedObject.FullName();
      if !config.replaceExistingFiles && fs.Exists(filename) {
        cancellationToken.Cancel();
        thrown := Some(FileAlreadyExists(filename));
      } else {
        var sc := script(wrappedObject.scriptable, Options);
        match sc {
          case FailedOp => thrown := Some(FailedOperation);
          case OtherError => thrown := Some(ScriptingFailure);
          case Lines(fragments) =>
            if fragments != [] {
              var lines := [];
              var k := 0;
              while k < |fragments|
                invariant 0 <= k <= |fragments|
                invariant lines == ScriptLines(fragments[..k])
              {
                assert fragments[..k + 1][..k] == fragments[..k];
                lines := lines + [fragments[k], "GO", ""];
                k := k + 1;
              }
              assert fragments[..k] == fragments;
              fs.Write(filename, lines);
              var _ := writtenCounter.Increment();
            }
            thrown := None;
        }
      }
      var _ := queueCounter.Decrement();
    }

    /** Writes a one-line placeholder file for an item, replacing any file already there. */
    method WritePlaceMarker(wrappedObject: DbObjectWrapper, content: string, now: string)
      modifies fs
      ensures fs.files == old(fs.files)[PathOf(config, wrappedObject) := PlaceMarker(content, now)]
    {
      var filename := config.outputDirectory + wrappedObject.FullName();
      fs.Write(filename, [content + " " + now]);
    }
  }
}
