/**
 * Program: reads the command line into a Config, turns the optional
 * scripting flags on, dumps every category one after another or in
 * parallel, and writes the report of objects with errors.
 */
module Program {
  import opened Wrappers
  import opened Smo
  import opened Text
  import opened Categories
  import opened Runtime
  import opened Configuration
  import opened Dumping
  import opened SharedState
  import Int32
  import Counter

  const DefaultMaxParallel: int := 8
  const MaxParallelLimit: int := 16

  // ---------------------------------------------------------------------
  // The command line.

  /** int.TryParse(value, out var result) ? result : defaultValue. */
  function ParseOrDefault(value: Option<string>, defaultValue: int): (r: int)
    ensures Int32.TryParse(value).Some? ==> r == Int32.TryParse(value).value
    ensures Int32.TryParse(value).None? ==> r == defaultValue
  {
    match Int32.TryParse(value)
    case Some(result) => result
    case None => defaultValue
  }

  /** A number written in decimal is read back; a missing value gives the default. */
  lemma ParseOrDefaultReadsNumbers(n: int, defaultValue: int)
    requires Int32.InRange(n)
    ensures ParseOrDefault(Some(Int32.ToDecimal(n)), defaultValue) == n
    ensures ParseOrDefault(None, defaultValue) == defaultValue
  {
    Int32.TryParseToDecimal(n);
  }

  /** Text that is not a number gives the default. */
  lemma ParseOrDefaultRejectsText(c: char, defaultValue: int)
    requires !Int32.IsDigit(c) && !Int32.IsNumberWhiteSpace(c)
    ensures ParseOrDefault(Some([c]), defaultValue) == defaultValue
    ensures ParseOrDefault(Some(""), defaultValue) == defaultValue
  {
    Int32.TryParseRejects(c);
  }

  /** What the command-line parser found: each option's value, or whether a switch was given. */
  datatype Arguments = Arguments(
    help: bool,                  // -h, --help, -?
    instance: Option<string>,    // -i, --instance
    database: Option<string>,    // -d, --database
    dir: Option<string>,         // -o, --dir
    parallel: Option<string>,    // -p, --parallel
    all: bool,                   // -a, --all
    extendedProperties: bool,    // -e, --extended-properties
    withDependencies: bool,      // -w, --with-dependencies
    singleThread: bool,          // -s, --single-thread
    replace: bool,               // -r, --replace
    skipErrors: bool)            // -k, --skip-errors

  /** The process environment: Environment.GetEnvironmentVariable yields null for a missing name. */
  type Environment = map<string, string>

  function Lookup(env: Environment, name: string): Option<string> {
    if name in env then Some(env[name]) else None
  }

  /** The ?? operator on nullable strings. */
  function OrElse(a: Option<string>, b: Option<string>): Option<string> {
    if a.Some? then a else b
  }

  /** Why no Config was produced: help was asked for (exit code 0), the usage was wrong (exit code 1), or an exception. */
  datatype Stop = HelpShown | UsageShown | Thrown(e: Exception)

  /** The checks BuildConfig applies before it builds a Config. */
  predicate Acceptable(instance: Option<string>, database: Option<string>, dir: Option<string>, maxParallel: int) {
    && !IsNullOrWhiteSpace(instance)
    && !IsNullOrWhiteSpace(database)
    && !IsNullOrWhiteSpace(dir)
    && 1 <= maxParallel <= MaxParallelLimit
  }

  /** BuildConfig: options first, then DB_INSTANCE, DB_DATABASE and DB_DIR; checks; the output directory. */
  function BuildConfig(args: Arguments, env: Environment, getDirectoryName: string -> Option<string>): (r: Result<Config, Stop>)
    ensures r.Ok? ==>
      && !IsNullOrWhiteSpace(Some(r.value.instanceName))
      && !IsNullOrWhiteSpace(Some(r.value.databaseName))
      && 1 <= r.value.maxParallel <= MaxParallelLimit
      && EndsWith(r.value.outputDirectory, '\\')
      && (r.value.extendedProperties <==> args.extendedProperties || args.all)
      && (r.value.withDependencies <==> args.withDependencies || args.all)
      && r.value.singleThread == args.singleThread
      && r.value.replaceExistingFiles == args.replace
      && r.value.skipErrors == args.skipErrors
  {
    if args.help then Err(HelpShown)
    else
      var instance := OrElse(args.instance, Lookup(env, "DB_INSTANCE"));
      var database := OrElse(args.database, Lookup(env, "DB_DATABASE"));
      var dir := OrElse(args.dir, Lookup(env, "DB_DIR"));
      var maxParallel := ParseOrDefault(args.parallel, DefaultMaxParallel);
      if !Acceptable(instance, database, dir, maxParallel) then Err(UsageShown)
      else
        match EnsurePathExists(dir.value, getDirectoryName)
        case Err(e) => Err(Thrown(e))
        case Ok(outputDirectory) =>
          Ok(Config(instance.value, database.value, outputDirectory, maxParallel,
            args.singleThread, args.replace, args.skipErrors,
            args.extendedProperties || args.all, args.withDependencies || args.all))
  }

  /** A Config is produced exactly when help was not asked for, the checks pass and the directory resolves. */
  lemma BuildConfigSucceeds(args: Arguments, env: Environment, getDirectoryName: string -> Option<string>)
    ensures var dir := OrElse(args.dir, Lookup(env, "DB_DIR"));
      BuildConfig(args, env, getDirectoryName).Ok?
      <==> && !args.help
           && Acceptable(
                OrElse(args.instance, Lookup(env, "DB_INSTANCE")),
                OrElse(args.database, Lookup(env, "DB_DATABASE")),
                dir,
                ParseOrDefault(args.parallel, DefaultMaxParallel))
           && getDirectoryName(WithTrailingBackslash(dir.value)).Some?
  {
  }

  /**
   * Where a produced Config's values come from: each of instance, database and
   * directory is the option when given and the environment variable otherwise;
   * parallelism is the parsed -p value, 8 without it.
   */
  lemma BuildConfigDefaults(args: Arguments, env: Environment, getDirectoryName: string -> Option<string>)
    requires BuildConfig(args, env, getDirectoryName).Ok?
    ensures var c := BuildConfig(args, env, getDirectoryName).value;
      && (args.instance.Some? ==> c.instanceName == args.instance.value)
      && (args.instance.None? ==> "DB_INSTANCE" in env && c.instanceName == env["DB_INSTANCE"])
      && (args.database.Some? ==> c.databaseName == args.database.value)
      && (args.database.None? ==> "DB_DATABASE" in env && c.databaseName == env["DB_DATABASE"])
      && (args.dir.Some? ==> EnsurePathExists(args.dir.value, getDirectoryName) == Ok(c.outputDirectory))
      && (args.dir.None? ==> "DB_DIR" in env && EnsurePathExists(env["DB_DIR"], getDirectoryName) == Ok(c.outputDirectory))
      && c.maxParallel == ParseOrDefault(args.parallel, DefaultMaxParallel)
      && (args.parallel.None? ==> c.maxParallel == DefaultMaxParallel)
  {
  }

  // ---------------------------------------------------------------------
  // Dispatch.

  /** Categories run one after another when single-thread is asked for or only one task is allowed. */
  predicate UseSequential(config: Config) {
    config.singleThread || config.maxParallel == 1
  }

  /** SequentialProcess: one Run per category, in order; the first exception ends the whole dump. */
  function SequentialSpec(
    config: Config, types: seq<Scriptable>, server: Server, script: Scripter, now: string, s: DumpState): Outcome
  {
    if types == [] then Outcome(s, None)
    else
      var r := SequentialSpec(config, types[..|types| - 1], server, script, now, s);
      if r.thrown.Some? then r else RunSpec(config, types[|types| - 1], server, script, now, r.state)
  }

  /** The categories run, and the exceptions they threw, in the order they ran. */
  datatype Schedule = Schedule(state: DumpState, exceptions: seq<Exception>)

  /**
   * Parallel.ForEach, serialised: categories start in order, one at a time;
   * none starts once cancellation has been requested or a category has
   * thrown, and the exceptions thrown are collected.
   */
  function ParallelSchedule(
    config: Config, types: seq<Scriptable>, server: Server, script: Scripter, now: string, s: DumpState): Schedule
  {
    if types == [] then Schedule(s, [])
    else
      var r := ParallelSchedule(config, types[..|types| - 1], server, script, now, s);
      if r.state.canceled || r.exceptions != [] then r
      else
        var o := RunSpec(config, types[|types| - 1], server, script, now, r.state);
        Schedule(o.state, r.exceptions + if o.thrown.Some? then [o.thrown.value] else [])
  }

  /** What escapes Parallel.ForEach: an AggregateException of the collected exceptions, or cancellation. */
  function ForEachThrown(schedule: Schedule): Option<Exception> {
    if schedule.exceptions != [] then Some(Aggregate(schedule.exceptions))
    else if schedule.state.canceled then Some(OperationCanceled)
    else None
  }

  /** The catch block: rethrow the first inner exception, or the AggregateException itself if it has none. */
  function Rethrown(ae: Exception): Exception
    requires ae.Aggregate?
  {
    if ae.inner != [] then ae.inner[0] else ae
  }

  /** ParallelProcess: the schedule, and the exception that leaves the catch block. */
  function ParallelSpec(
    config: Config, types: seq<Scriptable>, server: Server, script: Scripter, now: string, s: DumpState): Outcome
  {
    var schedule := ParallelSchedule(config, types, server, script, now, s);
    var thrown := ForEachThrown(schedule);
    Outcome(schedule.state, if thrown.Some? && thrown.value.Aggregate? then Some(Rethrown(thrown.value)) else thrown)
  }

  /** The inner exceptions the catch block displays: all after the first, except cancellations. */
  function Significant(inner: seq<Exception>): seq<Exception> {
    if |inner| <= 1 then []
    else
      var last := inner[|inner| - 1];
      Significant(inner[..|inner| - 1]) + if last.OperationCanceled? then [] else [last]
  }

  /** An exception is displayed exactly when it stands after the first and is not a cancellation. */
  lemma {:induction false} SignificantExactly(inner: seq<Exception>, e: Exception)
    ensures e in Significant(inner) <==> !e.OperationCanceled? && exists i :: 1 <= i < |inner| && inner[i] == e
  {
    if |inner| > 1 {
      var init := inner[..|inner| - 1];
      SignificantExactly(init, e);
      if e in Significant(inner) && e !in Significant(init) {
        assert inner[|inner| - 1] == e;
      }
      if exists i :: 1 <= i < |inner| && inner[i] == e {
        var i :| 1 <= i < |inner| && inner[i] == e;
        if i < |inner| - 1 {
          assert init[i] == e;
        }
      }
    }
  }

  /** The run's outcome before the error report, for the way the Config dispatches. */
  function ProcessSpec(config: Config, server: Server, script: Scripter, now: string, s: DumpState): Outcome {
    if UseSequential(config) then SequentialSpec(config, DeclarationOrder, server, script, now, s)
    else ParallelSpec(config, DeclarationOrder, server, script, now, s)
  }

  // ---------------------------------------------------------------------
  // What the dump as a whole guarantees.

  /**
   * A sequential dump that completes leaves the queue where it found it and
   * writes at most one file per enumerated item, never removing a file.
   */
  lemma {:induction false} SequentialCompleted(
    config: Config, types: seq<Scriptable>, server: Server, script: Scripter, now: string, s: DumpState)
    requires SequentialSpec(config, types, server, script, now, s).thrown.None?
    ensures var t := SequentialSpec(config, types, server, script, now, s).state;
      && t.queue == s.queue
      && t.max >= s.max
      && t.written - s.written <= t.max - s.max
      && s.written <= t.written
      && s.files.Keys <= t.files.Keys
  {
    if types != [] {
      var init := types[..|types| - 1];
      var r := SequentialSpec(config, init, server, script, now, s);
      SequentialCompleted(config, init, server, script, now, s);
      RunCompleted(config, types[|types| - 1], server, script, now, r.state);
    }
  }

  /** The sequential dump never removes a file, whatever it throws. */
  lemma {:induction false} SequentialKeepsFiles(
    config: Config, types: seq<Scriptable>, server: Server, script: Scripter, now: string, s: DumpState)
    ensures s.files.Keys <= SequentialSpec(config, types, server, script, now, s).state.files.Keys
  {
    if types != [] {
      var init := types[..|types| - 1];
      var r := SequentialSpec(config, init, server, script, now, s);
      SequentialKeepsFiles(config, init, server, script, now, s);
      RunKeepsFiles(config, types[|types| - 1], server, script, now, r.state);
    }
  }

  /** In the parallel branch the exception that surfaces is the first one any category threw. */
  lemma ParallelRethrowsFirst(
    config: Config, types: seq<Scriptable>, server: Server, script: Scripter, now: string, s: DumpState)
    requires ParallelSchedule(config, types, server, script, now, s).exceptions != []
    ensures ParallelSpec(config, types, server, script, now, s).thrown
         == Some(ParallelSchedule(config, types, server, script, now, s).exceptions[0])
  {
  }

  /**
   * From a state not yet canceled, the serialised parallel branch leaves the
   * same files, flag and counters as the sequential one, and collects
   * exactly the exception the sequential dump throws, if any.
   */
  lemma {:induction false} ParallelMatchesSequential(
    config: Config, types: seq<Scriptable>, server: Server, script: Scripter, now: string, s: DumpState)
    requires !s.canceled
    ensures var p := ParallelSchedule(config, types, server, script, now, s);
      var q := SequentialSpec(config, types, server, script, now, s);
      && p.state == q.state
      && p.exceptions == (if q.thrown.Some? then [q.thrown.value] else [])
      && (q.thrown.None? ==> !q.state.canceled)
  {
    if types != [] {
      var init := types[..|types| - 1];
      ParallelMatchesSequential(config, init, server, script, now, s);
      var q := SequentialSpec(config, init, server, script, now, s);
      if q.thrown.None? {
        var o := RunSpec(config, types[|types| - 1], server, script, now, q.state);
        if o.thrown.None? {
          RunCompleted(config, types[|types| - 1], server, script, now, q.state);
        }
      }
    }
  }

  // ---------------------------------------------------------------------
  // The error report.

  /** The report: a header naming the database and the time, a blank line, then the names in ascending order. */
  function ErrorReport(databaseName: string, now: string, names: seq<string>): (lines: seq<string>)
    ensures |lines| == |names| + 2
    ensures lines[0] == "Objects with errors in " + databaseName + " " + now + ":" && lines[1] == ""
    ensures Ascending(lines[2..]) && multiset(lines[2..]) == multiset(names)
  {
    var sorted := Sort(names);
    assert |sorted| == |multiset(sorted)| == |multiset(names)| == |names|;
    ["Objects with errors in " + databaseName + " " + now + ":", ""] + sorted
  }

  function ErrorReportPath(config: Config): string {
    config.outputDirectory + config.databaseName + "-Errors.TXT"
  }

  // ---------------------------------------------------------------------
  // The methods.

  /** `new DumpDb(config, c, ...).Run()`: one category dumped over the shared counters, token and files. */
  method RunCategory(
    c: Scriptable, config: Config, cancellationToken: CancellationTokenSource,
    queueCounter: Counter.SafeCounter, maxCounter: Counter.SafeCounter, writtenCounter: Counter.SafeCounter,
    fs: FileSystem, server: Server, script: Scripter, now: string)
    returns (thrown: Option<Exception>)
    requires queueCounter != maxCounter && queueCounter != writtenCounter && maxCounter != writtenCounter
    requires queueCounter.Valid() && maxCounter.Valid() && writtenCounter.Valid()
    modifies fs, cancellationToken, queueCounter, maxCounter, writtenCounter
    ensures queueCounter.Valid() && maxCounter.Valid() && writtenCounter.Valid()
    ensures Outcome(StateOf(fs, cancellationToken, queueCounter, maxCounter, writtenCounter), thrown)
         == RunSpec(config, c, server, script, now, old(StateOf(fs, cancellationToken, queueCounter, maxCounter, writtenCounter)))
  {
    var dumper := new DumpDb(config, c, cancellationToken, queueCounter, maxCounter, writtenCounter, fs);
    thrown := dumper.Run(server, script, now);
  }

  /** Once the categories so far threw nothing, one more category extends the outcome by its run. */
  lemma SequentialStep(
    config: Config, types: seq<Scriptable>, server: Server, script: Scripter, now: string, s: DumpState, i: nat)
    requires i < |types|
    requires SequentialSpec(config, types[..i], server, script, now, s).thrown.None?
    ensures SequentialSpec(config, types[..i + 1], server, script, now, s)
         == RunSpec(config, types[i], server, script, now, SequentialSpec(config, types[..i], server, script, now, s).state)
  {
    assert types[..i + 1][..i] == types[..i];
  }

  /** One more category extends the parallel schedule by that category's run, unless it has stopped. */
  lemma ParallelStep(
    config: Config, types: seq<Scriptable>, server: Server, script: Scripter, now: string, s: DumpState, i: nat)
    requires i < |types|
    ensures var r := ParallelSchedule(config, types[..i], server, script, now, s);
      ParallelSchedule(config, types[..i + 1], server, script, now, s)
      == if r.state.canceled || r.exceptions != [] then r
         else
           var o := RunSpec(config, types[i], server, script, now, r.state);
           Schedule(o.state, r.exceptions + if o.thrown.Some? then [o.thrown.value] else [])
  {
    assert types[..i + 1][..i] == types[..i];
  }

  /** One DumpDb per category, in order; stops at the first exception. */
  method SequentialProcess(
    types: seq<Scriptable>, config: Config, cancellationToken: CancellationTokenSource,
    queueCounter: Counter.SafeCounter, maxCounter: Counter.SafeCounter, writtenCounter: Counter.SafeCounter,
    fs: FileSystem, server: Server, script: Scripter, now: string)
    returns (thrown: Option<Exception>)
    requires queueCounter != maxCounter && queueCounter != writtenCounter && maxCounter != writtenCounter
    requires queueCounter.Valid() && maxCounter.Valid() && writtenCounter.Valid()
    modifies fs, cancellationToken, queueCounter, maxCounter, writtenCounter
    ensures queueCounter.Valid() && maxCounter.Valid() && writtenCounter.Valid()
    ensures Outcome(StateOf(fs, cancellationToken, queueCounter, maxCounter, writtenCounter), thrown)
         == SequentialSpec(config, types, server, script, now,
              old(StateOf(fs, cancellationToken, queueCounter, maxCounter, writtenCounter)))
  {
    ghost var s0 := StateOf(fs, cancellationToken, queueCounter, maxCounter, writtenCounter);
    var i := 0;
    while i < |types|
      invariant 0 <= i <= |types|
      invariant queueCounter.Valid() && maxCounter.Valid() && writtenCounter.Valid()
      invariant Outcome(StateOf(fs, cancellationToken, queueCounter, maxCounter, writtenCounter), None)
             == SequentialSpec(config, types[..i], server, script, now, s0)
    {
      ghost var before := StateOf(fs, cancellationToken, queueCounter, maxCounter, writtenCounter);
      SequentialStep(config, types, server, script, now, s0, i);
      assert SequentialSpec(config, types[..i + 1], server, script, now, s0)
          == RunSpec(config, types[i], server, script, now, before);
      thrown := RunCategory(types[i], config, cancellationToken, queueCounter, maxCounter, writtenCounter,
        fs, server, script, now);
      assert Outcome(StateOf(fs, cancellationToken, queueCounter, maxCounter, writtenCounter), thrown)
          == SequentialSpec(config, types[..i + 1], server, script, now, s0);
      if thrown.Some? {
        SequentialSticks(config, types, server, script, now, s0, i + 1);
        return;
      }
      i := i + 1;
    }
    assert types[..i] == types;
    thrown := None;
  }

  /** Once a category throws, the later categories are not run. */
  lemma {:induction false} SequentialSticks(
    config: Config, types: seq<Scriptable>, server: Server, script: Scripter, now: string, s: DumpState, k: nat)
    requires k <= |types|
    requires SequentialSpec(config, types[..k], server, script, now, s).thrown.Some?
    ensures SequentialSpec(config, types, server, script, now, s) == SequentialSpec(config, types[..k], server, script, now, s)
  {
    if k < |types| {
      var init := types[..|types| - 1];
      assert init[..k] == types[..k];
      SequentialSticks(config, init, server, script, now, s, k);
    } else {
      assert types[..k] == types;
    }
  }

  /** The body of Parallel.ForEach, serialised: returns the exceptions the categories threw. */
  method ParallelForEach(
    types: seq<Scriptable>, config: Config, cancellationToken: CancellationTokenSource,
    queueCounter: Counter.SafeCounter, maxCounter: Counter.SafeCounter, writtenCounter: Counter.SafeCounter,
    fs: FileSystem, server: Server, script: Scripter, now: string)
    returns (exceptions: seq<Exception>)
    requires queueCounter != maxCounter && queueCounter != writtenCounter && maxCounter != writtenCounter
    requires queueCounter.Valid() && maxCounter.Valid() && writtenCounter.Valid()
    modifies fs, cancellationToken, queueCounter, maxCounter, writtenCounter
    ensures queueCounter.Valid() && maxCounter.Valid() && writtenCounter.Valid()
    ensures Schedule(StateOf(fs, cancellationToken, queueCounter, maxCounter, writtenCounter), exceptions)
         == ParallelSchedule(config, types, server, script, now,
              old(StateOf(fs, cancellationToken, queueCounter, maxCounter, writtenCounter)))
  {
    ghost var s0 := StateOf(fs, cancellationToken, queueCounter, maxCounter, writtenCounter);
    exceptions := [];
    var i := 0;
    while i < |types|
      invariant 0 <= i <= |types|
      invariant queueCounter.Valid() && maxCounter.Valid() && writtenCounter.Valid()
      invariant Schedule(StateOf(fs, cancellationToken, queueCounter, maxCounter, writtenCounter), exceptions)
             == ParallelSchedule(config, types[..i], server, script, now, s0)
    {
      ParallelStep(config, types, server, script, now, s0, i);
      if !cancellationToken.isCancellationRequested && exceptions == [] {
        var t := RunCategory(types[i], config, cancellationToken, queueCounter, maxCounter, writtenCounter,
          fs, server, script, now);
        if t.Some? {
          exceptions := exceptions + [t.value];
        }
      }
      i := i + 1;
    }
    assert types[..i] == types;
  }

  /** Parallel.ForEach over the categories, then the catch block: display, then rethrow. */
  method ParallelProcess(
    types: seq<Scriptable>, config: Config, cancellationToken: CancellationTokenSource,
    queueCounter: Counter.SafeCounter, maxCounter: Counter.SafeCounter, writtenCounter: Counter.SafeCounter,
    fs: FileSystem, server: Server, script: Scripter, now: string)
    returns (thrown: Option<Exception>, displayed: seq<Exception>)
    requires queueCounter != maxCounter && queueCounter != writtenCounter && maxCounter != writtenCounter
    requires queueCounter.Valid() && maxCounter.Valid() && writtenCounter.Valid()
    modifies fs, cancellationToken, queueCounter, maxCounter, writtenCounter
    ensures queueCounter.Valid() && maxCounter.Valid() && writtenCounter.Valid()
    ensures Outcome(StateOf(fs, cancellationToken, queueCounter, maxCounter, writtenCounter), thrown)
         == ParallelSpec(config, types, server, script, now,
              old(StateOf(fs, cancellationToken, queueCounter, maxCounter, writtenCounter)))
    ensures displayed
         == Significant(ParallelSchedule(config, types, server, script, now,
              old(StateOf(fs, cancellationToken, queueCounter, maxCounter, writtenCounter))).exceptions)
  {
    var exceptions := ParallelForEach(types, config, cancellationToken, queueCounter, maxCounter, writtenCounter,
      fs, server, script, now);
    displayed := [];
    if exceptions != [] {
      var ae := Aggregate(exceptions);
      displayed := DisplayInnerErrors(ae);
      thrown := Some(Rethrown(ae));
    } else if cancellationToken.isCancellationRequested {
      thrown := Some(OperationCanceled);
    } else {
      thrown := None;
    }
  }

  /** The loop over InnerExceptions: the ones worth displaying, in order. */
  method DisplayInnerErrors(ae: Exception) returns (displayed: seq<Exception>)
    requires ae.Aggregate?
    ensures displayed == Significant(ae.inner)
  {
    displayed := [];
    var i := 0;
    while i < |ae.inner|
      invariant 0 <= i <= |ae.inner|
      invariant displayed == Significant(ae.inner[..i])
    {
      assert ae.inner[..i + 1][..i] == ae.inner[..i];
      var e := ae.inner[i];
      if i != 0 && !e.OperationCanceled? {
        displayed := displayed + [e];
      }
      i := i + 1;
    }
    assert ae.inner[..i] == ae.inner;
  }

  /** The report's loop: one WriteLine per name, after the lines already written. */
  method AppendLines(header: seq<string>, names: seq<string>) returns (lines: seq<string>)
    ensures lines == header + names
  {
    lines := header;
    var k := 0;
    while k < |names|
      invariant 0 <= k <= |names|
      invariant lines == header + names[..k]
    {
      assert header + names[..k + 1] == lines + [names[k]];
      lines := lines + [names[k]];
      k := k + 1;
    }
    assert names[..k] == names;
  }

  /** Writes the sorted error report, unless no object caused an error. */
  method WriteAnyErrors(config: Config, errorObjects: seq<string>, now: string, fs: FileSystem)
    modifies fs
    ensures fs.files == if errorObjects == [] then old(fs.files)
      else old(fs.files)[ErrorReportPath(config) := ErrorReport(config.databaseName, now, errorObjects)]
  {
    if errorObjects == [] {
      return;
    }
    var header := ["Objects with errors in " + config.databaseName + " " + now + ":", ""];
    var lines := AppendLines(header, Sort(errorObjects));
    fs.Write(config.outputDirectory + config.databaseName + "-Errors.TXT", lines);
  }

  /** A fresh cancellation token, then the dump one category after another or in parallel. */
  method Process(
    config: Config,
    queueCounter: Counter.SafeCounter, maxCounter: Counter.SafeCounter, writtenCounter: Counter.SafeCounter,
    fs: FileSystem, server: Server, script: Scripter, now: string)
    returns (thrown: Option<Exception>)
    requires queueCounter != maxCounter && queueCounter != writtenCounter && maxCounter != writtenCounter
    requires queueCounter.Valid() && maxCounter.Valid() && writtenCounter.Valid()
    modifies fs, queueCounter, maxCounter, writtenCounter
    ensures queueCounter.Valid() && maxCounter.Valid() && writtenCounter.Valid()
    ensures var r := ProcessSpec(config, server, script, now,
        DumpState(old(fs.files), false, old(queueCounter.total), old(maxCounter.total), old(writtenCounter.total)));
      && thrown == r.thrown
      && r.state == DumpState(fs.files, r.state.canceled, queueCounter.total, maxCounter.total, writtenCounter.total)
  {
    var cancellationToken := new CancellationTokenSource();
    var types := DeclarationOrder;
    if config.singleThread || config.maxParallel == 1 {
      thrown := SequentialProcess(types, config, cancellationToken, queueCounter, maxCounter, writtenCounter,
        fs, server, script, now);
    } else {
      var displayed;
      thrown, displayed := ParallelProcess(types, config, cancellationToken, queueCounter, maxCounter, writtenCounter,
        fs, server, script, now);
    }
  }

  /**
   * Main after the Config is built: the optional flags, the dump, then the
   * error report unless errors are skipped. An exception from the dump ends
   * the program before the report.
   */
  method Execute(
    config: Config, shared: Shared,
    queueCounter: Counter.SafeCounter, maxCounter: Counter.SafeCounter, writtenCounter: Counter.SafeCounter,
    fs: FileSystem, server: Server, script: Scripter, now: string)
    returns (thrown: Option<Exception>)
    requires queueCounter != maxCounter && queueCounter != writtenCounter && maxCounter != writtenCounter
    requires queueCounter.Valid() && maxCounter.Valid() && writtenCounter.Valid()
    modifies shared, fs, queueCounter, maxCounter, writtenCounter
    ensures queueCounter.Valid() && maxCounter.Valid() && writtenCounter.Valid()
    ensures shared.scriptOptionsMinimal
         == old(shared.scriptOptionsMinimal) + (if config.extendedProperties then {ExtendedProperties} else {})
    ensures shared.scriptOptionsNormal
         == old(shared.scriptOptionsNormal) + (if config.extendedProperties then {ExtendedProperties} else {})
                                            + (if config.withDependencies then DependencyFlags else {})
    ensures shared.scriptOptionsFull
         == old(shared.scriptOptionsFull) + (if config.extendedProperties then {ExtendedProperties} else {})
                                          + (if config.withDependencies then DependencyFlags else {})
    ensures shared.errorObjects == old(shared.errorObjects)
    ensures var r := ProcessSpec(config, server, script, now,
        DumpState(old(fs.files), false, old(queueCounter.total), old(maxCounter.total), old(writtenCounter.total)));
      && thrown == r.thrown
      && queueCounter.total == r.state.queue && maxCounter.total == r.state.max
      && writtenCounter.total == r.state.written
      && fs.files == if thrown.None? && !config.skipErrors && shared.errorObjects != []
           then r.state.files[ErrorReportPath(config) := ErrorReport(config.databaseName, now, shared.errorObjects)]
           else r.state.files
  {
    if config.extendedProperties {
      shared.WithExtendedProperties();
    }
    if config.withDependencies {
      shared.WithDependencies();
    }
    thrown := Process(config, queueCounter, maxCounter, writtenCounter, fs, server, script, now);
    if thrown.Some? {
      return;
    }
    if !config.skipErrors {
      WriteAnyErrors(config, shared.errorObjects, now, fs);
    }
  }
}
