/**
 * The .NET runtime objects the dump tool works with: exceptions, the
 * cancellation token source shared by all workers, and the file system.
 */
module Runtime {
  /** The exceptions the modelled code throws or catches. */
  datatype Exception =
    | OperationCanceled             // CancellationToken.ThrowIfCancellationRequested
    | FileAlreadyExists(filename: string)
    | FailedOperation               // SMO's FailedOperationException
    | ScriptingFailure              // any other exception from IScriptable.Script
    | NullReference                 // dereferencing a database that was not found
    | InvalidOperation              // Path.GetDirectoryName returned null
    | Aggregate(inner: seq<Exception>)  // Parallel.ForEach's AggregateException

  /** A CancellationTokenSource: once cancellation is requested it stays requested. */
  class CancellationTokenSource {
    var isCancellationRequested: bool

    constructor ()
      ensures !isCancellationRequested
    {
      isCancellationRequested := false;
    }

    method Cancel()
      modifies this
      ensures isCancellationRequested
    {
      isCancellationRequested := true;
    }
  }

  /** Text files by full path, each as the sequence of strings written to it, one per WriteLine call. */
  class FileSystem {
    var files: map<string, seq<string>>

    constructor (initial: map<string, seq<string>>)
      ensures files == initial
    {
      files := initial;
    }

    /** File.Exists. */
    predicate Exists(path: string)
      reads this
    {
      path in files
    }

    /** Creates or overwrites one file (StreamWriter, File.WriteAllText). */
    method Write(path: string, lines: seq<string>)
      modifies this
      ensures files == old(files)[path := lines]
    {
      files := files[path := lines];
    }
  }
}
