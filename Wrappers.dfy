/** Nullable references and thrown exceptions, as values. */
module Wrappers {
  /** A C# nullable reference: None stands for null. */
  datatype Option<+T> = None | Some(value: T)

  /** The outcome of a call that either returns a value or throws. */
  datatype Result<+T, +E> = Ok(value: T) | Err(error: E)
}

/** Facts about sequences that the loops over growing lists use. */
module Sequences {
  /** Concatenation regroups freely: appending a block equals appending its parts in turn. */
  lemma AppendAssociative<T>(a: seq<T>, b: seq<T>, c: seq<T>)
    ensures a + (b + c) == a + b + c
  {
  }
}
