/** Failure-carrying wrappers and the browser's file handle, shared by the modules of the model. */
module Common {

  /** A value that may be absent (`None`, `null`, `undefined` in the source). */
  datatype Option<+T> = None | Some(value: T)

  /** The outcome of an operation that may raise or reject. */
  datatype Result<+T, +E> = Ok(value: T) | Err(error: E)

  /** A browser `File` as the front-ends read it: its name and its size in bytes. */
  datatype FileInfo = FileInfo(name: string, size: nat)
}
