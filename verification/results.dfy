/** Failure-compatible wrappers shared by the build-script model. */
module Results {

  /** A value that may be absent; `None` stands for a C# `null` reference. */
  datatype Option<+T> = None | Some(value: T)

  /** The outcome of a step that either yields a value or throws. */
  datatype Result<+R, +E> = Success(value: R) | Failure(error: E)
}
