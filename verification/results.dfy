/** Python exceptions, and the two wrappers the model uses in their place.

    Every call that can raise in the Python program returns a `Result` (or an
    `Outcome` when its return value is ignored) here, so that each `except`
    branch of the program becomes a match on `Err`/`Fail`. */
module Results {

  /** A raised exception: the class name (`type(exc).__name__`), `str(exc)`,
      and the traceback text captured with it. The traceback is opaque; the
      exceptions the model raises itself carry an empty one. */
  datatype Exc = Exc(kind: string, message: string, traceback: string)

  datatype Option<+T> = None | Some(value: T)

  /** A call that either returns a value or raises. */
  datatype Result<+T> = Ok(value: T) | Err(error: Exc)

  /** A call whose return value is ignored (`prepare`, `finalize`). */
  datatype Outcome = Pass | Fail(error: Exc)

  /** An exception raised by the modelled code itself. */
  function Raise(kind: string, message: string): (e: Exc)
    ensures e.kind == kind && e.message == message && e.traceback == ""
  {
    Exc(kind, message, "")
  }
}
