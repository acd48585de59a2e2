/** The small wrapper types every page model shares. */
module Common {

  /** A value that may be missing (JavaScript `null`/`undefined`). */
  datatype Option<+T> = None | Some(value: T)

  /** The outcome of an awaited API call: it resolved, or it threw with a message. */
  datatype Outcome = Ok | Failed(message: string)
}
