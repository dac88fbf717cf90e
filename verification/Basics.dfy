/** Vocabulary shared by every module: optional values, the errors the runtime
    raises, time, and row identities. */
module Basics {
  datatype Option<+T> = None | Some(value: T)

  /** The exception classes of the runtime. `Missing` is a plain LookupError;
      `NotFound` is the runtime's own subclass of it, caught separately by `claim`. */
  datatype Error = Invalid | Conflict | Forbidden | Missing | NotFound | RateLimited

  datatype Result<+T> = Ok(value: T) | Err(error: Error)

  /** Wall-clock seconds. Nothing below relies on the clock being monotone
      unless a contract says so. */
  type Time = real

  /** A fresh row identity or claim token. `NO_ID` is the empty string of the SQL schema. */
  type Id = nat
  const NO_ID: Id := 0

  /** The ASCII white space `str.split` and `str.strip` recognise: the space, tab to carriage
      return, and the four separators. */
  predicate IsSpace(c: char) { c == ' ' || '\t' <= c <= '\r' || '\U{001C}' <= c <= '\U{001F}' }
}
