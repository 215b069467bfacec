/** Datatypes shared by the modules of the project. */
module Wrappers {
  datatype Option<+T> = None | Some(value: T)

  datatype Result<+T, +E> = Ok(value: T) | Err(error: E)

  /** How a call of the database or of a remote service ends: it took effect and said so, it failed without
      effect, or it took effect and the caller sees an error. */
  datatype Outcome = Confirmed | Refused | Lost
}
