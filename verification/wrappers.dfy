/** Failure-aware wrappers shared by the route-guard model. */
module Wrappers {

  /** A value that may be absent: JavaScript's `undefined`/`null` versus a value. */
  datatype Option<+T> = None | Some(value: T)

  /** The settled state of an awaited store action: resolved with a value, or rejected.
      The rejection reason is opaque: the guard only shows it to the user. */
  datatype Attempt<+T> = Ok(value: T) | Err
}
