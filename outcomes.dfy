/** Failure-carrying return types: a NEAR contract call either completes or
    panics, and a panic reverts everything the call did. */
module Outcomes {

  datatype Option<+T> = None | Some(value: T)

  /** The result of a call that returns a value or panics with an error. */
  datatype Result<+T, +E> = Ok(value: T) | Err(error: E)

  /** The result of a call that returns nothing or panics with an error. */
  datatype Outcome<+E> = Pass | Fail(error: E)
}
