/** Option and Result values used where the rules engine returns "nothing" or rejects an action. */
module Wrappers {

  datatype Option<+T> = None | Some(value: T)

  /** The outcome of a transition: a new value, or the reason it was refused. */
  datatype Result<+T, +E> = Ok(value: T) | Err(error: E)
}
