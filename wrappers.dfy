/** Small failure-carrying datatypes used to stand for the outcomes of calls
    into the hosted store and the language model, which are not modelled. */
module Wrappers {

  /** A value that may be missing: JavaScript's `null` / `undefined`. */
  datatype Option<T> = None | Some(value: T)

  /** The outcome of a store read: the rows it returned, or an error. */
  datatype Result<T> = Ok(value: T) | Err

  /** The outcome of a store write that returns no rows: no error, or an error. */
  datatype Outcome = Pass | Fail
}
