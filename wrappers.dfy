/** Result shapes shared by the model. */
module Wrappers {

  /** A value that may be absent: a missing dictionary key, or Python's `None`. */
  datatype Option<+T> = None | Some(value: T)

  /** What a call into code outside the model does: it returns a value, or it
      raises an exception other than an HTTP error. */
  datatype Outcome<+T> = Returned(value: T) | Raised(error: string)
}
