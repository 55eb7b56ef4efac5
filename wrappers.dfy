/** Option for "key absent / value present", and Attempt for a call that may raise a Python exception. */
module Wrappers {

  datatype Option<+T> = None | Some(value: T) {
    /** Python's `d.get(k, default)` once the key's presence is known. */
    function GetOr(default: T): T {
      match this
      case Some(v) => v
      case None => default
    }
  }

  /** The outcome of a call that either returns a value or raises (the exception's text is not modelled). */
  datatype Attempt<+T> = Ok(value: T) | Raised
}
