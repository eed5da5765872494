/** Small wrapper types shared by the model. */
module Outcomes {

  /** A value that may be absent: Python's `Optional[...]`, or a key missing from a dict. */
  datatype Option<T> = None | Some(value: T) {

    /** The value when present, `default` otherwise. */
    function GetOr(default: T): T
    {
      match this
      case Some(v) => v
      case None => default
    }
  }

  /** What a call into a service outside the model gave back: a value, or an exception
      that the calling node catches. */
  datatype Outcome<T> = Ok(value: T) | Fail
}
