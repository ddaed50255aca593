/** The optional-value datatype used across the model. */
module Wrappers {

  /** `None` stands for JavaScript's `null`/`undefined` where a value may be missing. */
  datatype Option<+T> = None | Some(value: T) {

    function GetOr(default: T): (r: T)
      ensures Some? ==> r == value
      ensures None? ==> r == default
    {
      match this
      case Some(v) => v
      case None => default
    }
  }
}
