/** The optional value used throughout the model for `T | null`, `T | undefined`
    and for results that may be missing (a lookup that finds nothing, a `NaN` parse). */
module Wrappers {

  datatype Option<+T> = None | Some(value: T) {

    /** `value ?? default` */
    function GetOr(default: T): T {
      match this
      case Some(v) => v
      case None => default
    }
  }
}
