/** The optional-value datatype shared by every module of the model. */
module Wrappers {

  /** Python's `None`-or-value, for a dictionary lookup or a regular-expression group. */
  datatype Option<+T> = None | Some(value: T) {

    /** The value, or `default` when there is none (Python's `d.get(key, default)`). */
    function GetOr(default: T): T {
      match this
      case Some(v) => v
      case None => default
    }
  }
}
