/** The optional-value datatype shared by the firmware and backend models. */
module Wrappers {

  /** `None` stands for a missing value (Python's `None`, a null pointer). */
  datatype Option<+T> = None | Some(value: T) {

    /** The wrapped value, or `default` when there is none. */
    function GetOr(default: T): T {
      match this
      case Some(v) => v
      case None => default
    }
  }
}
