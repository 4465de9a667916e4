/** The option and check-outcome types shared by every component. */
module Wrappers {

  datatype Option<+T> = None | Some(value: T) {

    function GetOr(default: T): T {
      match this
      case Some(v) => v
      case None => default
    }
  }

  /** What a validator answers: it returns, or it throws with a reason. */
  datatype Outcome<+E> = Pass | Fail(error: E)
}
