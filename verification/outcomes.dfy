/** Failure-carrying values, and the two exceptions of the riichi decision this model represents. */
module Outcomes {

  /** A value that may be absent (Python's `None`). */
  datatype Option<+T> = None | Some(value: T) {

    /** The value, or `default` when absent. */
    function GetOr(default: T): (r: T)
      ensures Some? ==> r == value
      ensures None? ==> r == default
    {
      match this
      case Some(v) => v
      case None => default
    }
  }

  /** The two exceptions of the decision this model represents (an empty divider result is not one of them). */
  datatype Fault =
    | DiscardNotInHand  // `list.remove` of a tile the hand does not hold (ValueError)
    | CostMissing       // the cost of an error-free hand value is `None` and gets subscripted (TypeError)

  /** A decision that either returns a value or raises a `Fault`. */
  datatype Result<+T> = Ok(value: T) | Err(fault: Fault)
}
