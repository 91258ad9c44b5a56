/** Option and Result: how the model spells Python's `None` and its exceptions. */
module Wrappers {

  datatype Option<+T> = None | Some(value: T) {

    function GetOr(default: T): T {
      match this
      case Some(v) => v
      case None => default
    }
  }

  /** Success carries a value; Failure carries the message an exception would carry. */
  datatype Result<+R> = Success(value: R) | Failure(error: string)
}
