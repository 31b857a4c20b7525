/** Option and Result values for the absent JavaScript values and the thrown errors of the model. */
module Wrappers {

  datatype Option<+T> = None | Some(value: T) {
    function GetOr(default: T): T {
      match this
      case Some(v) => v
      case None => default
    }
  }

  /** `Failure` carries the `message` of the `Error` that the JavaScript code throws. */
  datatype Result<+T> = Success(value: T) | Failure(error: string)
}
