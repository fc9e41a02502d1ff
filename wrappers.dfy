/** Failure-compatible wrappers shared by the whole model, and the Python
    exceptions the modelled code raises or catches. */
module Wrappers {

  datatype Option<+T> = None | Some(value: T) {
    function GetOr(default: T): T {
      match this
      case Some(v) => v
      case None => default
    }
  }

  datatype Result<+R, +E> = Success(value: R) | Failure(error: E)

  /** The exceptions of the modelled code that the model keeps apart:
      a dictionary lookup of an absent key, an index past the end of a
      list, and a string the numeric parse rejects. */
  datatype Exception = KeyError(key: string) | IndexError | ValueError | TypeError
}
