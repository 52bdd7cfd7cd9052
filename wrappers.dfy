/** Small failure-carrying datatypes used to feed backend outcomes into the model. */
module Wrappers {

  /** A value that may be missing (`null` / `undefined` in the source). */
  datatype Option<+T> = None | Some(value: T) {
    function GetOr(default: T): T {
      match this
      case Some(v) => v
      case None => default
    }
  }

  /** The outcome of an awaited backend call that yields a value: it returns one,
      or the awaited promise rejects with an error whose `message` is given. */
  datatype Call<+T> = Returns(value: T) | Throws(error: string)

  /** The outcome of an awaited backend call whose value is not used. */
  datatype Settled = Resolved | Thrown(error: string)

  /** A value, or the error that the source rethrows instead of producing one. */
  datatype Result<+T> = Success(value: T) | Failure(error: string)
}
